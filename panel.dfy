/**
 * The display window's observable state as a value, and each of its state
 * transitions as a function on that value. The class in module LookDevWindow
 * is proved to move between exactly these states; the lemmas here state what
 * the transitions guarantee, alone and in sequence.
 */
module Panel {
  import opened LookDevTypes

  /** What the window and the persisted context hold at one moment. */
  datatype Window = Window(
    main: Option<set<string>>,  // class list of the main container; None while it is null
    view: Option<set<string>>,  // class list of the view container; None while it is null
    layout: Layout,             // persisted layout of the current context
    showEnv: bool,              // persisted environment-panel flag of the current context
    layoutEvents: seq<Layout>,  // payloads of the layout-changed notifications fired so far
    closedEvents: nat)          // number of window-closed notifications fired so far

  datatype Option<T> = None | Some(value: T)

  /** The state after an operation, and how the operation completed. */
  datatype Step = Step(next: Window, outcome: Outcome)

  // ---------------------------------------------------------------------
  // The layout setter
  // ---------------------------------------------------------------------

  /** The view-count swap of the layout setter: towards `twoViews` for a
      split, towards `oneView` otherwise, and only when the opposite class is
      there to be replaced. */
  function SwapViewCount(classes: set<string>, value: Layout): (r: set<string>)
    ensures IsTwoView(value) && OneViewClass in classes ==> TwoViewsClass in r && OneViewClass !in r
    ensures !IsTwoView(value) && TwoViewsClass in classes ==> OneViewClass in r && TwoViewsClass !in r
    ensures OneViewClass !in classes && TwoViewsClass !in classes ==> r == classes
    ensures forall c :: c != OneViewClass && c != TwoViewsClass ==> (c in r <==> c in classes)
    ensures (OneViewClass in classes) != (TwoViewsClass in classes) ==>
              (OneViewClass in r) != (TwoViewsClass in r) && (TwoViewsClass in r <==> IsTwoView(value))
  {
    if IsTwoView(value) then
      if OneViewClass in classes then classes - {OneViewClass} + {TwoViewsClass} else classes
    else
      if TwoViewsClass in classes then classes - {TwoViewsClass} + {OneViewClass} else classes
  }

  /** The layout-name swap of the layout setter: the class named after the
      current layout goes, the class named after the new one comes. */
  function SwapLayoutName(classes: set<string>, current: Layout, value: Layout): (r: set<string>)
    requires current != value
    ensures Name(value) in r && Name(current) !in r
    ensures forall c :: c != Name(current) && c != Name(value) ==> (c in r <==> c in classes)
  {
    classes - {Name(current)} + {Name(value)}
  }

  /** Setting the layout: nothing happens for the current value; otherwise
      the view container's classes follow the new layout, the context stores
      it and one notification carrying it is fired. A null view container
      throws before anything changes. */
  function SetLayout(w: Window, value: Layout): (r: Step)
    ensures value == w.layout ==> r == Step(w, Pass)
    ensures value != w.layout && w.view.None? ==> r == Step(w, Fail(NullReference))
    ensures value != w.layout && w.view.Some? ==>
              && r.outcome == Pass
              && r.next.layout == value
              && r.next.layoutEvents == w.layoutEvents + [value]
              && r.next.main == w.main
              && r.next.showEnv == w.showEnv
              && r.next.closedEvents == w.closedEvents
              && r.next.view.Some?
              && Name(value) in r.next.view.value
              && Name(w.layout) !in r.next.view.value
              && (IsTwoView(value) && OneViewClass in w.view.value ==>
                    TwoViewsClass in r.next.view.value && OneViewClass !in r.next.view.value)
              && (!IsTwoView(value) && TwoViewsClass in w.view.value ==>
                    OneViewClass in r.next.view.value && TwoViewsClass !in r.next.view.value)
              && ((OneViewClass in w.view.value) != (TwoViewsClass in w.view.value) ==>
                    (OneViewClass in r.next.view.value) != (TwoViewsClass in r.next.view.value)
                    && (TwoViewsClass in r.next.view.value <==> IsTwoView(value)))
              && (forall c :: c != OneViewClass && c != TwoViewsClass && c != Name(w.layout) && c != Name(value) ==>
                    (c in r.next.view.value <==> c in w.view.value))
  {
    if value == w.layout then Step(w, Pass)
    else if w.view.None? then Step(w, Fail(NullReference))
    else
      var classes := SwapLayoutName(SwapViewCount(w.view.value, value), w.layout, value);
      Step(w.(view := Some(classes), layout := value, layoutEvents := w.layoutEvents + [value]), Pass)
  }

  // ---------------------------------------------------------------------
  // The environment-panel setter
  // ---------------------------------------------------------------------

  /** Setting the environment-panel flag: nothing happens for the current
      value; otherwise the main container holds `showEnvironmentPanel` exactly
      when the flag is set, and the context stores the flag. No notification
      is fired. A null main container throws before anything changes. */
  function SetEnvironmentPanel(w: Window, value: bool): (r: Step)
    ensures value == w.showEnv ==> r == Step(w, Pass)
    ensures value != w.showEnv && w.main.None? ==> r == Step(w, Fail(NullReference))
    ensures value != w.showEnv && w.main.Some? ==>
              && r.outcome == Pass
              && r.next.showEnv == value
              && r.next.main.Some?
              && (ShowEnvironmentPanelClass in r.next.main.value <==> value)
              && (forall c :: c != ShowEnvironmentPanelClass ==> (c in r.next.main.value <==> c in w.main.value))
    ensures r.next.view == w.view && r.next.layout == w.layout
    ensures r.next.layoutEvents == w.layoutEvents && r.next.closedEvents == w.closedEvents
  {
    if value == w.showEnv then Step(w, Pass)
    else if w.main.None? then Step(w, Fail(NullReference))
    else
      var classes := if value then w.main.value + {ShowEnvironmentPanelClass}
                     else w.main.value - {ShowEnvironmentPanelClass};
      Step(w.(main := Some(classes), showEnv := value), Pass)
  }

  // ---------------------------------------------------------------------
  // Construction and teardown
  // ---------------------------------------------------------------------

  /** Building the views: fails unless the main container exists; otherwise a
      new view container carries the view-count class chosen by the context's
      multi-view answer and the shared `container` class, and no layout-name
      class. */
  function CreateViews(w: Window, isMultiView: bool): (r: Step)
    ensures w.main.None? <==> r.outcome.Fail?
    ensures w.main.None? ==> r == Step(w, Fail(MemberAccess(CreateViewsMessage)))
    ensures w.main.Some? ==>
              && r.next.view.Some?
              && (TwoViewsClass in r.next.view.value <==> isMultiView)
              && (OneViewClass in r.next.view.value <==> !isMultiView)
              && SharedContainerClass in r.next.view.value
              && (forall l :: Name(l) !in r.next.view.value)
              && r.next == w.(view := r.next.view)
  {
    if w.main.None? then Step(w, Fail(MemberAccess(CreateViewsMessage)))
    else
      var count := if isMultiView then TwoViewsClass else OneViewClass;
      Step(w.(view := Some({count, SharedContainerClass})), Pass)
  }

  /** Building the environment panel: fails unless the main container exists;
      otherwise `showEnvironmentPanel` is added when the persisted flag is set
      (and nothing is removed when it is not). */
  function CreateEnvironment(w: Window): (r: Step)
    ensures w.main.None? <==> r.outcome.Fail?
    ensures w.main.None? ==> r == Step(w, Fail(MemberAccess(CreateEnvironmentMessage)))
    ensures w.main.Some? ==>
              && r.next.main.Some?
              && (w.showEnv ==> ShowEnvironmentPanelClass in r.next.main.value)
              && (!w.showEnv ==> r.next.main == w.main)
              && (forall c :: c != ShowEnvironmentPanelClass ==> (c in r.next.main.value <==> c in w.main.value))
              && r.next == w.(main := r.next.main)
  {
    if w.main.None? then Step(w, Fail(MemberAccess(CreateEnvironmentMessage)))
    else if w.showEnv then Step(w.(main := Some(w.main.value + {ShowEnvironmentPanelClass})), Pass)
    else Step(w, Pass)
  }

  /** Opening the window: a fresh main container with the shared class, then
      the views, then the environment panel. Neither step can fail here, and
      the class lists come from the persisted state alone. */
  function Enable(w: Window, isMultiView: bool): (r: Step)
    ensures r.outcome == Pass
    ensures r.next.main.Some? && r.next.view.Some?
    ensures r.next.main.value == if w.showEnv then {SharedContainerClass, ShowEnvironmentPanelClass}
                                 else {SharedContainerClass}
    ensures r.next.view.value == {if isMultiView then TwoViewsClass else OneViewClass, SharedContainerClass}
    ensures r.next.layout == w.layout && r.next.showEnv == w.showEnv
    ensures r.next.layoutEvents == w.layoutEvents && r.next.closedEvents == w.closedEvents
  {
    var started := w.(main := Some({SharedContainerClass}));
    var views := CreateViews(started, isMultiView);
    var env := CreateEnvironment(views.next);
    Step(env.next, if views.outcome.Fail? then views.outcome else env.outcome)
  }

  /** Closing the window fires the window-closed notification once and
      changes nothing else. */
  function Disable(w: Window): (r: Window)
    ensures r.closedEvents == w.closedEvents + 1
    ensures r.(closedEvents := w.closedEvents) == w
  {
    w.(closedEvents := w.closedEvents + 1)
  }

  // ---------------------------------------------------------------------
  // Invariants
  // ---------------------------------------------------------------------

  /** The class lists of an opened window agree with the persisted state:
      exactly one view-count class, no layout-name class other than the
      current layout's, both containers carry `container`, and the
      environment-panel class is present exactly when the flag is set. */
  predicate Synced(w: Window) {
    && w.main.Some? && w.view.Some?
    && (OneViewClass in w.view.value) != (TwoViewsClass in w.view.value)
    && (forall l :: l != w.layout ==> Name(l) !in w.view.value)
    && SharedContainerClass in w.view.value
    && SharedContainerClass in w.main.value
    && (ShowEnvironmentPanelClass in w.main.value <==> w.showEnv)
  }

  /** The view-count class matches the persisted layout. */
  predicate CountMatches(w: Window)
    requires w.view.Some?
  {
    TwoViewsClass in w.view.value <==> IsTwoView(w.layout)
  }

  /** Synced, and the view container also names the current layout and has
      the view-count class that layout calls for: the state the setter
      leaves behind after a change. */
  predicate Settled(w: Window) {
    Synced(w) && CountMatches(w) && Name(w.layout) in w.view.value
  }

  /** Opening the window syncs its class lists with the persisted state; the
      view count matches the layout when the context's multi-view answer
      agrees with the setter's test. No layout-name class is present. */
  lemma EnableSyncs(w: Window, isMultiView: bool)
    ensures Synced(Enable(w, isMultiView).next)
    ensures forall l :: Name(l) !in Enable(w, isMultiView).next.view.value
    ensures isMultiView == IsTwoView(w.layout) ==> CountMatches(Enable(w, isMultiView).next)
  {
  }

  /** Setting the layout keeps an opened window synced; a change settles it. */
  lemma SetLayoutKeepsSynced(w: Window, value: Layout)
    requires Synced(w)
    ensures SetLayout(w, value).outcome == Pass
    ensures Synced(SetLayout(w, value).next)
    ensures value != w.layout ==> Settled(SetLayout(w, value).next)
  {
  }

  /** Once settled, a window stays settled under every layout change. */
  lemma SetLayoutKeepsSettled(w: Window, value: Layout)
    requires Settled(w)
    ensures Settled(SetLayout(w, value).next)
  {
    SetLayoutKeepsSynced(w, value);
  }

  /** Setting the environment-panel flag keeps an opened window synced and
      settled, and the main container mirrors the new flag. */
  lemma SetEnvironmentPanelKeepsSynced(w: Window, value: bool)
    requires Synced(w)
    ensures SetEnvironmentPanel(w, value).outcome == Pass
    ensures Synced(SetEnvironmentPanel(w, value).next)
    ensures Settled(w) ==> Settled(SetEnvironmentPanel(w, value).next)
    ensures ShowEnvironmentPanelClass in SetEnvironmentPanel(w, value).next.main.value <==> value
  {
  }

  /** Closing the window disturbs no class and no persisted field. */
  lemma DisableKeepsSettled(w: Window)
    ensures Synced(w) ==> Synced(Disable(w))
    ensures Settled(w) ==> Settled(Disable(w))
  {
  }

  // ---------------------------------------------------------------------
  // Idempotence
  // ---------------------------------------------------------------------

  /** Setting the same layout twice is the same as setting it once, and the
      second call fires nothing. */
  lemma SetLayoutIdempotent(w: Window, value: Layout)
    ensures SetLayout(SetLayout(w, value).next, value).next == SetLayout(w, value).next
    ensures SetLayout(w, value).outcome == Pass ==> SetLayout(SetLayout(w, value).next, value) == Step(SetLayout(w, value).next, Pass)
  {
  }

  /** Setting the same environment-panel flag twice is the same as setting
      it once. */
  lemma SetEnvironmentPanelIdempotent(w: Window, value: bool)
    ensures SetEnvironmentPanel(SetEnvironmentPanel(w, value).next, value).next == SetEnvironmentPanel(w, value).next
  {
  }

  // ---------------------------------------------------------------------
  // Sequences of layout changes
  // ---------------------------------------------------------------------

  /** The state after the toolbar sets each layout of `ls` in turn. */
  function SetLayouts(w: Window, ls: seq<Layout>): Window
    decreases |ls|
  {
    if ls == [] then w else SetLayouts(SetLayout(w, ls[0]).next, ls[1..])
  }

  /** The notifications a sequence of layout requests should fire, starting
      from `current`: every request that differs from the layout in force at
      that moment, in order. */
  function Changes(current: Layout, ls: seq<Layout>): (r: seq<Layout>)
    ensures |r| <= |ls|
    decreases |ls|
  {
    if ls == [] then []
    else if ls[0] == current then Changes(current, ls[1..])
    else [ls[0]] + Changes(ls[0], ls[1..])
  }

  /** Over any sequence of layout requests on an opened window: it stays
      synced, once any change happened it is settled, and the main container
      and the environment-panel flag are untouched. */
  lemma {:induction false} SetLayoutsKeepsSynced(w: Window, ls: seq<Layout>)
    requires Synced(w)
    ensures Synced(SetLayouts(w, ls))
    ensures Changes(w.layout, ls) != [] ==> Settled(SetLayouts(w, ls))
    ensures Settled(w) ==> Settled(SetLayouts(w, ls))
    ensures SetLayouts(w, ls).main == w.main && SetLayouts(w, ls).showEnv == w.showEnv
    decreases |ls|
  {
    if ls != [] {
      var w' := SetLayout(w, ls[0]).next;
      SetLayoutKeepsSynced(w, ls[0]);
      SetLayoutsKeepsSynced(w', ls[1..]);
      assert SetLayouts(w, ls) == SetLayouts(w', ls[1..]);
      if ls[0] != w.layout && Changes(w'.layout, ls[1..]) == [] {
        SettledStaysSettled(w', ls[1..]);
      }
    }
  }

  /** Over any sequence of layout requests on an opened window, exactly the
      requests that differ from the layout in force are notified, in order,
      and the last request is the persisted layout. */
  lemma {:induction false} SetLayoutsNotifiesChanges(w: Window, ls: seq<Layout>)
    requires Synced(w)
    ensures SetLayouts(w, ls).layoutEvents == w.layoutEvents + Changes(w.layout, ls)
    ensures ls != [] ==> SetLayouts(w, ls).layout == ls[|ls| - 1]
    decreases |ls|
  {
    if ls != [] {
      var w' := SetLayout(w, ls[0]).next;
      SetLayoutKeepsSynced(w, ls[0]);
      SetLayoutsNotifiesChanges(w', ls[1..]);
      assert SetLayouts(w, ls) == SetLayouts(w', ls[1..]);
      if ls[0] == w.layout {
        assert w' == w;
      } else {
        assert w'.layoutEvents == w.layoutEvents + [ls[0]];
        assert Changes(w.layout, ls) == [ls[0]] + Changes(ls[0], ls[1..]);
        assert w.layoutEvents + [ls[0]] + Changes(ls[0], ls[1..]) == w.layoutEvents + ([ls[0]] + Changes(ls[0], ls[1..]));
      }
      if |ls| > 1 {
        assert ls[1..][|ls[1..]| - 1] == ls[|ls| - 1];
      }
    }
  }

  /** A settled window stays settled over any sequence of layout requests. */
  lemma {:induction false} SettledStaysSettled(w: Window, ls: seq<Layout>)
    requires Settled(w)
    ensures Settled(SetLayouts(w, ls))
    decreases |ls|
  {
    if ls != [] {
      SetLayoutKeepsSettled(w, ls[0]);
      SettledStaysSettled(SetLayout(w, ls[0]).next, ls[1..]);
    }
  }

  /** Requesting the same layout twice in a row fires one notification at
      most: none if it is already in force, one otherwise. */
  lemma RepeatedLayoutFiresOnce(w: Window, value: Layout)
    requires Synced(w)
    ensures SetLayouts(w, [value, value]).layoutEvents ==
              w.layoutEvents + (if value == w.layout then [] else [value])
  {
    SetLayoutsNotifiesChanges(w, [value, value]);
  }

  /** A worked run: from a single-view window, vertical split, single first,
      horizontal split fire three notifications carrying those layouts, and
      the view container passes through the states each layout calls for. */
  lemma SplitSingleSplitRun(w: Window)
    requires w.view == Some({OneViewClass, SharedContainerClass}) && w.layout == SingleSecond
    requires w.layoutEvents == []
    ensures SetLayouts(w, [VerticalSplit]).view ==
              Some({TwoViewsClass, SharedContainerClass, Name(VerticalSplit)})
    ensures SetLayouts(w, [VerticalSplit, SingleFirst]).view ==
              Some({OneViewClass, SharedContainerClass, Name(SingleFirst)})
    ensures SetLayouts(w, [VerticalSplit, SingleFirst, HorizontalSplit]).layoutEvents ==
              [VerticalSplit, SingleFirst, HorizontalSplit]
    ensures SetLayouts(w, [VerticalSplit, SingleFirst, HorizontalSplit]).view ==
              Some({TwoViewsClass, SharedContainerClass, Name(HorizontalSplit)})
  {
    var w1 := SetLayout(w, VerticalSplit).next;
    assert SwapViewCount(w.view.value, VerticalSplit) == {TwoViewsClass, SharedContainerClass};
    assert {TwoViewsClass, SharedContainerClass} - {Name(SingleSecond)} == {TwoViewsClass, SharedContainerClass};
    assert {TwoViewsClass, SharedContainerClass} + {Name(VerticalSplit)} == {TwoViewsClass, SharedContainerClass, Name(VerticalSplit)};
    assert w1.view == Some({TwoViewsClass, SharedContainerClass, Name(VerticalSplit)});
    var w2 := SetLayout(w1, SingleFirst).next;
    assert SwapViewCount(w1.view.value, SingleFirst) == {OneViewClass, SharedContainerClass, Name(VerticalSplit)};
    assert {OneViewClass, SharedContainerClass, Name(VerticalSplit)} - {Name(VerticalSplit)} == {OneViewClass, SharedContainerClass};
    assert {OneViewClass, SharedContainerClass} + {Name(SingleFirst)} == {OneViewClass, SharedContainerClass, Name(SingleFirst)};
    assert w2.view == Some({OneViewClass, SharedContainerClass, Name(SingleFirst)});
    var w3 := SetLayout(w2, HorizontalSplit).next;
    assert SwapViewCount(w2.view.value, HorizontalSplit) == {TwoViewsClass, SharedContainerClass, Name(SingleFirst)};
    assert {TwoViewsClass, SharedContainerClass, Name(SingleFirst)} - {Name(SingleFirst)} == {TwoViewsClass, SharedContainerClass};
    assert {TwoViewsClass, SharedContainerClass} + {Name(HorizontalSplit)} == {TwoViewsClass, SharedContainerClass, Name(HorizontalSplit)};
    assert w3.view == Some({TwoViewsClass, SharedContainerClass, Name(HorizontalSplit)});
    assert SetLayouts(w, [VerticalSplit, SingleFirst, HorizontalSplit]) == SetLayouts(w1, [SingleFirst, HorizontalSplit]);
    assert SetLayouts(w1, [SingleFirst, HorizontalSplit]) == SetLayouts(w2, [HorizontalSplit]);
    assert SetLayouts(w, [VerticalSplit]) == SetLayouts(w1, []);
    assert SetLayouts(w, [VerticalSplit, SingleFirst]) == SetLayouts(w1, [SingleFirst]);
    assert SetLayouts(w1, [SingleFirst]) == SetLayouts(w2, []);
  }

  /** Reopening with a persisted horizontal split and a visible environment
      panel restores `twoViews` and `showEnvironmentPanel` without a layout
      request, but not the horizontal split's own class. */
  lemma ReopenRestoresCountOnly(w: Window)
    requires w.layout == HorizontalSplit && w.showEnv
    ensures Enable(w, true).next.view == Some({TwoViewsClass, SharedContainerClass})
    ensures Enable(w, true).next.main == Some({SharedContainerClass, ShowEnvironmentPanelClass})
    ensures Name(HorizontalSplit) !in Enable(w, true).next.view.value
  {
  }
}

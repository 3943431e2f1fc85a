/**
 * The LookDev display window as the editor runs it: objects whose fields are
 * updated in place. The persisted context outlives the window; the window
 * owns two containers whose class lists drive the stylesheet, and two image
 * surfaces the renderer draws into. Every method is proved to move the
 * window's observable state (`Model()`) exactly as the matching transition
 * of module Panel does, so the lemmas proved there hold of the window.
 */
module LookDevWindow {
  import opened LookDevTypes
  import Panel

  /** The layout settings of the LookDev context that is current for the
      editor session. The window reads and writes them but does not own them. */
  class LayoutContext {
    var viewLayout: Layout
    var showEnvironmentPanel: bool
    /** The context's own answer to "does this layout show two views"; it is
        defined outside the window, so any answer is allowed here. */
    const multiView: Layout -> bool

    constructor (viewLayout: Layout, showEnvironmentPanel: bool, multiView: Layout -> bool)
      ensures this.viewLayout == viewLayout && this.showEnvironmentPanel == showEnvironmentPanel
      ensures this.multiView == multiView
    {
      this.viewLayout := viewLayout;
      this.showEnvironmentPanel := showEnvironmentPanel;
      this.multiView := multiView;
    }

    predicate IsMultiView()
      reads this
    {
      multiView(viewLayout)
    }
  }

  /** A toolkit element, reduced to the set of style classes it carries. */
  class VisualElement {
    var classes: set<string>

    constructor ()
      ensures classes == {}
    {
      classes := {};
    }

    predicate ClassListContains(c: string)
      reads this
    {
      c in classes
    }

    method AddToClassList(c: string)
      modifies this
      ensures classes == old(classes) + {c}
    {
      classes := classes + {c};
    }

    method RemoveFromClassList(c: string)
      modifies this
      ensures classes == old(classes) - {c}
    {
      classes := classes - {c};
    }
  }

  /** A display surface: the texture it shows and the rectangle the layout
      engine gave it. */
  class Image {
    var image: Texture
    var contentRect: Rect

    constructor (image: Texture)
      ensures this.image == image
    {
      this.image := image;
      contentRect := Rect(0, 0, 0, 0);
    }
  }

  class DisplayWindow {
    const context: LayoutContext
    var mainContainer: VisualElement?
    var viewContainer: VisualElement?
    var environmentContainer: VisualElement?
    /** The two display surfaces, addressed by `Slot`. */
    const views: array<Image?>
    /** Payloads of the layout-changed notifications fired so far. */
    var layoutEvents: seq<Layout>
    /** Number of window-closed notifications fired so far. */
    var closedEvents: nat

    /** The containers are distinct objects and so are the two surfaces. */
    ghost predicate Valid()
      reads this, views
    {
      && views.Length == 2
      && (mainContainer != null ==> mainContainer != viewContainer)
      && (views[0] != null ==> views[0] != views[1])
    }

    /** The window's observable state as a value. */
    ghost function Model(): Panel.Window
      reads this, context, mainContainer, viewContainer
    {
      Panel.Window(
        if mainContainer == null then Panel.None else Panel.Some(mainContainer.classes),
        if viewContainer == null then Panel.None else Panel.Some(viewContainer.classes),
        context.viewLayout,
        context.showEnvironmentPanel,
        layoutEvents,
        closedEvents)
    }

    /** A new window: no containers yet, two empty surface slots, nothing
        fired. */
    constructor (context: LayoutContext)
      ensures Valid() && this.context == context
      ensures fresh(views) && views[0] == null && views[1] == null
      ensures environmentContainer == null
      ensures Model() == Panel.Window(Panel.None, Panel.None, context.viewLayout,
                                      context.showEnvironmentPanel, [], 0)
    {
      this.context := context;
      mainContainer := null;
      viewContainer := null;
      environmentContainer := null;
      views := new Image?[2](_ => null);
      layoutEvents := [];
      closedEvents := 0;
    }

    /** The `layout` setter. */
    method SetLayout(value: Layout) returns (outcome: Outcome)
      requires Valid()
      modifies this`layoutEvents, context`viewLayout, viewContainer
      ensures Valid()
      ensures Model() == Panel.SetLayout(old(Model()), value).next
      ensures outcome == Panel.SetLayout(old(Model()), value).outcome
    {
      if context.viewLayout != value {
        if viewContainer == null {
          return Fail(NullReference);
        }
        SwapViewCount(viewContainer, value);
        SwapLayoutName(viewContainer, context.viewLayout, value);
        context.viewLayout := value;
        layoutEvents := layoutEvents + [value];
      }
      outcome := Pass;
    }

    /** The view-count half of the layout setter. */
    static method SwapViewCount(container: VisualElement, value: Layout)
      modifies container
      ensures container.classes == Panel.SwapViewCount(old(container.classes), value)
    {
      if IsTwoView(value) {
        if container.ClassListContains(OneViewClass) {
          container.RemoveFromClassList(OneViewClass);
          container.AddToClassList(TwoViewsClass);
        }
      } else {
        if container.ClassListContains(TwoViewsClass) {
          container.RemoveFromClassList(TwoViewsClass);
          container.AddToClassList(OneViewClass);
        }
      }
    }

    /** The layout-name half of the layout setter. */
    static method SwapLayoutName(container: VisualElement, current: Layout, value: Layout)
      requires current != value
      modifies container
      ensures container.classes == Panel.SwapLayoutName(old(container.classes), current, value)
    {
      if container.ClassListContains(Name(current)) {
        container.RemoveFromClassList(Name(current));
      }
      container.AddToClassList(Name(value));
    }

    /** The `showEnvironmentPanel` setter. */
    method SetEnvironmentPanel(value: bool) returns (outcome: Outcome)
      requires Valid()
      modifies context`showEnvironmentPanel, mainContainer
      ensures Valid()
      ensures Model() == Panel.SetEnvironmentPanel(old(Model()), value).next
      ensures outcome == Panel.SetEnvironmentPanel(old(Model()), value).outcome
    {
      if context.showEnvironmentPanel != value {
        if mainContainer == null {
          return Fail(NullReference);
        }
        ShowEnvironmentClass(mainContainer, value);
        context.showEnvironmentPanel := value;
      }
      outcome := Pass;
    }

    /** The class-list half of the environment-panel setter: the main
        container carries `showEnvironmentPanel` exactly when `value` is set. */
    static method ShowEnvironmentClass(container: VisualElement, value: bool)
      modifies container
      ensures container.classes == if value then old(container.classes) + {ShowEnvironmentPanelClass}
                                   else old(container.classes) - {ShowEnvironmentPanelClass}
    {
      if value {
        if !container.ClassListContains(ShowEnvironmentPanelClass) {
          container.AddToClassList(ShowEnvironmentPanelClass);
        }
      } else {
        if container.ClassListContains(ShowEnvironmentPanelClass) {
          container.RemoveFromClassList(ShowEnvironmentPanelClass);
        }
      }
    }

    /** Builds the view container and the two surfaces, both showing the
        black texture. */
    method CreateViews() returns (outcome: Outcome)
      requires Valid()
      modifies this`viewContainer, views
      ensures Valid()
      ensures Model() == Panel.CreateViews(old(Model()), old(context.IsMultiView())).next
      ensures outcome == Panel.CreateViews(old(Model()), old(context.IsMultiView())).outcome
      ensures outcome.Fail? ==> viewContainer == old(viewContainer) && views[..] == old(views[..])
      ensures outcome.Pass? ==>
                && fresh(viewContainer)
                && views[0] != null && fresh(views[0]) && views[0].image == BlackTexture
                && views[1] != null && fresh(views[1]) && views[1].image == BlackTexture
    {
      if mainContainer == null {
        return Fail(MemberAccess(CreateViewsMessage));
      }
      var container := new VisualElement();
      var count := if context.IsMultiView() then TwoViewsClass else OneViewClass;
      container.AddToClassList(count);
      container.AddToClassList(SharedContainerClass);
      assert container.classes == {count, SharedContainerClass};
      viewContainer := container;
      var first := new Image(BlackTexture);
      views[Slot(FirstOrFull)] := first;
      var second := new Image(BlackTexture);
      views[Slot(Second)] := second;
      outcome := Pass;
    }

    /** Builds the environment container and shows the environment panel if
        the persisted flag asks for it. */
    method CreateEnvironment() returns (outcome: Outcome)
      requires Valid()
      modifies this`environmentContainer, mainContainer
      ensures Valid()
      ensures Model() == Panel.CreateEnvironment(old(Model())).next
      ensures outcome == Panel.CreateEnvironment(old(Model())).outcome
      ensures outcome.Fail? ==> environmentContainer == old(environmentContainer)
      ensures outcome.Pass? ==> fresh(environmentContainer)
    {
      if mainContainer == null {
        return Fail(MemberAccess(CreateEnvironmentMessage));
      }
      environmentContainer := new VisualElement();
      if context.showEnvironmentPanel {
        mainContainer.AddToClassList(ShowEnvironmentPanelClass);
      }
      outcome := Pass;
    }

    /** Opening the window: the main container, then the views, then the
        environment panel. */
    method Enable() returns (outcome: Outcome)
      requires Valid()
      modifies this`mainContainer, this`viewContainer, this`environmentContainer, views
      ensures Valid()
      ensures Model() == Panel.Enable(old(Model()), old(context.IsMultiView())).next
      ensures outcome == Pass
      ensures fresh(mainContainer) && fresh(viewContainer) && fresh(environmentContainer)
      ensures views[0] != null && views[1] != null && fresh(views[0]) && fresh(views[1])
      ensures views[0].image == BlackTexture && views[1].image == BlackTexture
    {
      var main := new VisualElement();
      main.AddToClassList(SharedContainerClass);
      assert main.classes == {SharedContainerClass};
      mainContainer := main;
      assert Model() == old(Model()).(main := Panel.Some({SharedContainerClass}));
      outcome := CreateViews();
      if outcome.Fail? {
        return;
      }
      outcome := CreateEnvironment();
    }

    /** Closing the window fires the window-closed notification. */
    method Disable()
      modifies this`closedEvents
      ensures Model() == Panel.Disable(old(Model()))
    {
      closedEvents := closedEvents + 1;
    }

    /** The rectangle of the addressed surface; throws while the surfaces are
        not built. */
    method GetRect(index: ViewIndex) returns (r: Result<Rect>)
      requires Valid()
      ensures views[Slot(index)] == null ==> r == Failure(NullReference)
      ensures views[Slot(index)] != null ==> r == Success(views[Slot(index)].contentRect)
    {
      var view := views[Slot(index)];
      if view == null {
        return Failure(NullReference);
      }
      r := Success(view.contentRect);
    }

    /** Shows `texture` on the addressed surface and on no other. */
    method SetTexture(index: ViewIndex, texture: Texture) returns (outcome: Outcome)
      requires Valid()
      modifies views[Slot(index)]
      ensures Valid()
      ensures outcome.Fail? <==> views[Slot(index)] == null
      ensures outcome.Fail? ==> outcome == Fail(NullReference)
      ensures outcome.Pass? ==> views[Slot(index)].image == texture
      ensures views[Slot(index)] != null ==> views[Slot(index)].contentRect == old(views[Slot(index)].contentRect)
      ensures views[OtherSlot(index)] != null ==>
                && views[OtherSlot(index)].image == old(views[OtherSlot(index)].image)
                && views[OtherSlot(index)].contentRect == old(views[OtherSlot(index)].contentRect)
    {
      var view := views[Slot(index)];
      if view == null {
        return Fail(NullReference);
      }
      view.image := texture;
      outcome := Pass;
    }
  }
}

# LookDev display window: layout and environment-panel state machine

This project models the state-keeping core of `DisplayWindow`, the LookDev
editor window of the render-pipelines core package. The window compares two
material or lighting setups side by side. It owns two containers whose style
classes drive the stylesheet: the main container and the view container. It
also owns two image surfaces that an external renderer draws into. The
layout and the visibility of the environment panel are persisted in the
current LookDev context.

The model consists of three modules:

- `LookDevTypes` (`types.dfy`) holds the vocabulary:
  - the `Layout` enum and the class each layout contributes (`Name`, the enum member's own name);
  - the fixed structural class names `container`, `oneView`, `twoViews` and `showEnvironmentPanel`;
  - the two view slots (`ViewIndex`, `Slot`);
  - opaque `Texture` and `Rect` tokens;
  - the exceptions the window can raise.
- `Panel` (`panel.dfy`) holds the window's observable state as a value `Window`:
  - the class lists of both containers, with `None` while a container is still null;
  - the persisted layout and environment-panel flag;
  - the log of layout-changed notifications and the count of window-closed notifications.

  Each operation is a function from state to state plus an `Outcome`. The module also holds the invariants `Synced` and `Settled` and the lemmas about them, including lemmas over whole sequences of layout requests.
- `LookDevWindow` (`window.dfy`) holds the objects as the editor runs them:
  - `LayoutContext` is the persisted context;
  - `VisualElement` is a container reduced to its class set;
  - `Image` is a surface;
  - `DisplayWindow` has mutable fields and one method per operation.

  Each state-changing method is proved to change `Model()` exactly as the matching `Panel` function does. The `Panel` lemmas therefore apply to the window.

How the model maps the source:

- Dereferencing a null container throws a `NullReferenceException` in the source. The model returns `Fail(NullReference)` with no state change, because in every such path the dereference comes before any write.
- The explicit guards in `CreateViews` and `CreateEnvironment` become `Fail(MemberAccess(message))`, with the source's messages.
- The `OnLayoutChangedInternal` and `OnWindowClosed` events become append-only logs.
- `LookDev.currentContext.layout.isMultiView` belongs to the context and is not defined in this file. The model represents it as an arbitrary function `LayoutContext.multiView`, and the lemmas say what follows when it agrees with the setter's own two-view test (`IsTwoView`: horizontal or vertical split).

Three behaviours of the code are worth stating outright:

- **Reopening does not restore the layout-name class.** `CreateViews` (lines 194-196) adds only the view-count class and `container`. After reopening with a persisted horizontal split, the view container holds `twoViews` and `container` but not `HorizontalSplit`. The layout's own class appears only after the first layout change (`Panel.ReopenRestoresCountOnly`, `Panel.EnableSyncs`).
- **Construction and the setter may disagree on the view count.** The construction picks the view-count class from the context's `isMultiView` (line 195). The setter uses its own two-view test (line 69). The two agree only when the context's answer matches that test; `Panel.EnableSyncs` states the condition.
- **Closing does not release the surfaces.** `OnDisable` (line 148) only fires the window-closed event. The surfaces can still be written afterwards.

## Model

| member | source | states |
|---|---|---|
| `LookDevTypes.Name` | com.unity.render-pipelines.core/Editor/LookDev/LookDevWindow.cs:86-88 | the class named after a layout is non-empty and never equals `container`, `oneView`, `twoViews` or `showEnvironmentPanel` |
| `LookDevTypes.NameInjective` | com.unity.render-pipelines.core/Editor/LookDev/LookDevWindow.cs:86-88 | two layouts share a class name exactly when they are the same layout |
| `LookDevTypes.Slot` | com.unity.render-pipelines.core/Editor/LookDev/LookDevWindow.cs:218-222 | the `(int)index` cast maps `FirstOrFull` to slot 0 and `Second` to slot 1, both inside the two-element array |
| `Panel.SwapViewCount` | com.unity.render-pipelines.core/Editor/LookDev/LookDevWindow.cs:69-84 | a split replaces `oneView` by `twoViews`, any other layout replaces `twoViews` by `oneView`; no other class changes; with exactly one view-count class before, there is exactly one after and it is `twoViews` iff the new layout is a split |
| `Panel.SwapLayoutName` | com.unity.render-pipelines.core/Editor/LookDev/LookDevWindow.cs:86-88 | the old layout's class is gone, the new layout's class is present, every other class is untouched |
| `Panel.SetLayout` | com.unity.render-pipelines.core/Editor/LookDev/LookDevWindow.cs:62-95 | setting the current layout changes nothing and fires nothing; a different layout with no view container throws before any change; otherwise the persisted layout becomes the new one, exactly one notification carrying it is appended, the main container, flag and close count are untouched, the view container names the new layout and not the old, the view-count class follows the new layout, and no class other than the two view-count and two layout-name classes changes |
| `Panel.SetEnvironmentPanel` | com.unity.render-pipelines.core/Editor/LookDev/LookDevWindow.cs:97-118 | an unchanged flag is a no-op; a change with no main container throws before any change; otherwise the main container holds `showEnvironmentPanel` iff the new flag is set, no other main class changes and the flag is persisted; in every case no layout notification is fired and the view container and layout are untouched |
| `Panel.CreateViews` | com.unity.render-pipelines.core/Editor/LookDev/LookDevWindow.cs:189-197 | throws the member-access error (with the source's message) exactly when the main container is null, changing nothing; otherwise the view container holds `twoViews` iff the context reports multi-view, `oneView` otherwise, plus `container`, and no layout-name class; nothing else changes |
| `Panel.CreateEnvironment` | com.unity.render-pipelines.core/Editor/LookDev/LookDevWindow.cs:205-216 | throws exactly when the main container is null, changing nothing; otherwise adds `showEnvironmentPanel` when the persisted flag is set, leaves the main container alone when it is not, and changes nothing else |
| `Panel.Enable` | com.unity.render-pipelines.core/Editor/LookDev/LookDevWindow.cs:140-145 | opening never fails; the main container holds `container` plus `showEnvironmentPanel` iff the persisted flag is set, the view container holds the multi-view class and `container`; persisted fields and event logs are untouched |
| `Panel.Disable` | com.unity.render-pipelines.core/Editor/LookDev/LookDevWindow.cs:148 | closing fires the window-closed notification exactly once and changes nothing else |
| `Panel.Changes` | com.unity.render-pipelines.core/Editor/LookDev/LookDevWindow.cs:67-92 | a sequence of layout requests fires at most one notification per request |
| `Panel.EnableSyncs` | com.unity.render-pipelines.core/Editor/LookDev/LookDevWindow.cs:189-216 | after opening, the class lists are synced with the persisted state (one view-count class, `container` on both, environment class iff the flag), no layout-name class is present, and the view count matches the layout when the context's multi-view answer agrees with the setter's test |
| `Panel.SetLayoutKeepsSynced` | com.unity.render-pipelines.core/Editor/LookDev/LookDevWindow.cs:67-92 | on an opened window the setter never throws and keeps exactly one view-count class and no foreign layout-name class; after a real change the view container names the current layout and its view count matches it |
| `Panel.SetLayoutKeepsSettled` | com.unity.render-pipelines.core/Editor/LookDev/LookDevWindow.cs:67-92 | once the view container names the current layout with the matching view count, every later layout request keeps it so |
| `Panel.SetEnvironmentPanelKeepsSynced` | com.unity.render-pipelines.core/Editor/LookDev/LookDevWindow.cs:102-115 | on an opened window the environment setter never throws, keeps the window synced and settled, and leaves `showEnvironmentPanel` present iff the requested flag |
| `Panel.DisableKeepsSettled` | com.unity.render-pipelines.core/Editor/LookDev/LookDevWindow.cs:148 | closing disturbs no class and no persisted field |
| `Panel.SetLayoutIdempotent` | com.unity.render-pipelines.core/Editor/LookDev/LookDevWindow.cs:67 | setting the same layout twice equals setting it once, and the second call fires nothing |
| `Panel.SetEnvironmentPanelIdempotent` | com.unity.render-pipelines.core/Editor/LookDev/LookDevWindow.cs:102 | setting the same environment flag twice equals setting it once |
| `Panel.SetLayoutsKeepsSynced` | com.unity.render-pipelines.core/Editor/LookDev/LookDevWindow.cs:67-92 | over any sequence of layout requests on an opened window: it stays synced, any change leaves it settled, a settled window stays settled, and the main container and flag are untouched |
| `Panel.SetLayoutsNotifiesChanges` | com.unity.render-pipelines.core/Editor/LookDev/LookDevWindow.cs:67-92 | over any sequence of layout requests on an opened window, the notifications are exactly the requests that differed from the layout in force, in order, and the last request is the persisted layout |
| `Panel.SettledStaysSettled` | com.unity.render-pipelines.core/Editor/LookDev/LookDevWindow.cs:67-92 | a settled window stays settled over any sequence of layout requests |
| `Panel.RepeatedLayoutFiresOnce` | com.unity.render-pipelines.core/Editor/LookDev/LookDevWindow.cs:67-92 | the same layout requested twice in a row fires one notification if it differs from the current layout and none otherwise |
| `Panel.SplitSingleSplitRun` | com.unity.render-pipelines.core/Editor/LookDev/LookDevWindow.cs:69-92 | vertical split, single first, horizontal split from a single-view window fire three notifications with those payloads; the view container goes through `{twoViews, container, VerticalSplit}`, then `{oneView, container, SingleFirst}`, and ends with `{twoViews, container, HorizontalSplit}` |
| `Panel.ReopenRestoresCountOnly` | com.unity.render-pipelines.core/Editor/LookDev/LookDevWindow.cs:189-216 | reopening with a persisted horizontal split and a visible panel yields `{twoViews, container}` and `{container, showEnvironmentPanel}` without any layout request, and no horizontal-split class |
| `LookDevWindow.DisplayWindow.constructor` | com.unity.render-pipelines.core/Editor/LookDev/LookDevWindow.cs:56-60 | a new window has no containers, a fresh two-slot surface array with both slots empty, and has fired nothing |
| `LookDevWindow.DisplayWindow.SetLayout` | com.unity.render-pipelines.core/Editor/LookDev/LookDevWindow.cs:62-95 | the window's state and outcome are exactly those of `Panel.SetLayout`; only the event log, the persisted layout and the view container may change |
| `LookDevWindow.DisplayWindow.SwapViewCount` | com.unity.render-pipelines.core/Editor/LookDev/LookDevWindow.cs:69-84 | the container's classes become `Panel.SwapViewCount` of the old ones |
| `LookDevWindow.DisplayWindow.SwapLayoutName` | com.unity.render-pipelines.core/Editor/LookDev/LookDevWindow.cs:86-88 | the container's classes become `Panel.SwapLayoutName` of the old ones |
| `LookDevWindow.DisplayWindow.SetEnvironmentPanel` | com.unity.render-pipelines.core/Editor/LookDev/LookDevWindow.cs:97-118 | the window's state and outcome are exactly those of `Panel.SetEnvironmentPanel`; only the persisted flag and the main container may change |
| `LookDevWindow.DisplayWindow.ShowEnvironmentClass` | com.unity.render-pipelines.core/Editor/LookDev/LookDevWindow.cs:104-113 | the main container gains `showEnvironmentPanel` for true and loses it for false, whatever it held before |
| `LookDevWindow.DisplayWindow.CreateViews` | com.unity.render-pipelines.core/Editor/LookDev/LookDevWindow.cs:189-203 | state and outcome are those of `Panel.CreateViews`; on success the view container and both surfaces are new and both surfaces show the black texture; on failure nothing changes |
| `LookDevWindow.DisplayWindow.CreateEnvironment` | com.unity.render-pipelines.core/Editor/LookDev/LookDevWindow.cs:205-216 | state and outcome are those of `Panel.CreateEnvironment`; on success a new environment container is assigned |
| `LookDevWindow.DisplayWindow.Enable` | com.unity.render-pipelines.core/Editor/LookDev/LookDevWindow.cs:140-145 | opening always succeeds, assigns new containers and surfaces with both surfaces showing the black texture, and leaves the state of `Panel.Enable` |
| `LookDevWindow.DisplayWindow.Disable` | com.unity.render-pipelines.core/Editor/LookDev/LookDevWindow.cs:148 | the state becomes that of `Panel.Disable`: one more window-closed notification and nothing else |
| `LookDevWindow.DisplayWindow.GetRect` | com.unity.render-pipelines.core/Editor/LookDev/LookDevWindow.cs:218-219 | returns the rectangle of the surface in the addressed slot, or throws a null reference while that slot is empty |
| `LookDevWindow.DisplayWindow.SetTexture` | com.unity.render-pipelines.core/Editor/LookDev/LookDevWindow.cs:221-222 | the addressed surface shows the texture afterwards (or the call throws while the slot is empty); the other slot's texture and rectangle, and the addressed slot's rectangle, are unchanged |

## Left out

- Toolbar and widget-tree construction are not modelled. This covers `CreateToolbar`, the title, the stylesheet load and the `Add` calls that parent elements (lines 133-138, 142, 150-187, 197, 200, 202, 211). They only wire toolkit widgets.
- Icon and asset loading (`CoreEditorUtils.LoadIcon`, `AssetDatabase.LoadAssetAtPath`, `EditorGUIUtility`) is not modelled. These are editor APIs outside this file.
- `backgroundStyle` (line 120) is an opaque `GUIStyle` handed to the renderer and is not modelled.
- The values in `Rect` and `Texture` are not modelled. They come from the toolkit's layout engine and the renderer, and are treated as opaque tokens. Only which slot is read or written is modelled.
- The events are reduced to logs. The model records each firing of `OnLayoutChangedInternal` and `OnWindowClosed`. It does not model the list of subscribers, C# delegate add and remove, or whether a null delegate skips the call.
- The integer-to-`Layout` cast of the toolbar radio (lines 162-163) is not modelled. `Layout` here holds only its named members.
- `LookDev.currentContext` is not part of this model. It is represented by an injected `LayoutContext`, and `isMultiView` is an arbitrary function of the layout.
- The `Layout` enum is declared outside this file, and its member names do not appear in it. The names `SingleFirst`, `SingleSecond`, `VerticalSplit`, `HorizontalSplit`, `CustomSplit` and `Zone` are placeholders for the six layouts the toolbar offers (icons `LookDevSingle1` to `LookDevZone`, lines 155-160). The proofs rely only on these names being distinct and never equal to `container`, `oneView`, `twoViews` or `showEnvironmentPanel`.
- Unity's overloaded `Equals(null)` check on `m_MainContainer` (lines 191 and 207) is modelled as a plain null test.

/**
 * The vocabulary shared by the LookDev display window: the layouts it can
 * show, the structural class names its stylesheet reacts to, the two view
 * slots, the opaque tokens exchanged with the renderer, and the outcome of
 * an operation that may throw.
 */
module LookDevTypes {

  /** How many view surfaces are shown and how they are arranged. The enum is
      owned by the LookDev context; these are its members as the window's
      toolbar offers them (single first, single second, the two splits, a
      custom split and a zone). */
  datatype Layout = SingleFirst | SingleSecond | VerticalSplit | HorizontalSplit | CustomSplit | Zone

  /** Structural classes used by the window's stylesheet. */
  const SharedContainerClass: string := "container"
  const OneViewClass: string := "oneView"
  const TwoViewsClass: string := "twoViews"
  const ShowEnvironmentPanelClass: string := "showEnvironmentPanel"

  /** The class a layout contributes to the view container: the enum member's
      own name, as `ToString()` gives it. It never collides with one of the
      window's fixed structural classes. */
  function Name(l: Layout): (s: string)
    ensures |s| > 0
    ensures s != SharedContainerClass && s != OneViewClass
    ensures s != TwoViewsClass && s != ShowEnvironmentPanelClass
  {
    match l
    case SingleFirst => "SingleFirst"
    case SingleSecond => "SingleSecond"
    case VerticalSplit => "VerticalSplit"
    case HorizontalSplit => "HorizontalSplit"
    case CustomSplit => "CustomSplit"
    case Zone => "Zone"
  }

  /** Distinct layouts give distinct class names. */
  lemma NameInjective(a: Layout, b: Layout)
    ensures Name(a) == Name(b) <==> a == b
  {
  }

  /** The layout setter's own test for "two views": only the two splits. */
  predicate IsTwoView(l: Layout) {
    l == HorizontalSplit || l == VerticalSplit
  }

  /** Which of the two display surfaces is addressed. */
  datatype ViewIndex = FirstOrFull | Second

  /** The `(int)index` cast that addresses the `m_Views` array: the two
      indices land on the two distinct slots of a two-element array. */
  function Slot(index: ViewIndex): (s: nat)
    ensures s < 2
    ensures s == 0 <==> index == FirstOrFull
  {
    match index
    case FirstOrFull => 0
    case Second => 1
  }

  /** The slot that `index` does not address. */
  function OtherSlot(index: ViewIndex): (s: nat)
    ensures s < 2 && s != Slot(index)
  {
    1 - Slot(index)
  }

  /** An image handle produced by the renderer; its pixels are not modelled. */
  datatype Texture = BlackTexture | Rendered(handle: nat)

  /** A screen rectangle computed by the toolkit's layout engine; opaque here. */
  datatype Rect = Rect(x: int, y: int, width: int, height: int)

  /** The exceptions the window can raise. */
  datatype Exception =
    | NullReference
    | MemberAccess(message: string)

  const CreateViewsMessage: string := "m_MainContainer should be assigned prior CreateViews()"
  const CreateEnvironmentMessage: string := "m_MainContainer should be assigned prior CreateEnvironment()"

  /** Completion of an operation that returns nothing. */
  datatype Outcome = Pass | Fail(error: Exception)

  /** Completion of an operation that returns a value. */
  datatype Result<T> = Success(value: T) | Failure(error: Exception)
}

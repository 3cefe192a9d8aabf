/** The loading widgets: a spinner in three sizes, a skeleton list, an overlay over
    content that is loading, a button that shows a spinner while it works, and a
    progress bar. */
module Loading {
  import opened Views

  // Spinner

  datatype SpinnerSize = Sm | Md | Lg

  /** The side of the spinner square in Tailwind spacing units. */
  function Side(size: SpinnerSize): nat
  {
    match size
    case Sm => 4
    case Md => 6
    case Lg => 8
  }

  /** `LoadingSpinner`'s size class; without a size the spinner is medium, "w-6 h-6". */
  function SpinnerClass(size: Option<SpinnerSize>): (c: string)
    ensures size == None ==> c == "w-6 h-6"
    ensures size == Some(Sm) ==> c == "w-4 h-4"
    ensures size == Some(Md) ==> c == "w-6 h-6"
    ensures size == Some(Lg) ==> c == "w-8 h-8"
  {
    match size
    case None => "w-6 h-6"
    case Some(Sm) => "w-4 h-4"
    case Some(Md) => "w-6 h-6"
    case Some(Lg) => "w-8 h-8"
  }

  /** The digit of a side length below ten. */
  function Digit(n: nat): char
    requires n < 10
  {
    ('0' as int + n) as char
  }

  /** Each class sets width and height to the size's side, so larger sizes draw strictly
      larger spinners, and each size has its own class. */
  lemma SpinnerSizesOrdered(a: SpinnerSize, b: SpinnerSize)
    ensures SpinnerClass(Some(a)) == "w-" + [Digit(Side(a))] + " h-" + [Digit(Side(a))]
    ensures Side(Sm) < Side(Md) < Side(Lg)
    ensures SpinnerClass(Some(a)) == SpinnerClass(Some(b)) <==> a == b
  {
  }

  // Skeleton

  /** `Array.from({ length: count })`: a negative length gives no rows; without a count
      there is one row. Each row is keyed by its index. */
  function SkeletonKeys(count: Option<int>): (keys: seq<nat>)
    ensures count == None ==> keys == [0]
    ensures count.Some? && count.value >= 0 ==> |keys| == count.value
    ensures count.Some? && count.value < 0 ==> keys == []
    ensures forall i :: 0 <= i < |keys| ==> keys[i] == i
  {
    var n := match count case None => 1 case Some(c) => if c < 0 then 0 else c;
    seq(n, i requires 0 <= i < n => i)
  }

  /** The row keys are distinct, as React requires of sibling keys. */
  lemma SkeletonKeysDistinct(count: Option<int>, i: nat, j: nat)
    requires i < |SkeletonKeys(count)| && j < |SkeletonKeys(count)| && i != j
    ensures SkeletonKeys(count)[i] != SkeletonKeys(count)[j]
  {
  }

  // Overlay

  /** What `LoadingOverlay` renders around its children. */
  datatype Overlaid<T> =
    | Bare(content: T)
    | Covered(content: T, spinner: SpinnerSize, caption: string)

  /** `LoadingOverlay`: the children unchanged when not loading; when loading, the
      children under a cover with a large spinner and the caption "טוען...". */
  function LoadingOverlay<T>(isLoading: bool, children: T): (r: Overlaid<T>)
    ensures r.content == children
    ensures r.Bare? <==> !isLoading
    ensures r.Covered? ==> r.spinner == Lg && r.caption == "טוען..."
  {
    if !isLoading then Bare(children) else Covered(children, Lg, "טוען...")
  }

  // Button

  /** What `LoadingButton` renders: whether it is disabled, the spinner it shows if any,
      and whether its label is faded out. */
  datatype ButtonView = ButtonView(disabled: bool, spinner: Option<SpinnerSize>, labelHidden: bool)

  /** `LoadingButton`: `disabled` is set from `isLoading` and then overwritten by a
      `disabled` the caller passes among the spread props; the spinner, a small one, and
      the faded label follow `isLoading` alone. */
  function LoadingButton(isLoading: bool, disabledProp: Option<bool>): (b: ButtonView)
    ensures disabledProp.None? ==> b.disabled == isLoading
    ensures disabledProp.Some? ==> b.disabled == disabledProp.value
    ensures b.spinner.Some? <==> isLoading
    ensures b.spinner.Some? ==> b.spinner.value == Sm
    ensures b.labelHidden <==> isLoading
  {
    ButtonView(match disabledProp case None => isLoading case Some(d) => d,
               if isLoading then Some(Sm) else None,
               isLoading)
  }

  /** Without a caller's `disabled` a loading button cannot be pressed; a caller's
      `disabled={false}` leaves a loading button pressable while its spinner turns. */
  lemma ButtonDisabledWhileLoading(isLoading: bool)
    ensures LoadingButton(isLoading, None).disabled <==> LoadingButton(isLoading, None).spinner.Some?
    ensures !LoadingButton(true, Some(false)).disabled && LoadingButton(true, Some(false)).spinner.Some?
  {
  }

  // Progress bar

  /** `Math.max(0, Math.min(100, progress))`: the width of the progress bar in percent. */
  function Clamp(progress: real): (w: real)
    ensures 0.0 <= w <= 100.0
    ensures 0.0 <= progress <= 100.0 ==> w == progress
    ensures progress < 0.0 ==> w == 0.0
    ensures progress > 100.0 ==> w == 100.0
  {
    var upper := if progress < 100.0 then progress else 100.0;
    if upper > 0.0 then upper else 0.0
  }

  /** Clamping twice is clamping once, and more progress never draws a shorter bar. */
  lemma ClampIdempotentMonotone(p: real, q: real)
    ensures Clamp(Clamp(p)) == Clamp(p)
    ensures p <= q ==> Clamp(p) <= Clamp(q)
  {
  }
}

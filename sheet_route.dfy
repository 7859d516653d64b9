/**
 * One stacked sheet (`Route` in createBottomSheetNavigator.js): the options
 * a route's descriptor carries, the defaults filled in for the ones it leaves
 * out, the snap points handed to the bottom sheet, and the two reactions of
 * a route: closing its sheet when flagged as removing, and reporting a
 * dismissal to the stack view.
 */
module SheetRoute {
  import opened Wrappers

  /** A length as the bottom sheet takes it: a number of points or a percentage string. */
  datatype Size = Points(n: int) | Percent(p: int)

  /** The per-route options bag; `None` is an option the screen left undefined. */
  datatype Options = Options(
    backgroundColor: Option<string>,
    targetOpacity: Option<real>,
    height: Option<Size>,
    snapPoints: Option<seq<Size>>)

  /** A route's descriptor: its options (possibly undefined) and what it renders. */
  datatype Descriptor = Descriptor(options: Option<Options>, screen: string)

  /** The options after defaulting: every field is set. */
  datatype SheetConfig = SheetConfig(
    backgroundColor: string,
    targetOpacity: real,
    height: Size,
    snapPoints: seq<Size>)

  const DefaultBackground: string := "black"
  const DefaultOpacity: real := 1.0
  const FullHeight: Size := Percent(100)

  /** The options of a descriptor, an undefined bag read as the empty one. */
  function Bag(options: Option<Options>): Options
  {
    if options.Some? then options.value else Options(None, None, None, None)
  }

  /** The value of an option, or the default when the option is undefined. */
  function OrDefault<T>(o: Option<T>, default: T): (r: T)
    ensures o.Some? ==> r == o.value
    ensures o.None? ==> r == default
  {
    if o.Some? then o.value else default
  }

  /**
   * The sheet configuration of a route: each option the screen set is kept,
   * each one it left undefined takes its default (black, opacity 1, full
   * height, a single full-height snap point).
   */
  function Configure(options: Option<Options>): (c: SheetConfig)
    ensures c.backgroundColor == OrDefault(Bag(options).backgroundColor, DefaultBackground)
    ensures c.targetOpacity == OrDefault(Bag(options).targetOpacity, DefaultOpacity)
    ensures c.height == OrDefault(Bag(options).height, FullHeight)
    ensures c.snapPoints == OrDefault(Bag(options).snapPoints, [FullHeight])
  {
    var o := Bag(options);
    SheetConfig(
      OrDefault(o.backgroundColor, DefaultBackground),
      OrDefault(o.targetOpacity, DefaultOpacity),
      OrDefault(o.height, FullHeight),
      OrDefault(o.snapPoints, [FullHeight]))
  }

  /** The options bag that sets every field to what `c` holds. */
  function Explicit(c: SheetConfig): Options
  {
    Options(Some(c.backgroundColor), Some(c.targetOpacity), Some(c.height), Some(c.snapPoints))
  }

  /** Options that set every field are taken as they are: defaulting never overrides. */
  lemma ConfigureKeepsExplicit(c: SheetConfig)
    ensures Configure(Some(Explicit(c))) == c
  {
  }

  /** An undefined options bag and an empty one both give the default sheet. */
  lemma ConfigureDefaults()
    ensures Configure(None) == Configure(Some(Options(None, None, None, None)))
    ensures Configure(None) == SheetConfig("black", 1.0, Percent(100), [Percent(100)])
  {
  }

  /** The closed position the sheet animates to when it leaves. */
  const Closed: Size := Points(0)

  /** The snap-point index the sheet mounts at. */
  const InitialIndex: nat := 1

  /**
   * The snap points handed to the bottom sheet: the closed position first,
   * then the route's own snap points in order, so that index `i + 1` is the
   * route's `i`-th snap point.
   */
  function WithClosedPoint(points: seq<Size>): (r: seq<Size>)
    ensures |r| == |points| + 1
    ensures r[0] == Closed
    ensures forall i :: 0 <= i < |points| ==> r[i + 1] == points[i]
  {
    [Closed] + points
  }

  /**
   * The sheet mounts at the route's first snap point; with no snap points
   * at all (an explicitly empty list) the initial index has no position.
   */
  lemma MountsAtFirstSnapPoint(points: seq<Size>)
    ensures InitialIndex < |WithClosedPoint(points)| <==> points != []
    ensures points != [] ==> WithClosedPoint(points)[InitialIndex] == points[0]
  {
  }

  /** An event the bottom sheet reports to its route. */
  datatype SheetEvent =
    | Animated(from: int, to: int)  // an animation between two snap-point indices starts
    | Dismissed                     // the sheet's own dismissal callback

  /**
   * Whether an event makes the route call the stack view's dismiss handler:
   * the dismissal callback always does, an animation only when it goes from
   * the first snap point (index 1) to the closed position (index 0).
   */
  function CallsDismiss(e: SheetEvent): (dismiss: bool)
    ensures e.Dismissed? ==> dismiss
    ensures e.Animated? ==> (dismiss <==> e.from == InitialIndex && e.to == 0)
  {
    match e
    case Dismissed => true
    case Animated(from, to) => from == 1 && to == 0
  }

  /** An animation reported as dismissal runs from the first snap point to the closed one. */
  lemma DismissingAnimationCloses(points: seq<Size>, from: int, to: int)
    requires points != [] && CallsDismiss(Animated(from, to))
    ensures 0 <= to < from < |WithClosedPoint(points)|
    ensures WithClosedPoint(points)[from] == points[0] && WithClosedPoint(points)[to] == Closed
  {
  }

  /**
   * Whether a render of the route calls `close` on its sheet. The effect
   * watching `removing` runs on the first render (`last` is None) and on every
   * render where the flag differs from the previous one, and closes when the
   * flag is set.
   */
  function ClosesOnRender(last: Option<bool>, removing: bool): (close: bool)
    ensures close ==> removing
    ensures removing ==> (close <==> last != Some(true))
  {
    removing && last != Some(true)
  }

  /** How many renders call `close`, over successive values of the flag, from `last` on. */
  function CloseCalls(last: Option<bool>, flags: seq<bool>): nat
    decreases |flags|
  {
    if flags == [] then 0
    else (if ClosesOnRender(last, flags[0]) then 1 else 0) + CloseCalls(Some(flags[0]), flags[1..])
  }

  /** Once set, the flag stays set. */
  ghost predicate StaysSet(flags: seq<bool>)
  {
    forall i, j :: 0 <= i < j < |flags| && flags[i] ==> flags[j]
  }

  /**
   * While the removing flag, once set, stays set (as the stack view keeps it
   * until eviction), a mounted route calls `close` exactly once if the flag
   * is ever set after `last`, and never otherwise.
   */
  lemma {:induction false} ClosesOnce(last: Option<bool>, flags: seq<bool>)
    requires StaysSet(flags)
    requires last == Some(true) ==> forall i :: 0 <= i < |flags| ==> flags[i]
    ensures CloseCalls(last, flags) == if true in flags && last != Some(true) then 1 else 0
    decreases |flags|
  {
    if flags != [] {
      var rest := flags[1..];
      assert StaysSet(rest) by {
        forall i, j | 0 <= i < j < |rest| && rest[i] ensures rest[j] {
          assert flags[i + 1] && i + 1 < j + 1;
        }
      }
      if flags[0] {
        assert forall i :: 0 <= i < |rest| ==> rest[i] by {
          forall i | 0 <= i < |rest| ensures rest[i] {
            assert flags[0] && 0 < i + 1;
          }
        }
      }
      ClosesOnce(Some(flags[0]), rest);
      assert flags == [flags[0]] + rest;
      assert true in flags <==> flags[0] || true in rest;
    }
  }
}

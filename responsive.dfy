/** The breakpoint classification of src/hooks/useResponsive.ts: the window
    width against four thresholds gives five flags. The hook computes the same
    record at its first render (lines 20-26) and on every resize (lines 30-36). */
module Responsive {

  datatype Breakpoints = Breakpoints(sm: int, md: int, lg: int, xl: int)

  /** The destructuring defaults of lines 13-16. */
  const DefaultBreakpoints := Breakpoints(576, 768, 992, 1200)

  datatype Flags = Flags(xs: bool, sm: bool, md: bool, lg: bool, xl: bool)

  /** The thresholds increase, as the named breakpoints intend. */
  predicate Ordered(bp: Breakpoints) {
    bp.sm <= bp.md <= bp.lg <= bp.xl
  }

  function Count(b: bool): nat {
    if b then 1 else 0
  }

  function TrueFlags(f: Flags): nat {
    Count(f.xs) + Count(f.sm) + Count(f.md) + Count(f.lg) + Count(f.xl)
  }

  /** The number of thresholds at or below the width: 0 for xs up to 4 for xl. */
  function Band(width: int, bp: Breakpoints): nat {
    Count(width >= bp.sm) + Count(width >= bp.md) + Count(width >= bp.lg) + Count(width >= bp.xl)
  }

  /** The record of lines 21-25 (and 31-35). With ordered thresholds exactly
      one flag holds, and it is the one of the width's band. */
  function Classify(width: int, bp: Breakpoints): (f: Flags)
    ensures Ordered(bp) ==> TrueFlags(f) == 1
    ensures Ordered(bp) ==>
      && (f.xs <==> Band(width, bp) == 0)
      && (f.sm <==> Band(width, bp) == 1)
      && (f.md <==> Band(width, bp) == 2)
      && (f.lg <==> Band(width, bp) == 3)
      && (f.xl <==> Band(width, bp) == 4)
  {
    Flags(
      xs := width < bp.sm,
      sm := width < bp.md && width >= bp.sm,
      md := width < bp.lg && width >= bp.md,
      lg := width < bp.xl && width >= bp.lg,
      xl := width >= bp.xl)
  }

  /** `xs` and `xl` depend on one threshold each, whatever the others are. */
  lemma Extremes(width: int, bp: Breakpoints)
    ensures Classify(width, bp).xs <==> width < bp.sm
    ensures Classify(width, bp).xl <==> width >= bp.xl
  {
  }

  /** A wider window never falls in a lower band. */
  lemma BandMonotone(w1: int, w2: int, bp: Breakpoints)
    requires w1 <= w2
    ensures Band(w1, bp) <= Band(w2, bp)
  {
  }

  /** Without ordered thresholds the flags need not be exclusive. */
  lemma UnorderedOverlap()
    ensures var f := Classify(700, Breakpoints(800, 900, 1000, 600)); f.xs && f.xl
  {
  }

  /** The default thresholds and the boundary widths the hook's tests use:
      each interval is closed below and open above. */
  lemma DefaultBoundaries()
    ensures Classify(575, DefaultBreakpoints) == Flags(true, false, false, false, false)
    ensures Classify(576, DefaultBreakpoints) == Flags(false, true, false, false, false)
    ensures Classify(577, DefaultBreakpoints) == Flags(false, true, false, false, false)
    ensures Classify(768, DefaultBreakpoints) == Flags(false, false, true, false, false)
    ensures Classify(769, DefaultBreakpoints) == Flags(false, false, true, false, false)
    ensures Classify(992, DefaultBreakpoints) == Flags(false, false, false, true, false)
    ensures Classify(993, DefaultBreakpoints) == Flags(false, false, false, true, false)
    ensures Classify(1199, DefaultBreakpoints) == Flags(false, false, false, true, false)
    ensures Classify(1200, DefaultBreakpoints) == Flags(false, false, false, false, true)
  {
  }
}

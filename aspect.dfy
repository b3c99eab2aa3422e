/**
  The size/aspect representation shared by the cone and cylinder stencils.
  A stencil keeps a uniform scalar `size` and a per-axis `aspect`; what the
  user sees, the extents, is always `size * aspect`. Renormalisation divides
  the aspect by its largest component and folds that factor into the size,
  so that the largest aspect component is 1 without changing the extents.
 */
module AspectScaling {
  import opened Vectors

  datatype ScaleState = ScaleState(size: real, aspect: Vec3)

  /** The extents the `Extents` getter reports. */
  function ExtentsOf(st: ScaleState): Vec3
  {
    Scale(st.size, st.aspect)
  }

  /** The representation invariant: the largest aspect component is exactly 1. */
  predicate Normalised(st: ScaleState)
  {
    MaxComponent(st.aspect) == 1.0
  }

  /**
    `UpdateScale`'s arithmetic: divide the aspect by its largest component and
    multiply the size by it. A zero maximum is a division by zero in the
    engine, so it is excluded; a negative maximum divides without failing.
   */
  function Renormalised(st: ScaleState): ScaleState
    requires MaxComponent(st.aspect) != 0.0
  {
    var m := MaxComponent(st.aspect);
    ScaleState(st.size * m, Div(st.aspect, m))
  }

  /** The state the `Extents` setter produces from `v`: size 1, aspect `v`, renormalised. */
  function WithExtents(v: Vec3): ScaleState
    requires MaxComponent(v) != 0.0
  {
    Renormalised(ScaleState(1.0, v))
  }

  /** The state the `CustomDimension` setter produces: aspect `v`, renormalised. */
  function WithCustomDimension(st: ScaleState, v: Vec3): ScaleState
    requires MaxComponent(v) != 0.0
  {
    Renormalised(ScaleState(st.size, v))
  }

  /** `v` with the component on axis `a` multiplied by `d`. */
  function ScaledOnAxis(v: Vec3, a: Axis, d: real): (r: Vec3)
    requires a != Invalid
    ensures Component(r, Index(a)) == d * Component(v, Index(a))
    ensures forall j :: 0 <= j < 3 && j != Index(a) ==> Component(r, j) == Component(v, j)
  {
    match a
    case X => v.(x := v.x * d)
    case Y => v.(y := v.y * d)
    case Z => v.(z := v.z * d)
  }

  /** The engine's indexed update `v[(int)a] *= d` computes `ScaledOnAxis`. */
  lemma IndexedScaleIsScaledOnAxis(v: Vec3, a: Axis, d: real)
    requires a != Invalid
    ensures WithComponent(v, Index(a), Component(v, Index(a)) * d) == ScaledOnAxis(v, a, d)
  {
  }

  /** The unrecorded axis step: scale the aspect on one axis, then renormalise. */
  function AxisStepped(st: ScaleState, a: Axis, d: real): ScaleState
    requires a != Invalid
    requires MaxComponent(ScaledOnAxis(st.aspect, a, d)) != 0.0
  {
    Renormalised(ScaleState(st.size, ScaledOnAxis(st.aspect, a, d)))
  }

  /** Renormalising moves a factor between size and aspect and leaves the extents alone. */
  lemma RenormalisedKeepsExtents(st: ScaleState)
    requires MaxComponent(st.aspect) != 0.0
    ensures ExtentsOf(Renormalised(st)) == ExtentsOf(st)
  {
    var m := MaxComponent(st.aspect);
    MulDivCancel(st.size, m, st.aspect.x);
    MulDivCancel(st.size, m, st.aspect.y);
    MulDivCancel(st.size, m, st.aspect.z);
  }

  lemma MulDivCancel(s: real, m: real, a: real)
    requires m != 0.0
    ensures (s * m) * (a / m) == s * a
  {
  }

  /** With a positive largest aspect component, renormalising makes that component 1. */
  lemma RenormalisedIsNormalised(st: ScaleState)
    requires MaxComponent(st.aspect) > 0.0
    ensures Normalised(Renormalised(st))
  {
    MaxComponentOfDiv(st.aspect, MaxComponent(st.aspect));
  }

  /** Renormalising an already normalised state changes nothing. */
  lemma RenormalisedIdempotent(st: ScaleState)
    requires Normalised(st)
    ensures Renormalised(st) == st
  {
  }

  /**
    The `Extents` setter: the getter then reports exactly `v`, and for a
    positive largest component the size is that component and the aspect
    is normalised.
   */
  lemma WithExtentsReadsBack(v: Vec3)
    requires MaxComponent(v) != 0.0
    ensures ExtentsOf(WithExtents(v)) == v
    ensures WithExtents(v).aspect == Div(v, MaxComponent(v))
    ensures MaxComponent(v) > 0.0 ==> WithExtents(v).size == MaxComponent(v) && Normalised(WithExtents(v))
  {
    RenormalisedKeepsExtents(ScaleState(1.0, v));
    if MaxComponent(v) > 0.0 {
      RenormalisedIsNormalised(ScaleState(1.0, v));
    }
  }

  /**
    The `CustomDimension` setter: the extents become the old size times `v`,
    the size grows by the largest component of `v`, and for a positive
    largest component the aspect is normalised.
   */
  lemma WithCustomDimensionScales(st: ScaleState, v: Vec3)
    requires MaxComponent(v) != 0.0
    ensures ExtentsOf(WithCustomDimension(st, v)) == Scale(st.size, v)
    ensures WithCustomDimension(st, v).size == st.size * MaxComponent(v)
    ensures WithCustomDimension(st, v).aspect == Div(v, MaxComponent(v))
    ensures MaxComponent(v) > 0.0 ==> Normalised(WithCustomDimension(st, v))
  {
    RenormalisedKeepsExtents(ScaleState(st.size, v));
    if MaxComponent(v) > 0.0 {
      RenormalisedIsNormalised(ScaleState(st.size, v));
    }
  }

  /** With a positive size, the size of a normalised state is its largest extent. */
  lemma SizeIsMaxExtent(st: ScaleState)
    requires Normalised(st) && st.size > 0.0
    ensures MaxComponent(ExtentsOf(st)) == st.size
  {
    MaxComponentOfScale(st.size, st.aspect);
  }

  /**
    The normalised representation is canonical: two normalised states of
    positive size that show the same extents are the same state.
   */
  lemma NormalisedIsCanonical(s1: ScaleState, s2: ScaleState)
    requires Normalised(s1) && s1.size > 0.0
    requires Normalised(s2) && s2.size > 0.0
    requires ExtentsOf(s1) == ExtentsOf(s2)
    ensures s1 == s2
  {
    SameExtentsSameSize(s1, s2);
    var s := s1.size;
    CancelFactor(s, s1.aspect.x, s2.aspect.x);
    CancelFactor(s, s1.aspect.y, s2.aspect.y);
    CancelFactor(s, s1.aspect.z, s2.aspect.z);
  }

  lemma SameExtentsSameSize(s1: ScaleState, s2: ScaleState)
    requires Normalised(s1) && s1.size > 0.0
    requires Normalised(s2) && s2.size > 0.0
    requires ExtentsOf(s1) == ExtentsOf(s2)
    ensures s1.size == s2.size
  {
    SizeIsMaxExtent(s1);
    SizeIsMaxExtent(s2);
  }

  lemma CancelFactor(s: real, a: real, b: real)
    requires s != 0.0 && s * a == s * b
    ensures a == b
  {
  }

  /**
    Reading the extents and writing them back is a no-op on a normalised
    state of positive size: the setter reconstructs exactly the same size
    and aspect.
   */
  lemma ExtentsRoundTrip(st: ScaleState)
    requires Normalised(st) && st.size > 0.0
    ensures MaxComponent(ExtentsOf(st)) > 0.0
    ensures WithExtents(ExtentsOf(st)) == st
  {
    SizeIsMaxExtent(st);
    WithExtentsReadsBack(ExtentsOf(st));
    NormalisedIsCanonical(WithExtents(ExtentsOf(st)), st);
  }

  /**
    The unrecorded axis step multiplies the extent on the chosen axis by `d`
    and leaves the other two extents as they were.
   */
  lemma AxisStepScalesOneExtent(st: ScaleState, a: Axis, d: real)
    requires a != Invalid
    requires MaxComponent(ScaledOnAxis(st.aspect, a, d)) != 0.0
    ensures ExtentsOf(AxisStepped(st, a, d)) == ScaledOnAxis(ExtentsOf(st), a, d)
  {
    RenormalisedKeepsExtents(ScaleState(st.size, ScaledOnAxis(st.aspect, a, d)));
    ScaleCommutesWithAxisScale(st.size, st.aspect, a, d);
  }

  lemma ScaleCommutesWithAxisScale(s: real, v: Vec3, a: Axis, d: real)
    requires a != Invalid
    ensures Scale(s, ScaledOnAxis(v, a, d)) == ScaledOnAxis(Scale(s, v), a, d)
  {
    match a
    case X => MulSwap(s, v.x, d);
    case Y => MulSwap(s, v.y, d);
    case Z => MulSwap(s, v.z, d);
  }

  lemma MulSwap(s: real, p: real, d: real)
    ensures s * (p * d) == (s * p) * d
  {
  }

  /**
    The unrecorded axis step keeps the representation invariant: from a
    normalised state and a positive factor, the scaled aspect has a positive
    largest component (so the step is defined) and the result is normalised.
   */
  lemma AxisStepKeepsNormalised(st: ScaleState, a: Axis, d: real)
    requires a != Invalid && Normalised(st) && d > 0.0
    ensures MaxComponent(ScaledOnAxis(st.aspect, a, d)) > 0.0
    ensures Normalised(AxisStepped(st, a, d))
  {
    var v := st.aspect;
    var w := ScaledOnAxis(v, a, d);
    // Some component of the aspect is 1; after the step it is 1 or d.
    assert Component(w, 0) > 0.0 || Component(w, 1) > 0.0 || Component(w, 2) > 0.0 by {
      var k: nat := if v.x == 1.0 then 0 else if v.y == 1.0 then 1 else 2;
      assert Component(v, k) == 1.0;
      if k == Index(a) {
        assert Component(w, k) == d * 1.0;
      } else {
        assert Component(w, k) == 1.0;
      }
    }
    RenormalisedIsNormalised(ScaleState(st.size, w));
  }

  /**
    Everything the unrecorded axis step promises, in one place: the chosen
    extent scales by `d`, the others stay, and the invariant is restored
    whenever the scaled aspect has a positive maximum, in particular from a
    normalised state and a positive factor.
   */
  lemma AxisStepFacts(st: ScaleState, a: Axis, d: real)
    requires a != Invalid
    requires MaxComponent(ScaledOnAxis(st.aspect, a, d)) != 0.0
    ensures ExtentsOf(AxisStepped(st, a, d)) == ScaledOnAxis(ExtentsOf(st), a, d)
    ensures MaxComponent(ScaledOnAxis(st.aspect, a, d)) > 0.0 ==> Normalised(AxisStepped(st, a, d))
    ensures Normalised(st) && d > 0.0 ==> Normalised(AxisStepped(st, a, d))
  {
    AxisStepScalesOneExtent(st, a, d);
    if MaxComponent(ScaledOnAxis(st.aspect, a, d)) > 0.0 {
      RenormalisedIsNormalised(ScaleState(st.size, ScaledOnAxis(st.aspect, a, d)));
    }
    if Normalised(st) && d > 0.0 {
      AxisStepKeepsNormalised(st, a, d);
    }
  }

  /**
    Applying the proposed dimensions of a recorded step through the
    `CustomDimension` setter lands in the same state as the unrecorded step.
   */
  lemma RecordedStepMatchesDirectStep(st: ScaleState, a: Axis, d: real)
    requires a != Invalid
    requires MaxComponent(ScaledOnAxis(st.aspect, a, d)) != 0.0
    ensures WithCustomDimension(st, ScaledOnAxis(st.aspect, a, d)) == AxisStepped(st, a, d)
  {
  }

  /**
    The axis step changes the proportion of the scaled axis to any other
    axis by exactly the factor `d`, renormalisation notwithstanding.
   */
  lemma AxisStepRatio(st: ScaleState, a: Axis, d: real, j: nat)
    requires a != Invalid && j < 3 && j != Index(a)
    requires MaxComponent(ScaledOnAxis(st.aspect, a, d)) != 0.0
    requires Component(st.aspect, j) != 0.0
    ensures Component(AxisStepped(st, a, d).aspect, j) != 0.0
    ensures Component(AxisStepped(st, a, d).aspect, Index(a)) / Component(AxisStepped(st, a, d).aspect, j)
         == d * (Component(st.aspect, Index(a)) / Component(st.aspect, j))
  {
    var v := ScaledOnAxis(st.aspect, a, d);
    DivKeepsRatio(v, MaxComponent(v), Index(a), j);
    ScaledOnAxisRatio(st.aspect, a, d, j);
  }

  lemma DivKeepsRatio(v: Vec3, m: real, i: nat, j: nat)
    requires m != 0.0 && i < 3 && j < 3 && Component(v, j) != 0.0
    ensures Component(Div(v, m), j) != 0.0
    ensures Component(Div(v, m), i) / Component(Div(v, m), j) == Component(v, i) / Component(v, j)
  {
    ComponentOfDiv(v, m, i);
    ComponentOfDiv(v, m, j);
    QuotientOfQuotients(Component(v, i), Component(v, j), m);
  }

  lemma QuotientOfQuotients(p: real, q: real, m: real)
    requires m != 0.0 && q != 0.0
    ensures q / m != 0.0
    ensures (p / m) / (q / m) == p / q
  {
  }

  lemma ScaledOnAxisRatio(v: Vec3, a: Axis, d: real, j: nat)
    requires a != Invalid && j < 3 && j != Index(a) && Component(v, j) != 0.0
    ensures Component(ScaledOnAxis(v, a, d), j) == Component(v, j)
    ensures Component(ScaledOnAxis(v, a, d), Index(a)) / Component(ScaledOnAxis(v, a, d), j)
         == d * (Component(v, Index(a)) / Component(v, j))
  {
    var p, q := Component(v, Index(a)), Component(v, j);
    var w := ScaledOnAxis(v, a, d);
    assert Component(w, Index(a)) == d * p && Component(w, j) == q;
    MulDivAssoc(d, p, q);
  }

  lemma MulDivAssoc(d: real, p: real, q: real)
    requires q != 0.0
    ensures (d * p) / q == d * (p / q)
  {
  }
}

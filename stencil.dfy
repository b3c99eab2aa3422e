/**
  The cone and cylinder stencils. The two widgets share every line of their
  scaling and axis logic and differ only in the stencil type they report, so
  one class carries both, told apart by `kind`.
 */
module Stencils {
  import opened Vectors
  import opened AspectScaling

  datatype Option<T> = None | Some(value: T)

  datatype StencilKind = Cone | Cylinder

  /** What `GetScaleAxis` hands back: the axis, its direction and its extent, or the exception. */
  datatype ScaleAxisResult =
    | Locked(axis: Axis, axisVec: Vec3, extent: real)
    | NotImplemented(unsupported: Axis)

  /**
    The axis a two-handed grab locks onto. `hands` is the primary-minus-
    secondary hand vector already expressed in the stencil's own frame.
    A second hand inside the shape gives no axis; otherwise only Y can be
    locked: X and Z are never offered.
   */
  function GetInferredManipulationAxis(hands: Vec3, secondaryHandInside: bool): (r: Axis)
    ensures r == Y || r == Invalid
    ensures secondaryHandInside ==> r == Invalid
    ensures r == Y <==>
      !secondaryHandInside &&
      (AbsReal(hands.y) > AbsReal(hands.x) ||
       (AbsReal(hands.y) == AbsReal(hands.x) && AbsReal(hands.y) > AbsReal(hands.z)))
  {
    if secondaryHandInside then
      Invalid
    else
      var v := Abs(hands);
      if v.x > v.y && v.x > v.z then
        Invalid
      else if v.y > v.z || v.y > v.x then
        Y
      else
        Invalid
  }

  /**
    Concrete outcomes of the rule: a Y-dominant or Y-over-X separation locks
    Y, an X-dominant one does not; |y| tied with |x| still locks Y when it
    beats |z|, and a Y that beats X locks even when Z dominates.
   */
  lemma InferenceExamples()
    ensures GetInferredManipulationAxis(Vec3(0.0, 5.0, 1.0), false) == Y
    ensures GetInferredManipulationAxis(Vec3(5.0, 1.0, 1.0), false) == Invalid
    ensures GetInferredManipulationAxis(Vec3(0.0, 5.0, 1.0), true) == Invalid
    ensures GetInferredManipulationAxis(Vec3(-1.0, 1.0, 0.0), false) == Y
    ensures GetInferredManipulationAxis(Vec3(0.0, 2.0, -5.0), false) == Y
    ensures GetInferredManipulationAxis(Vec3(1.0, 1.0, 1.0), false) == Invalid
  {
  }

  /** An inferred axis never makes `GetScaleAxis` throw. */
  lemma InferredAxisIsSupported(s: Stencil, hands: Vec3, secondaryHandInside: bool, parentScale: real)
    ensures !s.GetScaleAxis(Some(GetInferredManipulationAxis(hands, secondaryHandInside)), parentScale).NotImplemented?
  {
  }

  class Stencil {
    const kind: StencilKind
    /** The uniform size, a field of the base widget. */
    var size: real
    /** The per-axis aspect ratio. */
    var aspect: Vec3
    /** Whether scale steps go through the undo stack; a field of the base widget. */
    var recordMovements: bool
    /** The engine transform's local scale, which `UpdateScale` writes. */
    var localScale: Vec3

    function State(): ScaleState
      reads this
    {
      ScaleState(size, aspect)
    }

    /**
      The `Extents` getter. On a normalised stencil of positive size the
      size is the largest extent it reports.
     */
    function Extents(): (r: Vec3)
      reads this
      ensures Normalised(State()) && size > 0.0 ==> MaxComponent(r) == size
    {
      var st := State();
      if Normalised(st) && st.size > 0.0 then
        SizeIsMaxExtent(st);
        ExtentsOf(st)
      else
        ExtentsOf(st)
    }

    /**
      The `CustomDimension` getter: the aspect, which the size scales into
      the extents.
     */
    function CustomDimension(): (r: Vec3)
      reads this
      ensures Extents() == Scale(size, r)
    {
      aspect
    }

    /**
      `Awake`: the aspect starts at (1, 1, 1). The size, the record flag and
      the transform's scale are the base widget's, so they come in as given.
     */
    constructor (kind: StencilKind, size: real, recordMovements: bool, localScale: Vec3)
      ensures this.kind == kind && this.size == size
      ensures this.recordMovements == recordMovements && this.localScale == localScale
      ensures aspect == One
      ensures Normalised(State())
      ensures Extents() == Vec3(size, size, size)
    {
      this.kind := kind;
      this.size := size;
      this.recordMovements := recordMovements;
      this.localScale := localScale;
      aspect := One;
    }

    /**
      Divide the aspect by its largest component, fold that factor into the
      size and push the extents to the transform. The extents do not change;
      with a positive largest component the aspect comes out normalised.
     */
    method UpdateScale()
      requires MaxComponent(aspect) != 0.0
      modifies this`size, this`aspect, this`localScale
      ensures State() == Renormalised(old(State()))
      ensures Extents() == old(Extents())
      ensures old(MaxComponent(aspect)) > 0.0 ==> Normalised(State())
      ensures localScale == Extents()
    {
      ghost var before := State();
      var maxAspect := MaxComponent(aspect);
      aspect := Div(aspect, maxAspect);
      size := size * maxAspect;
      assert State() == Renormalised(before);
      RenormalisedKeepsExtents(before);
      if maxAspect > 0.0 {
        RenormalisedIsNormalised(before);
      }
      localScale := Scale(size, aspect);
    }

    /** The `Extents` setter: the getter then reports exactly `v`. */
    method SetExtents(v: Vec3)
      requires MaxComponent(v) != 0.0
      modifies this`size, this`aspect, this`localScale
      ensures State() == WithExtents(v)
      ensures Extents() == v && localScale == v
      ensures MaxComponent(v) > 0.0 ==> size == MaxComponent(v) && Normalised(State())
    {
      size := 1.0;
      aspect := v;
      UpdateScale();
      WithExtentsReadsBack(v);
    }

    /** The `CustomDimension` setter: the old size times `v` becomes the extents. */
    method SetCustomDimension(v: Vec3)
      requires MaxComponent(v) != 0.0
      modifies this`size, this`aspect, this`localScale
      ensures State() == WithCustomDimension(old(State()), v)
      ensures Extents() == Scale(old(size), v) && localScale == Extents()
      ensures MaxComponent(v) > 0.0 ==> Normalised(State())
    {
      ghost var before := State();
      aspect := v;
      UpdateScale();
      assert State() == WithCustomDimension(before, v);
      WithCustomDimensionScales(before, v);
    }

    /**
      One axis-locked scale step by `deltaScale`. When movements are
      recorded, the model changes nothing and returns the aspect with that
      axis scaled, which the undo command would apply; otherwise the step is
      applied at once and only that axis's extent changes.
     */
    method RecordAndApplyScaleToAxis(deltaScale: real, axis: Axis) returns (command: Option<Vec3>)
      requires axis != Invalid
      requires !recordMovements ==> MaxComponent(ScaledOnAxis(aspect, axis, deltaScale)) != 0.0
      modifies this`size, this`aspect, this`localScale
      ensures old(recordMovements) ==> command == Some(ScaledOnAxis(old(CustomDimension()), axis, deltaScale))
      ensures old(recordMovements) ==> unchanged(this)
      ensures !old(recordMovements) ==> command == None
      ensures !old(recordMovements) ==> State() == AxisStepped(old(State()), axis, deltaScale)
      ensures !old(recordMovements) ==> Extents() == ScaledOnAxis(old(Extents()), axis, deltaScale)
      ensures !old(recordMovements) ==> localScale == Extents()
      ensures !old(recordMovements) && old(MaxComponent(ScaledOnAxis(aspect, axis, deltaScale))) > 0.0
        ==> Normalised(State())
      ensures !old(recordMovements) && old(Normalised(State())) && deltaScale > 0.0 ==> Normalised(State())
    {
      if recordMovements {
        var i := Index(axis);
        IndexedScaleIsScaledOnAxis(aspect, axis, deltaScale);
        var newDimensions := CustomDimension();
        newDimensions := WithComponent(newDimensions, i, Component(newDimensions, i) * deltaScale);
        assert newDimensions == ScaledOnAxis(aspect, axis, deltaScale);
        command := Some(newDimensions);
      } else {
        ApplyScaleToAxis(deltaScale, axis);
        command := None;
      }
    }

    /** The unrecorded branch: scale the aspect on one axis in place, then renormalise. */
    method ApplyScaleToAxis(deltaScale: real, axis: Axis)
      requires axis != Invalid
      requires MaxComponent(ScaledOnAxis(aspect, axis, deltaScale)) != 0.0
      modifies this`size, this`aspect, this`localScale
      ensures State() == AxisStepped(old(State()), axis, deltaScale)
      ensures Extents() == ScaledOnAxis(old(Extents()), axis, deltaScale)
      ensures localScale == Extents()
      ensures old(MaxComponent(ScaledOnAxis(aspect, axis, deltaScale))) > 0.0 ==> Normalised(State())
      ensures old(Normalised(State())) && deltaScale > 0.0 ==> Normalised(State())
    {
      var i := Index(axis);
      ghost var before := State();
      IndexedScaleIsScaledOnAxis(before.aspect, axis, deltaScale);
      aspect := WithComponent(aspect, i, Component(aspect, i) * deltaScale);
      assert State() == ScaleState(before.size, ScaledOnAxis(before.aspect, axis, deltaScale));
      UpdateScale();
      assert State() == AxisStepped(before, axis, deltaScale);
      AxisStepFacts(before, axis, deltaScale);
    }

    /**
      The direction and extent of the locked axis. A missing lock is only
      logged and then treated as Invalid. Y gives the local unit Y vector
      and the Y extent in the parent's scale; Invalid gives zeros; X and Z
      are not implemented for these shapes and throw.
     */
    function GetScaleAxis(lockedAxis: Option<Axis>, parentScale: real): (r: ScaleAxisResult)
      reads this
      ensures r.NotImplemented? <==> lockedAxis == Some(X) || lockedAxis == Some(Z)
      ensures r.NotImplemented? ==> r.unsupported == lockedAxis.value
      ensures r.Locked? ==> r.axis == (if lockedAxis.Some? then lockedAxis.value else Invalid)
      ensures r.Locked? && r.axis == Invalid ==> r.axisVec == Zero && r.extent == 0.0
      ensures r.Locked? && r.axis == Y ==> r.axisVec == Vec3(0.0, 1.0, 0.0) && r.extent == parentScale * Extents().y
    {
      var axis := if lockedAxis.Some? then lockedAxis.value else Invalid;
      match axis
      case Y => Locked(axis, Basis(axis), parentScale * Component(Extents(), Index(axis)))
      case Invalid => Locked(axis, Zero, 0.0)
      case _ => NotImplemented(axis)
    }
  }

  /**
    A stencil of size 2 with the initial aspect, stretched by 2 along Y
    without recording, has aspect (0.5, 1, 0.5), size 4 and extents (2, 4, 2).
   */
  method StretchAlongYExample()
  {
    var s := new Stencil(Cone, 2.0, false, Vec3(2.0, 2.0, 2.0));
    var command := s.RecordAndApplyScaleToAxis(2.0, Y);
    assert command == None;
    assert s.Extents() == Vec3(2.0, 4.0, 2.0);
    assert s.size == 4.0 && s.aspect == Vec3(0.5, 1.0, 0.5);
  }
}

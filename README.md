# Cone and cylinder stencil scaling

Tilt Brush stencils are snap guides: 3D primitives a brush pointer can be
snapped to. The cone and cylinder stencils are two widget classes,
`ConeStencil` and `CylinderStencil`. Their scaling and axis logic is the
same, line for line. This project models that logic in Dafny and proves
properties of it.

- **Size and aspect.** A stencil stores a uniform `m_Size` and a per-axis
  `m_AspectRatio`. The extents it reports are `m_Size * m_AspectRatio`.
  `UpdateScale` divides the aspect by its largest component and multiplies
  the size by that component. This makes the largest aspect component 1
  and leaves the extents unchanged.
- **Setters.** The `Extents` setter sets the size to 1 and the aspect to
  the new value, then renormalises. The `CustomDimension` setter replaces
  the aspect, then renormalises.
- **Axis-locked scaling.** `RecordAndApplyScaleToAxis` multiplies one aspect
  component by a factor. If movements are recorded, it instead proposes
  that aspect to the undo command.
- **Axis inference.** `GetInferredManipulationAxis` picks Y or no axis
  (Invalid) from the hand-to-hand vector. `GetScaleAxis` reports the
  direction and extent of the locked axis. It throws for X and Z.

Files:

- `vectors.dfy` (module `Vectors`): a three-component vector over `real`,
  the `Axis` enumeration (X = 0, Y = 1, Z = 2, Invalid), indexing,
  componentwise scaling and division, absolute value and the largest
  component.
- `aspect.dfy` (module `AspectScaling`): the size/aspect state as a value,
  the renormalisation and setter arithmetic as functions, and the lemmas
  about them.
- `stencil.dfy` (module `Stencils`): the `Stencil` class. Its fields are
  the ones the source updates in place (`size`, `aspect`, the transform's
  `localScale`). Its methods are the setters, `UpdateScale` and the axis
  step, each proved against the functions of `AspectScaling`. The module
  also holds the axis inference and `GetScaleAxis` as functions.

The two source files match line by line, so one class models both. A
`kind` tag (`Cone` or `Cylinder`) stands for the `m_Type` that `Awake`
sets. The table below cites one file per row. Each cited range has a twin
in the other file:

| logic | ConeStencil.cs | CylinderStencil.cs |
|---|---|---|
| `Extents` getter and setter | 23-35 | 23-35 |
| `CustomDimension` | 37-45 | 37-45 |
| `Awake` | 47-52 | 46-51 |
| `GetInferredManipulationAxis` | 74-95 | 77-98 |
| `RecordAndApplyScaleToAxis` | 98-112 | 101-115 |
| `GetScaleAxis` | 126-155 | 133-158 |
| `UpdateScale` | 177-184 | 161-168 |

Floats are modelled as `real`, so the identities below hold exactly. In
the engine they hold only up to rounding.

The code's axis-inference rule is
`if |x| > |y| && |x| > |z| then Invalid else if |y| > |z| || |y| > |x| then Y else Invalid`.
The model follows it exactly. Two readings of the rule are tempting but
wrong:

- It is not "Y whenever |y| ≥ |z|". The code compares `|y| > |z|`
  strictly, so (1, 1, 1) gives Invalid.
- It is not "Y only when |y| > |x|". The code gives Y when |y| equals |x|
  and beats |z|, for example (1, 1, 0). It also gives Y when |y| beats |x|
  while |z| is largest, for example (0, 2, 5).

`GetInferredManipulationAxis` states the exact outcome: Y if and only if
|y| > |x|, or |y| = |x| and |y| > |z|.

## Model

| member | source | states |
|---|---|---|
| `Vectors.MaxComponent` | Assets/Scripts/Widgets/ConeStencil.cs:179 | the largest aspect component `Max()` is at least every component and equal to one of them |
| `AspectScaling.RenormalisedKeepsExtents` | Assets/Scripts/Widgets/CylinderStencil.cs:163-166 | dividing the aspect by its maximum and multiplying the size by it leaves `size * aspect`, the reported extents, unchanged |
| `AspectScaling.RenormalisedIsNormalised` | Assets/Scripts/Widgets/CylinderStencil.cs:163-165 | with a positive largest aspect component, the renormalised aspect has largest component exactly 1 |
| `AspectScaling.RenormalisedIdempotent` | Assets/Scripts/Widgets/ConeStencil.cs:179-181 | renormalising an aspect whose largest component is already 1 changes neither size nor aspect |
| `Stencils.Stencil.UpdateScale` | Assets/Scripts/Widgets/ConeStencil.cs:177-184 | the new size and aspect are the renormalised old ones; the extents are unchanged; the aspect is normalised when its old maximum was positive; the transform's scale becomes the extents |
| `AspectScaling.SizeIsMaxExtent` | Assets/Scripts/Widgets/ConeStencil.cs:27 | with a normalised aspect and a positive size, the size is the largest reported extent |
| `AspectScaling.NormalisedIsCanonical` | Assets/Scripts/Widgets/CylinderStencil.cs:161-166 | two normalised states of positive size that report the same extents have the same size and aspect, so the representation after `UpdateScale` is unique |
| `AspectScaling.WithExtentsReadsBack` | Assets/Scripts/Widgets/CylinderStencil.cs:23-34 | after the `Extents` setter with `v`, the getter returns `v` and the aspect is `v / max(v)`; for `max(v) > 0`, the size is `max(v)` and the aspect is normalised |
| `Stencils.Stencil.SetExtents` | Assets/Scripts/Widgets/ConeStencil.cs:29-34 | the new state is that of the setter specification, the getter reports exactly `v`, the transform's scale becomes `v`, and for `max(v) > 0` the size is `max(v)` with a normalised aspect |
| `AspectScaling.ExtentsRoundTrip` | Assets/Scripts/Widgets/ConeStencil.cs:23-34 | writing back the extents just read from a normalised stencil of positive size restores exactly the same size and aspect |
| `AspectScaling.WithCustomDimensionScales` | Assets/Scripts/Widgets/CylinderStencil.cs:37-45 | after the `CustomDimension` setter with `v`, the size is the old size times `max(v)`, the aspect is `v / max(v)`, the extents are the old size times `v`, and for `max(v) > 0` the aspect is normalised |
| `Stencils.Stencil.SetCustomDimension` | Assets/Scripts/Widgets/ConeStencil.cs:37-45 | the new state is that of the setter specification, the extents become the old size times `v`, the transform's scale follows, and for `max(v) > 0` the aspect is normalised |
| `Stencils.Stencil.Extents` | Assets/Scripts/Widgets/ConeStencil.cs:25-28 | the getter reports `size * aspect`. On a normalised stencil of positive size, the size is the largest extent. `WithExtentsReadsBack` and `ExtentsRoundTrip` tie it to the setter. |
| `Stencils.Stencil.CustomDimension` | Assets/Scripts/Widgets/ConeStencil.cs:39 | the getter returns the aspect, which the size scales into the extents: `Extents() == size * CustomDimension()` |
| `Vectors.Abs` | Assets/Scripts/Widgets/ConeStencil.cs:82 | `Vector3.Abs()`: every component is non-negative and equals the original component up to sign |
| `Stencils.Stencil.constructor` | Assets/Scripts/Widgets/ConeStencil.cs:47-52 | a new stencil has aspect (1, 1, 1), so it is normalised from creation and its extents are its size on every axis |
| `AspectScaling.ScaledOnAxis` | Assets/Scripts/Widgets/ConeStencil.cs:103 | the proposed dimensions differ from the current aspect only at component `(int)axis`, which is multiplied by the factor |
| `AspectScaling.IndexedScaleIsScaledOnAxis` | Assets/Scripts/Widgets/CylinderStencil.cs:105-106 | the indexed update `v[(int)axis] *= d` computes exactly `ScaledOnAxis` |
| `Stencils.Stencil.RecordAndApplyScaleToAxis` | Assets/Scripts/Widgets/ConeStencil.cs:98-112 | when recording, the model changes nothing and returns the proposed dimensions: the aspect scaled on `axis`. Otherwise it is the unrecorded step below. |
| `Stencils.Stencil.ApplyScaleToAxis` | Assets/Scripts/Widgets/ConeStencil.cs:107-111 | the extent on `axis` is multiplied by the factor and the other two extents stay. The transform's scale follows. The aspect is normalised again when the stencil was normalised and the factor is positive, and more generally whenever the scaled aspect has a positive maximum. |
| `AspectScaling.AxisStepKeepsNormalised` | Assets/Scripts/Widgets/CylinderStencil.cs:112-113 | from a normalised state and a positive factor, the scaled aspect has a positive maximum, so the step is defined, and the result is normalised |
| `AspectScaling.AxisStepFacts` | Assets/Scripts/Widgets/CylinderStencil.cs:110-114 | the unrecorded step scales one extent and keeps the others. It restores the invariant for a positive maximum of the scaled aspect, and for a normalised state with a positive factor. |
| `AspectScaling.RecordedStepMatchesDirectStep` | Assets/Scripts/Widgets/CylinderStencil.cs:103-114 | applying the recorded branch's proposed dimensions through the `CustomDimension` setter gives the same size and aspect as the unrecorded branch |
| `AspectScaling.AxisStepScalesOneExtent` | Assets/Scripts/Widgets/CylinderStencil.cs:110-114 | the unrecorded step multiplies the extent on the chosen axis by the factor and leaves the other two extents unchanged |
| `AspectScaling.AxisStepRatio` | Assets/Scripts/Widgets/CylinderStencil.cs:112-113 | after the unrecorded step, the ratio of the chosen aspect component to any other non-zero one is multiplied by exactly the factor, despite the renormalisation |
| `Stencils.GetInferredManipulationAxis` | Assets/Scripts/Widgets/ConeStencil.cs:74-95 | the result is only ever Y or Invalid; a second hand inside gives Invalid; otherwise Y if and only if \|y\| > \|x\|, or \|y\| = \|x\| and \|y\| > \|z\| |
| `Stencils.InferenceExamples` | Assets/Scripts/Widgets/CylinderStencil.cs:75-98 | concrete outcomes: (0,5,1) gives Y; (5,1,1) gives Invalid; (0,5,1) with the second hand inside gives Invalid; (-1,1,0) and (0,2,-5) give Y; (1,1,1) gives Invalid |
| `Stencils.Stencil.GetScaleAxis` | Assets/Scripts/Widgets/ConeStencil.cs:126-155 | a missing lock counts as Invalid; it throws exactly for X and Z; otherwise it returns the locked axis unchanged; Invalid gives a zero vector and zero extent; Y gives the unit Y vector and `parentScale * Extents.y` |
| `Stencils.InferredAxisIsSupported` | Assets/Scripts/Widgets/CylinderStencil.cs:130-158 | an axis chosen by the inference rule never makes `GetScaleAxis` throw |

## Left out

- `FindClosestPointOnSurface` is left out. It delegates to the engine's mesh collider, whose geometry is not part of this model.
- `GetBounds_SelectionCanvasSpace` is left out. It composes engine collider bounds with canvas transforms.
- `GetActivationScore` is left out. It depends on the base widget's signed size, the canvas pose scale and floating-point `Pow`.
- `RegisterHighlightForSpecificAxis` is left out. It only hands meshes to the selection effect, a UI side effect.
- The undo path (`SketchMemoryScript`, `MoveWidgetCommand`, `LocalTransform`) is not part of this model.
- `UpdateMaterialScale()` is not part of this model. The write to `transform.localScale` is modelled as the field `localScale`.
- Stencils.Stencil.RecordAndApplyScaleToAxis: the recorded branch returns the proposed dimensions instead of building and performing the undo command, which is engine code. In the program, performing the command does change the stencil; `RecordedStepMatchesDirectStep` shows the state it reaches if the command applies the dimensions through the `CustomDimension` setter. The method requires an axis other than Invalid: the engine's vector indexer throws on index 3, and its callers pass only a locked axis.
- Stencils.GetInferredManipulationAxis: the hand vector is taken already in the stencil's object space, because `InverseTransformDirection` is engine code.
- Stencils.Stencil.GetScaleAxis: `axisVec` is returned in local space; the world-space conversion by `TransformDirection` is left out. `parentScale`, which the source reads from the parent transform, is a parameter. The `Debug.Assert` on a missing lock only logs, so the model goes straight on with Invalid.
- Stencils.Stencil.UpdateScale: a largest aspect component of zero is excluded by a precondition. The engine would divide by zero there and produce non-finite values. A negative maximum is allowed and modelled; the extents are still preserved, but the aspect need not come out normalised.
- Floating-point rounding is left out: all quantities are exact reals.
- The base widget's initial size, record flag and transform scale are constructor parameters. The base class that sets them is not part of this model.

# DynamicPolygon

A model of `DynamicPolygon`, the polygon node of the dynamic scene layer. A
polygon is a fixed-shape record of nine slots: `show`, `material`, `height`,
`extrudedHeight`, `granularity`, `stRotation`, `fill`, `outline` and
`outlineColor`. Each slot holds a property handle or is undefined. The
polygon also owns one `propertyChanged` event. Two operations compose
polygons:

- `clone(result)` copies every slot, set or unset, onto `result` (or onto a
  new polygon when `result` is missing) and returns that object;
- `merge(source)` fills each undefined slot of the receiver from the same
  slot of `source` with `defaultValue`, never overwrites a set slot, and
  throws `DeveloperError('source is required.')` when `source` is missing.

Files:

- `core.dfy`, module `Core`: `Option` (undefined or defined), `DefaultValue`
  (the `defaultValue(a, b)` helper: `a` if defined, else `b`), and the
  `DeveloperError` / `Outcome` pair that stands for the thrown error.
- `dynamic_polygon.dfy`, module `DynamicScene`: the opaque `Handle` type, the
  `Slot` names, the `Slots` value (what the nine slots hold at one moment),
  `MergeSlots` (the value-level meaning of `merge`) with its laws, and the
  class `DynamicPolygon` with nine mutable fields, a constructor, a slot
  setter, `Clone` and `Merge`. `Clone` and `Merge` write the nine slots one after
  another, as the source does, and their postconditions tie the new state to
  `State()` of the old one. Each slot write goes through the `Assign` setter,
  as the source's `clone` and `merge` go through the slot accessors.

Handles are opaque: the model only stores and compares them.

Two facts about the code that the model keeps:

- A missing `source` makes `merge` fail with
  `DeveloperError('source is required.')` before any slot is written
  (DynamicPolygon.js:147-149).
- The constructor (DynamicPolygon.js:23-31) writes six backing fields and
  leaves `_fill`, `_outline` and `_outlineColor` to JavaScript's implicit
  `undefined`. Dafny gives an unwritten field no fixed value, so the
  constructor writes all nine as `None`.

## Model

| member | source | states |
|---|---|---|
| `Core.DefaultValue` | Source/DynamicScene/DynamicPolygon.js:152-160 | the result is one of the two arguments; it is the first whenever the first is defined; it is defined exactly when either argument is |
| `DynamicScene.Slots.With` | Source/DynamicScene/DynamicPolygon.js:50-111 | after storing `v` into one slot, reading that slot gives `v` and every other slot reads as before |
| `DynamicScene.SlotsExtensional` | Source/DynamicScene/DynamicPolygon.js:33-112 | the slot set is closed: two states that agree on all nine slots are the same state |
| `DynamicScene.MergeSlots` | Source/DynamicScene/DynamicPolygon.js:152-160 | receiver wins: a slot set in the receiver keeps its handle; a slot unset in the receiver takes the source's handle for it, set or unset |
| `DynamicScene.MergeAssigned` | Source/DynamicScene/DynamicPolygon.js:152-160 | merge only grows the assigned slots; afterwards they are exactly the receiver's plus the source's |
| `DynamicScene.MergeChanges` | Source/DynamicScene/DynamicPolygon.js:152-160 | the slots merge gives a different handle are exactly those the source sets and the receiver does not |
| `DynamicScene.MergeIdempotent` | Source/DynamicScene/DynamicPolygon.js:152-160 | merging the same source twice gives the state of merging it once |
| `DynamicScene.MergeSelf` | Source/DynamicScene/DynamicPolygon.js:152-160 | merging a polygon's state into itself changes nothing |
| `DynamicScene.MergeNoChangeIff` | Source/DynamicScene/DynamicPolygon.js:152-160 | merge leaves the receiver unchanged if and only if every slot the source sets is already set in the receiver (so always when all nine are set) |
| `DynamicScene.MergeAssociative` | Source/DynamicScene/DynamicPolygon.js:152-160 | merging b then c equals merging the result of filling b's gaps from c |
| `DynamicScene.MergeWithUnset` | Source/DynamicScene/DynamicPolygon.js:152-160 | merging into an all-unset state yields the source's slots, as a clone would; merging an all-unset source changes nothing |
| `DynamicScene.DynamicPolygon.constructor` | Source/DynamicScene/DynamicPolygon.js:23-31 | a new polygon has all nine slots unset and a freshly allocated change event |
| `DynamicScene.DynamicPolygon.Assign` | Source/DynamicScene/DynamicPolygon.js:50-111 | a slot's setter stores the new value in that slot and changes no other slot |
| `DynamicScene.DynamicPolygon.Clone` | Source/DynamicScene/DynamicPolygon.js:121-135 | returns `result` itself when given, otherwise a fresh polygon with a fresh event distinct from `this`; every slot of the returned object equals the old slot of `this`, unset slots included, overwriting what `result` held; `this` is unchanged |
| `DynamicScene.DynamicPolygon.Merge` | Source/DynamicScene/DynamicPolygon.js:145-161 | a missing source yields `DeveloperError("source is required.")` with no slot changed; otherwise the new state is `MergeSlots` of the old receiver and old source, and the source's slots are unchanged (even when it is the receiver) |
| `DynamicScene.CloneIsIndependent` | Source/DynamicScene/DynamicPolygon.js:121-135 | a clone made without a target is a distinct fresh object: assigning one of its slots leaves the original polygon as it was |
| `DynamicScene.MergeFillsOnlyTheGap` | Source/DynamicScene/DynamicPolygon.js:152-160 | a receiver with height set and fill unset, merged from a source that sets both, keeps its height, takes the source's fill, and fill is the only slot whose handle changes |

## Left out

- Change notification: the setters come from `createDynamicPropertyDescriptor`, which is not part of this model. Each setter is a plain store; the rule that a setter raises `propertyChanged` only when the new handle differs by reference is not modelled. `ChangedSlots` names the slots that rule would report, but no event is raised.
- The `Event` subscriber list and its raise operation (`../Core/Event`): `Event` is an empty class, so only the identity of `propertyChanged` and the fact that it is never replaced are modelled.
- `../Core/defaultValue` and `../Core/defined` are not part of this model; `DefaultValue` and the null test on `source` follow their use in `merge` and `clone`.
- Time sampling or evaluation of handles (materials, numbers, colours): `Handle` is an opaque type with equality.
- AMD module loading and the `defineProperties` prototype wiring: the nine accessors are the class's fields plus the `Assign` setter.
- The debug pragma around the `merge` argument check, which strips it from release builds: the model always performs the check.
- Geometric meaning of the slots (heights in metres, granularity and texture rotation in radians): documentation only, no computation.

/** An optionally time-dynamic polygon: nine independently assignable slots,
    each holding a property handle or nothing, with `clone` (copy every slot)
    and `merge` (fill the unset slots from another polygon, never overwrite). */
module DynamicScene {
  import opened Core

  /** A property handle: a possibly time-varying value (a Property or a
      MaterialProperty) that a polygon only stores and compares. */
  type Handle(==)

  /** The names of the nine slots. */
  datatype Slot =
    | Show | Material | Height | ExtrudedHeight | Granularity
    | StRotation | Fill | Outline | OutlineColor

  const AllSlots: set<Slot> :=
    {Show, Material, Height, ExtrudedHeight, Granularity, StRotation, Fill, Outline, OutlineColor}

  /** What a polygon's nine slots hold at one moment. */
  datatype Slots = Slots(
    show: Option<Handle>,
    material: Option<Handle>,
    height: Option<Handle>,
    extrudedHeight: Option<Handle>,
    granularity: Option<Handle>,
    stRotation: Option<Handle>,
    fill: Option<Handle>,
    outline: Option<Handle>,
    outlineColor: Option<Handle>)
  {
    /** The handle held by slot `k`. */
    function Get(k: Slot): Option<Handle> {
      match k
      case Show => show
      case Material => material
      case Height => height
      case ExtrudedHeight => extrudedHeight
      case Granularity => granularity
      case StRotation => stRotation
      case Fill => fill
      case Outline => outline
      case OutlineColor => outlineColor
    }

    /** The same slots after storing `v` into slot `k`. */
    function With(k: Slot, v: Option<Handle>): (r: Slots)
      ensures r.Get(k) == v
      ensures forall j :: j != k ==> r.Get(j) == Get(j)
    {
      match k
      case Show => this.(show := v)
      case Material => this.(material := v)
      case Height => this.(height := v)
      case ExtrudedHeight => this.(extrudedHeight := v)
      case Granularity => this.(granularity := v)
      case StRotation => this.(stRotation := v)
      case Fill => this.(fill := v)
      case Outline => this.(outline := v)
      case OutlineColor => this.(outlineColor := v)
    }
  }

  /** Every slot unset, as in a newly constructed polygon. */
  const Unset: Slots := Slots(None, None, None, None, None, None, None, None, None)

  /** The slots that hold a handle. */
  function Assigned(s: Slots): (r: set<Slot>)
    ensures forall k :: k in r <==> s.Get(k).Some?
  {
    set k | k in AllSlots && s.Get(k).Some?
  }

  /** The slots whose handle differs between two moments. */
  function ChangedSlots(before: Slots, after: Slots): (r: set<Slot>)
    ensures forall k :: k in r <==> before.Get(k) != after.Get(k)
  {
    set k | k in AllSlots && before.Get(k) != after.Get(k)
  }

  /** The slot set is closed: two values that agree on all nine slots are equal. */
  lemma SlotsExtensional(a: Slots, b: Slots)
    requires forall k :: a.Get(k) == b.Get(k)
    ensures a == b
  {
    assert a.Get(Show) == b.Get(Show) && a.Get(Material) == b.Get(Material);
    assert a.Get(Height) == b.Get(Height) && a.Get(ExtrudedHeight) == b.Get(ExtrudedHeight);
    assert a.Get(Granularity) == b.Get(Granularity) && a.Get(StRotation) == b.Get(StRotation);
    assert a.Get(Fill) == b.Get(Fill) && a.Get(Outline) == b.Get(Outline);
    assert a.Get(OutlineColor) == b.Get(OutlineColor);
  }

  /** The slots of the receiver after `merge`: each slot is
      `defaultValue(receiver's slot, source's slot)`. */
  function MergeSlots(dst: Slots, src: Slots): (r: Slots)
    ensures forall k :: dst.Get(k).Some? ==> r.Get(k) == dst.Get(k)
    ensures forall k :: dst.Get(k).None? ==> r.Get(k) == src.Get(k)
  {
    Slots(
      DefaultValue(dst.show, src.show),
      DefaultValue(dst.material, src.material),
      DefaultValue(dst.height, src.height),
      DefaultValue(dst.extrudedHeight, src.extrudedHeight),
      DefaultValue(dst.granularity, src.granularity),
      DefaultValue(dst.stRotation, src.stRotation),
      DefaultValue(dst.fill, src.fill),
      DefaultValue(dst.outline, src.outline),
      DefaultValue(dst.outlineColor, src.outlineColor))
  }

  /** Merging only grows the set of assigned slots: afterwards it is exactly
      the union of both polygons' assigned slots. */
  lemma MergeAssigned(a: Slots, b: Slots)
    ensures Assigned(a) <= Assigned(MergeSlots(a, b))
    ensures Assigned(MergeSlots(a, b)) == Assigned(a) + Assigned(b)
  {
  }

  /** The slots merge gives a new handle are exactly those unset in the
      receiver and set in the source. */
  lemma MergeChanges(a: Slots, b: Slots)
    ensures ChangedSlots(a, MergeSlots(a, b)) == Assigned(b) - Assigned(a)
  {
  }

  /** Merging the same source a second time changes nothing. */
  lemma MergeIdempotent(a: Slots, b: Slots)
    ensures MergeSlots(MergeSlots(a, b), b) == MergeSlots(a, b)
  {
  }

  /** Merging a polygon into itself changes nothing. */
  lemma MergeSelf(a: Slots)
    ensures MergeSlots(a, a) == a
  {
  }

  /** Merge leaves the receiver as it is exactly when every slot the source
      sets is already set in the receiver; in particular when all nine are set. */
  lemma MergeNoChangeIff(a: Slots, b: Slots)
    ensures MergeSlots(a, b) == a <==> Assigned(b) <= Assigned(a)
  {
    if Assigned(b) <= Assigned(a) {
      SlotsExtensional(MergeSlots(a, b), a);
    }
  }

  /** Merging c after b is merging what b gives when c fills b's gaps. */
  lemma MergeAssociative(a: Slots, b: Slots, c: Slots)
    ensures MergeSlots(MergeSlots(a, b), c) == MergeSlots(a, MergeSlots(b, c))
  {
  }

  /** Merging into a new polygon copies the source, as clone does; merging an
      empty polygon changes nothing. */
  lemma MergeWithUnset(a: Slots)
    ensures MergeSlots(Unset, a) == a
    ensures MergeSlots(a, Unset) == a
  {
  }

  /** The change event a polygon owns. Subscribing and raising are not
      modelled; only its identity is. */
  class Event {
    constructor ()
    {
    }
  }

  class DynamicPolygon {
    var show: Option<Handle>
    var material: Option<Handle>
    var height: Option<Handle>
    var extrudedHeight: Option<Handle>
    var granularity: Option<Handle>
    var stRotation: Option<Handle>
    var fill: Option<Handle>
    var outline: Option<Handle>
    var outlineColor: Option<Handle>
    /** Raised whenever a new property is assigned; read-only. */
    const propertyChanged: Event

    /** The nine slots as a value. */
    function State(): Slots
      reads this
    {
      Slots(show, material, height, extrudedHeight, granularity,
            stRotation, fill, outline, outlineColor)
    }

    /** A new polygon: every slot unset and a new change event. */
    constructor ()
      ensures State() == Unset
      ensures fresh(propertyChanged)
    {
      show := None;
      material := None;
      height := None;
      extrudedHeight := None;
      granularity := None;
      stRotation := None;
      fill := None;
      outline := None;
      outlineColor := None;
      propertyChanged := new Event();
    }

    /** The setter of slot `k`: stores `v` and leaves the other slots alone. */
    method Assign(k: Slot, v: Option<Handle>)
      modifies this
      ensures State() == old(State()).With(k, v)
    {
      match k
      case Show => show := v;
      case Material => material := v;
      case Height => height := v;
      case ExtrudedHeight => extrudedHeight := v;
      case Granularity => granularity := v;
      case StRotation => stRotation := v;
      case Fill => fill := v;
      case Outline => outline := v;
      case OutlineColor => outlineColor := v;
    }

    /** Copies every slot, set or unset, onto `result` (a new polygon when
        `result` is missing) and returns it. */
    method Clone(result: DynamicPolygon?) returns (r: DynamicPolygon)
      modifies if result == null then {} else {result}
      ensures result != null ==> r == result
      ensures result == null ==> fresh(r) && fresh(r.propertyChanged) && r != this
      ensures r.State() == old(State())
      ensures State() == old(State())
    {
      if result == null {
        r := new DynamicPolygon();
      } else {
        r := result;
      }
      r.Assign(Show, show);
      r.Assign(Material, material);
      r.Assign(Height, height);
      r.Assign(ExtrudedHeight, extrudedHeight);
      r.Assign(Granularity, granularity);
      r.Assign(StRotation, stRotation);
      r.Assign(Fill, fill);
      r.Assign(Outline, outline);
      r.Assign(OutlineColor, outlineColor);
    }

    /** Assigns each unset slot of this polygon the same slot of `source`;
        a missing `source` is refused before any slot is written. */
    method Merge(source: DynamicPolygon?) returns (outcome: Outcome)
      modifies this
      ensures source == null ==> outcome == Fail(DeveloperError("source is required."))
      ensures source == null ==> State() == old(State())
      ensures source != null ==> outcome == Pass
      ensures source != null ==> State() == MergeSlots(old(State()), old(source.State()))
      ensures source != null ==> source.State() == old(source.State())
    {
      if source == null {
        return Fail(DeveloperError("source is required."));
      }
      Assign(Show, DefaultValue(show, source.show));
      Assign(Material, DefaultValue(material, source.material));
      Assign(Height, DefaultValue(height, source.height));
      Assign(ExtrudedHeight, DefaultValue(extrudedHeight, source.extrudedHeight));
      Assign(Granularity, DefaultValue(granularity, source.granularity));
      Assign(StRotation, DefaultValue(stRotation, source.stRotation));
      Assign(Fill, DefaultValue(fill, source.fill));
      Assign(Outline, DefaultValue(outline, source.outline));
      Assign(OutlineColor, DefaultValue(outlineColor, source.outlineColor));
      outcome := Pass;
    }
  }

  /** A polygon cloned without a target shares nothing with the original:
      assigning a slot of the copy leaves the original as it was. */
  method CloneIsIndependent(p: DynamicPolygon, k: Slot, v: Option<Handle>) returns (c: DynamicPolygon)
    ensures fresh(c) && c != p
    ensures c.State() == old(p.State()).With(k, v)
    ensures p.State() == old(p.State())
  {
    c := p.Clone(null);
    c.Assign(k, v);
  }

  /** A polygon with its height set and its fill unset, merged with one that
      sets both: the height stays, the fill is taken from the source, and the
      fill is the only slot given a different handle. */
  method MergeFillsOnlyTheGap(h1: Handle, h2: Handle, f2: Handle)
    returns (bag1: DynamicPolygon, changed: set<Slot>)
    ensures bag1.height == Some(h1) && bag1.fill == Some(f2)
    ensures changed == {Fill}
  {
    bag1 := new DynamicPolygon();
    bag1.Assign(Height, Some(h1));
    var bag2 := new DynamicPolygon();
    bag2.Assign(Height, Some(h2));
    bag2.Assign(Fill, Some(f2));
    var before := bag1.State();
    var outcome := bag1.Merge(bag2);
    changed := ChangedSlots(before, bag1.State());
    MergeChanges(before, bag2.State());
  }
}

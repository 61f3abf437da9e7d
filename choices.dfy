/** What the definition card offers the operator: the outcome types a
    slot's dropdown lists, whether "Add Outcome" shows, the criteria still
    to add, the tags and offers a picker lists, and the remove buttons.
    `Offered` collects these as the condition under which each edit can be
    made, and `OfferedEditKeepsWellFormed` shows that they keep a
    definition well formed. */
module Choices {
  import opened Wrappers
  import opened Seqs
  import opened Definitions
  import opened Collection
  import Catalog

  /** `outcomes.map(o => o.type)` */
  function TypesOf(outcomes: seq<OutcomeSlot>): (r: seq<string>)
    ensures |r| == |outcomes|
    ensures forall j :: 0 <= j < |outcomes| ==> r[j] == outcomes[j].outcomeType
  {
    seq(|outcomes|, j requires 0 <= j < |outcomes| => outcomes[j].outcomeType)
  }

  /** The types the other slots have chosen: `own`, the slot's own type, and
      the empty type are not among them. */
  function UsedTypes(outcomes: seq<OutcomeSlot>, own: string): (r: seq<string>)
    ensures forall t :: t in r <==> t in TypesOf(outcomes) && t != "" && t != own
  {
    Filter(TypesOf(outcomes), (t: string) => t != "" && t != own)
  }

  /** The entries of slot `i`'s type dropdown, in catalog order. */
  function AvailableTypes(outcomes: seq<OutcomeSlot>, i: nat): (r: seq<Catalog.OutcomeType>)
    requires i < |outcomes|
    ensures IsSubseq(r, Catalog.OutcomeTypes)
    ensures forall t :: t in r <==> t in Catalog.OutcomeTypes && t.key !in UsedTypes(outcomes, outcomes[i].outcomeType)
  {
    var used := UsedTypes(outcomes, outcomes[i].outcomeType);
    Filter(Catalog.OutcomeTypes, (t: Catalog.OutcomeType) => t.key !in used)
  }

  /** A catalog type is offered to slot `i` exactly when it is slot `i`'s own
      type or no slot has chosen it. */
  lemma AvailableTypesIff(outcomes: seq<OutcomeSlot>, i: nat, t: Catalog.OutcomeType)
    requires i < |outcomes|
    ensures t in AvailableTypes(outcomes, i) <==>
      t in Catalog.OutcomeTypes &&
      (t.key == outcomes[i].outcomeType || forall j :: 0 <= j < |outcomes| ==> outcomes[j].outcomeType != t.key)
  {
    if t in Catalog.OutcomeTypes {
      Catalog.CatalogTypeKey(t);
      var types := TypesOf(outcomes);
      if t.key in types {
        var j :| 0 <= j < |types| && types[j] == t.key;
        assert outcomes[j].outcomeType == t.key;
      }
    }
  }

  /** Under the distinct-types invariant, slot `i` is offered exactly the
      catalog types that no OTHER slot has chosen, so its own type stays
      selectable. */
  lemma {:induction false} AvailableTypesExcludeOthers(outcomes: seq<OutcomeSlot>, i: nat, t: Catalog.OutcomeType)
    requires i < |outcomes| && DistinctTypes(outcomes)
    ensures t in AvailableTypes(outcomes, i) <==>
      t in Catalog.OutcomeTypes && forall j :: 0 <= j < |outcomes| && j != i ==> outcomes[j].outcomeType != t.key
  {
    AvailableTypesIff(outcomes, i, t);
    if t in Catalog.OutcomeTypes {
      Catalog.CatalogTypeKey(t);
    }
  }

  /** `outcomes.map(o => o.type).filter(Boolean)` */
  function ChosenTypes(outcomes: seq<OutcomeSlot>): (r: seq<string>)
    ensures forall t :: t in r <==> t in TypesOf(outcomes) && t != ""
    ensures |r| <= |outcomes|
  {
    Filter(TypesOf(outcomes), (t: string) => t != "")
  }

  /** "Add Outcome" shows while fewer slots have a type than the catalog has types. */
  predicate CanAddOutcome(outcomes: seq<OutcomeSlot>) {
    |ChosenTypes(outcomes)| < |Catalog.OutcomeTypes|
  }

  lemma ChosenTypesNoDups(outcomes: seq<OutcomeSlot>)
    requires DistinctTypes(outcomes)
    ensures NoDups(ChosenTypes(outcomes))
  {
    FilterNoDups(TypesOf(outcomes), (t: string) => t != "");
  }

  lemma {:induction false} NoDupsSetSize<T>(s: seq<T>)
    requires NoDups(s)
    ensures |set x | x in s| == |s|
  {
    if s != [] {
      assert NoDups(s[1..]) by {
        forall i, j | 0 <= i < j < |s[1..]| ensures s[1..][i] != s[1..][j] {
          assert s[1..][i] == s[i + 1] && s[1..][j] == s[j + 1];
        }
      }
      NoDupsSetSize(s[1..]);
      assert (set x | x in s) == (set x | x in s[1..]) + {s[0]};
      assert s[0] !in s[1..];
    }
  }

  lemma SubsetOfSameSize<T>(a: set<T>, b: set<T>)
    requires a <= b && |a| >= |b|
    ensures a == b
  {
    if a != b {
      var y :| y in b && y !in a;
      assert a <= b - {y};
      assert |b - {y}| == |b| - 1;
      SubsetSize(a, b - {y});
      assert false;
    }
  }

  lemma SubsetSize<T>(a: set<T>, b: set<T>)
    requires a <= b
    ensures |a| <= |b|
  {
    assert b == a + (b - a);
  }

  /** The catalog's type keys are distinct, one per catalog entry. */
  lemma CatalogKeysNoDups()
    ensures NoDups(Catalog.OutcomeTypeKeys()) && |Catalog.OutcomeTypeKeys()| == |Catalog.OutcomeTypes|
  {
    Catalog.OutcomeTypeKeysDistinct();
  }

  /** When "Add Outcome" is not offered and the slots' types are distinct
      catalog keys, every catalog type is already taken, so an empty slot
      would be offered no type at all. */
  lemma {:induction false} NoTypeLeftWhenFull(outcomes: seq<OutcomeSlot>)
    requires DistinctTypes(outcomes) && KnownTypes(outcomes)
    requires !CanAddOutcome(outcomes)
    ensures forall t :: t in Catalog.OutcomeTypes ==> exists j :: 0 <= j < |outcomes| && outcomes[j].outcomeType == t.key
  {
    var chosen := ChosenTypes(outcomes);
    var types := TypesOf(outcomes);
    ChosenTypesNoDups(outcomes);
    NoDupsSetSize(chosen);
    var keys := Catalog.OutcomeTypeKeys();
    CatalogKeysNoDups();
    NoDupsSetSize(keys);
    var u := set x | x in chosen;
    var k := set x | x in keys;
    assert u <= k by {
      forall x | x in u ensures x in k {
        var j :| 0 <= j < |types| && types[j] == x;
        assert outcomes[j].outcomeType == x;
      }
    }
    SubsetOfSameSize(u, k);
    forall t | t in Catalog.OutcomeTypes
      ensures exists j :: 0 <= j < |outcomes| && outcomes[j].outcomeType == t.key
    {
      Catalog.CatalogTypeKey(t);
      assert t.key in u;
      var j :| 0 <= j < |types| && types[j] == t.key;
      assert outcomes[j].outcomeType == t.key;
    }
  }

  /** Conversely, once every catalog type is taken by a slot, "Add Outcome"
      is hidden. */
  lemma {:induction false} FullWhenNoTypeLeft(outcomes: seq<OutcomeSlot>)
    requires DistinctTypes(outcomes) && KnownTypes(outcomes)
    requires forall t :: t in Catalog.OutcomeTypes ==> exists j :: 0 <= j < |outcomes| && outcomes[j].outcomeType == t.key
    ensures !CanAddOutcome(outcomes)
  {
    var chosen := ChosenTypes(outcomes);
    ChosenTypesNoDups(outcomes);
    NoDupsSetSize(chosen);
    var keys := Catalog.OutcomeTypeKeys();
    CatalogKeysNoDups();
    NoDupsSetSize(keys);
    var u := set x | x in chosen;
    var k := set x | x in keys;
    assert k <= u by {
      forall x | x in k ensures x in u {
        var i :| 0 <= i < |keys| && keys[i] == x;
        var t := Catalog.OutcomeTypes[i];
        Catalog.CatalogTypeKey(t);
        var j :| 0 <= j < |outcomes| && outcomes[j].outcomeType == t.key;
        assert TypesOf(outcomes)[j] == x;
        assert x in TypesOf(outcomes) && x != "";
      }
    }
    SubsetSize(k, u);
    assert |keys| == |Catalog.OutcomeTypes|;
    assert |chosen| >= |Catalog.OutcomeTypes|;
  }

  /** "Add Outcome" is hidden exactly when every catalog type is taken. */
  lemma CanAddOutcomeIff(outcomes: seq<OutcomeSlot>)
    requires DistinctTypes(outcomes) && KnownTypes(outcomes)
    ensures !CanAddOutcome(outcomes) <==>
      forall t :: t in Catalog.OutcomeTypes ==> exists j :: 0 <= j < |outcomes| && outcomes[j].outcomeType == t.key
  {
    if !CanAddOutcome(outcomes) {
      NoTypeLeftWhenFull(outcomes);
    }
    if forall t :: t in Catalog.OutcomeTypes ==> exists j :: 0 <= j < |outcomes| && outcomes[j].outcomeType == t.key {
      FullWhenNoTypeLeft(outcomes);
    }
  }

  /** The "+ criterion" buttons: the catalog criteria not yet active, in catalog order. */
  function UnusedCriteria(d: OfferDefinition): (r: seq<Catalog.Criterion>)
    ensures IsSubseq(r, Catalog.AvailableCriteria)
    ensures forall c :: c in r <==> c in Catalog.AvailableCriteria && c.key !in d.criteria
  {
    Filter(Catalog.AvailableCriteria, (c: Catalog.Criterion) => c.key !in d.criteria)
  }

  /** The smart tags a picker lists (before its text search): those not
      already selected. */
  function SelectableTags(selected: seq<string>): (r: seq<Catalog.SmartTag>)
    ensures forall t :: t in r <==> t in Catalog.SmartTags && t.id !in selected
  {
    Filter(Catalog.SmartTags, (t: Catalog.SmartTag) => t.id !in selected)
  }

  /** The merchant offers a picker lists (before its text search): those
      not already selected. */
  function SelectableOffers(selected: seq<string>): (r: seq<Catalog.MerchantOffer>)
    ensures forall o :: o in r <==> o in Catalog.MerchantOffers && o.id !in selected
  {
    Filter(Catalog.MerchantOffers, (o: Catalog.MerchantOffer) => o.id !in selected)
  }

  /** The remove button of a definition shows while there is more than one. */
  predicate CanRemoveDef(defs: seq<OfferDefinition>) {
    |defs| > 1
  }

  /** The remove button of an outcome slot shows while there is more than one. */
  predicate CanRemoveOutcome(d: OfferDefinition) {
    |d.outcomes| > 1
  }

  /** Removing through an offered button never empties the list. */
  lemma OfferedRemovalKeepsOne(defs: seq<OfferDefinition>, id: nat)
    requires CanRemoveDef(defs) && DistinctIds(defs)
    ensures RemoveDefs(defs, id) != []
  {
    var r := RemoveDefs(defs, id);
    if defs[0].id == id {
      assert defs[1] in r;
    } else {
      assert defs[0] in r;
    }
  }

  /** The edits the card offers for a definition: the controls that exist
      and the choices their lists contain. */
  predicate Offered(d: OfferDefinition, e: DefEdit) {
    && EditInRange(d, e)
    && match e
       case ActivateCriterion(k) => exists c :: c in UnusedCriteria(d) && c.key == k
       case ToggleStatus(s) => s in Catalog.JourneyStatuses
       case PickCriteriaTag(t) => exists tag :: tag in SelectableTags(d.smartTags) && tag.id == t
       case SetFilter(k, f) => f.operator == NumericField(d, k).operator
       case NewOutcome => CanAddOutcome(d.outcomes)
       case DropOutcome(_) => CanRemoveOutcome(d)
       case SetOutcomeType(i, t) => t == "" || exists ot :: ot in AvailableTypes(d.outcomes, i) && ot.key == t
       case SetVariant(i, sub) =>
         Catalog.ShapeOf(d.outcomes[i].outcomeType).Some? && Catalog.ShapeOf(d.outcomes[i].outcomeType).value.Variants? &&
         exists v :: v in Catalog.ShapeOf(d.outcomes[i].outcomeType).value.variants && v.key == sub
       case PickSlotTag(i, t) =>
         Catalog.ShapeOf(d.outcomes[i].outcomeType) == Some(Catalog.SmartTagPicker) &&
         exists tag :: tag in SelectableTags(d.outcomes[i].smartTags) && tag.id == t
       case PickSlotOffer(i, o) =>
         Catalog.ShapeOf(d.outcomes[i].outcomeType) == Some(Catalog.MerchantOfferPicker) &&
         exists offer :: offer in SelectableOffers(d.outcomes[i].merchantOffers) && offer.id == o
       case _ => true
  }

  /** Removing a slot through its button leaves at least one slot. */
  lemma OfferedDropOutcomeKeepsOne(d: OfferDefinition, i: nat)
    requires Offered(d, DropOutcome(i))
    ensures ApplyEdit(d, DropOutcome(i)).outcomes != []
  {
  }

  lemma ReplaceSlotKeepsSlots(outcomes: seq<OutcomeSlot>, outs: seq<OutcomeSlot>, i: nat)
    requires i < |outcomes| && SlotsWellFormed(outcomes)
    requires |outs| == |outcomes| && forall j :: 0 <= j < |outcomes| && j != i ==> outs[j] == outcomes[j]
    requires outs[i].outcomeType == outcomes[i].outcomeType
    requires NoDups(outs[i].smartTags) && NoDups(outs[i].merchantOffers)
    ensures SlotsWellFormed(outs)
  {
  }

  lemma AppendEmptySlotKeepsSlots(outcomes: seq<OutcomeSlot>, outs: seq<OutcomeSlot>)
    requires SlotsWellFormed(outcomes)
    requires |outs| == |outcomes| + 1 && outs[..|outcomes|] == outcomes && outs[|outcomes|].Unset()
    ensures SlotsWellFormed(outs)
  {
    forall j | 0 <= j < |outcomes| ensures outs[j] == outcomes[j] {
      assert outs[..|outcomes|][j] == outs[j];
    }
  }

  lemma {:induction false} RemoveSlotKeepsSlots(outcomes: seq<OutcomeSlot>, i: nat)
    requires SlotsWellFormed(outcomes)
    ensures SlotsWellFormed(RemoveAt(outcomes, i))
  {
    var r := RemoveAt(outcomes, i);
    forall a, b | 0 <= a < |r| && 0 <= b < |r| && a != b && r[a].outcomeType != ""
      ensures r[a].outcomeType != r[b].outcomeType
    {
      var a' := if a < i then a else a + 1;
      var b' := if b < i then b else b + 1;
      assert r[a] == outcomes[a'] && r[b] == outcomes[b'];
    }
    forall a | 0 <= a < |r|
      ensures r[a].outcomeType == "" || r[a].outcomeType in Catalog.OutcomeTypeKeys()
      ensures NoDups(r[a].smartTags) && NoDups(r[a].merchantOffers)
    {
      var a' := if a < i then a else a + 1;
      assert r[a] == outcomes[a'];
    }
  }

  lemma {:induction false} RetypeSlotKeepsSlots(outcomes: seq<OutcomeSlot>, outs: seq<OutcomeSlot>, i: nat)
    requires i < |outcomes| && SlotsWellFormed(outcomes)
    requires |outs| == |outcomes| && forall j :: 0 <= j < |outcomes| && j != i ==> outs[j] == outcomes[j]
    requires outs[i].smartTags == [] && outs[i].merchantOffers == []
    requires outs[i].outcomeType == "" || exists ot :: ot in AvailableTypes(outcomes, i) && ot.key == outs[i].outcomeType
    ensures SlotsWellFormed(outs)
  {
    var t := outs[i].outcomeType;
    if t != "" {
      var ot :| ot in AvailableTypes(outcomes, i) && ot.key == t;
      AvailableTypesExcludeOthers(outcomes, i, ot);
      Catalog.CatalogTypeKey(ot);
    }
    forall a, b | 0 <= a < |outs| && 0 <= b < |outs| && a != b && outs[a].outcomeType != ""
      ensures outs[a].outcomeType != outs[b].outcomeType
    {
      if a != i && b != i {
        assert outs[a] == outcomes[a] && outs[b] == outcomes[b];
      }
    }
  }

  lemma OfferedNewOutcomeKeepsSlots(d: OfferDefinition)
    requires WellFormed(d) && Offered(d, NewOutcome)
    ensures SlotsWellFormed(ApplyEdit(d, NewOutcome).outcomes)
  {
    var os := d.outcomes;
    var outs := ApplyEdit(d, NewOutcome).outcomes;
    AppendEmptySlotKeepsSlots(os, outs);
  }

  lemma OfferedDropOutcomeKeepsSlots(d: OfferDefinition, i: nat)
    requires WellFormed(d) && Offered(d, DropOutcome(i))
    ensures SlotsWellFormed(ApplyEdit(d, DropOutcome(i)).outcomes)
  {
    var os := d.outcomes;
    var outs := ApplyEdit(d, DropOutcome(i)).outcomes;
    RemoveSlotKeepsSlots(os, i);
  }

  lemma OfferedSetOutcomeTypeKeepsSlots(d: OfferDefinition, i: nat, t: string)
    requires WellFormed(d) && Offered(d, SetOutcomeType(i, t))
    ensures SlotsWellFormed(ApplyEdit(d, SetOutcomeType(i, t)).outcomes)
  {
    var os := d.outcomes;
    var outs := ApplyEdit(d, SetOutcomeType(i, t)).outcomes;
    RetypeSlotKeepsSlots(os, outs, i);
  }

  lemma OfferedSetVariantKeepsSlots(d: OfferDefinition, i: nat, t: string)
    requires WellFormed(d) && Offered(d, SetVariant(i, t))
    ensures SlotsWellFormed(ApplyEdit(d, SetVariant(i, t)).outcomes)
  {
    var os := d.outcomes;
    var outs := ApplyEdit(d, SetVariant(i, t)).outcomes;
    ReplaceSlotKeepsSlots(os, outs, i);
  }

  lemma OfferedSetValueKeepsSlots(d: OfferDefinition, i: nat, t: string)
    requires WellFormed(d) && Offered(d, SetValue(i, t))
    ensures SlotsWellFormed(ApplyEdit(d, SetValue(i, t)).outcomes)
  {
    var os := d.outcomes;
    var outs := ApplyEdit(d, SetValue(i, t)).outcomes;
    ReplaceSlotKeepsSlots(os, outs, i);
  }

  lemma OfferedPickSlotTagKeepsSlots(d: OfferDefinition, i: nat, t: string)
    requires WellFormed(d) && Offered(d, PickSlotTag(i, t))
    ensures SlotsWellFormed(ApplyEdit(d, PickSlotTag(i, t)).outcomes)
  {
    var os := d.outcomes;
    var outs := ApplyEdit(d, PickSlotTag(i, t)).outcomes;
    var tag :| tag in SelectableTags(os[i].smartTags) && tag.id == t;
    AppendFreshKeepsNoDups(os[i].smartTags, t);
    ReplaceSlotKeepsSlots(os, outs, i);
  }

  lemma OfferedDropSlotTagKeepsSlots(d: OfferDefinition, i: nat, t: string)
    requires WellFormed(d) && Offered(d, DropSlotTag(i, t))
    ensures SlotsWellFormed(ApplyEdit(d, DropSlotTag(i, t)).outcomes)
  {
    var os := d.outcomes;
    var outs := ApplyEdit(d, DropSlotTag(i, t)).outcomes;
    WithoutKeepsNoDups(os[i].smartTags, t);
    ReplaceSlotKeepsSlots(os, outs, i);
  }

  lemma OfferedPickSlotOfferKeepsSlots(d: OfferDefinition, i: nat, t: string)
    requires WellFormed(d) && Offered(d, PickSlotOffer(i, t))
    ensures SlotsWellFormed(ApplyEdit(d, PickSlotOffer(i, t)).outcomes)
  {
    var os := d.outcomes;
    var outs := ApplyEdit(d, PickSlotOffer(i, t)).outcomes;
    var offer :| offer in SelectableOffers(os[i].merchantOffers) && offer.id == t;
    AppendFreshKeepsNoDups(os[i].merchantOffers, t);
    ReplaceSlotKeepsSlots(os, outs, i);
  }

  lemma OfferedDropSlotOfferKeepsSlots(d: OfferDefinition, i: nat, t: string)
    requires WellFormed(d) && Offered(d, DropSlotOffer(i, t))
    ensures SlotsWellFormed(ApplyEdit(d, DropSlotOffer(i, t)).outcomes)
  {
    var os := d.outcomes;
    var outs := ApplyEdit(d, DropSlotOffer(i, t)).outcomes;
    WithoutKeepsNoDups(os[i].merchantOffers, t);
    ReplaceSlotKeepsSlots(os, outs, i);
  }

  /** The slot list after an offered edit of the outcome section is still
      well formed. */
  lemma {:induction false} OfferedEditKeepsSlots(d: OfferDefinition, e: DefEdit)
    requires WellFormed(d) && Offered(d, e) && e.TouchesSlots()
    ensures SlotsWellFormed(ApplyEdit(d, e).outcomes)
  {
    match e
    case NewOutcome => OfferedNewOutcomeKeepsSlots(d);
    case DropOutcome(i) => OfferedDropOutcomeKeepsSlots(d, i);
    case SetOutcomeType(i, t) => OfferedSetOutcomeTypeKeepsSlots(d, i, t);
    case SetVariant(i, t) => OfferedSetVariantKeepsSlots(d, i, t);
    case SetValue(i, t) => OfferedSetValueKeepsSlots(d, i, t);
    case PickSlotTag(i, t) => OfferedPickSlotTagKeepsSlots(d, i, t);
    case DropSlotTag(i, t) => OfferedDropSlotTagKeepsSlots(d, i, t);
    case PickSlotOffer(i, t) => OfferedPickSlotOfferKeepsSlots(d, i, t);
    case DropSlotOffer(i, t) => OfferedDropSlotOfferKeepsSlots(d, i, t);
  }

  /** The other offered edits keep the criteria, statuses and tags
      duplicate-free. */
  lemma {:induction false} OfferedCardEditKeepsLists(d: OfferDefinition, e: DefEdit)
    requires WellFormed(d) && Offered(d, e) && !e.TouchesSlots()
    ensures var r := ApplyCardEdit(d, e);
      NoDups(r.criteria) && NoDups(r.journeyStatus) && NoDups(r.smartTags)
  {
    match e
    case ActivateCriterion(k) =>
      var c :| c in UnusedCriteria(d) && c.key == k;
      AppendFreshKeepsNoDups(d.criteria, k);
    case DeactivateCriterion(k) =>
      WithoutKeepsNoDups(d.criteria, k);
    case PickCriteriaTag(t) =>
      var tag :| tag in SelectableTags(d.smartTags) && tag.id == t;
      AppendFreshKeepsNoDups(d.smartTags, t);
    case DropCriteriaTag(t) =>
      WithoutKeepsNoDups(d.smartTags, t);
    case _ =>
  }

  /** Every edit the card offers keeps a well-formed definition well formed:
      criteria, statuses, tags and offers stay duplicate-free and the chosen
      outcome types stay distinct catalog keys. */
  lemma {:induction false} OfferedEditKeepsWellFormed(d: OfferDefinition, e: DefEdit)
    requires WellFormed(d) && Offered(d, e)
    ensures WellFormed(ApplyEdit(d, e))
  {
    if e.TouchesSlots() {
      OfferedEditKeepsSlots(d, e);
    } else {
      OfferedCardEditKeepsLists(d, e);
    }
  }
}

/** The ordered list of offer definitions the session owns: the edits
    `updateDef` applies to one definition, removal, and the pieces of
    duplication (lookup by id, the clone). */
module Collection {
  import opened Wrappers
  import opened Seqs
  import opened Definitions
  import Catalog

  /** Every change the definition card makes through `updateDef`. */
  datatype DefEdit =
    | Rename(newName: string)
    | ToggleCollapsed
    | ActivateCriterion(key: string)
    | DeactivateCriterion(key: string)
    | ToggleStatus(status: string)
    | PickCriteriaTag(tagId: string)
    | DropCriteriaTag(tagId: string)
    | SetFilter(filterKey: string, filter: NumericFilter)
    | SetFilterOperator(operatorKey: string, op: string)
    | NewOutcome
    | DropOutcome(dropIdx: nat)
    | SetOutcomeType(typeIdx: nat, newType: string)
    | SetVariant(variantIdx: nat, sub: string)
    | SetValue(valueIdx: nat, v: string)
    | PickSlotTag(tagIdx: nat, slotTagId: string)
    | DropSlotTag(untagIdx: nat, droppedTagId: string)
    | PickSlotOffer(offerIdx: nat, offerId: string)
    | DropSlotOffer(unofferIdx: nat, droppedOfferId: string)
    | NewEvent
    | DropEvent(eventIdx: nat)
    | EditEvent(ruleIdx: nat, ruleEdit: RuleEdit)
  {
    /** The edits made inside the outcome section of the card. */
    predicate TouchesSlots() {
      NewOutcome? || DropOutcome? || SetOutcomeType? || SetVariant? || SetValue? ||
      PickSlotTag? || DropSlotTag? || PickSlotOffer? || DropSlotOffer?
    }
  }

  /** What the code itself relies on: a numeric key for `def[key]`, an
      existing slot or rule for `arr[idx] = ...`, an attached clause for the
      controls that edit it. */
  predicate EditInRange(d: OfferDefinition, e: DefEdit) {
    match e
    case SetFilter(k, _) => k in NumericKeys
    case SetFilterOperator(k, _) => k in NumericKeys
    case SetOutcomeType(i, _) => i < |d.outcomes|
    case SetVariant(i, _) => i < |d.outcomes|
    case SetValue(i, _) => i < |d.outcomes|
    case PickSlotTag(i, _) => i < |d.outcomes|
    case DropSlotTag(i, _) => i < |d.outcomes|
    case PickSlotOffer(i, _) => i < |d.outcomes|
    case DropSlotOffer(i, _) => i < |d.outcomes|
    case EditEvent(i, re) => i < |d.events| && RuleEditEnabled(d.events[i], re)
    case _ => true
  }

  /** The definition `updateDef` stores for an edit; an edit never changes
      the definition's identity, the outcome section's edits change only the
      slot list and the other edits leave it alone. */
  function ApplyEdit(d: OfferDefinition, e: DefEdit): (r: OfferDefinition)
    requires EditInRange(d, e)
    ensures r.id == d.id
    ensures e.TouchesSlots() ==> r == d.(outcomes := r.outcomes)
    ensures !e.TouchesSlots() ==> r.outcomes == d.outcomes
  {
    if e.TouchesSlots() then ApplySlotEdit(d, e) else ApplyCardEdit(d, e)
  }

  /** The edits of the outcome section touch nothing but the slot list. */
  function ApplySlotEdit(d: OfferDefinition, e: DefEdit): (r: OfferDefinition)
    requires EditInRange(d, e) && e.TouchesSlots()
    ensures r == d.(outcomes := r.outcomes)
  {
    match e
    case NewOutcome => AddOutcome(d)
    case DropOutcome(i) => RemoveOutcome(d, i)
    case SetOutcomeType(i, t) => UpdateOutcome(d, i, ChangeOutcomeType(d.outcomes[i], t))
    case SetVariant(i, sub) => UpdateOutcome(d, i, ChangeVariant(d.outcomes[i], sub))
    case SetValue(i, v) => UpdateOutcome(d, i, SetOutcomeValue(d.outcomes[i], v))
    case PickSlotTag(i, t) => UpdateOutcome(d, i, AddSlotTag(d.outcomes[i], t))
    case DropSlotTag(i, t) => UpdateOutcome(d, i, RemoveSlotTag(d.outcomes[i], t))
    case PickSlotOffer(i, o) => UpdateOutcome(d, i, AddSlotOffer(d.outcomes[i], o))
    case DropSlotOffer(i, o) => UpdateOutcome(d, i, RemoveSlotOffer(d.outcomes[i], o))
  }

  /** The other edits of the card keep the identity and the slot list. */
  function ApplyCardEdit(d: OfferDefinition, e: DefEdit): (r: OfferDefinition)
    requires EditInRange(d, e) && !e.TouchesSlots()
    ensures r.id == d.id && r.outcomes == d.outcomes
  {
    match e
    case Rename(n) => d.(name := n)
    case ToggleCollapsed => d.(collapsed := !d.collapsed)
    case ActivateCriterion(k) => AddCriterion(d, k)
    case DeactivateCriterion(k) => RemoveCriterion(d, k)
    case ToggleStatus(s) => ToggleJourneyStatus(d, s)
    case PickCriteriaTag(t) => AddCriteriaTag(d, t)
    case DropCriteriaTag(t) => RemoveCriteriaTag(d, t)
    case SetFilter(k, f) => WithNumericField(d, k, f)
    case SetFilterOperator(k, op) => WithNumericField(d, k, ChangeOperator(NumericField(d, k), op))
    case NewEvent => AddEvent(d)
    case DropEvent(i) => RemoveEvent(d, i)
    case EditEvent(i, re) => UpdateEvent(d, i, ApplyRuleEdit(d.events[i], re))
  }

  /** `updateDef(defId, updater)`: every definition with the id is edited,
      every other one is left as it was, and the order is kept. */
  function UpdateDefs(defs: seq<OfferDefinition>, id: nat, e: DefEdit): (r: seq<OfferDefinition>)
    requires forall i :: 0 <= i < |defs| && defs[i].id == id ==> EditInRange(defs[i], e)
    ensures |r| == |defs|
    ensures forall i :: 0 <= i < |defs| ==> r[i] == (if defs[i].id == id then ApplyEdit(defs[i], e) else defs[i])
  {
    seq(|defs|, i requires 0 <= i < |defs| => if defs[i].id == id then ApplyEdit(defs[i], e) else defs[i])
  }

  /** `removeDef(defId)`: exactly the definitions with another id remain,
      in their order. */
  function RemoveDefs(defs: seq<OfferDefinition>, id: nat): (r: seq<OfferDefinition>)
    ensures forall d :: d in r <==> d in defs && d.id != id
    ensures IsSubseq(r, defs)
    ensures (forall i :: 0 <= i < |defs| ==> defs[i].id != id) ==> r == defs
  {
    var r := Filter(defs, (d: OfferDefinition) => d.id != id);
    assert (forall i :: 0 <= i < |defs| ==> defs[i].id != id) ==> r == defs by {
      if forall i :: 0 <= i < |defs| ==> defs[i].id != id {
        FilterAllKept(defs, (d: OfferDefinition) => d.id != id);
      }
    }
    r
  }

  lemma {:induction false} FilterAllKept<T(!new)>(s: seq<T>, p: T -> bool)
    requires forall i :: 0 <= i < |s| ==> p(s[i])
    ensures Filter(s, p) == s
  {
    if s != [] {
      FilterAllKept(s[1..], p);
    }
  }

  /** `defs.findIndex(d => d.id === id)`: the first position holding the id. */
  function IndexOf(defs: seq<OfferDefinition>, id: nat): (r: Option<nat>)
    ensures r.Some? ==> r.value < |defs| && defs[r.value].id == id
    ensures r.Some? ==> forall j :: 0 <= j < r.value ==> defs[j].id != id
    ensures r.None? <==> forall j :: 0 <= j < |defs| ==> defs[j].id != id
  {
    if defs == [] then None
    else if defs[0].id == id then Some(0)
    else
      match IndexOf(defs[1..], id)
      case Some(k) => Some(k + 1)
      case None => None
  }

  /** The copy `duplicateDef` inserts: a fresh id, expanded, the name
      suffixed " (copy)" unless it is empty, every other field the source's. */
  function Clone(src: OfferDefinition, newId: nat): (r: OfferDefinition)
    ensures r.id == newId && !r.collapsed
    ensures r.name == (if src.name == "" then "" else src.name + " (copy)")
    ensures r.(id := src.id, name := src.name, collapsed := src.collapsed) == src
  {
    src.(id := newId, name := if src.name != "" then src.name + " (copy)" else "", collapsed := false)
  }

  /** No two definitions share an id. */
  predicate DistinctIds(defs: seq<OfferDefinition>) {
    forall i, j :: 0 <= i < j < |defs| ==> defs[i].id != defs[j].id
  }

  /** Every id was drawn from the counter before it reached `next`. */
  predicate IdsBelow(defs: seq<OfferDefinition>, next: nat) {
    forall i :: 0 <= i < |defs| ==> defs[i].id < next
  }

  /** No two outcome slots of a definition share a chosen type. */
  predicate DistinctTypes(outcomes: seq<OutcomeSlot>) {
    forall i, j :: 0 <= i < |outcomes| && 0 <= j < |outcomes| && i != j && outcomes[i].outcomeType != "" ==>
      outcomes[i].outcomeType != outcomes[j].outcomeType
  }

  /** Every chosen outcome type is a catalog key. */
  predicate KnownTypes(outcomes: seq<OutcomeSlot>) {
    forall i :: 0 <= i < |outcomes| ==>
      outcomes[i].outcomeType == "" || outcomes[i].outcomeType in Catalog.OutcomeTypeKeys()
  }

  /** What the editing controls keep true of a definition: active criteria,
      selected statuses, tags and offers are duplicate-free, and the chosen
      outcome types are distinct catalog keys. */
  predicate WellFormed(d: OfferDefinition) {
    && NoDups(d.criteria)
    && NoDups(d.journeyStatus)
    && NoDups(d.smartTags)
    && SlotsWellFormed(d.outcomes)
  }

  /** The outcome slots of a well-formed definition: distinct catalog types
      and duplicate-free tag and offer selections. */
  predicate SlotsWellFormed(outcomes: seq<OutcomeSlot>) {
    && DistinctTypes(outcomes)
    && KnownTypes(outcomes)
    && (forall i :: 0 <= i < |outcomes| ==> NoDups(outcomes[i].smartTags) && NoDups(outcomes[i].merchantOffers))
  }

  /** A fresh definition satisfies the editing invariant. */
  lemma MakeOfferDefinitionWellFormed(id: nat)
    ensures WellFormed(MakeOfferDefinition(id))
  {
  }
}

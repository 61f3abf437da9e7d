/** The offer-definition data model of the Create Campaign wizard: the
    factories that build each part and the spread-based updaters the page
    applies to one definition, one outcome slot or one event rule. */
module Definitions {
  import opened Wrappers
  import opened Seqs
  import Catalog

  /** An "operator + operand(s)" filter over a numeric customer attribute.
      Operands are the text of a number input; `""` is empty. */
  datatype NumericFilter = NumericFilter(operator: string, value: string, valueMin: string, valueMax: string) {
    /** No operand holds anything. */
    predicate Cleared() {
      value == "" && valueMin == "" && valueMax == ""
    }
  }

  /** One typed effect of a definition; `outcomeType` is the source's `type`
      (a keyword here), `""` until one is chosen. */
  datatype OutcomeSlot = OutcomeSlot(outcomeType: string, subType: string, value: string, smartTags: seq<string>, merchantOffers: seq<string>) {
    /** Nothing chosen or entered yet. */
    predicate Unset() {
      outcomeType == "" && subType == "" && value == "" && smartTags == [] && merchantOffers == []
    }
  }

  datatype Frequency = Frequency(operator: string, value: string)

  datatype TimeWindow = TimeWindow(value: string, unit: string)

  /** A behavioural clause; `None` for `frequency`/`timeWindow` is the source's `null`. */
  datatype EventRule = EventRule(eventType: string, eventTarget: string, frequency: Option<Frequency>, timeWindow: Option<TimeWindow>)

  /** One incentive definition. `id` is the counter value behind the
      source's `od_<n>` identifier. */
  datatype OfferDefinition = OfferDefinition(
    id: nat,
    name: string,
    collapsed: bool,
    journeyStatus: seq<string>,
    criteria: seq<string>,
    propensity: NumericFilter,
    decile: NumericFilter,
    currentRoi: NumericFilter,
    smartTags: seq<string>,
    events: seq<EventRule>,
    outcomes: seq<OutcomeSlot>)

  // ---------------------------------------------------------------- factories

  /** `makeNumericState()` */
  function MakeNumericState(): (f: NumericFilter)
    ensures f.operator == "RANGE" && f.Cleared()
  {
    NumericFilter("RANGE", "", "", "")
  }

  /** The keys whose backing field is a numeric filter (`def[key]`). */
  const NumericKeys: set<string> := {"propensity", "decile", "currentRoi"}

  /** The canonical filter of a numeric criterion, used both when a
      definition is made and when the criterion is removed: `GT` for current
      ROI, `RANGE` for the others, operands empty. */
  function DefaultFilter(key: string): (f: NumericFilter)
    ensures f.Cleared()
    ensures f.operator == (if key == "currentRoi" then "GT" else "RANGE")
  {
    if key == "currentRoi" then MakeNumericState().(operator := "GT") else MakeNumericState()
  }

  /** `makeOutcome()` */
  function MakeOutcome(): (o: OutcomeSlot)
    ensures o.Unset()
  {
    OutcomeSlot("", "", "", [], [])
  }

  /** `makeEventRule()` */
  function MakeEventRule(): (r: EventRule)
    ensures r.eventType == "" && r.eventTarget == ""
    ensures r.frequency.None? && r.timeWindow.None?
  {
    EventRule("", "", None, None)
  }

  /** `def[key]` for a numeric criterion key. */
  function NumericField(d: OfferDefinition, key: string): NumericFilter
    requires key in NumericKeys
  {
    if key == "propensity" then d.propensity
    else if key == "decile" then d.decile
    else d.currentRoi
  }

  /** `makeOfferDefinition()` with the counter value `id`: unnamed, expanded,
      no active criteria, every numeric filter at its default, no events and
      one empty outcome slot. */
  function MakeOfferDefinition(id: nat): (d: OfferDefinition)
    ensures d.id == id && d.name == "" && !d.collapsed
    ensures d.criteria == [] && d.journeyStatus == [] && d.smartTags == [] && d.events == []
    ensures forall k :: k in NumericKeys ==> NumericField(d, k) == DefaultFilter(k)
    ensures |d.outcomes| == 1 && d.outcomes[0].Unset()
  {
    OfferDefinition(id, "", false, [], [], MakeNumericState(), MakeNumericState(),
      MakeNumericState().(operator := "GT"), [], [], [MakeOutcome()])
  }

  // ------------------------------------------------------- numeric filters

  /** `{ ...def, [key]: f }` for a numeric criterion key: that field becomes
      `f`, nothing else changes. */
  function WithNumericField(d: OfferDefinition, key: string, f: NumericFilter): (r: OfferDefinition)
    requires key in NumericKeys
    ensures NumericField(r, key) == f
    ensures forall k :: k in NumericKeys && k != key ==> NumericField(r, k) == NumericField(d, k)
    ensures r.(propensity := d.propensity, decile := d.decile, currentRoi := d.currentRoi) == d
  {
    if key == "propensity" then d.(propensity := f)
    else if key == "decile" then d.(decile := f)
    else d.(currentRoi := f)
  }

  /** Choosing a new operator in a numeric filter block: the operator is
      stored and all three operands are emptied, whatever they held. */
  function ChangeOperator(f: NumericFilter, op: string): (r: NumericFilter)
    ensures r.operator == op && r.Cleared()
  {
    f.(operator := op, value := "", valueMin := "", valueMax := "")
  }

  // -------------------------------------------------------------- criteria

  /** `addCriteria`: the key is appended unconditionally; nothing else changes. */
  function AddCriterion(d: OfferDefinition, key: string): (r: OfferDefinition)
    ensures r.criteria == d.criteria + [key]
    ensures r.(criteria := d.criteria) == d
  {
    d.(criteria := d.criteria + [key])
  }

  /** `removeCriteria`: every occurrence of the key leaves `criteria` (the
      others keep their order and multiplicity) and only the key's own
      backing field returns to its default. */
  function RemoveCriterion(d: OfferDefinition, key: string): (r: OfferDefinition)
    ensures multiset(r.criteria) == multiset(d.criteria)[key := 0]
    ensures IsSubseq(r.criteria, d.criteria)
    ensures r.journeyStatus == (if key == "journeyStatus" then [] else d.journeyStatus)
    ensures r.smartTags == (if key == "smartTags" then [] else d.smartTags)
    ensures forall k :: k in NumericKeys ==>
      NumericField(r, k) == (if k == key then DefaultFilter(k) else NumericField(d, k))
    ensures r.id == d.id && r.name == d.name && r.collapsed == d.collapsed
    ensures r.events == d.events && r.outcomes == d.outcomes
  {
    var updated := d.(criteria := Without(d.criteria, key));
    var u1 := if key == "journeyStatus" then updated.(journeyStatus := []) else updated;
    var u2 := if key == "smartTags" then u1.(smartTags := []) else u1;
    var u3 := if key == "propensity" then u2.(propensity := MakeNumericState()) else u2;
    var u4 := if key == "decile" then u3.(decile := MakeNumericState()) else u3;
    if key == "currentRoi" then u4.(currentRoi := MakeNumericState().(operator := "GT")) else u4
  }

  /** Clicking a journey-status button: a selected status is deselected, an
      unselected one is appended; the other statuses are unaffected. */
  function ToggleJourneyStatus(d: OfferDefinition, status: string): (r: OfferDefinition)
    ensures status in r.journeyStatus <==> status !in d.journeyStatus
    ensures forall s :: s != status ==> (s in r.journeyStatus <==> s in d.journeyStatus)
    ensures NoDups(d.journeyStatus) ==> NoDups(r.journeyStatus)
    ensures r.(journeyStatus := d.journeyStatus) == d
  {
    if status in d.journeyStatus then
      var kept := Without(d.journeyStatus, status);
      assert forall s :: s in kept <==> s in multiset(kept);
      WithoutKeepsNoDups(d.journeyStatus, status);
      d.(journeyStatus := kept)
    else
      d.(journeyStatus := d.journeyStatus + [status])
  }

  /** Picking a tag in the smart-tag criterion. */
  function AddCriteriaTag(d: OfferDefinition, tagId: string): (r: OfferDefinition)
    ensures r.smartTags == d.smartTags + [tagId]
    ensures r.(smartTags := d.smartTags) == d
  {
    d.(smartTags := d.smartTags + [tagId])
  }

  /** Removing a tag chip in the smart-tag criterion. */
  function RemoveCriteriaTag(d: OfferDefinition, tagId: string): (r: OfferDefinition)
    ensures r.smartTags == Without(d.smartTags, tagId)
    ensures tagId !in r.smartTags
    ensures forall t :: t != tagId ==> (t in r.smartTags <==> t in d.smartTags)
    ensures r.(smartTags := d.smartTags) == d
  {
    var kept := Without(d.smartTags, tagId);
    assert forall t :: t in kept <==> t in multiset(kept);
    d.(smartTags := kept)
  }

  // -------------------------------------------------------------- outcomes

  /** `parent?.subTypes?.[0]?.key || ''`: the first variant key of an
      outcome type, `""` when the type is unknown or has no variants. */
  function FirstVariantKey(outcomeType: string): (k: string)
    ensures k != "" ==> Catalog.OutcomeTypeOf(outcomeType).Some?
    ensures k != "" ==> Catalog.OutcomeTypeOf(outcomeType).value.shape.Variants?
    ensures k != "" ==> Catalog.OutcomeTypeOf(outcomeType).value.shape.variants != []
    ensures k != "" ==> Catalog.OutcomeTypeOf(outcomeType).value.shape.variants[0].key == k
    ensures var p := Catalog.OutcomeTypeOf(outcomeType);
      p.Some? && p.value.shape.Variants? && p.value.shape.variants != [] ==> k == p.value.shape.variants[0].key
  {
    match Catalog.OutcomeTypeOf(outcomeType)
    case Some(p) =>
      (match p.shape
       case Variants(vs) => if vs != [] && vs[0].key != "" then vs[0].key else ""
       case _ => "")
    case None => ""
  }

  /** Choosing an outcome type: the new type is stored, the variant becomes
      the type's first variant (or `""`), and the value and both pick lists
      are emptied, whatever the slot held before. */
  function ChangeOutcomeType(o: OutcomeSlot, t: string): (r: OutcomeSlot)
    ensures r.outcomeType == t && r.subType == FirstVariantKey(t)
    ensures r.value == "" && r.smartTags == [] && r.merchantOffers == []
  {
    o.(outcomeType := t, subType := FirstVariantKey(t), value := "", smartTags := [], merchantOffers := [])
  }

  /** Clicking a variant button: the variant is stored and the value emptied. */
  function ChangeVariant(o: OutcomeSlot, sub: string): (r: OutcomeSlot)
    ensures r.subType == sub && r.value == ""
    ensures r.(subType := o.subType, value := o.value) == o
  {
    o.(subType := sub, value := "")
  }

  /** Typing in a variant's value input. */
  function SetOutcomeValue(o: OutcomeSlot, v: string): (r: OutcomeSlot)
    ensures r.value == v && r.(value := o.value) == o
  {
    o.(value := v)
  }

  /** Picking a tag in a smart-tag outcome. */
  function AddSlotTag(o: OutcomeSlot, tagId: string): (r: OutcomeSlot)
    ensures r.smartTags == o.smartTags + [tagId] && r.(smartTags := o.smartTags) == o
  {
    o.(smartTags := o.smartTags + [tagId])
  }

  /** Removing a tag chip in a smart-tag outcome. */
  function RemoveSlotTag(o: OutcomeSlot, tagId: string): (r: OutcomeSlot)
    ensures r.smartTags == Without(o.smartTags, tagId)
    ensures tagId !in r.smartTags
    ensures forall t :: t != tagId ==> (t in r.smartTags <==> t in o.smartTags)
    ensures r.(smartTags := o.smartTags) == o
  {
    var kept := Without(o.smartTags, tagId);
    assert forall t :: t in kept <==> t in multiset(kept);
    o.(smartTags := kept)
  }

  /** Picking an offer in a merchant-offer outcome. */
  function AddSlotOffer(o: OutcomeSlot, offerId: string): (r: OutcomeSlot)
    ensures r.merchantOffers == o.merchantOffers + [offerId] && r.(merchantOffers := o.merchantOffers) == o
  {
    o.(merchantOffers := o.merchantOffers + [offerId])
  }

  /** Removing an offer card in a merchant-offer outcome. */
  function RemoveSlotOffer(o: OutcomeSlot, offerId: string): (r: OutcomeSlot)
    ensures r.merchantOffers == Without(o.merchantOffers, offerId)
    ensures offerId !in r.merchantOffers
    ensures forall t :: t != offerId ==> (t in r.merchantOffers <==> t in o.merchantOffers)
    ensures r.(merchantOffers := o.merchantOffers) == o
  {
    var kept := Without(o.merchantOffers, offerId);
    assert forall t :: t in kept <==> t in multiset(kept);
    o.(merchantOffers := kept)
  }

  /** `updateOutcome`: slot `idx` is replaced, the other slots and every
      other field are unchanged. */
  function UpdateOutcome(d: OfferDefinition, idx: nat, slot: OutcomeSlot): (r: OfferDefinition)
    requires idx < |d.outcomes|
    ensures |r.outcomes| == |d.outcomes| && r.outcomes[idx] == slot
    ensures forall j :: 0 <= j < |d.outcomes| && j != idx ==> r.outcomes[j] == d.outcomes[j]
    ensures r.(outcomes := d.outcomes) == d
  {
    d.(outcomes := d.outcomes[idx := slot])
  }

  /** `addOutcome`: an empty slot is appended. */
  function AddOutcome(d: OfferDefinition): (r: OfferDefinition)
    ensures |r.outcomes| == |d.outcomes| + 1 && r.outcomes[..|d.outcomes|] == d.outcomes
    ensures r.outcomes[|d.outcomes|].Unset()
    ensures r.(outcomes := d.outcomes) == d
  {
    d.(outcomes := d.outcomes + [MakeOutcome()])
  }

  /** `removeOutcome`: the slot at `idx` goes (none when `idx` is past the end). */
  function RemoveOutcome(d: OfferDefinition, idx: nat): (r: OfferDefinition)
    ensures r.outcomes == RemoveAt(d.outcomes, idx)
    ensures r.(outcomes := d.outcomes) == d
  {
    d.(outcomes := RemoveAt(d.outcomes, idx))
  }

  // ---------------------------------------------------------------- events

  /** `addEvent`: an empty event rule is appended. */
  function AddEvent(d: OfferDefinition): (r: OfferDefinition)
    ensures |r.events| == |d.events| + 1 && r.events[..|d.events|] == d.events
    ensures r.events[|d.events|] == MakeEventRule()
    ensures r.(events := d.events) == d
  {
    d.(events := d.events + [MakeEventRule()])
  }

  /** `removeEvent`: the rule at `idx` goes (none when `idx` is past the end). */
  function RemoveEvent(d: OfferDefinition, idx: nat): (r: OfferDefinition)
    ensures r.events == RemoveAt(d.events, idx)
    ensures r.(events := d.events) == d
  {
    d.(events := RemoveAt(d.events, idx))
  }

  /** `updateEvent`: rule `idx` is replaced, nothing else changes. */
  function UpdateEvent(d: OfferDefinition, idx: nat, rule: EventRule): (r: OfferDefinition)
    requires idx < |d.events|
    ensures |r.events| == |d.events| && r.events[idx] == rule
    ensures forall j :: 0 <= j < |d.events| && j != idx ==> r.events[j] == d.events[j]
    ensures r.(events := d.events) == d
  {
    d.(events := d.events[idx := rule])
  }

  /** "+ Frequency": a frequency clause `>= (empty)` is attached. */
  function AttachFrequency(rule: EventRule): (r: EventRule)
    ensures r.frequency == Some(Frequency("GTE", ""))
    ensures r.(frequency := rule.frequency) == rule
  {
    rule.(frequency := Some(Frequency("GTE", "")))
  }

  /** The frequency row's remove button: the clause is detached. */
  function DetachFrequency(rule: EventRule): (r: EventRule)
    ensures r.frequency.None? && r.(frequency := rule.frequency) == rule
  {
    rule.(frequency := None)
  }

  /** "+ Time Window": a window of (empty) days is attached. */
  function AttachTimeWindow(rule: EventRule): (r: EventRule)
    ensures r.timeWindow == Some(TimeWindow("", "days"))
    ensures r.(timeWindow := rule.timeWindow) == rule
  {
    rule.(timeWindow := Some(TimeWindow("", "days")))
  }

  /** The time-window row's remove button: the clause is detached. */
  function DetachTimeWindow(rule: EventRule): (r: EventRule)
    ensures r.timeWindow.None? && r.(timeWindow := rule.timeWindow) == rule
  {
    rule.(timeWindow := None)
  }

  /** The changes an event-rule card reports through `onUpdate`. */
  datatype RuleEdit =
    | SetEventType(eventType: string)
    | SetEventTarget(target: string)
    | AddFrequency
    | DropFrequency
    | SetFrequencyOperator(op: string)
    | SetFrequencyValue(fv: string)
    | AddTimeWindow
    | DropTimeWindow
    | SetTimeWindowValue(tv: string)
    | SetTimeWindowUnit(unit: string)

  /** The controls that edit or remove a clause exist only while the clause
      is attached, and its "+" button only while it is not. */
  predicate RuleEditEnabled(rule: EventRule, e: RuleEdit) {
    match e
    case AddFrequency => rule.frequency.None?
    case DropFrequency => rule.frequency.Some?
    case AddTimeWindow => rule.timeWindow.None?
    case DropTimeWindow => rule.timeWindow.Some?
    case SetFrequencyOperator(_) => rule.frequency.Some?
    case SetFrequencyValue(_) => rule.frequency.Some?
    case SetTimeWindowValue(_) => rule.timeWindow.Some?
    case SetTimeWindowUnit(_) => rule.timeWindow.Some?
    case _ => true
  }

  /** The rule an event-rule card hands to `onUpdate` for each control. */
  function ApplyRuleEdit(rule: EventRule, e: RuleEdit): (r: EventRule)
    requires RuleEditEnabled(rule, e)
    ensures r.frequency.Some? <==> (match e
      case AddFrequency => true
      case DropFrequency => false
      case _ => rule.frequency.Some?)
    ensures r.timeWindow.Some? <==> (match e
      case AddTimeWindow => true
      case DropTimeWindow => false
      case _ => rule.timeWindow.Some?)
    ensures e.SetEventType? ==> r == rule.(eventType := e.eventType)
    ensures e.SetEventTarget? ==> r == rule.(eventTarget := e.target)
    ensures e.SetFrequencyOperator? ==>
      r == rule.(frequency := Some(Frequency(e.op, rule.frequency.value.value)))
    ensures e.SetFrequencyValue? ==>
      r == rule.(frequency := Some(Frequency(rule.frequency.value.operator, e.fv)))
    ensures e.SetTimeWindowValue? ==>
      r == rule.(timeWindow := Some(TimeWindow(e.tv, rule.timeWindow.value.unit)))
    ensures e.SetTimeWindowUnit? ==>
      r == rule.(timeWindow := Some(TimeWindow(rule.timeWindow.value.value, e.unit)))
    ensures e.AddFrequency? ==> r == AttachFrequency(rule)
    ensures e.DropFrequency? ==> r == DetachFrequency(rule)
    ensures e.AddTimeWindow? ==> r == AttachTimeWindow(rule)
    ensures e.DropTimeWindow? ==> r == DetachTimeWindow(rule)
  {
    match e
    case SetEventType(t) => rule.(eventType := t)
    case SetEventTarget(t) => rule.(eventTarget := t)
    case AddFrequency => AttachFrequency(rule)
    case DropFrequency => DetachFrequency(rule)
    case SetFrequencyOperator(op) => rule.(frequency := Some(rule.frequency.value.(operator := op)))
    case SetFrequencyValue(v) => rule.(frequency := Some(rule.frequency.value.(value := v)))
    case AddTimeWindow => AttachTimeWindow(rule)
    case DropTimeWindow => DetachTimeWindow(rule)
    case SetTimeWindowValue(v) => rule.(timeWindow := Some(rule.timeWindow.value.(value := v)))
    case SetTimeWindowUnit(u) => rule.(timeWindow := Some(rule.timeWindow.value.(unit := u)))
  }

  // -------------------------------------------------------------- round trips

  /** Activating an inactive criterion and removing it again leaves the
      criteria list as it was; only the key's backing field is reset. */
  lemma AddThenRemoveCriterion(d: OfferDefinition, key: string)
    requires key !in d.criteria
    ensures var r := RemoveCriterion(AddCriterion(d, key), key);
      r.criteria == d.criteria && r.events == d.events && r.outcomes == d.outcomes
  {
    WithoutUndoesAppend(d.criteria, key);
  }

  /** Clicking an unselected status twice restores the definition. */
  lemma ToggleStatusTwice(d: OfferDefinition, status: string)
    requires status !in d.journeyStatus
    ensures ToggleJourneyStatus(ToggleJourneyStatus(d, status), status) == d
  {
    WithoutUndoesAppend(d.journeyStatus, status);
  }

  /** Picking a tag that was not picked and removing its chip restores the
      definition, in the criterion and in an outcome slot alike. */
  lemma PickThenDropTag(d: OfferDefinition, o: OutcomeSlot, tagId: string)
    ensures tagId !in d.smartTags ==> RemoveCriteriaTag(AddCriteriaTag(d, tagId), tagId) == d
    ensures tagId !in o.smartTags ==> RemoveSlotTag(AddSlotTag(o, tagId), tagId) == o
  {
    if tagId !in d.smartTags {
      WithoutUndoesAppend(d.smartTags, tagId);
    }
    if tagId !in o.smartTags {
      WithoutUndoesAppend(o.smartTags, tagId);
    }
  }

  /** Picking an offer that was not picked and removing it restores the slot. */
  lemma PickThenDropOffer(o: OutcomeSlot, offerId: string)
    requires offerId !in o.merchantOffers
    ensures RemoveSlotOffer(AddSlotOffer(o, offerId), offerId) == o
  {
    WithoutUndoesAppend(o.merchantOffers, offerId);
  }

  /** Attaching a clause to a rule without it and detaching it again gives
      the rule back. */
  lemma AttachThenDetach(rule: EventRule)
    ensures rule.frequency.None? ==> DetachFrequency(AttachFrequency(rule)) == rule
    ensures rule.timeWindow.None? ==> DetachTimeWindow(AttachTimeWindow(rule)) == rule
  {
  }
}

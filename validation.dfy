/** `validateStep`: the error map each step of the wizard produces before
    the operator may move on. The map is built by successive writes, some
    of which overwrite an earlier message under the same key; the functions
    below follow those writes level by level (campaign fields, each
    definition, each outcome slot, each event rule) and their contracts say,
    key by key, which message ends up in the map. `CollectErrors` is the
    loop that fills the map, proved to produce `StepErrors`. */
module Validation {
  import opened Wrappers
  import opened Definitions
  import opened Collection
  import Catalog
  import Seqs

  /** A date input's value: empty, or an instant (date and time) as a comparable number. */
  datatype DateField = NoDate | Date(at: int)

  /** The keys of the error map. The source builds them as strings
      (`title`, `def_<id>_oc_<i>_type`, ...); each shape is a constructor
      here, carrying the definition id and the slot or rule index. */
  datatype ErrorKey =
    | Title
    | StartDate
    | EndDate
    | Offers
    | DefName(defId: nat)
    | DefOutcomes(defId: nat)
    | SlotType(defId: nat, index: nat)
    | SlotVariant(defId: nat, index: nat)
    | SlotValue(defId: nat, index: nat)
    | RuleType(defId: nat, index: nat)
    | RuleTarget(defId: nat, index: nat)
    | RuleFrequency(defId: nat, index: nat)
    | RuleTimeWindow(defId: nat, index: nat)
  {
    /** The keys about one definition. */
    predicate HasDef() {
      !(Title? || StartDate? || EndDate? || Offers?)
    }

    /** The keys about one outcome slot of a definition. */
    predicate IsSlotKey() {
      SlotType? || SlotVariant? || SlotValue?
    }

    /** The keys about one event rule of a definition. */
    predicate IsRuleKey() {
      RuleType? || RuleTarget? || RuleFrequency? || RuleTimeWindow?
    }
  }

  type Errors = map<ErrorKey, string>

  const TitleRequired := "Title is required"
  const TitleTooLong := "Title must be under 100 characters"
  const StartRequired := "Start date is required"
  const EndRequired := "End date is required"
  const EndNotAfterStart := "End date must be after start date"
  const OffersRequired := "At least one incentive definition is required."
  const NameRequired := "Name is required"
  const OutcomesRequired := "At least one outcome is required"
  const TypeRequired := "Outcome type is required"
  const VariantRequired := "Variant is required"
  const ValueRequired := "Value is required"
  const TagsRequired := "Select at least one smart tag"
  const MerchantOffersRequired := "Select at least one merchant offer"
  const EventTypeRequired := "Event type is required"
  const EventTargetRequired := "Event target is required"
  const FrequencyValueRequired := "Frequency value is required"
  const TimeWindowValueRequired := "Time window value is required"

  /** The characters `String.prototype.trim` strips: white space and line
      terminators as ECMAScript defines them. */
  predicate IsWhitespace(c: char) {
    || c == '\t' || c == '\n' || c == '\U{000B}' || c == '\U{000C}' || c == '\r' || c == ' '
    || c == '\U{00A0}' || c == '\U{1680}' || ('\U{2000}' <= c <= '\U{200A}')
    || c == '\U{2028}' || c == '\U{2029}' || c == '\U{202F}' || c == '\U{205F}'
    || c == '\U{3000}' || c == '\U{FEFF}'
  }

  /** `!s.trim()`: nothing but white space is left after trimming. */
  predicate IsBlank(s: string) {
    forall i :: 0 <= i < |s| ==> IsWhitespace(s[i])
  }

  // ---------------------------------------------------------------- step 0

  /** The checks of the first step, in the source's order: a long title
      replaces the "required" message, and dates out of order replace the
      end date's. */
  function Step0Errors(title: string, startDate: DateField, endDate: DateField): (r: Errors)
    ensures Title in r <==> IsBlank(title) || |title| > 100
    ensures Title in r ==> r[Title] == (if |title| > 100 then TitleTooLong else TitleRequired)
    ensures StartDate in r <==> startDate.NoDate?
    ensures StartDate in r ==> r[StartDate] == StartRequired
    ensures EndDate in r <==> endDate.NoDate? || (startDate.Date? && endDate.Date? && startDate.at >= endDate.at)
    ensures EndDate in r ==> r[EndDate] == (if endDate.NoDate? then EndRequired else EndNotAfterStart)
    ensures forall k :: k in r ==> k.Title? || k.StartDate? || k.EndDate?
  {
    var e1 := if IsBlank(title) then map[Title := TitleRequired] else map[];
    var e2 := if |title| > 100 then e1[Title := TitleTooLong] else e1;
    var e3 := if startDate.NoDate? then e2[StartDate := StartRequired] else e2;
    var e4 := if endDate.NoDate? then e3[EndDate := EndRequired] else e3;
    if startDate.Date? && endDate.Date? && startDate.at >= endDate.at then e4[EndDate := EndNotAfterStart] else e4
  }

  // ---------------------------------------------------------------- step 1, per slot

  /** The message a slot's value field gets, by the input its type shows. */
  function ValueProblem(o: OutcomeSlot): (r: Option<string>)
    ensures r.Some? ==> Catalog.ShapeOf(o.outcomeType).Some?
  {
    match Catalog.ShapeOf(o.outcomeType)
    case Some(Variants(_)) => if o.subType != "" && o.value == "" then Some(ValueRequired) else None
    case Some(SmartTagPicker) => if o.smartTags == [] then Some(TagsRequired) else None
    case Some(MerchantOfferPicker) => if o.merchantOffers == [] then Some(MerchantOffersRequired) else None
    case None => None
  }

  /** The message slot `oi` of definition `id` leaves under key `k`. */
  function SlotProblem(id: nat, oi: nat, o: OutcomeSlot, k: ErrorKey): (r: Option<string>)
    ensures r.Some? ==> k.IsSlotKey() && k.defId == id && k.index == oi
  {
    if !(k.IsSlotKey() && k.defId == id && k.index == oi) then None
    else match k
      case SlotType(_, _) => if o.outcomeType == "" then Some(TypeRequired) else None
      case SlotVariant(_, _) =>
        var shape := Catalog.ShapeOf(o.outcomeType);
        if shape.Some? && shape.value.Variants? && o.subType == "" then Some(VariantRequired) else None
      case SlotValue(_, _) => ValueProblem(o)
  }

  /** The writes for one slot, in the source's order. */
  function WriteSlot(errs: Errors, id: nat, oi: nat, o: OutcomeSlot): (r: Errors)
    ensures forall k :: k in r <==> k in errs || SlotProblem(id, oi, o, k).Some?
    ensures forall k :: k in r ==> r[k] == (if SlotProblem(id, oi, o, k).Some? then SlotProblem(id, oi, o, k).value else errs[k])
  {
    var shape := Catalog.ShapeOf(o.outcomeType);
    var e1 := if o.outcomeType == "" then errs[SlotType(id, oi) := TypeRequired] else errs;
    var e2 := if shape.Some? && shape.value.Variants? then
        var a := if o.subType == "" then e1[SlotVariant(id, oi) := VariantRequired] else e1;
        if o.subType != "" && o.value == "" then a[SlotValue(id, oi) := ValueRequired] else a
      else e1;
    var e3 := if shape == Some(Catalog.SmartTagPicker) && |o.smartTags| == 0 then e2[SlotValue(id, oi) := TagsRequired] else e2;
    if shape == Some(Catalog.MerchantOfferPicker) && |o.merchantOffers| == 0 then e3[SlotValue(id, oi) := MerchantOffersRequired] else e3
  }

  /** The message the slots of definition `id` leave under key `k`. */
  function SlotsProblem(id: nat, os: seq<OutcomeSlot>, k: ErrorKey): (r: Option<string>)
    ensures r.Some? ==> k.IsSlotKey() && k.defId == id && k.index < |os|
  {
    if k.IsSlotKey() && k.defId == id && k.index < |os| then SlotProblem(id, k.index, os[k.index], k) else None
  }

  /** `def.outcomes.forEach(...)`: the writes for every slot, in order. */
  function WriteSlots(errs: Errors, id: nat, os: seq<OutcomeSlot>): (r: Errors)
    ensures forall k :: k in r <==> k in errs || SlotsProblem(id, os, k).Some?
    ensures forall k :: k in r ==> r[k] == (if SlotsProblem(id, os, k).Some? then SlotsProblem(id, os, k).value else errs[k])
  {
    if os == [] then errs
    else
      var n := |os| - 1;
      var prev := WriteSlots(errs, id, os[..n]);
      assert forall k :: (SlotsProblem(id, os, k) ==
          (if SlotProblem(id, n, os[n], k).Some? then SlotProblem(id, n, os[n], k) else SlotsProblem(id, os[..n], k)));
      WriteSlot(prev, id, n, os[n])
  }

  // ---------------------------------------------------------------- step 1, per event rule

  /** The message rule `ei` of definition `id` leaves under key `k`. */
  function RuleProblem(id: nat, ei: nat, rule: EventRule, k: ErrorKey): (r: Option<string>)
    ensures r.Some? ==> k.IsRuleKey() && k.defId == id && k.index == ei
  {
    if !(k.IsRuleKey() && k.defId == id && k.index == ei) then None
    else match k
      case RuleType(_, _) => if rule.eventType == "" then Some(EventTypeRequired) else None
      case RuleTarget(_, _) => if rule.eventTarget == "" then Some(EventTargetRequired) else None
      case RuleFrequency(_, _) =>
        if rule.frequency.Some? && rule.frequency.value.value == "" then Some(FrequencyValueRequired) else None
      case RuleTimeWindow(_, _) =>
        if rule.timeWindow.Some? && rule.timeWindow.value.value == "" then Some(TimeWindowValueRequired) else None
  }

  /** The writes for one event rule, in the source's order. */
  function WriteRule(errs: Errors, id: nat, ei: nat, rule: EventRule): (r: Errors)
    ensures forall k :: k in r <==> k in errs || RuleProblem(id, ei, rule, k).Some?
    ensures forall k :: k in r ==> r[k] == (if RuleProblem(id, ei, rule, k).Some? then RuleProblem(id, ei, rule, k).value else errs[k])
  {
    var e1 := if rule.eventType == "" then errs[RuleType(id, ei) := EventTypeRequired] else errs;
    var e2 := if rule.eventTarget == "" then e1[RuleTarget(id, ei) := EventTargetRequired] else e1;
    var e3 := if rule.frequency.Some? && rule.frequency.value.value == "" then e2[RuleFrequency(id, ei) := FrequencyValueRequired] else e2;
    if rule.timeWindow.Some? && rule.timeWindow.value.value == "" then e3[RuleTimeWindow(id, ei) := TimeWindowValueRequired] else e3
  }

  /** The message the rules of definition `id` leave under key `k`. */
  function RulesProblem(id: nat, rules: seq<EventRule>, k: ErrorKey): (r: Option<string>)
    ensures r.Some? ==> k.IsRuleKey() && k.defId == id && k.index < |rules|
  {
    if k.IsRuleKey() && k.defId == id && k.index < |rules| then RuleProblem(id, k.index, rules[k.index], k) else None
  }

  /** `def.events.forEach(...)`: the writes for every rule, in order. */
  function WriteRules(errs: Errors, id: nat, rules: seq<EventRule>): (r: Errors)
    ensures forall k :: k in r <==> k in errs || RulesProblem(id, rules, k).Some?
    ensures forall k :: k in r ==> r[k] == (if RulesProblem(id, rules, k).Some? then RulesProblem(id, rules, k).value else errs[k])
  {
    if rules == [] then errs
    else
      var n := |rules| - 1;
      var prev := WriteRules(errs, id, rules[..n]);
      assert forall k :: (RulesProblem(id, rules, k) ==
          (if RuleProblem(id, n, rules[n], k).Some? then RuleProblem(id, n, rules[n], k) else RulesProblem(id, rules[..n], k)));
      WriteRule(prev, id, n, rules[n])
  }

  // ---------------------------------------------------------------- step 1, per definition

  /** The message definition `d`'s own fields (its name, its outcome list)
      leave under key `k`. */
  function HeaderProblem(d: OfferDefinition, k: ErrorKey): (r: Option<string>)
    ensures r.Some? ==> (k.DefName? || k.DefOutcomes?) && k.defId == d.id
  {
    if k == DefName(d.id) && IsBlank(d.name) then Some(NameRequired)
    else if k == DefOutcomes(d.id) && |d.outcomes| == 0 then Some(OutcomesRequired)
    else None
  }

  /** The message definition `d` leaves under key `k`. */
  function DefProblem(d: OfferDefinition, k: ErrorKey): (r: Option<string>)
    ensures r.Some? ==> k.HasDef() && k.defId == d.id
  {
    if k.IsSlotKey() then SlotsProblem(d.id, d.outcomes, k)
    else if k.IsRuleKey() then RulesProblem(d.id, d.events, k)
    else HeaderProblem(d, k)
  }

  /** The writes for a definition's own fields. */
  function WriteDefHeader(errs: Errors, d: OfferDefinition): (r: Errors)
    ensures forall k :: k in r <==> k in errs || HeaderProblem(d, k).Some?
    ensures forall k :: k in r ==> r[k] == (if HeaderProblem(d, k).Some? then HeaderProblem(d, k).value else errs[k])
  {
    var e1 := if IsBlank(d.name) then errs[DefName(d.id) := NameRequired] else errs;
    if |d.outcomes| == 0 then e1[DefOutcomes(d.id) := OutcomesRequired] else e1
  }

  /** The writes for one definition: its name, its outcome list, its slots
      and its rules. */
  function WriteDefErrors(errs: Errors, d: OfferDefinition): (r: Errors)
    ensures forall k :: k in r <==> k in errs || DefProblem(d, k).Some?
    ensures forall k :: k in r ==> r[k] == (if DefProblem(d, k).Some? then DefProblem(d, k).value else errs[k])
  {
    var e1 := WriteDefHeader(errs, d);
    var e2 := WriteSlots(e1, d.id, d.outcomes);
    var r := WriteRules(e2, d.id, d.events);
    assert forall k :: ((k in r <==> k in errs || DefProblem(d, k).Some?) &&
      (k in r ==> r[k] == (if DefProblem(d, k).Some? then DefProblem(d, k).value else errs[k]))) by {
      forall k
        ensures k in r <==> k in errs || DefProblem(d, k).Some?
        ensures k in r ==> r[k] == (if DefProblem(d, k).Some? then DefProblem(d, k).value else errs[k])
      {
        DefProblemParts(d, k);
      }
    }
    r
  }

  /** A key belongs to at most one part of a definition: its own fields,
      its slots or its rules. */
  lemma DefProblemParts(d: OfferDefinition, k: ErrorKey)
    ensures HeaderProblem(d, k).Some? ==> SlotsProblem(d.id, d.outcomes, k).None? && RulesProblem(d.id, d.events, k).None?
    ensures SlotsProblem(d.id, d.outcomes, k).Some? ==> RulesProblem(d.id, d.events, k).None?
    ensures DefProblem(d, k) ==
      if HeaderProblem(d, k).Some? then HeaderProblem(d, k)
      else if SlotsProblem(d.id, d.outcomes, k).Some? then SlotsProblem(d.id, d.outcomes, k)
      else RulesProblem(d.id, d.events, k)
  {
  }

  /** The message the definitions leave under key `k`: that of the last
      definition that writes it. */
  function DefsProblem(defs: seq<OfferDefinition>, k: ErrorKey): (r: Option<string>)
    ensures r.Some? <==> exists i :: 0 <= i < |defs| && DefProblem(defs[i], k).Some?
  {
    if defs == [] then None
    else
      var n := |defs| - 1;
      if DefProblem(defs[n], k).Some? then DefProblem(defs[n], k)
      else
        var prev := DefsProblem(defs[..n], k);
        assert prev.Some? ==> exists i :: 0 <= i < |defs| && DefProblem(defs[i], k).Some? by {
          if prev.Some? {
            var i :| 0 <= i < n && DefProblem(defs[..n][i], k).Some?;
            assert defs[..n][i] == defs[i];
          }
        }
        assert (exists i :: 0 <= i < |defs| && DefProblem(defs[i], k).Some?) ==> prev.Some? by {
          if exists i :: 0 <= i < |defs| && DefProblem(defs[i], k).Some? {
            var i :| 0 <= i < |defs| && DefProblem(defs[i], k).Some?;
            assert defs[..n][i] == defs[i];
          }
        }
        prev
  }

  /** With distinct ids, the message under a definition's key is that
      definition's own. */
  lemma {:induction false} DefsProblemOfOwner(defs: seq<OfferDefinition>, i: nat, k: ErrorKey)
    requires DistinctIds(defs) && i < |defs| && DefProblem(defs[i], k).Some?
    ensures DefsProblem(defs, k) == DefProblem(defs[i], k)
  {
    var n := |defs| - 1;
    if i < n {
      assert DefProblem(defs[n], k).None?;
      assert defs[..n][i] == defs[i];
      assert DistinctIds(defs[..n]);
      DefsProblemOfOwner(defs[..n], i, k);
    }
  }

  /** With distinct ids, the message under any key naming a definition is
      decided by that definition alone. */
  lemma DefsProblemOfId(defs: seq<OfferDefinition>, di: nat, k: ErrorKey)
    requires DistinctIds(defs) && di < |defs| && k.HasDef() && k.defId == defs[di].id
    ensures DefsProblem(defs, k) == DefProblem(defs[di], k)
  {
    if DefProblem(defs[di], k).Some? {
      DefsProblemOfOwner(defs, di, k);
    } else {
      forall j | 0 <= j < |defs| ensures DefProblem(defs[j], k).None? {
        if j != di {
          assert defs[j].id != defs[di].id;
        }
      }
    }
  }

  /** `offerDefinitions.forEach(...)`: the writes for every definition, in
      order. */
  function WriteDefs(errs: Errors, defs: seq<OfferDefinition>): (r: Errors)
    ensures forall k :: k in r <==> k in errs || DefsProblem(defs, k).Some?
    ensures forall k :: k in r ==> r[k] == (if DefsProblem(defs, k).Some? then DefsProblem(defs, k).value else errs[k])
  {
    if defs == [] then errs
    else
      var n := |defs| - 1;
      var prev := WriteDefs(errs, defs[..n]);
      assert forall k :: (DefsProblem(defs, k) ==
          (if DefProblem(defs[n], k).Some? then DefProblem(defs[n], k) else DefsProblem(defs[..n], k)));
      WriteDefErrors(prev, defs[n])
  }

  /** The checks of the second step. */
  function Step1Errors(defs: seq<OfferDefinition>): (r: Errors)
    ensures forall k :: k in r <==> (k == Offers && defs == []) || DefsProblem(defs, k).Some?
    ensures forall k :: k in r ==> r[k] == (if k == Offers then OffersRequired else DefsProblem(defs, k).value)
  {
    WriteDefs(if |defs| == 0 then map[Offers := OffersRequired] else map[], defs)
  }

  /** `validateStep(stepIdx)`: the first step checks the campaign fields,
      the second the definitions, and the review step nothing. */
  function StepErrors(stepIdx: int, title: string, startDate: DateField, endDate: DateField, defs: seq<OfferDefinition>): (r: Errors)
    ensures stepIdx == 0 ==> forall k :: k in r ==> k.Title? || k.StartDate? || k.EndDate?
    ensures stepIdx == 1 ==> forall k :: k in r ==> k.Offers? || k.HasDef()
    ensures stepIdx != 0 && stepIdx != 1 ==> r == map[]
  {
    if stepIdx == 0 then Step0Errors(title, startDate, endDate)
    else if stepIdx == 1 then Step1Errors(defs)
    else map[]
  }

  // ---------------------------------------------------------------- completeness

  /** A slot the second step accepts: a type is chosen and the input its
      type shows is filled in. */
  predicate SlotComplete(o: OutcomeSlot) {
    && o.outcomeType != ""
    && match Catalog.ShapeOf(o.outcomeType)
       case Some(Variants(_)) => o.subType != "" && o.value != ""
       case Some(SmartTagPicker) => o.smartTags != []
       case Some(MerchantOfferPicker) => o.merchantOffers != []
       case None => true
  }

  /** A rule the second step accepts: type and target chosen, and a value
      in each attached clause. */
  predicate RuleComplete(rule: EventRule) {
    && rule.eventType != ""
    && rule.eventTarget != ""
    && (rule.frequency.Some? ==> rule.frequency.value.value != "")
    && (rule.timeWindow.Some? ==> rule.timeWindow.value.value != "")
  }

  /** A definition the second step accepts. */
  predicate DefComplete(d: OfferDefinition) {
    && !IsBlank(d.name)
    && d.outcomes != []
    && (forall i :: 0 <= i < |d.outcomes| ==> SlotComplete(d.outcomes[i]))
    && (forall i :: 0 <= i < |d.events| ==> RuleComplete(d.events[i]))
  }

  lemma SlotCompleteIff(id: nat, oi: nat, o: OutcomeSlot)
    ensures SlotComplete(o) <==>
      SlotProblem(id, oi, o, SlotType(id, oi)).None? &&
      SlotProblem(id, oi, o, SlotVariant(id, oi)).None? &&
      SlotProblem(id, oi, o, SlotValue(id, oi)).None?
  {
  }

  lemma RuleCompleteIff(id: nat, ei: nat, rule: EventRule)
    ensures RuleComplete(rule) <==>
      RuleProblem(id, ei, rule, RuleType(id, ei)).None? &&
      RuleProblem(id, ei, rule, RuleTarget(id, ei)).None? &&
      RuleProblem(id, ei, rule, RuleFrequency(id, ei)).None? &&
      RuleProblem(id, ei, rule, RuleTimeWindow(id, ei)).None?
  {
  }

  lemma {:induction false} CompleteDefHasNoProblem(d: OfferDefinition, k: ErrorKey)
    requires DefComplete(d)
    ensures DefProblem(d, k).None?
  {
    if k.IsSlotKey() && k.defId == d.id && k.index < |d.outcomes| {
      SlotCompleteIff(d.id, k.index, d.outcomes[k.index]);
    } else if k.IsRuleKey() && k.defId == d.id && k.index < |d.events| {
      RuleCompleteIff(d.id, k.index, d.events[k.index]);
    }
  }

  lemma {:induction false} IncompleteDefHasProblem(d: OfferDefinition) returns (k: ErrorKey)
    requires !DefComplete(d)
    ensures DefProblem(d, k).Some?
  {
    if IsBlank(d.name) {
      k := DefName(d.id);
      assert HeaderProblem(d, k).Some?;
    } else if d.outcomes == [] {
      k := DefOutcomes(d.id);
    } else if i :| 0 <= i < |d.outcomes| && !SlotComplete(d.outcomes[i]) {
      SlotCompleteIff(d.id, i, d.outcomes[i]);
      k := if SlotProblem(d.id, i, d.outcomes[i], SlotType(d.id, i)).Some? then SlotType(d.id, i)
        else if SlotProblem(d.id, i, d.outcomes[i], SlotVariant(d.id, i)).Some? then SlotVariant(d.id, i)
        else SlotValue(d.id, i);
      assert SlotsProblem(d.id, d.outcomes, k) == SlotProblem(d.id, i, d.outcomes[i], k);
    } else {
      var i :| 0 <= i < |d.events| && !RuleComplete(d.events[i]);
      RuleCompleteIff(d.id, i, d.events[i]);
      k := if RuleProblem(d.id, i, d.events[i], RuleType(d.id, i)).Some? then RuleType(d.id, i)
        else if RuleProblem(d.id, i, d.events[i], RuleTarget(d.id, i)).Some? then RuleTarget(d.id, i)
        else if RuleProblem(d.id, i, d.events[i], RuleFrequency(d.id, i)).Some? then RuleFrequency(d.id, i)
        else RuleTimeWindow(d.id, i);
      assert RulesProblem(d.id, d.events, k) == RuleProblem(d.id, i, d.events[i], k);
    }
  }

  /** A definition leaves no message in the map exactly when it is complete. */
  lemma {:induction false} DefCompleteIff(d: OfferDefinition)
    ensures DefComplete(d) <==> forall k :: DefProblem(d, k).None?
  {
    if DefComplete(d) {
      forall k ensures DefProblem(d, k).None? {
        CompleteDefHasNoProblem(d, k);
      }
    } else {
      var k := IncompleteDefHasProblem(d);
    }
  }

  /** The first step passes exactly when the title is filled in and at most
      100 characters long and both dates are present, start before end. */
  lemma Step0PassesIff(title: string, startDate: DateField, endDate: DateField)
    ensures Step0Errors(title, startDate, endDate) == map[] <==>
      !IsBlank(title) && |title| <= 100 && startDate.Date? && endDate.Date? && startDate.at < endDate.at
  {
    var r := Step0Errors(title, startDate, endDate);
    if r != map[] {
      var k :| k in r;
    }
  }

  /** The second step passes exactly when there is at least one definition
      and every definition is complete. */
  lemma {:induction false} Step1PassesIff(defs: seq<OfferDefinition>)
    ensures Step1Errors(defs) == map[] <==> defs != [] && forall d :: d in defs ==> DefComplete(d)
  {
    var r := Step1Errors(defs);
    if defs != [] && forall d :: d in defs ==> DefComplete(d) {
      forall k ensures k !in r {
        forall i | 0 <= i < |defs| ensures DefProblem(defs[i], k).None? {
          CompleteDefHasNoProblem(defs[i], k);
        }
      }
      assert r.Keys == {};
    } else if defs == [] {
      assert Offers in r;
    } else {
      var d :| d in defs && !DefComplete(d);
      var i :| 0 <= i < |defs| && defs[i] == d;
      var k := IncompleteDefHasProblem(d);
      assert k in r;
    }
  }

  /** Under distinct ids, a key naming a definition is in the second step's
      map exactly when that definition has a problem under it, and carries
      that definition's message. */
  lemma Step1KeyOfDef(defs: seq<OfferDefinition>, di: nat, k: ErrorKey)
    requires DistinctIds(defs) && di < |defs| && k.HasDef() && k.defId == defs[di].id
    ensures k in Step1Errors(defs) <==> DefProblem(defs[di], k).Some?
    ensures k in Step1Errors(defs) ==> Step1Errors(defs)[k] == DefProblem(defs[di], k).value
  {
    DefsProblemOfId(defs, di, k);
  }

  /** Under distinct ids, the messages about slot `i` of definition `d` are
      exactly those its own state calls for. */
  lemma Step1SlotMessages(defs: seq<OfferDefinition>, di: nat, i: nat)
    requires DistinctIds(defs) && di < |defs| && i < |defs[di].outcomes|
    ensures var r := Step1Errors(defs); var d := defs[di]; var o := d.outcomes[i];
      && (SlotType(d.id, i) in r <==> o.outcomeType == "")
      && (SlotType(d.id, i) in r ==> r[SlotType(d.id, i)] == TypeRequired)
      && (SlotVariant(d.id, i) in r <==> Catalog.ShapeOf(o.outcomeType).Some? && Catalog.ShapeOf(o.outcomeType).value.Variants? && o.subType == "")
      && (SlotValue(d.id, i) in r <==> ValueProblem(o).Some?)
      && (SlotValue(d.id, i) in r ==> r[SlotValue(d.id, i)] == ValueProblem(o).value)
  {
    var d := defs[di];
    var o := d.outcomes[i];
    var kt, kv, kx := SlotType(d.id, i), SlotVariant(d.id, i), SlotValue(d.id, i);
    Step1KeyOfDef(defs, di, kt);
    assert DefProblem(d, kt) == SlotProblem(d.id, i, o, kt);
    Step1KeyOfDef(defs, di, kv);
    assert DefProblem(d, kv) == SlotProblem(d.id, i, o, kv);
    Step1KeyOfDef(defs, di, kx);
    assert DefProblem(d, kx) == SlotProblem(d.id, i, o, kx);
  }

  /** A definition fresh from the factory fails the second step on its
      empty name and its unset outcome slot, and on nothing else. */
  lemma FreshDefinitionErrors(id: nat)
    ensures var d := MakeOfferDefinition(id);
      forall k :: DefProblem(d, k).Some? <==> k == DefName(id) || k == SlotType(id, 0)
  {
    var d := MakeOfferDefinition(id);
    assert IsBlank(d.name);
  }

  // ---------------------------------------------------------------- the loop

  /** The callback of `def.outcomes.forEach`, run for every slot. */
  method CollectSlotErrors(errs0: Errors, id: nat, os: seq<OutcomeSlot>) returns (errs: Errors)
    ensures errs == WriteSlots(errs0, id, os)
  {
    errs := errs0;
    var oi := 0;
    while oi < |os|
      invariant 0 <= oi <= |os|
      invariant errs == WriteSlots(errs0, id, os[..oi])
    {
      var o := os[oi];
      ghost var before := errs;
      if o.outcomeType == "" { errs := errs[SlotType(id, oi) := TypeRequired]; }
      var shape := Catalog.ShapeOf(o.outcomeType);
      if shape.Some? && shape.value.Variants? {
        if o.subType == "" { errs := errs[SlotVariant(id, oi) := VariantRequired]; }
        if o.subType != "" && o.value == "" { errs := errs[SlotValue(id, oi) := ValueRequired]; }
      }
      if shape == Some(Catalog.SmartTagPicker) && |o.smartTags| == 0 {
        errs := errs[SlotValue(id, oi) := TagsRequired];
      }
      if shape == Some(Catalog.MerchantOfferPicker) && |o.merchantOffers| == 0 {
        errs := errs[SlotValue(id, oi) := MerchantOffersRequired];
      }
      assert errs == WriteSlot(before, id, oi, o);
      assert os[..oi + 1][..oi] == os[..oi];
      oi := oi + 1;
    }
    assert os[..oi] == os;
  }

  /** The callback of `def.events.forEach`, run for every rule. */
  method CollectRuleErrors(errs0: Errors, id: nat, rules: seq<EventRule>) returns (errs: Errors)
    ensures errs == WriteRules(errs0, id, rules)
  {
    errs := errs0;
    var ei := 0;
    while ei < |rules|
      invariant 0 <= ei <= |rules|
      invariant errs == WriteRules(errs0, id, rules[..ei])
    {
      var rule := rules[ei];
      ghost var before := errs;
      if rule.eventType == "" { errs := errs[RuleType(id, ei) := EventTypeRequired]; }
      if rule.eventTarget == "" { errs := errs[RuleTarget(id, ei) := EventTargetRequired]; }
      if rule.frequency.Some? && rule.frequency.value.value == "" {
        errs := errs[RuleFrequency(id, ei) := FrequencyValueRequired];
      }
      if rule.timeWindow.Some? && rule.timeWindow.value.value == "" {
        errs := errs[RuleTimeWindow(id, ei) := TimeWindowValueRequired];
      }
      assert errs == WriteRule(before, id, ei, rule);
      assert rules[..ei + 1][..ei] == rules[..ei];
      ei := ei + 1;
    }
    assert rules[..ei] == rules;
  }

  /** The body of `validateStep` up to `setErrors`: the map is filled by a
      loop over the definitions that runs the slot and rule loops for each. */
  method CollectErrors(stepIdx: int, title: string, startDate: DateField, endDate: DateField, defs: seq<OfferDefinition>)
    returns (errs: Errors)
    ensures errs == StepErrors(stepIdx, title, startDate, endDate, defs)
  {
    errs := map[];
    if stepIdx == 0 {
      if IsBlank(title) { errs := errs[Title := TitleRequired]; }
      if |title| > 100 { errs := errs[Title := TitleTooLong]; }
      if startDate.NoDate? { errs := errs[StartDate := StartRequired]; }
      if endDate.NoDate? { errs := errs[EndDate := EndRequired]; }
      if startDate.Date? && endDate.Date? && startDate.at >= endDate.at {
        errs := errs[EndDate := EndNotAfterStart];
      }
    }
    if stepIdx == 1 {
      if |defs| == 0 { errs := errs[Offers := OffersRequired]; }
      ghost var init := errs;
      var di := 0;
      while di < |defs|
        invariant 0 <= di <= |defs|
        invariant errs == WriteDefs(init, defs[..di])
      {
        var d := defs[di];
        ghost var before := errs;
        if IsBlank(d.name) { errs := errs[DefName(d.id) := NameRequired]; }
        if |d.outcomes| == 0 { errs := errs[DefOutcomes(d.id) := OutcomesRequired]; }
        errs := CollectSlotErrors(errs, d.id, d.outcomes);
        errs := CollectRuleErrors(errs, d.id, d.events);
        assert errs == WriteDefErrors(before, d) by {
          assert errs == WriteRules(WriteSlots(WriteDefHeader(before, d), d.id, d.outcomes), d.id, d.events);
        }
        Seqs.PrefixGrows(defs, di);
        di := di + 1;
      }
      assert defs[..di] == defs;
    }
  }
}

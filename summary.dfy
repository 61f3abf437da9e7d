/** The review step's text: one line per numeric filter and per active
    criterion, one per event rule, one per outcome slot. Empty operands
    render as "?", empty picker selections as "None selected", and lookups
    that find nothing fall back to the raw value. */
module Summary {
  import opened Wrappers
  import opened Seqs
  import opened Definitions
  import Catalog

  /** `s || fallback` on a string: only the empty string is replaced. */
  function Or(s: string, fallback: string): string {
    if s != "" then s else fallback
  }

  /** `unit ? ' ' + unit : ''` */
  function UnitSuffix(unit: string): string {
    if unit != "" then " " + unit else ""
  }

  /** `OPERATORS.find(...)?.symbol || ''` */
  function SymbolOf(op: string): string {
    match Catalog.OperatorOf(op)
    case Some(o) => o.symbol
    case None => ""
  }

  /** `summarizeNumericFilter(label, state, unit)`: a range shows both bounds,
      any other operator its symbol and single value; the line always opens
      with the criterion's caption and closes with its unit. */
  function SummarizeNumericFilter(caption: string, f: NumericFilter, unit: string): (r: string)
    ensures caption <= r
    ensures |UnitSuffix(unit)| <= |r| && r[|r| - |UnitSuffix(unit)|..] == UnitSuffix(unit)
  {
    var body := if f.operator == "RANGE" then " between " + Or(f.valueMin, "?") + " and " + Or(f.valueMax, "?")
      else " " + SymbolOf(f.operator) + " " + Or(f.value, "?");
    ThreeParts(caption, body, UnitSuffix(unit));
    caption + body + UnitSuffix(unit)
  }

  /** The symbols `OPERATORS` gives each comparison: none for `RANGE` and
      none for an operator the catalog does not list. */
  lemma OperatorSymbols(op: string)
    ensures op == "GT" ==> SymbolOf(op) == ">"
    ensures op == "GTE" ==> SymbolOf(op) == ">="
    ensures op == "LT" ==> SymbolOf(op) == "<"
    ensures op == "LTE" ==> SymbolOf(op) == "<="
    ensures op == "E" ==> SymbolOf(op) == "="
    ensures op !in {"GT", "GTE", "LT", "LTE", "E"} ==> SymbolOf(op) == ""
  {
    var p := (o: Catalog.Operator) => o.value == op;
    if op == "RANGE" {
      assert SymbolOf(op) == "" by {
        Catalog.FindFirst(Catalog.Operators, p, 0);
      }
    } else if op == "GT" {
      assert SymbolOf(op) == ">" by {
        Catalog.FindFirst(Catalog.Operators, p, 1);
      }
    } else if op == "GTE" {
      assert SymbolOf(op) == ">=" by {
        Catalog.FindFirst(Catalog.Operators, p, 2);
      }
    } else if op == "LT" {
      assert SymbolOf(op) == "<" by {
        Catalog.FindFirst(Catalog.Operators, p, 3);
      }
    } else if op == "LTE" {
      assert SymbolOf(op) == "<=" by {
        Catalog.FindFirst(Catalog.Operators, p, 4);
      }
    } else if op == "E" {
      assert SymbolOf(op) == "=" by {
        Catalog.FindFirst(Catalog.Operators, p, 5);
      }
    } else {
      assert forall i :: 0 <= i < |Catalog.Operators| ==> !p(Catalog.Operators[i]);
    }
  }

  /** A comparison's line: the caption, the operator's symbol between
      spaces, the value ("?" while empty), the unit. */
  lemma ComparisonLine(caption: string, f: NumericFilter, unit: string)
    requires f.operator != "RANGE"
    ensures SummarizeNumericFilter(caption, f, unit) ==
      caption + (" " + SymbolOf(f.operator) + " " + Or(f.value, "?")) + UnitSuffix(unit)
  {
  }

  /** A range's line in full: the caption, both bounds, the unit after a
      space; a bound shows as itself, or as "?" while it is empty. */
  lemma RangeSummaryText(caption: string, f: NumericFilter, unit: string)
    requires f.operator == "RANGE"
    ensures SummarizeNumericFilter(caption, f, unit) ==
      caption + " between " + (if f.valueMin == "" then "?" else f.valueMin) + " and "
        + (if f.valueMax == "" then "?" else f.valueMax) + (if unit == "" then "" else " " + unit)
  {
  }

  /** A comparison's line in full: the caption, the operator's catalog
      symbol between spaces, the value ("?" while it is empty), the unit. */
  lemma ComparisonSummaryText(caption: string, f: NumericFilter, unit: string)
    ensures var r := SummarizeNumericFilter(caption, f, unit);
      var value := Or(f.value, "?");
      var tail := UnitSuffix(unit);
      && (f.operator == "GT" ==> r == caption + (" " + ">" + " " + value) + tail)
      && (f.operator == "GTE" ==> r == caption + (" " + ">=" + " " + value) + tail)
      && (f.operator == "LT" ==> r == caption + (" " + "<" + " " + value) + tail)
      && (f.operator == "LTE" ==> r == caption + (" " + "<=" + " " + value) + tail)
      && (f.operator == "E" ==> r == caption + (" " + "=" + " " + value) + tail)
  {
    if f.operator != "RANGE" {
      OperatorSymbols(f.operator);
      ComparisonLine(caption, f, unit);
    }
  }

  /** A range summary does not show the single value, and a comparison
      summary does not show the bounds. */
  lemma SummaryShowsOnlyItsOperands(caption: string, f: NumericFilter, unit: string, v: string, lo: string, hi: string)
    ensures f.operator == "RANGE" ==>
      SummarizeNumericFilter(caption, f.(value := v), unit) == SummarizeNumericFilter(caption, f, unit)
    ensures f.operator != "RANGE" ==>
      SummarizeNumericFilter(caption, f.(valueMin := lo, valueMax := hi), unit) == SummarizeNumericFilter(caption, f, unit)
  {
  }

  /** Right after an operator change every operand shows as "?". */
  lemma SummaryAfterOperatorChange(caption: string, f: NumericFilter, op: string, unit: string)
    ensures op == "RANGE" ==>
      SummarizeNumericFilter(caption, ChangeOperator(f, op), unit) == caption + " between " + "?" + " and " + "?" + UnitSuffix(unit)
    ensures op != "RANGE" ==>
      SummarizeNumericFilter(caption, ChangeOperator(f, op), unit) == caption + (" " + SymbolOf(op) + " " + "?") + UnitSuffix(unit)
  {
    var g := ChangeOperator(f, op);
    if op == "RANGE" {
      RangeSummaryText(caption, g, unit);
    } else {
      ComparisonLine(caption, g, unit);
    }
  }

  /** `id => AVAILABLE_SMART_TAGS.find(...)?.name || id`, over a list. */
  function TagNames(ids: seq<string>): (r: seq<string>)
    ensures |r| == |ids| && forall i :: 0 <= i < |ids| ==> r[i] == Catalog.SmartTagName(ids[i])
  {
    seq(|ids|, i requires 0 <= i < |ids| => Catalog.SmartTagName(ids[i]))
  }

  /** `id => AVAILABLE_MERCHANT_OFFERS.find(...)?.name || id`, over a list. */
  function OfferNames(ids: seq<string>): (r: seq<string>)
    ensures |r| == |ids| && forall i :: 0 <= i < |ids| ==> r[i] == Catalog.MerchantOfferName(ids[i])
  {
    seq(|ids|, i requires 0 <= i < |ids| => Catalog.MerchantOfferName(ids[i]))
  }

  /** `getOutcomeDisplayLabel(outcome)`: the type's caption, with the
      variant's in parentheses when the slot has a known variant; nothing
      for a slot whose type is not in the catalog. */
  function OutcomeDisplayLabel(o: OutcomeSlot): (r: Option<string>)
    ensures r.None? <==> o.outcomeType !in Catalog.OutcomeTypeKeys()
    ensures Catalog.OutcomeTypeOf(o.outcomeType).Some? ==>
      var p := Catalog.OutcomeTypeOf(o.outcomeType).value;
      r == Some(if p.shape.Variants? && Catalog.VariantOf(p.shape.variants, o.subType).Some?
        then p.caption + " (" + Catalog.VariantOf(p.shape.variants, o.subType).value.caption + ")"
        else p.caption)
  {
    Catalog.ShapeOfIsLookup(o.outcomeType);
    Catalog.ShapeOfKnownKeys(o.outcomeType);
    match Catalog.OutcomeTypeOf(o.outcomeType)
    case None => None
    case Some(p) =>
      match p.shape
      case Variants(vs) =>
        (match Catalog.VariantOf(vs, o.subType)
         case Some(sub) => Some(p.caption + " (" + sub.caption + ")")
         case None => Some(p.caption))
      case _ => Some(p.caption)
  }

  /** `summarizeSingleOutcome(outcome)` */
  function SummarizeSingleOutcome(o: OutcomeSlot): (r: string)
    ensures Catalog.ShapeOf(o.outcomeType) == Some(Catalog.SmartTagPicker) ==> "Attach Smart Tag: " <= r
    ensures Catalog.ShapeOf(o.outcomeType) == Some(Catalog.MerchantOfferPicker) ==> "Merchant Offer: " <= r
    ensures Catalog.ShapeOf(o.outcomeType).None? ==> r == "Not configured"
  {
    Catalog.ShapeOfIsLookup(o.outcomeType);
    match Catalog.OutcomeTypeOf(o.outcomeType)
    case None => "Not configured"
    case Some(p) =>
      match p.shape
      case SmartTagPicker => "Attach Smart Tag: " + Or(Join(TagNames(o.smartTags), ", "), "None selected")
      case MerchantOfferPicker => "Merchant Offer: " + Or(Join(OfferNames(o.merchantOffers), ", "), "None selected")
      case Variants(vs) =>
        match Catalog.VariantOf(vs, o.subType)
        case None => p.caption + ": " + "Not configured"
        case Some(sub) =>
          (p.caption + " (" + sub.caption + ")") + ": " + (sub.inputLabel + " " + Or(o.value, "?") + UnitSuffix(sub.inputSuffix))
  }

  /** A slot of a type with variants reads "<type>: Not configured" until
      a known variant is chosen, and then "<type> (<variant>): <input
      label> <value>", the value shown as "?" while empty and followed by
      the variant's suffix when it has one. */
  lemma VariantSlotSummary(o: OutcomeSlot)
    requires Catalog.OutcomeTypeOf(o.outcomeType).Some? && Catalog.OutcomeTypeOf(o.outcomeType).value.shape.Variants?
    ensures var p := Catalog.OutcomeTypeOf(o.outcomeType).value;
      var sub := Catalog.VariantOf(p.shape.variants, o.subType);
      var r := SummarizeSingleOutcome(o);
      && (sub.None? ==> r == p.caption + ": " + "Not configured")
      && (sub.Some? ==>
            r == (p.caption + " (" + sub.value.caption + ")") + ": " + (sub.value.inputLabel + " "
              + (if o.value == "" then "?" else o.value)
              + (if sub.value.inputSuffix == "" then "" else " " + sub.value.inputSuffix)))
  {
  }

  /** A slot of a type with variants is summarized under its display
      label: the label, a colon, then the variant's input or "Not
      configured". */
  lemma VariantLineOpensWithLabel(o: OutcomeSlot)
    requires Catalog.OutcomeTypeOf(o.outcomeType).Some? && Catalog.OutcomeTypeOf(o.outcomeType).value.shape.Variants?
    ensures OutcomeDisplayLabel(o).Some?
    ensures OutcomeDisplayLabel(o).value + ": " <= SummarizeSingleOutcome(o)
  {
    var p := Catalog.OutcomeTypeOf(o.outcomeType).value;
    var heading := OutcomeDisplayLabel(o).value;
    var sub := Catalog.VariantOf(p.shape.variants, o.subType);
    VariantSlotSummary(o);
    if sub.None? {
      assert heading == p.caption;
      ThreeParts(heading, ": ", "Not configured");
    } else {
      assert heading == p.caption + " (" + sub.value.caption + ")";
      var rest := sub.value.inputLabel + " " + (if o.value == "" then "?" else o.value)
        + (if sub.value.inputSuffix == "" then "" else " " + sub.value.inputSuffix);
      ThreeParts(heading, ": ", rest);
    }
  }

  lemma {:induction false} NamesOfIdsNonEmpty(ids: seq<string>)
    requires forall i :: 0 <= i < |ids| ==> ids[i] != ""
    ensures Join(TagNames(ids), ", ") == "" <==> ids == []
    ensures Join(OfferNames(ids), ", ") == "" <==> ids == []
  {
    JoinIsEmpty(TagNames(ids), ", ");
    JoinIsEmpty(OfferNames(ids), ", ");
    if |ids| == 1 {
      Catalog.DisplayNamesNonEmpty(ids[0]);
    }
  }

  /** A smart-tag slot reads "None selected" exactly when no tag is picked
      (picked ids are never empty), and lists the tags' names otherwise. */
  lemma TagPickerSummary(o: OutcomeSlot)
    requires Catalog.ShapeOf(o.outcomeType) == Some(Catalog.SmartTagPicker)
    requires forall i :: 0 <= i < |o.smartTags| ==> o.smartTags[i] != ""
    ensures SummarizeSingleOutcome(o) ==
      "Attach Smart Tag: " + (if o.smartTags == [] then "None selected" else Join(TagNames(o.smartTags), ", "))
  {
    Catalog.ShapeOfIsLookup(o.outcomeType);
    var p := Catalog.OutcomeTypeOf(o.outcomeType).value;
    assert p.shape == Catalog.SmartTagPicker;
    assert SummarizeSingleOutcome(o) == "Attach Smart Tag: " + Or(Join(TagNames(o.smartTags), ", "), "None selected");
    NamesOfIdsNonEmpty(o.smartTags);
  }

  /** A merchant-offer slot reads "None selected" exactly when no offer is
      picked, and lists the offers' names otherwise. */
  lemma OfferPickerSummary(o: OutcomeSlot)
    requires Catalog.ShapeOf(o.outcomeType) == Some(Catalog.MerchantOfferPicker)
    requires forall i :: 0 <= i < |o.merchantOffers| ==> o.merchantOffers[i] != ""
    ensures SummarizeSingleOutcome(o) ==
      "Merchant Offer: " + (if o.merchantOffers == [] then "None selected" else Join(OfferNames(o.merchantOffers), ", "))
  {
    Catalog.ShapeOfIsLookup(o.outcomeType);
    var p := Catalog.OutcomeTypeOf(o.outcomeType).value;
    assert p.shape == Catalog.MerchantOfferPicker;
    assert SummarizeSingleOutcome(o) == "Merchant Offer: " + Or(Join(OfferNames(o.merchantOffers), ", "), "None selected");
    NamesOfIdsNonEmpty(o.merchantOffers);
  }

  // ---------------------------------------------------------------- criteria

  /** The line one criterion key contributes: statuses and tags only when
      some are selected, a numeric filter always, an unknown key never. */
  function LineOf(d: OfferDefinition, key: string): Option<string> {
    if key == "journeyStatus" then
      (if |d.journeyStatus| > 0 then Some("Journey Status = " + Join(d.journeyStatus, ", ")) else None)
    else if key == "smartTags" then
      (if |d.smartTags| > 0 then Some("Smart Tags: " + Join(TagNames(d.smartTags), ", ")) else None)
    else
      match Catalog.NumericCriterion(key)
      case Some(c) => Some(SummarizeNumericFilter(c.caption, NumericField(d, key), c.unit))
      case None => None
  }

  /** Which keys contribute a line. */
  lemma LineOfKinds(d: OfferDefinition, key: string)
    ensures key == "journeyStatus" ==> (LineOf(d, key).None? <==> d.journeyStatus == [])
    ensures key == "smartTags" ==> (LineOf(d, key).None? <==> d.smartTags == [])
    ensures key in NumericKeys ==> LineOf(d, key).Some?
    ensures key != "journeyStatus" && key != "smartTags" && key !in NumericKeys ==> LineOf(d, key).None?
  {
  }

  /** A key's line as a list of at most one. */
  function LineList(d: OfferDefinition, key: string): (r: seq<string>)
    ensures |r| <= 1 && (|r| == 1 <==> LineOf(d, key).Some?)
  {
    match LineOf(d, key) case Some(l) => [l] case None => []
  }

  /** The lines of a list of keys, in the keys' order: the loop's `parts`
      after it has seen `keys`. */
  function Lines(d: OfferDefinition, keys: seq<string>): (r: seq<string>)
    ensures |r| <= |keys|
  {
    if keys == [] then [] else Lines(d, keys[..|keys| - 1]) + LineList(d, keys[|keys| - 1])
  }

  /** Every key with a line to show contributes exactly one. */
  lemma {:induction false} LinesAllShown(d: OfferDefinition, keys: seq<string>)
    requires forall i :: 0 <= i < |keys| ==> LineOf(d, keys[i]).Some?
    ensures |Lines(d, keys)| == |keys|
  {
    if keys != [] {
      LinesAllShown(d, keys[..|keys| - 1]);
    }
  }

  /** The lines of two lists of keys one after the other. */
  lemma {:induction false} LinesAppend(d: OfferDefinition, a: seq<string>, b: seq<string>)
    ensures Lines(d, a + b) == Lines(d, a) + Lines(d, b)
  {
    if b == [] {
      assert a + b == a;
    } else {
      var last := b[|b| - 1];
      assert (a + b)[..|a + b| - 1] == a + b[..|b| - 1];
      LinesAppend(d, a, b[..|b| - 1]);
    }
  }

  /** `summarizeCriteria(def)` as a value. */
  function CriteriaLines(d: OfferDefinition): seq<string> {
    Lines(d, d.criteria)
  }

  /** `summarizeCriteria(def)`: the loop over the active criteria that
      pushes one line per key that has something to show. */
  method SummarizeCriteria(d: OfferDefinition) returns (parts: seq<string>)
    ensures parts == CriteriaLines(d)
  {
    parts := [];
    var i := 0;
    while i < |d.criteria|
      invariant 0 <= i <= |d.criteria|
      invariant parts == Lines(d, d.criteria[..i])
    {
      var key := d.criteria[i];
      var line := CriterionLine(d, key);
      if line.Some? {
        parts := parts + [line.value];
      }
      PrefixGrows(d.criteria, i);
      i := i + 1;
    }
    assert d.criteria[..i] == d.criteria;
  }

  /** One pass of the loop's body: the branch on the key's kind. */
  method CriterionLine(d: OfferDefinition, key: string) returns (line: Option<string>)
    ensures line == LineOf(d, key)
  {
    line := None;
    if key == "journeyStatus" {
      if |d.journeyStatus| > 0 {
        line := Some("Journey Status = " + Join(d.journeyStatus, ", "));
      }
    } else if key == "smartTags" {
      if |d.smartTags| > 0 {
        line := Some("Smart Tags: " + Join(TagNames(d.smartTags), ", "));
      }
    } else {
      var config := Catalog.NumericCriterion(key);
      if config.Some? {
        line := Some(SummarizeNumericFilter(config.value.caption, NumericField(d, key), config.value.unit));
      }
    }
  }

  /** Two definitions that agree on every key's line render the keys alike. */
  lemma {:induction false} LinesFrame(d: OfferDefinition, e: OfferDefinition, keys: seq<string>)
    requires forall i :: 0 <= i < |keys| ==> LineOf(d, keys[i]) == LineOf(e, keys[i])
    ensures Lines(d, keys) == Lines(e, keys)
  {
    if keys != [] {
      LinesFrame(d, e, keys[..|keys| - 1]);
    }
  }

  /** After `removeCriteria(defId, key)` the summary holds exactly the lines
      the remaining criteria showed before: the removed key's line goes and
      the others keep their order and text. */
  lemma CriteriaLinesAfterRemoval(d: OfferDefinition, key: string)
    ensures var r := RemoveCriterion(d, key);
      CriteriaLines(r) == Lines(d, r.criteria) && key !in r.criteria
  {
    var r := RemoveCriterion(d, key);
    assert key !in r.criteria by {
      assert multiset(r.criteria)[key] == 0;
    }
    forall i | 0 <= i < |r.criteria| ensures LineOf(r, r.criteria[i]) == LineOf(d, r.criteria[i]) {
      assert r.criteria[i] != key;
    }
    LinesFrame(r, d, r.criteria);
  }

  // ---------------------------------------------------------------- events

  /** `EVENT_TYPES.find(...)?.label || rule.eventType` */
  function EventTypeLabel(t: string): string {
    match Catalog.EventTypeOf(t)
    case Some(c) => Or(c.caption, t)
    case None => t
  }

  /** `FREQUENCY_OPERATORS.find(...)?.symbol || operator` */
  function FrequencySymbol(op: string): string {
    match Catalog.FrequencyOperatorOf(op)
    case Some(o) => Or(o.symbol, op)
    case None => op
  }

  /** The part of a rule's line before its optional clauses. */
  function EventHead(rule: EventRule): string {
    EventTypeLabel(rule.eventType) + " on \"" + Or(rule.eventTarget, "?") + "\""
  }

  /** The text a frequency clause appends. */
  function FrequencyClause(f: Frequency): string {
    " " + FrequencySymbol(f.operator) + " " + Or(f.value, "?") + " times"
  }

  /** The text a time-window clause appends. */
  function TimeWindowClause(w: TimeWindow): string {
    " within last " + Or(w.value, "?") + " " + Or(w.unit, "days")
  }

  /** One rule's line: the head, then the frequency clause when a frequency
      is attached, then the time-window clause when a window is attached;
      a clause that is not attached contributes no text. */
  function EventLine(rule: EventRule): (r: string)
    ensures EventHead(rule) <= r
    ensures rule.frequency.Some? ==> EventHead(rule) + FrequencyClause(rule.frequency.value) <= r
    ensures rule.frequency.None? ==>
      r == EventHead(rule) + (if rule.timeWindow.Some? then TimeWindowClause(rule.timeWindow.value) else "")
    ensures rule.timeWindow.Some? ==>
      var w := TimeWindowClause(rule.timeWindow.value);
      |w| <= |r| && r[|r| - |w|..] == w
    ensures rule.timeWindow.None? ==>
      r == EventHead(rule) + (if rule.frequency.Some? then FrequencyClause(rule.frequency.value) else "")
    ensures rule.frequency.Some? && rule.timeWindow.Some? ==>
      r == EventHead(rule) + FrequencyClause(rule.frequency.value) + TimeWindowClause(rule.timeWindow.value)
  {
    var head := EventHead(rule);
    match (rule.frequency, rule.timeWindow)
    case (None, None) => head
    case (Some(f), None) => ThreeParts(head, FrequencyClause(f), ""); head + FrequencyClause(f)
    case (None, Some(w)) => ThreeParts(head, "", TimeWindowClause(w)); head + TimeWindowClause(w)
    case (Some(f), Some(w)) =>
      ThreeParts(head, FrequencyClause(f), TimeWindowClause(w));
      head + FrequencyClause(f) + TimeWindowClause(w)
  }

  /** The prefixes and the suffix of a text built from three parts. */
  lemma ThreeParts(a: string, b: string, c: string)
    ensures a <= a + b + c && a + b <= a + b + c
    ensures (a + b + c)[|a + b + c| - |c|..] == c
  {
    assert (a + b + c)[..|a|] == a;
    assert (a + b + c)[..|a + b|] == a + b;
  }

  /** `summarizeEvents(def)`: the rules' lines, one per rule and in order. */
  function SummarizeEvents(d: OfferDefinition): (r: seq<string>)
    ensures |r| == |d.events|
    ensures forall i :: 0 <= i < |d.events| ==> r[i] == EventLine(d.events[i])
  {
    seq(|d.events|, i requires 0 <= i < |d.events| => EventLine(d.events[i]))
  }

  /** The symbols `FREQUENCY_OPERATORS` gives each operator; an operator the
      catalog does not list is shown as stored. */
  lemma FrequencySymbols(op: string)
    ensures op == "GTE" ==> FrequencySymbol(op) == ">="
    ensures op == "GT" ==> FrequencySymbol(op) == ">"
    ensures op == "LTE" ==> FrequencySymbol(op) == "<="
    ensures op == "LT" ==> FrequencySymbol(op) == "<"
    ensures op == "E" ==> FrequencySymbol(op) == "="
    ensures op !in {"GTE", "GT", "LTE", "LT", "E"} ==> FrequencySymbol(op) == op
  {
    var p := (o: Catalog.Operator) => o.value == op;
    if op == "GTE" {
      Catalog.FindFirst(Catalog.FrequencyOperators, p, 0);
    } else if op == "GT" {
      Catalog.FindFirst(Catalog.FrequencyOperators, p, 1);
    } else if op == "LTE" {
      Catalog.FindFirst(Catalog.FrequencyOperators, p, 2);
    } else if op == "LT" {
      Catalog.FindFirst(Catalog.FrequencyOperators, p, 3);
    } else if op == "E" {
      Catalog.FindFirst(Catalog.FrequencyOperators, p, 4);
    } else {
      assert forall i :: 0 <= i < |Catalog.FrequencyOperators| ==> !p(Catalog.FrequencyOperators[i]);
    }
  }

  /** The text of the two clauses: the frequency's symbol and count ("?"
      while the count is empty) followed by "times", and the window's
      length ("?" while empty) and unit ("days" while empty). */
  lemma ClauseTexts(f: Frequency, w: TimeWindow)
    ensures FrequencyClause(f) == " " + FrequencySymbol(f.operator) + " " + (if f.value == "" then "?" else f.value) + " times"
    ensures f.operator == "GTE" ==> FrequencyClause(f) == " >= " + (if f.value == "" then "?" else f.value) + " times"
    ensures TimeWindowClause(w) ==
      " within last " + (if w.value == "" then "?" else w.value) + " " + (if w.unit == "" then "days" else w.unit)
  {
    FrequencySymbols(f.operator);
  }

  /** Attaching a clause and detaching it again restores the rule's line. */
  lemma AttachDetachRestoresLine(rule: EventRule)
    ensures rule.frequency.None? ==> EventLine(DetachFrequency(AttachFrequency(rule))) == EventLine(rule)
    ensures rule.timeWindow.None? ==> EventLine(DetachTimeWindow(AttachTimeWindow(rule))) == EventLine(rule)
  {
  }

  /** A freshly attached frequency with no value yet shows ">= ? times"
      right after the head. */
  lemma FreshFrequencyShowsPlaceholder(rule: EventRule)
    requires rule.frequency.None? && rule.timeWindow.None?
    ensures EventLine(AttachFrequency(rule)) == EventHead(rule) + " >= ? times"
  {
    var attached := AttachFrequency(rule);
    ClauseTexts(attached.frequency.value, TimeWindow("", ""));
    assert EventHead(attached) == EventHead(rule);
  }
}

# Create Campaign wizard — a Dafny model

This project models the authoring logic behind the three-step "Create
Campaign" wizard of `src/pages/CreateOfferBatch.jsx`: the incentive
(offer) definitions a campaign is built from, the edits the definition card
applies to them, the validation that gates each step, the step controller,
the choice lists the controls offer, and the review step's text summaries.

Modules, one per part of the page:

- `Wrappers` — `Option`, the model of `null`/"not found".
- `Seqs` — the JavaScript array operations the page uses (`filter`,
  `splice`, `join`) with their contracts.
- `Catalog` — the constant catalogs (smart tags, event types, operators,
  steps, outcome types with their shapes, criteria). It also holds the
  `find` lookups into them.
- `Definitions` — the data model: numeric filter, outcome slot, event rule,
  offer definition. It also holds the factories and the spread-based
  updaters for one definition, one slot or one rule.
- `Collection` — `updateDef`, `removeDef` and the pieces of `duplicateDef`
  over the list of definitions, plus `DefEdit`. `DefEdit` names every
  change the card makes through `updateDef`. The module also states the
  well-formedness the card's controls keep.
- `Choices` — the choice lists (available outcome types, unused criteria,
  selectable tags and offers) and the add/remove guards. It proves that
  every edit the card offers keeps a definition well formed.
- `Validation` — `validateStep` as a specification function `StepErrors`.
  The imperative `CollectErrors` fills the error map with nested loops, as
  the source does, and is proved equal to it. Completeness lemmas say
  exactly when a step passes.
- `Summary` — the review step's renderers. `summarizeCriteria` is a loop
  method proved against the function `CriteriaLines`.
- `Wizard` — the class `Session`, holding the page's mutable state. Its
  fields are `step`, `title`, `description`, `startDate`, `endDate`, `defs`,
  `errors` and the id counter `nextDefId`. Its handlers keep the invariant
  `Valid()`.

Representation choices:

- Select values stay strings, with `""` meaning "not chosen", as in the
  source.
- An error-map key such as `def_od_3_oc_0_type` becomes the structured
  `ErrorKey` value `SlotType(3, 0)`. A definition id `od_<n>` is its counter
  value `n`.
- Dates are `DateField`: absent, or present with a date-and-time instant as a comparable integer.

## Model

| member | source | states |
|---|---|---|
| Catalog.NumericCriterion | src/pages/CreateOfferBatch.jsx:137-141 | A numeric configuration (label and unit) exists exactly for `propensity`, `decile` and `currentRoi`. |
| Catalog.Find | src/pages/CreateOfferBatch.jsx:670 | `Array.prototype.find` returns nothing exactly when no element matches. Otherwise it returns the first matching element. |
| Catalog.FindFirst | src/pages/CreateOfferBatch.jsx:678 | The lookup returns the element at the first matching position. |
| Catalog.ShapeOfIsLookup | src/pages/CreateOfferBatch.jsx:678-679 | The shape of a type key (variants, smart-tag picker, merchant-offer picker) is the shape of the entry `OUTCOME_TYPES.find` returns for it. A key not in the catalog has no shape. |
| Catalog.ShapeOfKnownKeys | src/pages/CreateOfferBatch.jsx:985 | A key has a shape exactly when it is a catalog key. |
| Catalog.CatalogTypeKey | src/pages/CreateOfferBatch.jsx:984 | Every catalog type has a non-empty key, and that key is listed among the catalog keys. |
| Catalog.DisplayNamesNonEmpty | src/pages/CreateOfferBatch.jsx:692 | The display name of a non-empty tag or offer id (`find(...)?.name \|\| id`) is never empty. |
| Definitions.MakeNumericState | src/pages/CreateOfferBatch.jsx:143 | A fresh numeric filter is `RANGE` with all three operands empty. |
| Definitions.DefaultFilter | src/pages/CreateOfferBatch.jsx:161-163 | A numeric criterion's default filter has empty operands. Its operator is `GT` for current ROI and `RANGE` for the others. |
| Definitions.MakeOutcome | src/pages/CreateOfferBatch.jsx:145 | A fresh slot has no type, variant or value, and no tags or offers. |
| Definitions.MakeEventRule | src/pages/CreateOfferBatch.jsx:147 | A fresh rule has an empty type and target and no frequency or time-window clause. |
| Definitions.MakeOfferDefinition | src/pages/CreateOfferBatch.jsx:149-165 | A fresh definition is unnamed and expanded. It has no criteria, statuses, tags or events, and exactly one unset slot. Every numeric field is at its default. |
| Definitions.WithNumericField | src/pages/CreateOfferBatch.jsx:975 | `{ [key]: newState }` sets that numeric field and changes no other field. |
| Definitions.ChangeOperator | src/pages/CreateOfferBatch.jsx:184 | A new operator empties `value`, `valueMin` and `valueMax`, whatever they held. |
| Definitions.AddCriterion | src/pages/CreateOfferBatch.jsx:792-794 | `addCriteria` appends the key unconditionally and changes nothing else. |
| Definitions.RemoveCriterion | src/pages/CreateOfferBatch.jsx:796-806 | Every occurrence of the key leaves `criteria`; the others keep their order and multiplicity. Only the key's backing field is reset: an empty list for statuses or tags, the default filter for a numeric key. Identity, name, events and outcomes are unchanged. |
| Definitions.ToggleJourneyStatus | src/pages/CreateOfferBatch.jsx:924-931 | A status button flips that status's membership, leaves every other status as it was, and keeps the list duplicate-free. |
| Definitions.AddCriteriaTag | src/pages/CreateOfferBatch.jsx:959 | Picking a tag in the criterion appends it and changes nothing else. |
| Definitions.RemoveCriteriaTag | src/pages/CreateOfferBatch.jsx:960 | Removing a tag chip leaves `Without(smartTags, tag)`: every occurrence of the tag goes, and the other tags keep their order and multiplicity. Nothing else changes. |
| Definitions.FirstVariantKey | src/pages/CreateOfferBatch.jsx:1007 | For a catalog type with variants, the default variant is the first variant's key. For any other type it is `""`: a non-empty result always comes from a catalog type's first variant. |
| Definitions.ChangeOutcomeType | src/pages/CreateOfferBatch.jsx:1004-1008 | A type change sets the new type and its first variant key (or `""`). It empties the value, the tags and the offers. |
| Definitions.ChangeVariant | src/pages/CreateOfferBatch.jsx:1030 | A variant click sets the variant and empties the value. |
| Definitions.SetOutcomeValue | src/pages/CreateOfferBatch.jsx:1061 | Typing a value sets only the value. |
| Definitions.AddSlotTag | src/pages/CreateOfferBatch.jsx:1073 | Picking a tag in a slot appends it. |
| Definitions.RemoveSlotTag | src/pages/CreateOfferBatch.jsx:1074 | Removing a slot tag leaves `Without(smartTags, tag)`: the other tags keep their order and multiplicity. Nothing else in the slot changes. |
| Definitions.AddSlotOffer | src/pages/CreateOfferBatch.jsx:1085 | Picking an offer in a slot appends it. |
| Definitions.RemoveSlotOffer | src/pages/CreateOfferBatch.jsx:1086 | Removing a slot offer leaves `Without(merchantOffers, offer)`: the other offers keep their order and multiplicity. Nothing else in the slot changes. |
| Definitions.UpdateOutcome | src/pages/CreateOfferBatch.jsx:809-815 | `updateOutcome` replaces slot `idx` only. Every other slot and every other field is untouched. |
| Definitions.AddOutcome | src/pages/CreateOfferBatch.jsx:817-819 | `addOutcome` appends one unset slot and keeps the others. |
| Definitions.RemoveOutcome | src/pages/CreateOfferBatch.jsx:821-823 | `removeOutcome` drops the slot at the index, when there is one. |
| Definitions.AddEvent | src/pages/CreateOfferBatch.jsx:826-828 | `addEvent` appends one fresh rule and keeps the others. |
| Definitions.RemoveEvent | src/pages/CreateOfferBatch.jsx:830-832 | `removeEvent` drops the rule at the index, when there is one. |
| Definitions.UpdateEvent | src/pages/CreateOfferBatch.jsx:834-840 | `updateEvent` replaces rule `idx` only. |
| Definitions.AttachFrequency | src/pages/CreateOfferBatch.jsx:635 | "+ Frequency" attaches `{GTE, ""}` and changes nothing else in the rule. |
| Definitions.DetachFrequency | src/pages/CreateOfferBatch.jsx:583 | Removing the frequency sets it to null and changes nothing else. |
| Definitions.AttachTimeWindow | src/pages/CreateOfferBatch.jsx:650 | "+ Time Window" attaches `{"", days}` and changes nothing else. |
| Definitions.DetachTimeWindow | src/pages/CreateOfferBatch.jsx:619 | Removing the time window sets it to null and changes nothing else. |
| Definitions.ApplyRuleEdit | src/pages/CreateOfferBatch.jsx:538-650 | The type and target controls store their value. The operator, count, length and unit controls replace only their own field of the attached clause. The add and remove buttons attach or detach their clause. Every edit leaves the rest of the rule as it was. |
| Definitions.AddThenRemoveCriterion | src/pages/CreateOfferBatch.jsx:792-806 | Adding an inactive criterion and then removing it restores the criteria list. Events and outcomes are unchanged. |
| Definitions.ToggleStatusTwice | src/pages/CreateOfferBatch.jsx:924-931 | Clicking an unselected status twice restores the definition. |
| Definitions.PickThenDropTag | src/pages/CreateOfferBatch.jsx:959-960 | Picking a new tag and then removing it restores the definition or the slot. |
| Definitions.PickThenDropOffer | src/pages/CreateOfferBatch.jsx:1085-1086 | Picking a new offer and then removing it restores the slot. |
| Definitions.AttachThenDetach | src/pages/CreateOfferBatch.jsx:583-650 | Attaching a clause that was absent and then detaching it gives the rule back. |
| Collection.ApplyEdit | src/pages/CreateOfferBatch.jsx:764-766 | An edit never changes a definition's id. Edits in the outcome section change only the slot list. Every other edit leaves the slot list alone. |
| Collection.ApplySlotEdit | src/pages/CreateOfferBatch.jsx:809-823 | An outcome-section edit changes nothing but the slot list. |
| Collection.ApplyCardEdit | src/pages/CreateOfferBatch.jsx:764-806 | Every other card edit keeps the id and the slot list. |
| Collection.UpdateDefs | src/pages/CreateOfferBatch.jsx:764-766 | `updateDef` edits every definition with the id, leaves the others as they were, and keeps the order and length. |
| Collection.RemoveDefs | src/pages/CreateOfferBatch.jsx:768-770 | `removeDef` keeps exactly the definitions with another id, in their order. With the id absent, the list is unchanged. |
| Collection.IndexOf | src/pages/CreateOfferBatch.jsx:777 | `find`/`findIndex` by id returns the first position holding the id, or nothing when no definition has it. |
| Collection.Clone | src/pages/CreateOfferBatch.jsx:780-784 | The clone has the new id and is expanded. Its name is `name + " (copy)"`, or `""` for an empty name. Every other field equals the source's. |
| Collection.MakeOfferDefinitionWellFormed | src/pages/CreateOfferBatch.jsx:149-165 | A fresh definition satisfies the editing invariant. |
| Choices.TypesOf | src/pages/CreateOfferBatch.jsx:983 | `outcomes.map(o => o.type)`, position by position. |
| Choices.UsedTypes | src/pages/CreateOfferBatch.jsx:983 | The used types are exactly the non-empty slot types other than the slot's own. |
| Choices.AvailableTypes | src/pages/CreateOfferBatch.jsx:984 | The types offered to slot `i` are the catalog types, in catalog order, whose key is not used by another slot. |
| Choices.AvailableTypesIff | src/pages/CreateOfferBatch.jsx:983-984 | A type is offered to slot `i` exactly when it is slot `i`'s own type or no slot has it. |
| Choices.AvailableTypesExcludeOthers | src/pages/CreateOfferBatch.jsx:983-984 | With distinct slot types, a type is offered to slot `i` exactly when no other slot has it. So slot `i`'s own type stays available. |
| Choices.ChosenTypes | src/pages/CreateOfferBatch.jsx:1105 | `map(o => o.type).filter(Boolean)` keeps exactly the non-empty types, and is no longer than the slot list. |
| Choices.ChosenTypesNoDups | src/pages/CreateOfferBatch.jsx:1105 | With distinct slot types, the chosen types are duplicate-free. |
| Choices.NoTypeLeftWhenFull | src/pages/CreateOfferBatch.jsx:1105-1106 | When "Add Outcome" is hidden on a well-formed definition, every catalog type is already used by some slot. |
| Choices.FullWhenNoTypeLeft | src/pages/CreateOfferBatch.jsx:1105-1106 | Conversely, on a well-formed definition where every catalog type is used by some slot, "Add Outcome" is hidden. |
| Choices.CanAddOutcomeIff | src/pages/CreateOfferBatch.jsx:1105-1106 | On a well-formed definition, "Add Outcome" is hidden exactly when every catalog type is used by some slot. |
| Choices.UnusedCriteria | src/pages/CreateOfferBatch.jsx:1104 | The criteria offered are exactly the catalog criteria not yet active, in catalog order. |
| Choices.SelectableTags | src/pages/CreateOfferBatch.jsx:223-225 | The tag picker offers exactly the catalog tags not already selected (search text aside). |
| Choices.SelectableOffers | src/pages/CreateOfferBatch.jsx:330-332 | The offer picker offers exactly the catalog offers not already selected (search text aside). |
| Choices.OfferedRemovalKeepsOne | src/pages/CreateOfferBatch.jsx:1148 | While the remove button shows (more than one definition), removing one leaves at least one. |
| Choices.OfferedDropOutcomeKeepsOne | src/pages/CreateOfferBatch.jsx:992-993 | While a slot's remove button shows, removing the slot leaves at least one. |
| Choices.ReplaceSlotKeepsSlots | src/pages/CreateOfferBatch.jsx:809-815 | Replacing one slot with the same type and duplicate-free lists keeps the slots well formed. |
| Choices.AppendEmptySlotKeepsSlots | src/pages/CreateOfferBatch.jsx:817-819 | Appending an unset slot keeps the slots well formed. |
| Choices.RemoveSlotKeepsSlots | src/pages/CreateOfferBatch.jsx:821-823 | Removing a slot keeps the slots well formed. |
| Choices.RetypeSlotKeepsSlots | src/pages/CreateOfferBatch.jsx:1004-1008 | Retyping a slot to an offered type (or none) keeps slot types distinct and known. |
| Choices.OfferedNewOutcomeKeepsSlots | src/pages/CreateOfferBatch.jsx:1105-1106 | An offered "Add Outcome" keeps the slots well formed. |
| Choices.OfferedDropOutcomeKeepsSlots | src/pages/CreateOfferBatch.jsx:992-993 | An offered slot removal keeps the slots well formed. |
| Choices.OfferedSetOutcomeTypeKeepsSlots | src/pages/CreateOfferBatch.jsx:1004-1008 | An offered type change keeps slot types distinct and known. |
| Choices.OfferedSetVariantKeepsSlots | src/pages/CreateOfferBatch.jsx:1030 | An offered variant click keeps the slots well formed. |
| Choices.OfferedSetValueKeepsSlots | src/pages/CreateOfferBatch.jsx:1061 | Typing a value keeps the slots well formed. |
| Choices.OfferedPickSlotTagKeepsSlots | src/pages/CreateOfferBatch.jsx:1073 | Picking a tag the picker offers keeps the slot's tags duplicate-free. |
| Choices.OfferedDropSlotTagKeepsSlots | src/pages/CreateOfferBatch.jsx:1074 | Removing a slot tag keeps the slots well formed. |
| Choices.OfferedPickSlotOfferKeepsSlots | src/pages/CreateOfferBatch.jsx:1085 | Picking an offer the picker offers keeps the slot's offers duplicate-free. |
| Choices.OfferedDropSlotOfferKeepsSlots | src/pages/CreateOfferBatch.jsx:1086 | Removing a slot offer keeps the slots well formed. |
| Choices.OfferedEditKeepsSlots | src/pages/CreateOfferBatch.jsx:809-823 | Every offered edit of the outcome section keeps the slots well formed. |
| Choices.OfferedCardEditKeepsLists | src/pages/CreateOfferBatch.jsx:792-806 | Every other offered card edit keeps criteria, statuses and tags duplicate-free. |
| Choices.OfferedEditKeepsWellFormed | src/pages/CreateOfferBatch.jsx:764-766 | Every edit the card offers keeps a definition well formed. |
| Validation.Step0Errors | src/pages/CreateOfferBatch.jsx:845-853 | The title is in error exactly when it is blank after trimming or longer than 100 characters; the length message wins. A missing date is in error on its own field. Two dates with start >= end put the error on `endDate`. No other key appears. |
| Validation.ValueProblem | src/pages/CreateOfferBatch.jsx:868-877 | A value problem is only reported for a slot whose type is in the catalog. |
| Validation.SlotProblem | src/pages/CreateOfferBatch.jsx:864-877 | A slot's problems are keyed by its definition's id and its own index. |
| Validation.WriteSlot | src/pages/CreateOfferBatch.jsx:864-877 | One slot's pass adds exactly its problems to the map and overwrites only those keys. |
| Validation.SlotsProblem | src/pages/CreateOfferBatch.jsx:863-878 | Problems of a slot list name an index within the list. |
| Validation.WriteSlots | src/pages/CreateOfferBatch.jsx:863-878 | The slot loop adds exactly the slots' problems and keeps every other entry. |
| Validation.RuleProblem | src/pages/CreateOfferBatch.jsx:881-888 | A rule's problems are keyed by its definition's id and its own index. |
| Validation.WriteRule | src/pages/CreateOfferBatch.jsx:881-888 | One rule's pass adds exactly its problems. |
| Validation.RulesProblem | src/pages/CreateOfferBatch.jsx:880-889 | Problems of a rule list name an index within the list. |
| Validation.WriteRules | src/pages/CreateOfferBatch.jsx:880-889 | The rule loop adds exactly the rules' problems and keeps every other entry. |
| Validation.HeaderProblem | src/pages/CreateOfferBatch.jsx:859-862 | Name and outcome-count problems are keyed by the definition's id. |
| Validation.DefProblem | src/pages/CreateOfferBatch.jsx:859-889 | Every problem of a definition is keyed by its id. |
| Validation.WriteDefHeader | src/pages/CreateOfferBatch.jsx:859-862 | The name and outcome-count checks add exactly the header problems. |
| Validation.WriteDefErrors | src/pages/CreateOfferBatch.jsx:859-889 | One definition's pass adds exactly its problems and keeps every other entry. |
| Validation.DefProblemParts | src/pages/CreateOfferBatch.jsx:859-889 | Header, slot and rule problems use disjoint keys. |
| Validation.DefsProblem | src/pages/CreateOfferBatch.jsx:858-890 | A key is in error across the list exactly when some definition has a problem under it. |
| Validation.DefsProblemOfOwner | src/pages/CreateOfferBatch.jsx:858-890 | With distinct ids, the message under a key is that of the definition that owns it. |
| Validation.DefsProblemOfId | src/pages/CreateOfferBatch.jsx:858-890 | With distinct ids, a key naming a definition's id carries exactly that definition's verdict. |
| Validation.Step1KeyOfDef | src/pages/CreateOfferBatch.jsx:858-890 | With distinct ids, a key naming a definition is in the step-1 map exactly when that definition has a problem under it, and it carries that definition's message. |
| Validation.WriteDefs | src/pages/CreateOfferBatch.jsx:858-890 | The definition loop adds exactly the list's problems. |
| Validation.Step1Errors | src/pages/CreateOfferBatch.jsx:854-891 | `offers` is in error exactly when the list is empty. Every other key is in error exactly when some definition has that problem, with its message. |
| Validation.StepErrors | src/pages/CreateOfferBatch.jsx:843-894 | Step 0 produces only title and date keys, and step 1 only `offers` and definition keys. Every other step produces no errors. |
| Validation.SlotCompleteIff | src/pages/CreateOfferBatch.jsx:864-877 | A slot passes exactly when it has none of the type, variant and value errors. |
| Validation.RuleCompleteIff | src/pages/CreateOfferBatch.jsx:881-888 | A rule passes exactly when it has none of the four rule errors. |
| Validation.CompleteDefHasNoProblem | src/pages/CreateOfferBatch.jsx:859-889 | A complete definition has no problem under any key. |
| Validation.IncompleteDefHasProblem | src/pages/CreateOfferBatch.jsx:859-889 | An incomplete definition has a problem under some key. |
| Validation.DefCompleteIff | src/pages/CreateOfferBatch.jsx:859-889 | A definition is complete exactly when it has no problem under any key. |
| Validation.Step0PassesIff | src/pages/CreateOfferBatch.jsx:845-853 | Step 0 passes exactly when the title is non-blank and at most 100 characters, and both dates are present with start before end. |
| Validation.Step1PassesIff | src/pages/CreateOfferBatch.jsx:854-891 | Step 1 passes exactly when the list is non-empty and every definition is complete. |
| Validation.Step1SlotMessages | src/pages/CreateOfferBatch.jsx:863-878 | With distinct ids, each slot's type, variant and value keys are present exactly when that slot's own state calls for them. The type and value keys carry that slot's message. |
| Validation.FreshDefinitionErrors | src/pages/CreateOfferBatch.jsx:149-165 | A fresh definition fails step 1 on its name and its first slot's type, and on nothing else. |
| Validation.CollectSlotErrors | src/pages/CreateOfferBatch.jsx:863-878 | The `outcomes.forEach` loop fills the map as `WriteSlots` specifies. |
| Validation.CollectRuleErrors | src/pages/CreateOfferBatch.jsx:880-889 | The `events.forEach` loop fills the map as `WriteRules` specifies. |
| Validation.CollectErrors | src/pages/CreateOfferBatch.jsx:843-891 | The body of `validateStep` computes exactly `StepErrors`. |
| Summary.SummarizeNumericFilter | src/pages/CreateOfferBatch.jsx:669-675 | A filter's line starts with its label and ends with its unit suffix. |
| Summary.OperatorSymbols | src/pages/CreateOfferBatch.jsx:70-77 | The symbols the summary uses are the catalog's: `>` for GT, `>=` for GTE, `<` for LT, `<=` for LTE, `=` for E. `RANGE` and an operator the catalog lacks get no symbol. |
| Summary.ComparisonLine | src/pages/CreateOfferBatch.jsx:670-674 | Any operator other than `RANGE` reads `<label> <symbol> <value or ?><unit>`. |
| Summary.RangeSummaryText | src/pages/CreateOfferBatch.jsx:671-673 | A `RANGE` line is `<label> between <min> and <max>`, followed by " <unit>" when there is a unit. Each bound shows as itself, or as "?" while it is empty. |
| Summary.ComparisonSummaryText | src/pages/CreateOfferBatch.jsx:670-674 | For each catalog comparison, the line is the label, the operator's catalog symbol between spaces, the value (or "?"), and the unit suffix. |
| Summary.SummaryShowsOnlyItsOperands | src/pages/CreateOfferBatch.jsx:671-674 | A `RANGE` line does not depend on `value`. Any other operator's line does not depend on the bounds. |
| Summary.SummaryAfterOperatorChange | src/pages/CreateOfferBatch.jsx:184 | After an operator change, the line reads "between ? and ?" for `RANGE` and "<symbol> ?" otherwise. |
| Summary.TagNames | src/pages/CreateOfferBatch.jsx:692 | Each tag id maps to its catalog name, or to itself when unknown. |
| Summary.OfferNames | src/pages/CreateOfferBatch.jsx:697 | Each offer id maps to its catalog name, or to itself when unknown. |
| Summary.OutcomeDisplayLabel | src/pages/CreateOfferBatch.jsx:677-685 | The chip label is null exactly when the slot's type is not a catalog key. Otherwise it is the type's label, followed by " (<variant label>)" when the type has variants and the slot's variant is one of them. |
| Summary.SummarizeSingleOutcome | src/pages/CreateOfferBatch.jsx:687-708 | An unknown type reads "Not configured". A smart-tag slot's line starts "Attach Smart Tag: ", and a merchant-offer slot's line starts "Merchant Offer: ". |
| Summary.VariantSlotSummary | src/pages/CreateOfferBatch.jsx:701-705 | For a type with variants, a slot without a known variant reads "<label>: Not configured". With a known variant, it reads "<label> (<variant>): <input label> <value>", with "?" for an empty value, followed by " <suffix>" when the variant has one. |
| Summary.VariantLineOpensWithLabel | src/pages/CreateOfferBatch.jsx:680-683 | For a type with variants, the slot's summary starts with its chip label followed by ": ". |
| Summary.NamesOfIdsNonEmpty | src/pages/CreateOfferBatch.jsx:692-698 | For non-empty ids, the joined names are empty exactly when there are no ids. |
| Summary.TagPickerSummary | src/pages/CreateOfferBatch.jsx:691-694 | A smart-tag slot shows "None selected" exactly when no tag is picked, and otherwise the picked names joined by ", ". |
| Summary.OfferPickerSummary | src/pages/CreateOfferBatch.jsx:696-699 | A merchant-offer slot shows "None selected" exactly when no offer is picked, and otherwise the picked names. |
| Summary.LineOfKinds | src/pages/CreateOfferBatch.jsx:713-730 | A status or tag criterion shows a line exactly when its list is non-empty. A numeric criterion always shows one. An unknown key shows none. |
| Summary.LineList | src/pages/CreateOfferBatch.jsx:713-730 | A key contributes one line when it has one to show, and none otherwise. |
| Summary.Lines | src/pages/CreateOfferBatch.jsx:710-733 | There are never more lines than keys. |
| Summary.LinesAllShown | src/pages/CreateOfferBatch.jsx:710-733 | When every key has a line to show, there is one line per key. |
| Summary.LinesAppend | src/pages/CreateOfferBatch.jsx:712 | The lines of two key lists are the lines of the first followed by those of the second, so lines follow `criteria` order. |
| Summary.SummarizeCriteria | src/pages/CreateOfferBatch.jsx:710-733 | The `for` loop pushing into `parts` yields exactly `CriteriaLines(d)`. |
| Summary.CriterionLine | src/pages/CreateOfferBatch.jsx:713-731 | One pass of the loop body yields the key's line, if any. |
| Summary.LinesFrame | src/pages/CreateOfferBatch.jsx:710-733 | Definitions whose keys show the same lines summarise the same. |
| Summary.CriteriaLinesAfterRemoval | src/pages/CreateOfferBatch.jsx:796-806 | After `removeCriteria`, the summary is exactly the lines the remaining criteria showed before, and the removed key is gone. |
| Summary.EventLine | src/pages/CreateOfferBatch.jsx:736-746 | A rule's line starts with `<type> on "<target>"`. An attached frequency's clause follows right after that head, and an attached time window's clause ends the line. With both attached, the line is exactly head, frequency clause, window clause. A clause that is not attached adds no text. |
| Summary.SummarizeEvents | src/pages/CreateOfferBatch.jsx:735-748 | There is one line per rule, in order, and each is that rule's `EventLine`. |
| Summary.AttachDetachRestoresLine | src/pages/CreateOfferBatch.jsx:740-745 | Attaching a clause that was absent and then detaching it restores the rule's line. |
| Summary.FrequencySymbols | src/pages/CreateOfferBatch.jsx:50-56 | A frequency operator shows its catalog symbol (`>=`, `>`, `<=`, `<`, `=`). An operator the catalog lacks shows as stored. |
| Summary.ClauseTexts | src/pages/CreateOfferBatch.jsx:739-745 | The frequency clause is " <symbol> <count> times", with "?" for an empty count; `GTE` shows as `>=`. The window clause is " within last <length> <unit>", with "?" for an empty length and "days" for an empty unit. |
| Summary.FreshFrequencyShowsPlaceholder | src/pages/CreateOfferBatch.jsx:740-742 | A just-attached frequency appends " >= ? times". |
| Wizard.Session.constructor | src/pages/CreateOfferBatch.jsx:754-760 | The session starts on step 0 with empty fields, no errors and one fresh definition drawn from the counter. |
| Wizard.Session.SetTitle | src/pages/CreateOfferBatch.jsx:1354 | The title input replaces the title only. |
| Wizard.Session.SetDescription | src/pages/CreateOfferBatch.jsx:1361 | The description input replaces the description only. |
| Wizard.Session.SetStartDate | src/pages/CreateOfferBatch.jsx:1368 | The start-date input replaces the start date only. |
| Wizard.Session.SetEndDate | src/pages/CreateOfferBatch.jsx:1373 | The end-date input replaces the end date only. |
| Wizard.Session.ValidateStep | src/pages/CreateOfferBatch.jsx:843-894 | `validateStep` stores `StepErrors` as the error map, and returns true exactly when that map is empty. |
| Wizard.Session.GoNext | src/pages/CreateOfferBatch.jsx:896-899 | `goNext` validates the current step. On failure the step is unchanged; otherwise the step becomes min(step+1, 2). |
| Wizard.Session.GoBack | src/pages/CreateOfferBatch.jsx:900 | `goBack` sets the step to max(step-1, 0). |
| Wizard.Session.JumpTo | src/pages/CreateOfferBatch.jsx:1310 | A stepper click on `i` moves only backwards (to `i < step`), so the step stays within 0..2. |
| Wizard.Session.AddDef | src/pages/CreateOfferBatch.jsx:772-774 | `addDef` appends a fresh definition with the counter's id and advances the counter. |
| Wizard.Session.RemoveDef | src/pages/CreateOfferBatch.jsx:768-770 | The list becomes `RemoveDefs`. While the remove button shows, at least one definition remains. |
| Wizard.Session.DuplicateDef | src/pages/CreateOfferBatch.jsx:776-790 | With the id absent, neither the list nor the counter changes. Otherwise the clone, with the counter's id, is spliced in right after its source, and the counter advances. |
| Wizard.Session.UpdateDef | src/pages/CreateOfferBatch.jsx:764-766 | The list becomes `UpdateDefs`. Distinct ids and well-formed definitions are kept. |
| Wizard.RemoveDefsKeepsDistinctIds | src/pages/CreateOfferBatch.jsx:768-770 | Removal keeps ids distinct. |
| Wizard.FilterKeepsDistinctIds | src/pages/CreateOfferBatch.jsx:769 | Filtering a list with distinct ids keeps them distinct. |
| Wizard.InsertCloneKeepsValid | src/pages/CreateOfferBatch.jsx:779-787 | Splicing the clone keeps ids distinct and below the advanced counter, and every definition well formed. |
| Wizard.InsertFreshIdKeepsDistinct | src/pages/CreateOfferBatch.jsx:786-787 | Splicing in a definition with a fresh id keeps ids distinct. |

## Left out

- Rendering: all JSX, styling, hover handlers and React hooks are left out. So are the pickers' search text, dropdown state and outside-click listeners. The pickers' "not already selected" filters are modelled, in `SelectableTags` and `SelectableOffers`.
- `handleSubmit`: its toast, `setTimeout` and navigation are asynchronous UI effects with no model state.
- Dates: parsing the `datetime-local` string with `new Date` and `toLocaleString` on the review step are host-library calls. A date is modelled as absent, or present with a comparable integer.
- Disabling a definition: the page has no disable field or control, so none is modelled.
- Input caps: the `maxLength` attributes (title 100, definition name 60) are UI input limits and are not modelled. Validation still checks the title's length, as the code does.
- Step0Errors: `|title|` counts characters, while JavaScript's `length` counts UTF-16 code units; the two differ for characters outside the Basic Multilingual Plane.
- Validation: the checks `value === null` and `value === undefined` are left out. The model's values are always strings, so only `''` can occur.
- Error keys are structured `ErrorKey` values, not the source's concatenated strings. The strings are injective in (id, index, field) for the ids the counter produces, so nothing is lost.
- The id counter: the source's counter is module-level, so it is shared across mounts, and evaluating the factory on every render can skip values. The model passes the counter's value to the constructor and keeps it as a session field. It proves ids are distinct and below the counter, and skipped values do not break that.
- The last `return parentType.label` of `summarizeSingleOutcome` (line 707) is not modelled. Every catalog type has either variants or a picker, and both pickers return earlier, so the line cannot run.
- The definition card's chip label `getOutcomeDisplayLabel(o) || o.type` and the review's heading `def.name || "Incentive Definition N"` are display fallbacks and are not modelled.
- Wizard.Session.UpdateDef: requires that the edit is one the card offers (`Offered`: a control that exists and a choice its list contains; an operand edit keeps the filter's operator). `updateDef` itself accepts any updater. The well-formedness invariant holds only for the edits the page can make.
- Description: besides its setter, it is not used by any modelled operation.
- ToggleJourneyStatus decides from the definition it updates. The source decides from `selected`, computed when the button was rendered (line 920). The two agree for a single click on the current render. The card's collapse toggle (`ToggleCollapsed` in `Collection.ApplyEdit`) likewise negates the updated definition's `collapsed`, where the source negates the value captured at render time (line 1112).
- Other files (`src/pages/OfferBatchDetail.jsx`, `src/pages/BaseBatchView.jsx`, the components, `src/App.jsx`, `src/data/mockData.js`) are display, routing or fixtures and are not part of this model.

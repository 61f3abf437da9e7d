/** The page's constant reference catalogs (smart tags, event types and
    targets, operators, outcome types with their variants, criteria kinds)
    and the `find` lookups the rest of the page performs on them. */
module Catalog {
  import opened Wrappers

  datatype SmartTag = SmartTag(id: string, name: string, count: nat)

  const SmartTags: seq<SmartTag> := [
    SmartTag("st_001", "High Value Customers", 12450),
    SmartTag("st_002", "Dormant 90+ Days", 8320),
    SmartTag("st_003", "Premium Card Holders", 5100),
    SmartTag("st_004", "First-Time EMI Users", 15800),
    SmartTag("st_005", "Low Utilization (<30%)", 22400),
    SmartTag("st_006", "High Spenders (>50k/mo)", 9750),
    SmartTag("st_007", "NTC Customers", 3200),
    SmartTag("st_008", "Retention Risk Cohort", 6800)
  ]

  /** A select option: the stored value and the text shown for it (the
      source calls that text `label`, a keyword here, hence `caption`). */
  datatype Choice = Choice(value: string, caption: string)

  const EventTypes: seq<Choice> := [
    Choice("click", "Click"),
    Choice("page_view", "Page View"),
    Choice("form_submit", "Form Submit"),
    Choice("cta_tap", "CTA Tap"),
    Choice("scroll", "Scroll"),
    Choice("video_play", "Video Play")
  ]

  const EventTargets: seq<string> := [
    "Review Details", "Apply Now", "EMI Calculator", "View Offers",
    "Check Eligibility", "Download Statement", "Contact Support", "Share Referral",
    "Landing Page", "Offer Summary", "Terms & Conditions", "FAQ Section"
  ]

  const TimeWindowUnits: seq<Choice> := [
    Choice("hours", "hours"),
    Choice("days", "days"),
    Choice("weeks", "weeks")
  ]

  /** A comparison operator: stored value, label and the symbol rendered in summaries. */
  datatype Operator = Operator(value: string, caption: string, symbol: string)

  const FrequencyOperators: seq<Operator> := [
    Operator("GTE", ">=", ">="),
    Operator("GT", ">", ">"),
    Operator("LTE", "<=", "<="),
    Operator("LT", "<", "<"),
    Operator("E", "=", "=")
  ]

  datatype MerchantOffer = MerchantOffer(id: string, name: string, merchant: string, description: string)

  const MerchantOffers: seq<MerchantOffer> := [
    MerchantOffer("mo_001", "Amazon - 10% Cashback", "Amazon", "10% cashback up to Rs 500 on all purchases"),
    MerchantOffer("mo_002", "Flipkart - Flat Rs 200 Off", "Flipkart", "Flat Rs 200 off on min purchase Rs 1000"),
    MerchantOffer("mo_003", "Swiggy - 20% Off", "Swiggy", "20% off up to Rs 150 on orders above Rs 500"),
    MerchantOffer("mo_004", "Myntra - Buy 2 Get 1", "Myntra", "Buy 2 get 1 free on selected brands"),
    MerchantOffer("mo_005", "BookMyShow - BOGO", "BookMyShow", "Buy 1 get 1 free on movie tickets"),
    MerchantOffer("mo_006", "Zomato - Free Delivery", "Zomato", "Free delivery on all orders for 30 days"),
    MerchantOffer("mo_007", "MakeMyTrip - Rs 1000 Off", "MakeMyTrip", "Rs 1000 off on domestic flights above Rs 5000"),
    MerchantOffer("mo_008", "Uber - 3 Free Rides", "Uber", "3 free rides up to Rs 150 each")
  ]

  const Operators: seq<Operator> := [
    Operator("RANGE", "Between", ""),
    Operator("GT", "Greater than", ">"),
    Operator("GTE", "Greater than or equal", ">="),
    Operator("LT", "Less than", "<"),
    Operator("LTE", "Less than or equal", "<="),
    Operator("E", "Equals", "=")
  ]

  datatype WizardStep = WizardStep(key: string, caption: string)

  const Steps: seq<WizardStep> := [
    WizardStep("basic", "Basic Details"),
    WizardStep("incentives", "Incentive Definitions"),
    WizardStep("review", "Review & Submit")
  ]

  /** One variant of an outcome type that has variants. */
  datatype Variant = Variant(key: string, caption: string, description: string, inputLabel: string, inputSuffix: string)

  /** The three shapes an outcome slot can take, fixed by its catalog entry:
      a variant choice with a numeric value (`subTypes`), or one of the two
      pickers (`inputType`). */
  datatype OutcomeShape =
    | Variants(variants: seq<Variant>)
    | SmartTagPicker
    | MerchantOfferPicker

  datatype OutcomeType = OutcomeType(key: string, caption: string, tag: string, description: string, shape: OutcomeShape)

  const OutcomeTypes: seq<OutcomeType> := [
    OutcomeType("roi", "ROI", "EMI", "", Variants([
      Variant("relative", "Relative", "Reduce ROI by a fixed amount", "Current ROI minus", "%"),
      Variant("absolute", "Absolute", "Set ROI to a fixed value", "Offer ROI =", "%")])),
    OutcomeType("pf", "Processing Fee", "EMI", "", Variants([
      Variant("flat", "Flat", "Set PF to a flat amount", "Offer PF = Rs", ""),
      Variant("relative", "Relative", "Reduce PF by a fixed amount", "Current PF minus Rs", "")])),
    OutcomeType("proc_charge", "Processing Charge", "Plan Change", "", Variants([
      Variant("flat", "Flat", "Set charge to a flat amount", "Offer Charge = Rs", ""),
      Variant("relative", "Relative", "Reduce charge by a fixed amount", "Current Charge minus Rs", "")])),
    OutcomeType("merchant_offer", "Merchant Offer", "All Journeys",
      "Select merchant offers to display on PWA. Promo code is revealed after journey completion.",
      MerchantOfferPicker),
    OutcomeType("smart_tag", "Attach Smart Tag", "All Journeys",
      "Tag eligible customers with a smart tag for downstream use",
      SmartTagPicker)
  ]

  datatype Criterion = Criterion(key: string, caption: string)

  const AvailableCriteria: seq<Criterion> := [
    Criterion("journeyStatus", "Journey Status"),
    Criterion("smartTags", "Smart Tags"),
    Criterion("propensity", "Propensity"),
    Criterion("decile", "Decile"),
    Criterion("currentRoi", "Current ROI")
  ]

  /** The two journey statuses a definition can select. */
  const JourneyStatuses: seq<string> := ["NOT_STARTED", "IN_PROGRESS"]

  /** Label and unit of a numeric criterion. */
  datatype NumericConfig = NumericConfig(caption: string, unit: string)

  /** `NUMERIC_CRITERIA[key]`: present for the three numeric criteria only. */
  function NumericCriterion(key: string): (r: Option<NumericConfig>)
    ensures r.Some? <==> key in {"propensity", "decile", "currentRoi"}
  {
    if key == "propensity" then Some(NumericConfig("Propensity", ""))
    else if key == "decile" then Some(NumericConfig("Decile", ""))
    else if key == "currentRoi" then Some(NumericConfig("Current ROI", "%"))
    else None
  }

  /** `s.find(p)`: the first element satisfying `p`, if any. */
  function Find<T>(s: seq<T>, p: T -> bool): (r: Option<T>)
    ensures r.None? <==> forall i :: 0 <= i < |s| ==> !p(s[i])
    ensures r.Some? ==> exists i :: 0 <= i < |s| && s[i] == r.value && p(s[i]) && forall j :: 0 <= j < i ==> !p(s[j])
  {
    if s == [] then None
    else if p(s[0]) then Some(s[0])
    else
      var r := Find(s[1..], p);
      assert r.Some? ==> exists i :: 0 <= i < |s| && s[i] == r.value && p(s[i]) && forall j :: 0 <= j < i ==> !p(s[j]) by {
        if r.Some? {
          var i :| 0 <= i < |s[1..]| && s[1..][i] == r.value && p(s[1..][i]) && forall j :: 0 <= j < i ==> !p(s[1..][j]);
          assert s[i + 1] == r.value && forall j :: 0 <= j < i + 1 ==> !p(s[j]);
        }
      }
      r
  }

  /** `OUTCOME_TYPES.find(o => o.key === key)` */
  function OutcomeTypeOf(key: string): Option<OutcomeType> {
    Find(OutcomeTypes, (t: OutcomeType) => t.key == key)
  }

  /** `OPERATORS.find(o => o.value === value)` */
  function OperatorOf(value: string): Option<Operator> {
    Find(Operators, (o: Operator) => o.value == value)
  }

  /** `FREQUENCY_OPERATORS.find(o => o.value === value)` */
  function FrequencyOperatorOf(value: string): Option<Operator> {
    Find(FrequencyOperators, (o: Operator) => o.value == value)
  }

  /** `EVENT_TYPES.find(t => t.value === value)` */
  function EventTypeOf(value: string): Option<Choice> {
    Find(EventTypes, (c: Choice) => c.value == value)
  }

  /** `AVAILABLE_SMART_TAGS.find(t => t.id === id)?.name || id` */
  function SmartTagName(id: string): string {
    match Find(SmartTags, (t: SmartTag) => t.id == id)
    case Some(t) => if t.name != "" then t.name else id
    case None => id
  }

  /** `AVAILABLE_MERCHANT_OFFERS.find(o => o.id === id)?.name || id` */
  function MerchantOfferName(id: string): string {
    match Find(MerchantOffers, (o: MerchantOffer) => o.id == id)
    case Some(o) => if o.name != "" then o.name else id
    case None => id
  }

  /** `variants.find(s => s.key === key)` */
  function VariantOf(variants: seq<Variant>, key: string): Option<Variant> {
    Find(variants, (v: Variant) => v.key == key)
  }

  /** The keys of the outcome-type catalog, in catalog order. */
  function OutcomeTypeKeys(): seq<string> {
    seq(|OutcomeTypes|, i requires 0 <= i < |OutcomeTypes| => OutcomeTypes[i].key)
  }

  /** The outcome-type keys are pairwise distinct, so each names one entry. */
  lemma OutcomeTypeKeysDistinct()
    ensures |OutcomeTypes| == 5
    ensures forall i, j :: 0 <= i < j < |OutcomeTypes| ==> OutcomeTypes[i].key != OutcomeTypes[j].key
  {
  }

  /** The input a slot of the given type shows: variants with a value
      field, or one of the two pickers; none for an unknown or empty type. */
  function ShapeOf(key: string): (r: Option<OutcomeShape>)
  {
    if key == "roi" then Some(OutcomeTypes[0].shape)
    else if key == "pf" then Some(OutcomeTypes[1].shape)
    else if key == "proc_charge" then Some(OutcomeTypes[2].shape)
    else if key == "merchant_offer" then Some(MerchantOfferPicker)
    else if key == "smart_tag" then Some(SmartTagPicker)
    else None
  }

  lemma CatalogKeys()
    ensures OutcomeTypeKeys() == ["roi", "pf", "proc_charge", "merchant_offer", "smart_tag"]
  {
  }

  /** `ShapeOf` is the input of the type `OUTCOME_TYPES.find` returns. */
  lemma ShapeOfIsLookup(key: string)
    ensures ShapeOf(key) == (match OutcomeTypeOf(key) case Some(t) => Some(t.shape) case None => None)
  {
    var p := (t: OutcomeType) => t.key == key;
    if key == "roi" {
      FindFirst(OutcomeTypes, p, 0);
    } else if key == "pf" {
      FindFirst(OutcomeTypes, p, 1);
    } else if key == "proc_charge" {
      FindFirst(OutcomeTypes, p, 2);
    } else if key == "merchant_offer" {
      FindFirst(OutcomeTypes, p, 3);
    } else if key == "smart_tag" {
      FindFirst(OutcomeTypes, p, 4);
    } else {
      assert forall i :: 0 <= i < |OutcomeTypes| ==> !p(OutcomeTypes[i]);
    }
  }

  /** `find` returns the element at the first position that matches. */
  lemma {:induction false} FindFirst<T>(s: seq<T>, p: T -> bool, i: nat)
    requires i < |s| && p(s[i]) && forall j :: 0 <= j < i ==> !p(s[j])
    ensures Find(s, p) == Some(s[i])
  {
    if i > 0 {
      FindFirst(s[1..], p, i - 1);
    }
  }

  /** A type has an input exactly when its key is in the catalog. */
  lemma ShapeOfKnownKeys(key: string)
    ensures ShapeOf(key).Some? <==> key in OutcomeTypeKeys()
  {
    CatalogKeys();
  }

  /** Every catalog type has a non-empty key, listed by `OutcomeTypeKeys`. */
  lemma CatalogTypeKey(t: OutcomeType)
    requires t in OutcomeTypes
    ensures t.key != "" && t.key in OutcomeTypeKeys()
  {
    var i :| 0 <= i < |OutcomeTypes| && OutcomeTypes[i] == t;
    assert OutcomeTypeKeys()[i] == t.key;
  }

  /** A display name is never empty when the id is not. */
  lemma DisplayNamesNonEmpty(id: string)
    requires id != ""
    ensures SmartTagName(id) != "" && MerchantOfferName(id) != ""
  {
  }
}

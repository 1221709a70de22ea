/** The plan cards of frontend/src/sections/Pricing.jsx: price formatting and
    the mapping of a plan row from the public plans endpoint to what a card
    shows. */
module Pricing {
  import opened Common

  /** A plan row as the endpoint returns it. */
  datatype PlanRow = PlanRow(
    code: string,
    name: string,
    monthlyPriceCents: Option<int>,
    featuresJson: Option<string>,
    vehicleLimit: Option<int>,
    userLimit: Option<int>)

  /** What a plan card shows. */
  datatype UiPlan = UiPlan(
    code: string,
    name: string,
    price: string,
    period: string,
    description: string,
    features: seq<string>,
    highlight: bool,
    popular: bool,
    cta: string)

  /** `Math.round(cents / 100)` for whole cents: halves go up. */
  function RoundedDollars(cents: int): (d: int)
    ensures 100 * d - 50 <= cents < 100 * d + 50
  {
    (cents + 50) / 100
  }

  /** Rounding to the nearest dollar has only one answer. */
  lemma RoundedDollarsUnique(cents: int, d: int)
    requires 100 * d - 50 <= cents < 100 * d + 50
    ensures d == RoundedDollars(cents)
  {
  }

  /** `centsToMoney(cents)`: null stays null, otherwise "$" and the whole
      dollar amount nearest to the cents. */
  function CentsToMoney(cents: Option<int>): (r: Option<string>)
    ensures r.None? <==> cents.None?
    ensures r.Some? ==> |r.value| >= 2 && r.value[0] == '$'
    ensures r.Some? ==> exists d :: 100 * d - 50 <= cents.value < 100 * d + 50 && r.value == "$" + IntToString(d)
  {
    match cents
    case None => None
    case Some(c) => Some("$" + IntToString(RoundedDollars(c)))
  }

  lemma CentsToMoneyExamples()
    ensures CentsToMoney(Some(1900)) == Some("$19")
    ensures CentsToMoney(Some(4950)) == Some("$50")
    ensures CentsToMoney(Some(4949)) == Some("$49")
    ensures CentsToMoney(Some(0)) == Some("$0")
  {
    assert RoundedDollars(1900) == 19 && RoundedDollars(4950) == 50;
    assert RoundedDollars(4949) == 49 && RoundedDollars(0) == 0;
    assert NatToString(19) == NatToString(1) + "9" == "19";
    assert NatToString(50) == NatToString(5) + "0" == "50";
    assert NatToString(49) == NatToString(4) + "9" == "49";
    assert NatToString(0) == "0";
    assert IntToString(19) == "19" && IntToString(50) == "50" && IntToString(49) == "49" && IntToString(0) == "0";
    assert "$" + "19" == "$19" && "$" + "50" == "$50" && "$" + "49" == "$49" && "$" + "0" == "$0";
  }

  /** A numeric limit counts when present and non-zero. */
  predicate LimitSet(v: Option<int>) { v.Some? && v.value != 0 }

  const GenericFeatures: seq<string> := ["Preventive maintenance", "Driver checklists"]

  /** The bullets built when the row has no usable feature list. */
  function DefaultFeatures(vehicleLimit: Option<int>, userLimit: Option<int>): (r: seq<string>)
    ensures |r| == 2 + Bit(LimitSet(vehicleLimit)) + Bit(LimitSet(userLimit))
    ensures r[|r| - 2..] == GenericFeatures
    ensures LimitSet(vehicleLimit) ==> r[0] == "Up to " + IntToString(vehicleLimit.value) + " vehicles"
    ensures LimitSet(userLimit) ==>
              r[Bit(LimitSet(vehicleLimit))] == "Up to " + IntToString(userLimit.value) + " users"
  {
    var vehicles := if LimitSet(vehicleLimit) then ["Up to " + IntToString(vehicleLimit.value) + " vehicles"] else [];
    var users := if LimitSet(userLimit) then ["Up to " + IntToString(userLimit.value) + " users"] else [];
    vehicles + users + GenericFeatures
  }

  /** The parsed `features_json`, or [] when absent, empty or unparsable. */
  function ParsedFeatures(featuresJson: Option<string>, parse: string -> Parsed<seq<string>>): (r: seq<string>)
    ensures !Truthy(featuresJson) ==> r == []
    ensures Truthy(featuresJson) && parse(featuresJson.value).ParseError? ==> r == []
    ensures Truthy(featuresJson) && parse(featuresJson.value).ParsedValue? ==> r == parse(featuresJson.value).value
  {
    if !Truthy(featuresJson) then []
    else match parse(featuresJson.value)
      case ParsedValue(v) => v
      case ParseError => []
  }

  /** The card's feature list: the stored list when it has entries, the
      default bullets otherwise. */
  function PlanFeatures(p: PlanRow, parse: string -> Parsed<seq<string>>): (r: seq<string>)
    ensures |r| > 0
    ensures ParsedFeatures(p.featuresJson, parse) != [] ==> r == ParsedFeatures(p.featuresJson, parse)
    ensures ParsedFeatures(p.featuresJson, parse) == [] ==> r == DefaultFeatures(p.vehicleLimit, p.userLimit)
  {
    var features := ParsedFeatures(p.featuresJson, parse);
    if |features| == 0 then DefaultFeatures(p.vehicleLimit, p.userLimit) else features
  }

  /** The description table, "" for an unknown code. */
  function Description(code: string): string {
    if code == "starter" then "For small fleets getting started with Servix."
    else if code == "pro" then "Best for growing fleets that need alerts & exports."
    else if code == "enterprise" then "For large operations with advanced needs."
    else ""
  }

  /** One plan row as a card. */
  function ToUiPlan(p: PlanRow, parse: string -> Parsed<seq<string>>): (u: UiPlan)
    ensures u.code == p.code && u.name == p.name
    ensures u.price == "Custom" <==> p.monthlyPriceCents.None?
    ensures p.monthlyPriceCents.Some? ==> Some(u.price) == CentsToMoney(p.monthlyPriceCents)
    ensures u.period == (if p.monthlyPriceCents.Some? then "/mo" else "")
    ensures u.highlight <==> p.code == "pro"
    ensures u.popular <==> p.code == "pro"
    ensures u.cta == "Contact us" <==> p.code == "enterprise"
    ensures u.cta == "Contact us" || u.cta == "Subscribe"
    ensures u.features == PlanFeatures(p, parse)
    ensures u.description == Description(p.code)
    ensures u.description != "" <==> p.code in ["starter", "pro", "enterprise"]
  {
    var price := CentsToMoney(p.monthlyPriceCents);
    UiPlan(p.code, p.name,
           if price.Some? then price.value else "Custom",
           if price.Some? then "/mo" else "",
           Description(p.code),
           PlanFeatures(p, parse),
           p.code == "pro",
           p.code == "pro",
           if p.code == "enterprise" then "Contact us" else "Subscribe")
  }

  /** `data.plans.map(...)`: one card per row, in row order. */
  function ToUiPlans(plans: seq<PlanRow>, parse: string -> Parsed<seq<string>>): (r: seq<UiPlan>)
    ensures |r| == |plans|
    ensures forall i :: 0 <= i < |plans| ==> r[i] == ToUiPlan(plans[i], parse)
    ensures forall i :: 0 <= i < |plans| ==> r[i].code == plans[i].code
  {
    seq(|plans|, i requires 0 <= i < |plans| => ToUiPlan(plans[i], parse))
  }

  /** A free plan shows "$0" per month; only a missing price shows "Custom". */
  lemma FreePlanIsNotCustom(p: PlanRow, parse: string -> Parsed<seq<string>>)
    requires p.monthlyPriceCents == Some(0)
    ensures ToUiPlan(p, parse).price == "$0" && ToUiPlan(p, parse).period == "/mo"
  {
    assert NatToString(0) == "0";
  }
}

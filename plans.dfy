/**
 * The fixed plan catalog (`PLANS`, identical in both bots apart from the
 * descriptions) and the plan-selection decision both bots make when a
 * `select_plan_<id>` button is pressed.
 */
module Plans {
  import opened Wrappers
  import opened Text

  /** A plan as the catalog lists it; name and price are display text. */
  datatype Plan = Plan(name: string, price: string, days: nat)

  /** `PLANS`, in the dict's insertion order. */
  const Catalog: seq<(string, Plan)> := [
    ("week", Plan("WEEK PASS", "$14.99", 7)),
    ("month", Plan("MONTH PASS", "$24.99", 30)),
    ("3month", Plan("3 MONTH PASS", "$49.99", 90)),
    ("halfyear", Plan("1/2 YEAR PASS", "$79.99", 180)),
    ("year", Plan("1 YEAR PASS", "$99.99", 365)),
    ("lifetime", Plan("LIFETIME PASS", "$149.99", 9999))
  ]

  /** The plan ids, in catalog order. */
  function PlanIds(): (ids: seq<string>)
    ensures |ids| == |Catalog|
    ensures forall i :: 0 <= i < |Catalog| ==> ids[i] == Catalog[i].0
  {
    seq(|Catalog|, i requires 0 <= i < |Catalog| => Catalog[i].0)
  }

  /** `d.get(key)` on a dict given as its (key, value) items in order. */
  function Lookup<V>(items: seq<(string, V)>, key: string): (r: Option<V>)
    ensures r.None? <==> forall i :: 0 <= i < |items| ==> items[i].0 != key
    ensures r.Some? ==> exists i :: 0 <= i < |items| && items[i] == (key, r.value)
  {
    if |items| == 0 then None
    else if items[0].0 == key then Some(items[0].1)
    else Lookup(items[1..], key)
  }

  /** In a dict whose keys are distinct, the lookup of the i-th key yields the i-th value. */
  lemma {:induction false} LookupDistinct<V>(items: seq<(string, V)>, i: nat)
    requires i < |items|
    requires forall j, k :: 0 <= j < k < |items| ==> items[j].0 != items[k].0
    ensures Lookup(items, items[i].0) == Some(items[i].1)
  {
    if i > 0 {
      LookupDistinct(items[1..], i - 1);
    }
  }

  /** The catalog's plan ids are distinct, as the keys of a dict are. */
  lemma CatalogIdsDistinct()
    ensures forall j, k :: 0 <= j < k < |Catalog| ==> Catalog[j].0 != Catalog[k].0
  {
  }

  /** `PLANS.get(plan_id)` */
  function FindPlan(id: string): Option<Plan> {
    Lookup(Catalog, id)
  }

  /** `PLANS.get(plan_type, {}).get('days', 30)`: the catalog duration, 30 for an unknown plan. */
  function DefaultGrantDays(planType: string): (days: int)
    ensures FindPlan(planType).Some? ==> days == FindPlan(planType).value.days
    ensures FindPlan(planType).None? ==> days == 30
  {
    match FindPlan(planType)
    case Some(p) => p.days
    case None => 30
  }

  /** `PAYMENT_LINKS.get(plan_id, "")` */
  function PaymentLink(links: seq<(string, string)>, id: string): string {
    Lookup(links, id).GetOr("")
  }

  /** What pressing `select_plan_<id>` leads to. */
  datatype PlanChoice =
    | UnknownPlan(id: string)                                  // "invalid plan" reply
    | LinkUnavailable(id: string, plan: Plan)                  // "payment link unavailable" reply
    | PaymentInstructions(id: string, plan: Plan, link: string) // instructions + pay button to `link`

  /**
   * `select_plan` in both bots: the plan id is the last `_`-separated piece of the
   * callback data; an unknown id and an empty payment link are reported, in that order.
   */
  function ChoosePlan(data: string, links: seq<(string, string)>): (r: PlanChoice)
    ensures r.id == LastSegment(data, '_')
    ensures r.UnknownPlan? <==> FindPlan(r.id).None?
    ensures r.LinkUnavailable? <==> FindPlan(r.id).Some? && PaymentLink(links, r.id) == ""
    ensures !r.UnknownPlan? ==> FindPlan(r.id) == Some(r.plan)
    ensures r.PaymentInstructions? ==> r.link == PaymentLink(links, r.id) && r.link != ""
  {
    var id := LastSegment(data, '_');
    match FindPlan(id)
    case None => UnknownPlan(id)
    case Some(plan) =>
      var link := PaymentLink(links, id);
      if link == "" then LinkUnavailable(id, plan) else PaymentInstructions(id, plan, link)
  }

  /** The callback data of a plan's button: `f"select_plan_{plan_id}"`. */
  function SelectPlanToken(id: string): string {
    "select_plan_" + id
  }

  /** A keyboard button: one that sends callback data, or one that opens a URL. */
  datatype Button =
    | Button(caption: string, callback: string)
    | UrlButton(caption: string, url: string)

  /**
   * The keyboard of `show_subscription_plans` / `show_plans`: one "name - price"
   * button per plan, in catalog order, then the "back" button (captions of
   * translated texts are written as their translation keys).
   */
  predicate IsPlanMenu(buttons: seq<Button>) {
    && |buttons| == |Catalog| + 1
    && (forall i :: 0 <= i < |Catalog| ==>
          buttons[i] == Button(Catalog[i].1.name + " - " + Catalog[i].1.price, SelectPlanToken(Catalog[i].0)))
    && buttons[|Catalog|] == Button("back_to_menu", "back_to_start")
  }

  /** Builds the plan keyboard one catalog entry at a time. */
  method PlanMenu() returns (buttons: seq<Button>)
    ensures IsPlanMenu(buttons)
  {
    buttons := [];
    var i := 0;
    while i < |Catalog|
      invariant 0 <= i <= |Catalog|
      invariant |buttons| == i
      invariant forall j :: 0 <= j < i ==>
        buttons[j] == Button(Catalog[j].1.name + " - " + Catalog[j].1.price, SelectPlanToken(Catalog[j].0))
    {
      var (id, plan) := Catalog[i];
      buttons := buttons + [Button(plan.name + " - " + plan.price, SelectPlanToken(id))];
      i := i + 1;
    }
    buttons := buttons + [Button("back_to_menu", "back_to_start")];
  }

  /**
   * Every button the plan menu offers leads back to its own plan: the id read
   * back from the button's callback data is the plan's id, and the catalog
   * finds that plan.
   */
  lemma PlanTokenRoundTrip(i: nat)
    requires i < |Catalog|
    ensures LastSegment(SelectPlanToken(Catalog[i].0), '_') == Catalog[i].0
    ensures FindPlan(Catalog[i].0) == Some(Catalog[i].1)
  {
    var id := Catalog[i].0;
    assert '_' !in id;
    assert SelectPlanToken(id) == "select_plan" + ['_'] + id;
    LastSegmentAfterSeparator("select_plan", '_', id);
    LookupDistinct(Catalog, i);
  }

  /** Choosing a catalog plan from its own button pays with its link, unless that link is empty. */
  lemma ChooseCatalogPlan(i: nat, links: seq<(string, string)>)
    requires i < |Catalog|
    ensures var r := ChoosePlan(SelectPlanToken(Catalog[i].0), links);
      r.id == Catalog[i].0 && r.plan == Catalog[i].1 &&
      (r.PaymentInstructions? <==> PaymentLink(links, Catalog[i].0) != "")
  {
    PlanTokenRoundTrip(i);
  }
}

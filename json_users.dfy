/**
 * The simpler bot (improved_bot.py): user records kept as JSON objects in a
 * dict keyed by the user id's decimal text, the field whitelist applied to
 * every update, the subscription check on a record, and the callback router
 * with its plan selection. Reading and writing the JSON file is not
 * modelled: the dict is the store's state and every save succeeds.
 */
module JsonUsers {
  import opened Wrappers
  import opened Values
  import opened Text
  import opened Plans
  import Config

  /** A user record: a JSON object. */
  type Record = map<string, Json>

  /** The only keys `validate_user_data` lets through. */
  const AllowedFields: set<string> := {
    "id", "username", "first_name", "last_name", "language_code",
    "created_at", "last_updated", "subscription_active",
    "subscription_until", "plan", "payments"
  }

  /** The whitelisted part of a record: the allowed keys, with their values. */
  function Sanitized(data: Record): Record {
    map k | k in data && k in AllowedFields :: data[k]
  }

  /** `validate_user_data`: copies the allowed fields one by one into a new dict. */
  method ValidateUserData(data: Record) returns (safe: Record)
    ensures forall k :: k in safe <==> k in data && k in AllowedFields
    ensures forall k :: k in safe ==> safe[k] == data[k]
    ensures safe == Sanitized(data)
  {
    safe := map[];
    var pending := data.Keys;
    while pending != {}
      invariant pending <= data.Keys
      invariant forall k :: k in safe <==> k in data && k !in pending && k in AllowedFields
      invariant forall k :: k in safe ==> safe[k] == data[k]
      decreases |pending|
    {
      var key :| key in pending;
      if key in AllowedFields {
        safe := safe[key := data[key]];
      }
      pending := pending - {key};
    }
  }

  /** Sanitising twice is sanitising once, and a sanitised record only has allowed keys. */
  lemma SanitizeIdempotent(data: Record)
    ensures Sanitized(Sanitized(data)) == Sanitized(data)
    ensures Sanitized(data).Keys <= AllowedFields
  {
  }

  // ---------------------------------------------------------------------------
  // The user id argument
  // ---------------------------------------------------------------------------

  /**
   * The `user_id` argument as Python sees it: an int, a bool (which
   * `isinstance(_, int)` accepts) or anything else.
   */
  datatype UserIdArg = IntArg(i: int) | BoolArg(b: bool) | OtherArg

  /** `isinstance(user_id, int) and user_id > 0` (True counts as 1). */
  predicate AcceptedId(id: UserIdArg) {
    match id
    case IntArg(i) => i > 0
    case BoolArg(b) => b
    case OtherArg => false
  }

  /** `str(user_id)` */
  function KeyOf(id: UserIdArg): string
    requires AcceptedId(id)
  {
    match id
    case IntArg(i) => IntToString(i)
    case BoolArg(_) => "True"
  }

  /** The id as it is stored in the record's "id" field. */
  function IdValue(id: UserIdArg): Json
    requires AcceptedId(id)
  {
    match id
    case IntArg(i) => JInt(i)
    case BoolArg(b) => JBool(b)
  }

  /** The record `update_user` creates for an unknown id. */
  function DefaultRecord(id: UserIdArg, now: int): Record
    requires AcceptedId(id)
  {
    map["id" := IdValue(id), "created_at" := JStamp(now), "subscription_active" := JBool(false),
        "subscription_until" := JNull, "plan" := JNull, "payments" := JInt(0)]
  }

  /**
   * The users dict after a successful `update_user`: the record (or a new
   * default one) updated with the whitelisted fields, then stamped.
   */
  function UpdatedUsers(users: map<string, Record>, id: UserIdArg, data: Record, now: int): map<string, Record>
    requires AcceptedId(id)
  {
    var key := KeyOf(id);
    var base := if key in users then users[key] else DefaultRecord(id, now);
    users[key := (base + Sanitized(data))["last_updated" := JStamp(now)]]
  }

  /**
   * What an update does to the users dict: only the user's own record
   * changes; in it, every allowed field of the input replaces the old value,
   * every other field keeps its value (or the default record's, for a new
   * user), and `last_updated` is now. The whitelisted 'id' can be overwritten.
   */
  lemma UpdateEffect(users: map<string, Record>, id: UserIdArg, data: Record, now: int, k: string, f: string)
    requires AcceptedId(id)
    ensures var after := UpdatedUsers(users, id, data, now);
      && after.Keys == users.Keys + {KeyOf(id)}
      && (k != KeyOf(id) && k in users ==> after[k] == users[k])
      && after[KeyOf(id)]["last_updated"] == JStamp(now)
      && (f != "last_updated" && f in data && f in AllowedFields ==> f in after[KeyOf(id)] && after[KeyOf(id)][f] == data[f])
      && (f != "last_updated" && !(f in data && f in AllowedFields) ==>
            var base := if KeyOf(id) in users then users[KeyOf(id)] else DefaultRecord(id, now);
            (f in after[KeyOf(id)] <==> f in base) && (f in base ==> after[KeyOf(id)][f] == base[f]))
  {
  }

  /**
   * A new user starts inactive, without a plan or payments; the fields the
   * input does not override keep those defaults.
   */
  lemma NewUserDefaults(users: map<string, Record>, id: UserIdArg, data: Record, now: int)
    requires AcceptedId(id) && KeyOf(id) !in users
    requires "subscription_active" !in data && "subscription_until" !in data && "payments" !in data
    ensures var rec := UpdatedUsers(users, id, data, now)[KeyOf(id)];
      && rec["subscription_active"] == JBool(false)
      && rec["subscription_until"] == JNull
      && rec["payments"] == JInt(0)
      && ("plan" !in data ==> rec["plan"] == JNull)
      && ("id" !in data ==> rec["id"] == IdValue(id))
      && ("created_at" !in data ==> rec["created_at"] == JStamp(now))
  {
  }

  /** `get_user_data`: the record stored under `str(user_id)`, or None. */
  function GetUserData(users: map<string, Record>, userId: int): (r: Option<Record>)
    ensures r.Some? <==> IntToString(userId) in users
    ensures r.Some? ==> r.value == users[IntToString(userId)]
  {
    if IntToString(userId) in users then Some(users[IntToString(userId)]) else None
  }

  /**
   * After updating an int id, `get_user_data` finds the stamped record;
   * the record of every other int id is unchanged, because distinct ints
   * have distinct keys.
   */
  lemma UpdateThenGet(users: map<string, Record>, id: int, data: Record, now: int, other: int)
    requires id > 0
    ensures GetUserData(UpdatedUsers(users, IntArg(id), data, now), id).Some?
    ensures GetUserData(UpdatedUsers(users, IntArg(id), data, now), id).value["last_updated"] == JStamp(now)
    ensures other != id ==> GetUserData(UpdatedUsers(users, IntArg(id), data, now), other) == GetUserData(users, other)
  {
    if other != id && IntToString(other) == IntToString(id) {
      IntToStringInjective(other, id);
    }
  }

  /** Python's `True` passes the id check and is filed under the key "True". */
  lemma TrueIsAcceptedId()
    ensures AcceptedId(BoolArg(true)) && KeyOf(BoolArg(true)) == "True"
    ensures !AcceptedId(BoolArg(false)) && !AcceptedId(IntArg(0))
  {
  }

  /** The users dict `update_user` works on. */
  class JsonUserStore {
    var users: map<string, Record>

    constructor()
      ensures users == map[]
    {
      users := map[];
    }

    /**
     * `update_user`: a rejected id changes nothing and answers False;
     * otherwise the record is created if needed, merged with the
     * whitelisted fields and stamped, and the answer is True.
     */
    method UpdateUser(id: UserIdArg, data: Record, now: int) returns (ok: bool)
      modifies this
      ensures ok <==> AcceptedId(id)
      ensures !ok ==> users == old(users)
      ensures ok ==> users == UpdatedUsers(old(users), id, data, now)
    {
      if !AcceptedId(id) {
        return false;
      }
      var key := KeyOf(id);
      if key !in users {
        users := users[key := DefaultRecord(id, now)];
      }
      var safe := ValidateUserData(data);
      var record := users[key] + safe;
      record := record["last_updated" := JStamp(now)];
      users := users[key := record];
      ok := true;
    }
  }

  // ---------------------------------------------------------------------------
  // is_user_active
  // ---------------------------------------------------------------------------

  /** `d.get(key, default)` */
  function Get(rec: Record, key: string, default: Json): Json {
    if key in rec then rec[key] else default
  }

  /**
   * `is_user_active`: a non-empty record whose `subscription_active` is truthy
   * and whose `subscription_until` is an ISO timestamp later than now. A
   * missing or empty expiry, or one that is not a timestamp (ValueError,
   * TypeError), means inactive.
   */
  function IsUserActive(rec: Record, now: int): (active: bool)
    ensures active <==>
      && rec != map[]
      && "subscription_active" in rec && Truthy(rec["subscription_active"])
      && "subscription_until" in rec && rec["subscription_until"].JStamp?
      && now < rec["subscription_until"].t
  {
    if rec == map[] then false
    else if !Truthy(Get(rec, "subscription_active", JBool(false))) then false
    else
      var expiry := Get(rec, "subscription_until", JNull);
      if !Truthy(expiry) then false
      else match expiry
        case JStamp(t) => now < t
        case _ => false
  }

  /** A newly created user is not active, whatever the time. */
  lemma NewUserInactive(users: map<string, Record>, id: UserIdArg, now: int, later: int)
    requires AcceptedId(id) && KeyOf(id) !in users
    ensures !IsUserActive(UpdatedUsers(users, id, map[], now)[KeyOf(id)], later)
  {
  }

  /** Granting through an update makes the user active until the expiry, and no longer. */
  lemma ActivateByUpdate(users: map<string, Record>, id: UserIdArg, until: int, now: int, at: int)
    requires AcceptedId(id)
    ensures var rec := UpdatedUsers(users, id, map["subscription_active" := JBool(true), "subscription_until" := JStamp(until)], now)[KeyOf(id)];
      IsUserActive(rec, at) <==> at < until
  {
    var data := map["subscription_active" := JBool(true), "subscription_until" := JStamp(until)];
    assert "subscription_active" in Sanitized(data) && "subscription_until" in Sanitized(data);
  }

  // ---------------------------------------------------------------------------
  // handle_callbacks
  // ---------------------------------------------------------------------------

  datatype Route =
    | ShowPlans       // show_plans
    | PlanSelection   // select_plan_*
    | Help            // help
    | MyStatus        // my_status
    | BackToStart     // back_to_start
    | AdminPanel      // admin_panel: "Panel de admin en desarrollo"
    | NotRecognized   // "Acción no reconocida"

  /** No callback data matches both an exact token and the plan-selection prefix. */
  lemma TokensAreNotPlanSelections(data: string)
    ensures StartsWith(data, "select_plan_") ==>
      data !in ["show_plans", "help", "my_status", "back_to_start", "admin_panel"]
  {
    if data == "show_plans" {
      NotPrefix(data, "select_plan_", 1);
    } else if data in ["help", "my_status", "back_to_start", "admin_panel"] {
      NotPrefix(data, "select_plan_", 0);
    }
  }

  /**
   * `handle_callbacks`: the exact tokens and the one prefix, in order; since
   * no data matches two rules, each route is taken exactly when its rule matches.
   */
  function RouteCallbacks(data: string): (r: Route)
    ensures r == PlanSelection <==> StartsWith(data, "select_plan_")
    ensures r == ShowPlans <==> data == "show_plans"
    ensures r == Help <==> data == "help"
    ensures r == MyStatus <==> data == "my_status"
    ensures r == BackToStart <==> data == "back_to_start"
    ensures r == AdminPanel <==> data == "admin_panel"
  {
    TokensAreNotPlanSelections(data);
    if data == "show_plans" then ShowPlans
    else if StartsWith(data, "select_plan_") then PlanSelection
    else if data == "help" then Help
    else if data == "my_status" then MyStatus
    else if data == "back_to_start" then BackToStart
    else if data == "admin_panel" then AdminPanel
    else NotRecognized
  }

  /**
   * `PAYMENT_LINKS`: the same six environment variables the other bot reads,
   * keyed by plan id, "" where a variable is unset.
   */
  function PaymentLinks(env: map<string, string>): seq<(string, string)> {
    Config.GetLinksDict(Config.PaymentsFromEnv(env))
  }

  /** The environment variable of each catalog plan's link, in catalog order. */
  const LinkVariables := ["WEEK_PAYMENT_LINK", "MONTH_PAYMENT_LINK", "3MONTH_PAYMENT_LINK",
                          "HALFYEAR_PAYMENT_LINK", "YEAR_PAYMENT_LINK", "LIFETIME_PAYMENT_LINK"]

  /** The link of the i-th catalog plan is read from its own environment variable. */
  lemma PaymentLinkOfPlan(env: map<string, string>, i: nat)
    requires i < |Catalog|
    ensures PaymentLink(PaymentLinks(env), Catalog[i].0) == Config.Getenv(env, LinkVariables[i], "")
  {
    var links := PaymentLinks(env);
    assert forall j, k :: 0 <= j < k < |links| ==> links[j].0 != links[k].0;
    LookupDistinct(links, i);
  }

  /** A plan id outside the catalog has no payment link. */
  lemma NoLinkOutsideCatalog(env: map<string, string>, id: string)
    requires FindPlan(id).None?
    ensures PaymentLink(PaymentLinks(env), id) == ""
  {
    var links := PaymentLinks(env);
    assert forall i :: 0 <= i < |links| ==> links[i].0 == Catalog[i].0;
  }

  /** The "back" button of this bot's plan list. */
  const VolverButton := Button("\U{1F519} Volver", "back_to_start")

  /**
   * The keyboard of `show_plans`: one "name - price" button per catalog plan
   * selecting that plan, in catalog order, then this bot's back button.
   */
  predicate IsPlansKeyboard(buttons: seq<Button>) {
    && |buttons| == |Catalog| + 1
    && (forall i :: 0 <= i < |Catalog| ==>
          buttons[i] == Button(Catalog[i].1.name + " - " + Catalog[i].1.price, SelectPlanToken(Catalog[i].0)))
    && buttons[|Catalog|] == VolverButton
  }

  /** `show_plans`: the same plan buttons as the other bot's plan menu, then its own back button. */
  method PlansKeyboard() returns (buttons: seq<Button>)
    ensures IsPlansKeyboard(buttons)
  {
    var menu := PlanMenu();
    buttons := menu[..|Catalog|] + [VolverButton];
  }

  /**
   * The keyboard of `start_command`: plans, status and help always, and the
   * admin button exactly for the configured admin ids.
   */
  function StartButtons(userId: int, adminIds: seq<int>): (buttons: seq<Button>)
    ensures |buttons| >= 3
    ensures buttons[..3] == [Button("\U{1F48E} Ver Planes", "show_plans"),
                             Button("\U{1F464} Mi Estado", "my_status"),
                             Button("\U{2753} Ayuda", "help")]
    ensures |buttons| == 4 <==> userId in adminIds
    ensures |buttons| == 3 <==> userId !in adminIds
    ensures |buttons| == 4 ==> buttons[3] == Button("\U{1F451} Admin", "admin_panel")
  {
    var keyboard := [Button("\U{1F48E} Ver Planes", "show_plans"),
                     Button("\U{1F464} Mi Estado", "my_status"),
                     Button("\U{2753} Ayuda", "help")];
    if userId in adminIds then keyboard + [Button("\U{1F451} Admin", "admin_panel")] else keyboard
  }

  /** The status `status_command` and `start_command` report for a user: inactive without a record. */
  function StatusOf(users: map<string, Record>, userId: int, now: int): (active: bool)
    ensures active ==> GetUserData(users, userId).Some? && IsUserActive(users[IntToString(userId)], now)
    ensures GetUserData(users, userId).Some? && IsUserActive(users[IntToString(userId)], now) ==> active
  {
    IsUserActive(GetUserData(users, userId).GetOr(map[]), now)
  }

  /** The Telegram profile `start_command` records: `first_name` is always set, the rest may be None. */
  datatype Profile = Profile(username: Option<string>, firstName: string, lastName: Option<string>,
                             languageCode: Option<string>)

  /** A Python `Optional[str]` as JSON: None becomes null. */
  function OptionalText(s: Option<string>): Json {
    match s
    case None => JNull
    case Some(t) => JStr(t)
  }

  /**
   * The `user_data` dict `start_command` passes to `update_user`: exactly the
   * four profile fields, never a subscription field.
   */
  function ProfileRecord(p: Profile): (r: Record)
    ensures r.Keys == {"username", "first_name", "last_name", "language_code"}
    ensures r.Keys <= AllowedFields
  {
    map["username" := OptionalText(p.username), "first_name" := JStr(p.firstName),
        "last_name" := OptionalText(p.lastName), "language_code" := OptionalText(p.languageCode)]
  }

  /**
   * Recording the profile never changes whether the user is active: the
   * subscription fields are kept, and a new record starts inactive.
   */
  lemma ProfileKeepsStatus(users: map<string, Record>, userId: int, p: Profile, now: int, at: int)
    requires userId > 0
    ensures StatusOf(UpdatedUsers(users, IntArg(userId), ProfileRecord(p), now), userId, at) == StatusOf(users, userId, at)
  {
    var key := IntToString(userId);
    var after := UpdatedUsers(users, IntArg(userId), ProfileRecord(p), now);
    UpdateEffect(users, IntArg(userId), ProfileRecord(p), now, key, "subscription_active");
    UpdateEffect(users, IntArg(userId), ProfileRecord(p), now, key, "subscription_until");
    assert "last_updated" in after[key];
  }

  /** What this bot shows after a callback. */
  datatype Reply =
    | PlansScreen(buttons: seq<Button>)
    | PlanReply(choice: PlanChoice)
    | HelpScreen
    | StatusScreen(active: bool)
    | StartScreen(active: bool, buttons: seq<Button>)
    | AdminNotice
    | Unrecognized

  /**
   * `handle_callbacks` with its handlers: the plan list, the plan choice
   * (`select_plan`, shared with the other bot), help, the sender's status,
   * and `start_command` for `back_to_start`, which first records the
   * sender's Telegram profile (username, names, language code).
   */
  method HandleCallbacks(store: JsonUserStore, userId: int, profile: Profile, adminIds: seq<int>,
                         data: string, env: map<string, string>, now: int) returns (reply: Reply)
    modifies store
    ensures RouteCallbacks(data) == ShowPlans ==> reply.PlansScreen? && IsPlansKeyboard(reply.buttons)
    ensures RouteCallbacks(data) == PlanSelection ==> reply == PlanReply(ChoosePlan(data, PaymentLinks(env)))
    ensures RouteCallbacks(data) == Help ==> reply == HelpScreen
    ensures RouteCallbacks(data) == MyStatus ==> reply == StatusScreen(StatusOf(store.users, userId, now))
    ensures RouteCallbacks(data) == BackToStart ==>
      reply == StartScreen(StatusOf(store.users, userId, now), StartButtons(userId, adminIds))
    ensures RouteCallbacks(data) == BackToStart ==> reply.active == StatusOf(old(store.users), userId, now)
    ensures RouteCallbacks(data) == AdminPanel ==> reply == AdminNotice
    ensures RouteCallbacks(data) == NotRecognized ==> reply == Unrecognized
    ensures RouteCallbacks(data) != BackToStart || userId <= 0 ==> store.users == old(store.users)
    ensures RouteCallbacks(data) == BackToStart && userId > 0 ==>
      store.users == UpdatedUsers(old(store.users), IntArg(userId), ProfileRecord(profile), now)
  {
    match RouteCallbacks(data)
    case ShowPlans =>
      var buttons := PlansKeyboard();
      reply := PlansScreen(buttons);
    case PlanSelection =>
      reply := PlanReply(ChoosePlan(data, PaymentLinks(env)));
    case Help =>
      reply := HelpScreen;
    case MyStatus =>
      reply := StatusScreen(StatusOf(store.users, userId, now));
    case BackToStart =>
      var _ := store.UpdateUser(IntArg(userId), ProfileRecord(profile), now);
      if userId > 0 {
        ProfileKeepsStatus(old(store.users), userId, profile, now, now);
      }
      reply := StartScreen(StatusOf(store.users, userId, now), StartButtons(userId, adminIds));
    case AdminPanel =>
      reply := AdminNotice;
    case NotRecognized =>
      reply := Unrecognized;
  }
}

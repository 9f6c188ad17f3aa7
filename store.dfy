/**
 * The SQLite store of the hybrid bot (hybrid_database.py): the `users`,
 * `subscriptions`, `bot_settings`, `audit_log` and `analytics_events` tables
 * held in memory. Timestamps are whole seconds and every operation receives
 * the current instant `now` (SQLite's CURRENT_TIMESTAMP and Python's
 * `datetime.now()` alike).
 *
 * Foreign keys are switched on for every connection, so an insert whose
 * `user_id` (or `admin_id`) names no `users.telegram_id` fails; the
 * function that caught the error then reports failure.
 *
 * Each table operation is a function from the old tables to the new ones;
 * the `Database` class updates its fields with them, and the lemmas below
 * state what the operations promise.
 */
module Store {
  import opened Wrappers
  import opened Values

  /** Seconds in a day: `timedelta(days=1)`. */
  const DAY := 86400

  // ---------------------------------------------------------------------------
  // Rows
  // ---------------------------------------------------------------------------

  /** The `User` dataclass handed to `create_user`; `languageCode` None is Python's None. */
  datatype User = User(
    telegramId: int,
    username: Option<string>,
    firstName: Option<string>,
    lastName: Option<string>,
    languageCode: Option<string>,
    phoneNumber: Option<string>,
    isAdmin: bool,
    isBanned: bool)

  /** A row of `users` (the surrogate `id` column is not modelled). */
  datatype UserRow = UserRow(
    telegramId: int,
    username: Option<string>,
    firstName: Option<string>,
    lastName: Option<string>,
    languageCode: string,
    phoneNumber: Option<string>,
    isAdmin: bool,
    isBanned: bool,
    createdAt: int,
    updatedAt: int,
    lastActivity: int,
    referralCode: Option<string>,
    referredBy: Option<int>,
    notes: Option<string>)

  /** A row of `subscriptions`; `status` is 'pending', 'active' or 'expired' text. */
  datatype SubscriptionRow = SubscriptionRow(
    id: nat,
    userId: int,
    planType: string,
    status: string,
    startDate: int,
    endDate: int,
    amount: Option<real>,
    createdAt: int,
    updatedAt: int)

  /** A row of `bot_settings`, keyed by its unique `setting_key`. */
  datatype SettingRow = SettingRow(
    value: Option<string>,
    description: Option<string>,
    createdAt: int,
    updatedAt: int)

  /** A row of `audit_log`. */
  datatype AuditEntry = AuditEntry(
    userId: int,
    adminId: int,
    action: string,
    details: Option<string>,
    createdAt: int)

  /** A row of `analytics_events`; the JSON payload is kept as the dict it encodes. */
  datatype AnalyticsEvent = AnalyticsEvent(
    userId: int,
    eventType: string,
    eventData: Option<map<string, Json>>,
    createdAt: int)

  /** The whole database. `nextSubscriptionId` is the AUTOINCREMENT counter. */
  datatype Tables = Tables(
    users: seq<UserRow>,
    subscriptions: seq<SubscriptionRow>,
    settings: map<string, SettingRow>,
    audit: seq<AuditEntry>,
    analytics: seq<AnalyticsEvent>,
    nextSubscriptionId: nat)

  // ---------------------------------------------------------------------------
  // Schema constraints
  // ---------------------------------------------------------------------------

  predicate HasUser(users: seq<UserRow>, id: int) {
    exists r :: r in users && r.telegramId == id
  }

  /** `telegram_id INTEGER UNIQUE` */
  predicate UniqueIds(users: seq<UserRow>) {
    forall i, j :: 0 <= i < j < |users| ==> users[i].telegramId != users[j].telegramId
  }

  /** AUTOINCREMENT: ids start at 1, grow with the row order and stay below the counter. */
  predicate IdsBelow(subs: seq<SubscriptionRow>, next: nat) {
    && (forall i :: 0 <= i < |subs| ==> 1 <= subs[i].id < next)
    && (forall i, j :: 0 <= i < j < |subs| ==> subs[i].id < subs[j].id)
  }

  /** Every foreign key names an existing user. */
  predicate ReferencesHold(t: Tables) {
    && (forall s :: s in t.subscriptions ==> HasUser(t.users, s.userId))
    && (forall a :: a in t.audit ==> HasUser(t.users, a.userId) && HasUser(t.users, a.adminId))
    && (forall e :: e in t.analytics ==> HasUser(t.users, e.userId))
  }

  /** The constraints the schema enforces on every state of the database. */
  predicate Consistent(t: Tables) {
    && UniqueIds(t.users)
    && 1 <= t.nextSubscriptionId
    && IdsBelow(t.subscriptions, t.nextSubscriptionId)
    && ReferencesHold(t)
  }

  /** The freshly created, empty database. */
  const Empty := Tables([], [], map[], [], [], 1)

  // ---------------------------------------------------------------------------
  // users: get_user, create_user, update_user_activity, set_user_language
  // ---------------------------------------------------------------------------

  /** `get_user`: the row with that telegram id, if any. */
  function FindUser(users: seq<UserRow>, id: int): (r: Option<UserRow>)
    ensures r.None? <==> !HasUser(users, id)
    ensures r.Some? ==> r.value in users && r.value.telegramId == id
  {
    if |users| == 0 then None
    else if users[0].telegramId == id then Some(users[0])
    else FindUser(users[1..], id)
  }

  /** With unique ids, the row found for an id is any row carrying that id. */
  lemma {:induction false} FindUnique(users: seq<UserRow>, x: UserRow)
    requires UniqueIds(users)
    requires x in users
    ensures FindUser(users, x.telegramId) == Some(x)
  {
    if users[0] != x {
      assert x in users[1..];
      var k :| 0 <= k < |users| - 1 && users[1..][k] == x;
      assert users[k + 1] == x;
      assert users[0].telegramId != x.telegramId;
      FindUnique(users[1..], x);
    }
  }

  /** `user_data.language_code or 'es'` */
  function LanguageOrDefault(lang: Option<string>): (code: string)
    ensures code != ""
    ensures lang.Some? && lang.value != "" ==> code == lang.value
  {
    if lang.Some? && lang.value != "" then lang.value else "es"
  }

  /**
   * The row `INSERT OR REPLACE` writes: the listed columns from the input,
   * `updated_at` and `last_activity` now, and every other column at its
   * default (`created_at` now, the rest NULL).
   */
  function NewUserRow(u: User, now: int): UserRow {
    UserRow(
      telegramId := u.telegramId, username := u.username, firstName := u.firstName,
      lastName := u.lastName, languageCode := LanguageOrDefault(u.languageCode),
      phoneNumber := u.phoneNumber, isAdmin := u.isAdmin, isBanned := u.isBanned,
      createdAt := now, updatedAt := now, lastActivity := now,
      referralCode := None, referredBy := None, notes := None)
  }

  /** The rows whose telegram id differs from `id`, in order. */
  function RemoveUser(users: seq<UserRow>, id: int): (r: seq<UserRow>)
    ensures forall x :: x in r <==> x in users && x.telegramId != id
  {
    if |users| == 0 then []
    else if users[0].telegramId == id then RemoveUser(users[1..], id)
    else [users[0]] + RemoveUser(users[1..], id)
  }

  /** With unique ids, no later row carries the first row's id. */
  lemma HeadIdNotInTail(users: seq<UserRow>, x: UserRow)
    requires UniqueIds(users) && |users| > 0 && x in users[1..]
    ensures x.telegramId != users[0].telegramId
  {
    var k :| 0 <= k < |users| - 1 && users[1..][k] == x;
    assert users[k + 1] == x;
  }

  /** Removing rows keeps the remaining ids unique. */
  lemma {:induction false} RemoveUserUnique(users: seq<UserRow>, id: int)
    requires UniqueIds(users)
    ensures UniqueIds(RemoveUser(users, id))
  {
    if |users| > 0 {
      RemoveUserUnique(users[1..], id);
      var rest := RemoveUser(users[1..], id);
      if users[0].telegramId != id {
        var r := [users[0]] + rest;
        forall i, j | 0 <= i < j < |r| ensures r[i].telegramId != r[j].telegramId {
          if i == 0 {
            assert r[j] == rest[j - 1] && rest[j - 1] in rest;
            HeadIdNotInTail(users, r[j]);
          } else {
            assert r[i] == rest[i - 1] && r[j] == rest[j - 1];
          }
        }
      }
    }
  }

  /**
   * `create_user`: INSERT OR REPLACE on the unique `telegram_id` deletes the
   * old row, if any, and appends the new one.
   */
  function UpsertUser(users: seq<UserRow>, u: User, now: int): seq<UserRow> {
    RemoveUser(users, u.telegramId) + [NewUserRow(u, now)]
  }

  /** After `create_user` the ids are still unique and exactly one row carries the user's id: the new one. */
  lemma UpsertUserExactlyOne(users: seq<UserRow>, u: User, now: int)
    requires UniqueIds(users)
    ensures UniqueIds(UpsertUser(users, u, now))
    ensures NewUserRow(u, now) in UpsertUser(users, u, now)
    ensures forall x :: x in UpsertUser(users, u, now) && x.telegramId == u.telegramId ==> x == NewUserRow(u, now)
  {
    RemoveUserUnique(users, u.telegramId);
    var rest := RemoveUser(users, u.telegramId);
    var r := UpsertUser(users, u, now);
    forall i, j | 0 <= i < j < |r| ensures r[i].telegramId != r[j].telegramId {
      if j == |r| - 1 {
        assert r[i] == rest[i];
        assert rest[i] in rest;
      } else {
        assert r[i] == rest[i] && r[j] == rest[j];
      }
    }
  }

  /** `get_user` after `create_user` returns the row just written, whatever was stored before. */
  lemma UpsertThenFind(users: seq<UserRow>, u: User, now: int)
    requires UniqueIds(users)
    ensures FindUser(UpsertUser(users, u, now), u.telegramId) == Some(NewUserRow(u, now))
  {
    UpsertUserExactlyOne(users, u, now);
    FindUnique(UpsertUser(users, u, now), NewUserRow(u, now));
  }

  /** `create_user` leaves every other user's row as it was. */
  lemma UpsertKeepsOthers(users: seq<UserRow>, u: User, now: int, id: int)
    requires UniqueIds(users)
    requires id != u.telegramId
    ensures FindUser(UpsertUser(users, u, now), id) == FindUser(users, id)
  {
    UpsertUserExactlyOne(users, u, now);
    var r := UpsertUser(users, u, now);
    if HasUser(users, id) {
      var x := FindUser(users, id).value;
      assert x in RemoveUser(users, u.telegramId);
      assert x in r;
      FindUnique(r, x);
    } else {
      forall x | x in r ensures x.telegramId != id {
        if x != NewUserRow(u, now) {
          assert x in RemoveUser(users, u.telegramId);
        }
      }
    }
  }

  /**
   * `create_user` replaces the row rather than merging into it: what it
   * stores for the user does not depend on what was stored before, so
   * `created_at`, `referral_code`, `referred_by` and `notes` are reset.
   */
  lemma UpsertForgetsOldRow(before1: seq<UserRow>, before2: seq<UserRow>, u: User, now: int)
    requires UniqueIds(before1) && UniqueIds(before2)
    ensures FindUser(UpsertUser(before1, u, now), u.telegramId) == FindUser(UpsertUser(before2, u, now), u.telegramId)
    ensures var row := FindUser(UpsertUser(before1, u, now), u.telegramId).value;
      row.createdAt == now && row.referralCode.None? && row.referredBy.None? && row.notes.None?
  {
    UpsertThenFind(before1, u, now);
    UpsertThenFind(before2, u, now);
  }

  /** The set of known users only grows: `create_user` adds the user's id and keeps all others. */
  lemma UpsertUserIds(users: seq<UserRow>, u: User, now: int, id: int)
    ensures HasUser(UpsertUser(users, u, now), id) <==> id == u.telegramId || HasUser(users, id)
  {
    var r := UpsertUser(users, u, now);
    if id == u.telegramId {
      assert NewUserRow(u, now) in r;
    } else if HasUser(users, id) {
      var x :| x in users && x.telegramId == id;
      assert x in RemoveUser(users, u.telegramId);
      assert x in r;
    }
  }

  /** The in-place `UPDATE users SET ... WHERE telegram_id = ?` statements of the core. */
  datatype UserUpdate =
    | Touch(now: int)                 // update_user_activity: last_activity = now
    | SetLanguage(language: string)   // set_user_language: language_code = language

  function ApplyUpdate(row: UserRow, upd: UserUpdate): UserRow {
    match upd
    case Touch(now) => row.(lastActivity := now)
    case SetLanguage(language) => row.(languageCode := language)
  }

  /** Apply the update to every row with that telegram id. */
  function UpdateUserRows(users: seq<UserRow>, id: int, upd: UserUpdate): (r: seq<UserRow>)
    ensures |r| == |users|
    ensures forall i :: 0 <= i < |users| ==>
      r[i] == if users[i].telegramId == id then ApplyUpdate(users[i], upd) else users[i]
  {
    if |users| == 0 then []
    else
      var row := if users[0].telegramId == id then ApplyUpdate(users[0], upd) else users[0];
      [row] + UpdateUserRows(users[1..], id, upd)
  }

  /** Two tables with the same ids, row by row, have the same users. */
  lemma SameIdsSameUsers(a: seq<UserRow>, b: seq<UserRow>, k: int)
    requires |a| == |b|
    requires forall i :: 0 <= i < |a| ==> a[i].telegramId == b[i].telegramId
    ensures HasUser(a, k) ==> HasUser(b, k)
  {
    if HasUser(a, k) {
      var x :| x in a && x.telegramId == k;
      var i :| 0 <= i < |a| && a[i] == x;
      assert b[i] in b;
    }
  }

  /** An UPDATE by telegram id keeps every row's id, so the same users exist afterwards. */
  lemma UpdateKeepsUsers(users: seq<UserRow>, id: int, upd: UserUpdate, k: int)
    ensures HasUser(UpdateUserRows(users, id, upd), k) <==> HasUser(users, k)
  {
    var r := UpdateUserRows(users, id, upd);
    assert forall i :: 0 <= i < |r| ==> r[i].telegramId == users[i].telegramId;
    SameIdsSameUsers(users, r, k);
    SameIdsSameUsers(r, users, k);
  }

  /** An UPDATE by telegram id keeps the ids unique. */
  lemma UpdateKeepsUnique(users: seq<UserRow>, id: int, upd: UserUpdate)
    requires UniqueIds(users)
    ensures UniqueIds(UpdateUserRows(users, id, upd))
  {
    var r := UpdateUserRows(users, id, upd);
    assert forall i :: 0 <= i < |r| ==> r[i].telegramId == users[i].telegramId;
  }

  /**
   * An UPDATE by telegram id changes only that user's row, and keeps the
   * ids unique; `get_user` then returns the updated row, or None when the
   * user does not exist.
   */
  lemma UpdateUserRowsEffect(users: seq<UserRow>, id: int, upd: UserUpdate, k: int)
    requires UniqueIds(users)
    ensures UniqueIds(UpdateUserRows(users, id, upd))
    ensures FindUser(UpdateUserRows(users, id, upd), k) ==
      match FindUser(users, k)
      case None => None
      case Some(row) => Some(if k == id then ApplyUpdate(row, upd) else row)
  {
    var r := UpdateUserRows(users, id, upd);
    UpdateKeepsUsers(users, id, upd, k);
    UpdateKeepsUnique(users, id, upd);
    if HasUser(users, k) {
      var x := FindUser(users, k).value;
      var i :| 0 <= i < |users| && users[i] == x;
      var y := r[i];
      assert y in r;
      FindUnique(r, y);
    }
  }

  // ---------------------------------------------------------------------------
  // subscriptions
  // ---------------------------------------------------------------------------

  /** The row `create_subscription` inserts: status 'active', timestamps now. */
  function NewSubscription(id: nat, userId: int, planType: string, start: int, end: int, amount: Option<real>, now: int): SubscriptionRow {
    SubscriptionRow(id, userId, planType, "active", start, end, amount, now, now)
  }

  /**
   * `create_subscription`: the new tables and the id it returns. The insert
   * fails (None, nothing written) when the user does not exist; otherwise
   * the row gets the next AUTOINCREMENT id, an id no existing row carries.
   */
  function InsertSubscription(t: Tables, userId: int, planType: string, start: int, end: int, amount: Option<real>, now: int)
    : (res: (Tables, Option<nat>))
    ensures res.1.None? <==> !HasUser(t.users, userId)
    ensures res.1.None? ==> res.0 == t
    ensures res.1.Some? ==>
      && res.0.subscriptions == t.subscriptions + [NewSubscription(res.1.value, userId, planType, start, end, amount, now)]
      && res.0 == t.(subscriptions := res.0.subscriptions, nextSubscriptionId := res.0.nextSubscriptionId)
    ensures res.1.Some? && Consistent(t) ==>
      && 1 <= res.1.value
      && (forall s :: s in t.subscriptions ==> s.id != res.1.value)
      && Consistent(res.0)
  {
    if !HasUser(t.users, userId) then (t, None)
    else
      var id := t.nextSubscriptionId;
      var t' := t.(subscriptions := t.subscriptions + [NewSubscription(id, userId, planType, start, end, amount, now)],
                   nextSubscriptionId := id + 1);
      (t', Some(id))
  }

  /** The rows `get_active_subscription` may return: the user's, active, ending after now. */
  predicate Current(s: SubscriptionRow, userId: int, now: int) {
    s.userId == userId && s.status == "active" && s.endDate > now
  }

  /**
   * `get_active_subscription` (`ORDER BY end_date DESC LIMIT 1`): None iff the
   * user has no current row, otherwise a current row with the latest end date.
   */
  function ActiveSubscription(subs: seq<SubscriptionRow>, userId: int, now: int): (r: Option<SubscriptionRow>)
    ensures r.None? <==> forall s :: s in subs ==> !Current(s, userId, now)
    ensures r.Some? ==> r.value in subs && Current(r.value, userId, now)
    ensures r.Some? ==> forall s :: s in subs && Current(s, userId, now) ==> s.endDate <= r.value.endDate
  {
    if |subs| == 0 then None
    else
      var rest := ActiveSubscription(subs[1..], userId, now);
      assert forall s :: s in subs <==> s == subs[0] || s in subs[1..];
      if Current(subs[0], userId, now) && (rest.None? || rest.value.endDate <= subs[0].endDate) then Some(subs[0])
      else rest
  }

  /** A row of `get_expiring_subscriptions`: `s.*, u.telegram_id, u.username, u.first_name`. */
  datatype ExpiringRow = ExpiringRow(sub: SubscriptionRow, telegramId: int, username: Option<string>, firstName: Option<string>)

  /** Active and ending within the window `(now, now + days]`. */
  predicate ExpiresWithin(s: SubscriptionRow, days: int, now: int) {
    s.status == "active" && now < s.endDate <= now + days * DAY
  }

  function Joined(s: SubscriptionRow, u: UserRow): ExpiringRow {
    ExpiringRow(s, u.telegramId, u.username, u.firstName)
  }

  /**
   * `get_expiring_subscriptions(days)`: exactly the subscriptions in the
   * window whose user exists, each joined with that user's row, listed in
   * table order (so each subscription row yields one result row).
   */
  function Expiring(subs: seq<SubscriptionRow>, users: seq<UserRow>, days: int, now: int): (r: seq<ExpiringRow>)
    ensures forall e :: e in r <==>
      e.sub in subs && ExpiresWithin(e.sub, days, now) && HasUser(users, e.sub.userId)
      && e == Joined(e.sub, FindUser(users, e.sub.userId).value)
    ensures forall i, j :: 0 <= i < j < |r| ==> SubBefore(subs, r[i].sub, r[j].sub)
  {
    if |subs| == 0 then []
    else
      var rest := Expiring(subs[1..], users, days, now);
      assert forall s :: s in subs <==> s == subs[0] || s in subs[1..];
      var s := subs[0];
      if ExpiresWithin(s, days, now) && HasUser(users, s.userId) then
        var e := Joined(s, FindUser(users, s.userId).value);
        ExpiringStepHead(subs, subs[1..], rest, e);
        [e] + rest
      else
        ExpiringStepSkip(subs, subs[1..], rest);
        rest
  }

  /** `x` occurs in `subs` at a position before some occurrence of `y`. */
  predicate SubBefore(subs: seq<SubscriptionRow>, x: SubscriptionRow, y: SubscriptionRow) {
    exists a, b :: 0 <= a < b < |subs| && subs[a] == x && subs[b] == y
  }

  lemma ExpiringStepSkip(subs: seq<SubscriptionRow>, tail: seq<SubscriptionRow>, rest: seq<ExpiringRow>)
    requires |subs| > 0 && tail == subs[1..]
    requires forall i, j :: 0 <= i < j < |rest| ==> SubBefore(tail, rest[i].sub, rest[j].sub)
    ensures forall i, j :: 0 <= i < j < |rest| ==> SubBefore(subs, rest[i].sub, rest[j].sub)
  {
    forall i, j | 0 <= i < j < |rest|
      ensures SubBefore(subs, rest[i].sub, rest[j].sub)
    {
      SubTailBefore(subs, tail, rest[i].sub, rest[j].sub);
    }
  }

  lemma ExpiringStepHead(subs: seq<SubscriptionRow>, tail: seq<SubscriptionRow>, rest: seq<ExpiringRow>, e: ExpiringRow)
    requires |subs| > 0 && tail == subs[1..] && e.sub == subs[0]
    requires forall x :: x in rest ==> x.sub in tail
    requires forall i, j :: 0 <= i < j < |rest| ==> SubBefore(tail, rest[i].sub, rest[j].sub)
    ensures var r := [e] + rest;
      forall i, j :: 0 <= i < j < |r| ==> SubBefore(subs, r[i].sub, r[j].sub)
  {
    var r := [e] + rest;
    forall i, j | 0 <= i < j < |r|
      ensures SubBefore(subs, r[i].sub, r[j].sub)
    {
      assert r[j] == rest[j - 1];
      if i == 0 {
        assert rest[j - 1] in rest;
        SubHeadBefore(subs, tail, r[j].sub);
      } else {
        assert r[i] == rest[i - 1];
        SubTailBefore(subs, tail, r[i].sub, r[j].sub);
      }
    }
  }

  lemma SubHeadBefore(subs: seq<SubscriptionRow>, tail: seq<SubscriptionRow>, y: SubscriptionRow)
    requires |subs| > 0 && tail == subs[1..] && y in tail
    ensures SubBefore(subs, subs[0], y)
  {
    var b :| 0 <= b < |tail| && tail[b] == y;
    assert subs[b + 1] == tail[b];
  }

  lemma SubTailBefore(subs: seq<SubscriptionRow>, tail: seq<SubscriptionRow>, x: SubscriptionRow, y: SubscriptionRow)
    requires |subs| > 0 && tail == subs[1..]
    requires SubBefore(tail, x, y)
    ensures SubBefore(subs, x, y)
  {
    var a, b :| 0 <= a < b < |tail| && tail[a] == x && tail[b] == y;
    assert subs[a + 1] == tail[a] && subs[b + 1] == tail[b];
  }

  /**
   * With AUTOINCREMENT ids, the rows come out in increasing subscription id,
   * so no subscription is listed twice.
   */
  lemma ExpiringIdsIncrease(subs: seq<SubscriptionRow>, users: seq<UserRow>, days: int, now: int, next: nat)
    requires IdsBelow(subs, next)
    ensures var r := Expiring(subs, users, days, now);
      forall i, j :: 0 <= i < j < |r| ==> r[i].sub.id < r[j].sub.id && r[i] != r[j]
  {
    var r := Expiring(subs, users, days, now);
    forall i, j | 0 <= i < j < |r|
      ensures r[i].sub.id < r[j].sub.id && r[i] != r[j]
    {
      var a, b :| 0 <= a < b < |subs| && subs[a] == r[i].sub && subs[b] == r[j].sub;
      assert subs[a].id < subs[b].id;
    }
  }

  /** The rows `expire_subscriptions` updates: active with an end date not after now. */
  predicate Due(s: SubscriptionRow, now: int) {
    s.status == "active" && s.endDate <= now
  }

  /** The number of due rows. */
  function DueCount(subs: seq<SubscriptionRow>, now: int): nat {
    if |subs| == 0 then 0
    else (if Due(subs[0], now) then 1 else 0) + DueCount(subs[1..], now)
  }

  /** `expire_subscriptions`: every due row becomes 'expired' with `updated_at` now. */
  function ExpireDue(subs: seq<SubscriptionRow>, now: int): (r: seq<SubscriptionRow>)
    ensures |r| == |subs|
    ensures forall i :: 0 <= i < |subs| ==>
      r[i] == if Due(subs[i], now) then subs[i].(status := "expired", updatedAt := now) else subs[i]
  {
    if |subs| == 0 then []
    else
      var row := if Due(subs[0], now) then subs[0].(status := "expired", updatedAt := now) else subs[0];
      [row] + ExpireDue(subs[1..], now)
  }

  /** After the sweep nothing is due: a second sweep at the same instant expires 0 rows and changes nothing. */
  lemma {:induction false} ExpireIdempotent(subs: seq<SubscriptionRow>, now: int)
    ensures DueCount(ExpireDue(subs, now), now) == 0
    ensures ExpireDue(ExpireDue(subs, now), now) == ExpireDue(subs, now)
  {
    if |subs| > 0 {
      ExpireIdempotent(subs[1..], now);
      assert ExpireDue(subs, now)[1..] == ExpireDue(subs[1..], now);
    }
  }

  /**
   * The sweep does not change which subscription a user currently holds:
   * due rows end at or before now, so `get_active_subscription` never saw them.
   */
  lemma {:induction false} ExpireKeepsActive(subs: seq<SubscriptionRow>, userId: int, now: int)
    ensures ActiveSubscription(ExpireDue(subs, now), userId, now) == ActiveSubscription(subs, userId, now)
  {
    if |subs| > 0 {
      ExpireKeepsActive(subs[1..], userId, now);
      assert ExpireDue(subs, now)[1..] == ExpireDue(subs[1..], now);
    }
  }

  /** The sweep keeps ids and users, so the schema constraints still hold. */
  lemma ExpireKeepsConsistent(t: Tables, now: int)
    requires Consistent(t)
    ensures Consistent(t.(subscriptions := ExpireDue(t.subscriptions, now)))
  {
    var r := ExpireDue(t.subscriptions, now);
    forall s | s in r ensures HasUser(t.users, s.userId) {
      var i :| 0 <= i < |r| && r[i] == s;
      assert t.subscriptions[i] in t.subscriptions;
    }
  }

  // ---------------------------------------------------------------------------
  // bot_settings
  // ---------------------------------------------------------------------------

  /** `get_setting(key, default)`: a stored NULL value is returned as None, not as the default. */
  function GetSetting(settings: map<string, SettingRow>, key: string, default: Option<string>): (v: Option<string>)
    ensures key !in settings ==> v == default
    ensures key in settings ==> v == settings[key].value
  {
    if key in settings then settings[key].value else default
  }

  /** `set_setting`: INSERT OR REPLACE on the unique key; `created_at` restarts at now. */
  function PutSetting(settings: map<string, SettingRow>, key: string, value: Option<string>, description: Option<string>, now: int)
    : map<string, SettingRow>
  {
    settings[key := SettingRow(value, description, now, now)]
  }

  /** Reading a key back returns what was last written, whatever the default; other keys are untouched. */
  lemma SettingRoundTrip(settings: map<string, SettingRow>, key: string, value: Option<string>, description: Option<string>, now: int, other: string, default: Option<string>)
    ensures GetSetting(PutSetting(settings, key, value, description, now), key, default) == value
    ensures other != key ==> GetSetting(PutSetting(settings, key, value, description, now), other, default) == GetSetting(settings, other, default)
  {
  }

  // ---------------------------------------------------------------------------
  // analytics_events and audit_log
  // ---------------------------------------------------------------------------

  /** `json.dumps(event_data) if event_data else None`: no payload and an empty dict are both stored as NULL. */
  function Payload(data: Option<map<string, Json>>): (p: Option<map<string, Json>>)
    ensures p.Some? ==> p.value != map[] && data == p
    ensures data.Some? && data.value != map[] ==> p == data
  {
    if data.Some? && data.value != map[] then data else None
  }

  /**
   * `log_analytics_event`: the new events and the result. With analytics
   * switched off nothing is written and the answer is True; otherwise the
   * event is appended, unless the user does not exist (False).
   */
  function LogAnalytics(t: Tables, enabled: bool, userId: int, eventType: string, data: Option<map<string, Json>>, now: int)
    : (res: (seq<AnalyticsEvent>, bool))
    ensures !enabled ==> res == (t.analytics, true)
    ensures enabled ==> (res.1 <==> HasUser(t.users, userId))
    ensures enabled && res.1 ==> res.0 == t.analytics + [AnalyticsEvent(userId, eventType, Payload(data), now)]
    ensures !res.1 ==> res.0 == t.analytics
  {
    if !enabled then (t.analytics, true)
    else if !HasUser(t.users, userId) then (t.analytics, false)
    else (t.analytics + [AnalyticsEvent(userId, eventType, Payload(data), now)], true)
  }

  /** `log_audit_event`: appended only when both the user and the admin exist. */
  function LogAudit(t: Tables, userId: int, adminId: int, action: string, details: Option<string>, now: int)
    : (res: (seq<AuditEntry>, bool))
    ensures res.1 <==> HasUser(t.users, userId) && HasUser(t.users, adminId)
    ensures res.1 ==> res.0 == t.audit + [AuditEntry(userId, adminId, action, details, now)]
    ensures !res.1 ==> res.0 == t.audit
  {
    if HasUser(t.users, userId) && HasUser(t.users, adminId) then
      (t.audit + [AuditEntry(userId, adminId, action, details, now)], true)
    else (t.audit, false)
  }

  // ---------------------------------------------------------------------------
  // cleanup_old_data
  // ---------------------------------------------------------------------------

  /** Audit actions kept however old they are. */
  const ProtectedActions := {"user_banned", "admin_action"}

  /** `now - timedelta(days=days_to_keep)` */
  function Cutoff(daysToKeep: int, now: int): int {
    now - daysToKeep * DAY
  }

  /** The events `DELETE ... WHERE created_at < cutoff` keeps, in order. */
  function KeepRecentEvents(events: seq<AnalyticsEvent>, cutoff: int): (r: seq<AnalyticsEvent>)
    ensures forall e :: e in r <==> e in events && e.createdAt >= cutoff
    ensures |r| <= |events|
  {
    if |events| == 0 then []
    else
      var rest := KeepRecentEvents(events[1..], cutoff);
      assert forall e :: e in events <==> e == events[0] || e in events[1..];
      if events[0].createdAt >= cutoff then [events[0]] + rest else rest
  }

  /** The audit entries kept: recent ones, and protected ones of any age. */
  function KeepAuditEntries(entries: seq<AuditEntry>, cutoff: int): (r: seq<AuditEntry>)
    ensures forall a :: a in r <==> a in entries && (a.createdAt >= cutoff || a.action in ProtectedActions)
    ensures |r| <= |entries|
  {
    if |entries| == 0 then []
    else
      var rest := KeepAuditEntries(entries[1..], cutoff);
      assert forall a :: a in entries <==> a == entries[0] || a in entries[1..];
      if entries[0].createdAt >= cutoff || entries[0].action in ProtectedActions then [entries[0]] + rest else rest
  }

  /** The number of events older than the cutoff. */
  function StaleEvents(events: seq<AnalyticsEvent>, cutoff: int): nat {
    if |events| == 0 then 0
    else (if events[0].createdAt < cutoff then 1 else 0) + StaleEvents(events[1..], cutoff)
  }

  /** The number of unprotected audit entries older than the cutoff. */
  function StaleEntries(entries: seq<AuditEntry>, cutoff: int): nat {
    if |entries| == 0 then 0
    else
      var stale := entries[0].createdAt < cutoff && entries[0].action !in ProtectedActions;
      (if stale then 1 else 0) + StaleEntries(entries[1..], cutoff)
  }

  /** The reported `analytics_deleted` is the number of stale events, and a second run deletes none. */
  lemma {:induction false} CleanupEventsCount(events: seq<AnalyticsEvent>, cutoff: int)
    ensures |events| - |KeepRecentEvents(events, cutoff)| == StaleEvents(events, cutoff)
    ensures KeepRecentEvents(KeepRecentEvents(events, cutoff), cutoff) == KeepRecentEvents(events, cutoff)
  {
    if |events| > 0 {
      CleanupEventsCount(events[1..], cutoff);
      var rest := KeepRecentEvents(events[1..], cutoff);
      if events[0].createdAt >= cutoff {
        assert ([events[0]] + rest)[1..] == rest;
      }
    }
  }

  /** The reported `audit_deleted` is the number of stale unprotected entries, and a second run deletes none. */
  lemma {:induction false} CleanupAuditCount(entries: seq<AuditEntry>, cutoff: int)
    ensures |entries| - |KeepAuditEntries(entries, cutoff)| == StaleEntries(entries, cutoff)
    ensures KeepAuditEntries(KeepAuditEntries(entries, cutoff), cutoff) == KeepAuditEntries(entries, cutoff)
  {
    if |entries| > 0 {
      CleanupAuditCount(entries[1..], cutoff);
      var rest := KeepAuditEntries(entries[1..], cutoff);
      if entries[0].createdAt >= cutoff || entries[0].action in ProtectedActions {
        assert ([entries[0]] + rest)[1..] == rest;
      }
    }
  }

  /** What `cleanup_old_data` reports. */
  datatype CleanupReport = CleanupReport(analyticsDeleted: nat, auditDeleted: nat)

  /** The audit log depends only on the users and the audit entries. */
  lemma LogAuditReadsUsersAndAudit(a: Tables, b: Tables, userId: int, adminId: int, action: string, details: Option<string>, now: int)
    requires a.users == b.users && a.audit == b.audit
    ensures LogAudit(a, userId, adminId, action, details, now) == LogAudit(b, userId, adminId, action, details, now)
  {
  }

  // ---------------------------------------------------------------------------
  // The database object
  // ---------------------------------------------------------------------------

  /** `db_manager`: the tables every function of the module reads and writes. */
  class Database {
    var users: seq<UserRow>
    var subscriptions: seq<SubscriptionRow>
    var settings: map<string, SettingRow>
    var audit: seq<AuditEntry>
    var analytics: seq<AnalyticsEvent>
    var nextSubscriptionId: nat
    /** `app_config.enable_analytics` */
    const analyticsEnabled: bool

    /** The tables as a value. */
    function State(): Tables
      reads this
    {
      Tables(users, subscriptions, settings, audit, analytics, nextSubscriptionId)
    }

    predicate Valid()
      reads this
    {
      Consistent(State())
    }

    /** `create_tables` on an empty database file. */
    constructor(analyticsEnabled: bool)
      ensures Valid()
      ensures State() == Empty
      ensures this.analyticsEnabled == analyticsEnabled
    {
      users := [];
      subscriptions := [];
      settings := map[];
      audit := [];
      analytics := [];
      nextSubscriptionId := 1;
      this.analyticsEnabled := analyticsEnabled;
    }

    /** `create_user`: always succeeds and replaces the user's row. */
    method CreateUser(u: User, now: int) returns (ok: bool)
      requires Valid()
      modifies this
      ensures Valid()
      ensures ok
      ensures State() == old(State()).(users := UpsertUser(old(users), u, now))
    {
      UpsertUserExactlyOne(users, u, now);
      forall id | HasUser(users, id) ensures HasUser(UpsertUser(users, u, now), id) {
        UpsertUserIds(users, u, now, id);
      }
      users := UpsertUser(users, u, now);
      ok := true;
    }

    /** `update_user_activity`: True iff a row was updated. */
    method UpdateUserActivity(id: int, now: int) returns (ok: bool)
      requires Valid()
      modifies this
      ensures Valid()
      ensures ok <==> HasUser(old(users), id)
      ensures State() == old(State()).(users := UpdateUserRows(old(users), id, Touch(now)))
    {
      UpdateUserRowsEffect(users, id, Touch(now), id);
      forall k | HasUser(users, k) ensures HasUser(UpdateUserRows(users, id, Touch(now)), k) {
        UpdateKeepsUsers(users, id, Touch(now), k);
      }
      ok := HasUser(users, id);
      users := UpdateUserRows(users, id, Touch(now));
    }

    /** `set_user_language`: writes the user's `language_code`. */
    method SetUserLanguage(id: int, language: string)
      requires Valid()
      modifies this
      ensures Valid()
      ensures State() == old(State()).(users := UpdateUserRows(old(users), id, SetLanguage(language)))
    {
      UpdateUserRowsEffect(users, id, SetLanguage(language), id);
      forall k | HasUser(users, k) ensures HasUser(UpdateUserRows(users, id, SetLanguage(language)), k) {
        UpdateKeepsUsers(users, id, SetLanguage(language), k);
      }
      users := UpdateUserRows(users, id, SetLanguage(language));
    }

    /** `create_subscription` */
    method CreateSubscription(userId: int, planType: string, start: int, end: int, amount: Option<real>, now: int)
      returns (id: Option<nat>)
      requires Valid()
      modifies this
      ensures Valid()
      ensures (State(), id) == InsertSubscription(old(State()), userId, planType, start, end, amount, now)
    {
      var res := InsertSubscription(State(), userId, planType, start, end, amount, now);
      subscriptions := res.0.subscriptions;
      nextSubscriptionId := res.0.nextSubscriptionId;
      id := res.1;
    }

    /** `expire_subscriptions`: the number of rows it expired. */
    method ExpireSubscriptions(now: int) returns (count: nat)
      requires Valid()
      modifies this
      ensures Valid()
      ensures count == DueCount(old(subscriptions), now)
      ensures State() == old(State()).(subscriptions := ExpireDue(old(subscriptions), now))
    {
      ExpireKeepsConsistent(State(), now);
      count := DueCount(subscriptions, now);
      subscriptions := ExpireDue(subscriptions, now);
    }

    /** `set_setting`: always succeeds. */
    method SetSetting(key: string, value: Option<string>, description: Option<string>, now: int) returns (ok: bool)
      requires Valid()
      modifies this
      ensures Valid()
      ensures ok
      ensures State() == old(State()).(settings := PutSetting(old(settings), key, value, description, now))
    {
      settings := PutSetting(settings, key, value, description, now);
      ok := true;
    }

    /** `log_analytics_event` */
    method LogAnalyticsEvent(userId: int, eventType: string, data: Option<map<string, Json>>, now: int) returns (ok: bool)
      requires Valid()
      modifies this
      ensures Valid()
      ensures (analytics, ok) == LogAnalytics(old(State()), analyticsEnabled, userId, eventType, data, now)
      ensures State() == old(State()).(analytics := analytics)
    {
      var res := LogAnalytics(State(), analyticsEnabled, userId, eventType, data, now);
      analytics := res.0;
      ok := res.1;
    }

    /** `log_audit_event` */
    method LogAuditEvent(userId: int, adminId: int, action: string, details: Option<string>, now: int) returns (ok: bool)
      requires Valid()
      modifies this
      ensures Valid()
      ensures (audit, ok) == LogAudit(old(State()), userId, adminId, action, details, now)
      ensures State() == old(State()).(audit := audit)
    {
      var res := LogAudit(State(), userId, adminId, action, details, now);
      audit := res.0;
      ok := res.1;
    }

    /** `cleanup_old_data(days_to_keep)`: the numbers of deleted events and entries. */
    method CleanupOldData(daysToKeep: int, now: int) returns (report: CleanupReport)
      requires Valid()
      modifies this
      ensures Valid()
      ensures analytics == KeepRecentEvents(old(analytics), Cutoff(daysToKeep, now))
      ensures audit == KeepAuditEntries(old(audit), Cutoff(daysToKeep, now))
      ensures report == CleanupReport(StaleEvents(old(analytics), Cutoff(daysToKeep, now)),
                                      StaleEntries(old(audit), Cutoff(daysToKeep, now)))
      ensures State() == old(State()).(analytics := analytics, audit := audit)
    {
      var cutoff := Cutoff(daysToKeep, now);
      CleanupEventsCount(analytics, cutoff);
      CleanupAuditCount(audit, cutoff);
      var keptEvents := KeepRecentEvents(analytics, cutoff);
      var keptEntries := KeepAuditEntries(audit, cutoff);
      report := CleanupReport(|analytics| - |keptEvents|, |audit| - |keptEntries|);
      analytics := keptEvents;
      audit := keptEntries;
    }
  }
}

/**
 * The handlers of the hybrid bot (hybrid_handlers.py) with the transport
 * stripped away: each handler receives the store, the configuration, the
 * Telegram user and the callback data or command arguments, changes the
 * store as hybrid_handlers.py does, and returns the screen it would show.
 * Message texts are not modelled; a screen is named by what it offers.
 *
 * What each handler does is stated once, as an outcome predicate relating
 * the tables before and after the call and the reply; the handler method
 * ensures it, and the callback router ensures the outcome of the handler
 * it dispatches to.
 */
module Handlers {
  import opened Wrappers
  import opened Values
  import opened Text
  import opened Plans
  import Config
  import opened Store

  /** The sender of an update (`update.effective_user` / `query.from_user`). */
  datatype TelegramUser = TelegramUser(
    id: int,
    username: Option<string>,
    firstName: Option<string>,
    lastName: Option<string>,
    languageCode: Option<string>)

  /** What a handler shows the user. */
  datatype Reply =
    | NoReply                                    // the handler ends without answering
    | LanguageMenu                               // show_language_selection: set_lang_es / set_lang_en
    | MainMenu(subscribed: bool, subscription: Option<SubscriptionRow>, buttons: seq<Button>)
    | LanguageError                              // "Error. Por favor, inténtalo de nuevo."
    | AgeGate                                    // show_age_verification: age_verify_yes / age_verify_no
    | TermsGate                                  // show_terms_acceptance: terms_accept / terms_decline
    | AgeRestricted                              // 'age_restricted', no buttons
    | OnboardingComplete(next: Reply)            // 'onboarding_complete', then `start`
    | PlansScreen(buttons: seq<Button>)          // show_subscription_plans
    | StatusScreen(subscribed: bool, subscription: Option<SubscriptionRow>)
    | SettingsScreen
    | HelpScreen
    | PlanReply(choice: PlanChoice)              // select_plan
    | Unrecognized                               // "Acción no reconocida"

  // ---------------------------------------------------------------------------
  // Queries
  // ---------------------------------------------------------------------------

  /** `get_user_language`: the stored language code, or 'es' for an unknown user. */
  function GetUserLanguage(users: seq<UserRow>, userId: int): (lang: string)
    ensures !HasUser(users, userId) ==> lang == "es"
    ensures forall row :: row in users && row.telegramId == userId && UniqueIds(users) ==> lang == row.languageCode
  {
    match FindUser(users, userId)
    case None => "es"
    case Some(row) =>
      assert UniqueIds(users) ==> forall x :: x in users && x.telegramId == userId ==> x == row by {
        if UniqueIds(users) {
          forall x | x in users && x.telegramId == userId ensures x == row {
            FindUnique(users, x);
          }
        }
      }
      row.languageCode
  }

  /**
   * `is_user_subscribed`: `(now < end_date, subscription)` for the current
   * subscription, `(False, None)` when there is none.
   */
  function IsUserSubscribed(subs: seq<SubscriptionRow>, userId: int, now: int): (r: (bool, Option<SubscriptionRow>))
    ensures r.1.None? ==> !r.0
    ensures r.1.Some? ==> r.1.value in subs && r.1.value.userId == userId && r.1.value.status == "active"
    ensures r.1.Some? ==> r.0 == (now < r.1.value.endDate)
  {
    match ActiveSubscription(subs, userId, now)
    case None => (false, None)
    case Some(s) => (now < s.endDate, Some(s))
  }

  /**
   * With one clock, the check never disagrees with the query: a user is
   * subscribed exactly when some active subscription of theirs ends after now,
   * and the subscription shown is the one ending last.
   */
  lemma SubscribedIffCurrent(subs: seq<SubscriptionRow>, userId: int, now: int)
    ensures IsUserSubscribed(subs, userId, now).0 <==> exists s :: s in subs && Current(s, userId, now)
    ensures IsUserSubscribed(subs, userId, now).0 ==>
      forall s :: s in subs && Current(s, userId, now) ==> s.endDate <= IsUserSubscribed(subs, userId, now).1.value.endDate
  {
    var r := ActiveSubscription(subs, userId, now);
    if r.None? {
      assert forall s :: s in subs ==> !Current(s, userId, now);
    }
  }

  // ---------------------------------------------------------------------------
  // The callback router
  // ---------------------------------------------------------------------------

  datatype Route =
    | LanguageChoice   // set_lang_*
    | AgeAnswer        // age_verify_*
    | TermsAccepted    // terms_accept
    | HomeButton       // home_*
    | PlanSelection    // select_plan_*
    | BackToStart      // back_to_start
    | NotRecognized

  /** No callback data matches two rules of the router, so their order does not matter. */
  lemma RulesExclusive(data: string)
    ensures StartsWith(data, "set_lang_") ==>
      !StartsWith(data, "age_verify_") && !StartsWith(data, "home_") && !StartsWith(data, "select_plan_")
    ensures StartsWith(data, "age_verify_") ==> !StartsWith(data, "home_") && !StartsWith(data, "select_plan_")
    ensures StartsWith(data, "home_") ==> !StartsWith(data, "select_plan_")
    ensures data == "terms_accept" || data == "back_to_start" ==>
      !StartsWith(data, "set_lang_") && !StartsWith(data, "age_verify_") && !StartsWith(data, "home_") && !StartsWith(data, "select_plan_")
  {
    if |data| > 0 && data[0] != 's' {
      NotPrefix(data, "set_lang_", 0);
      NotPrefix(data, "select_plan_", 0);
    }
    if |data| > 0 && data[0] != 'a' {
      NotPrefix(data, "age_verify_", 0);
    }
    if |data| > 0 && data[0] != 'h' {
      NotPrefix(data, "home_", 0);
    }
    if |data| > 2 && data[2] != 't' {
      NotPrefix(data, "set_lang_", 2);
    }
    if |data| > 2 && data[2] != 'l' {
      NotPrefix(data, "select_plan_", 2);
    }
    if |data| == 0 {
      NotPrefix(data, "set_lang_", 0);
      NotPrefix(data, "select_plan_", 0);
      NotPrefix(data, "age_verify_", 0);
      NotPrefix(data, "home_", 0);
    }
    if |data| <= 2 {
      NotPrefix(data, "set_lang_", 2);
      NotPrefix(data, "select_plan_", 2);
    }
  }

  /**
   * `handle_callback_query`: the first rule that matches decides; since no
   * data matches two rules, each route is taken exactly when its own rule
   * matches.
   */
  function RouteCallback(data: string): (r: Route)
    ensures r == LanguageChoice <==> StartsWith(data, "set_lang_")
    ensures r == AgeAnswer <==> StartsWith(data, "age_verify_")
    ensures r == TermsAccepted <==> data == "terms_accept"
    ensures r == HomeButton <==> StartsWith(data, "home_")
    ensures r == PlanSelection <==> StartsWith(data, "select_plan_")
    ensures r == BackToStart <==> data == "back_to_start"
  {
    RulesExclusive(data);
    if StartsWith(data, "set_lang_") then LanguageChoice
    else if StartsWith(data, "age_verify_") then AgeAnswer
    else if data == "terms_accept" then TermsAccepted
    else if StartsWith(data, "home_") then HomeButton
    else if StartsWith(data, "select_plan_") then PlanSelection
    else if data == "back_to_start" then BackToStart
    else NotRecognized
  }

  /** The onboarding buttons reach their handlers. */
  lemma RouteOnboardingTokens()
    ensures RouteCallback("set_lang_es") == LanguageChoice && RouteCallback("set_lang_en") == LanguageChoice
    ensures RouteCallback("age_verify_yes") == AgeAnswer && RouteCallback("age_verify_no") == AgeAnswer
    ensures RouteCallback("terms_accept") == TermsAccepted
  {
    assert "set_lang_es"[..9] == "set_lang_";
    assert "set_lang_en"[..9] == "set_lang_";
    assert "age_verify_yes"[..11] == "age_verify_";
    assert "age_verify_no"[..11] == "age_verify_";
  }

  /** Every button of the main menu and of the plan menu reaches its handler. */
  lemma RouteMenuTokens(id: string)
    ensures forall action :: action in HomeActions ==> RouteCallback("home_" + action) == HomeButton
    ensures RouteCallback(SelectPlanToken(id)) == PlanSelection
    ensures RouteCallback("back_to_start") == BackToStart
  {
    forall action | action in HomeActions ensures RouteCallback("home_" + action) == HomeButton {
      assert ("home_" + action)[..5] == "home_";
    }
    assert SelectPlanToken(id)[..12] == "select_plan_";
  }

  /** Declining the terms, the admin panel and the settings entries have no handler here. */
  lemma RouteUnhandledTokens()
    ensures RouteCallback("terms_decline") == NotRecognized
    ensures RouteCallback("admin_panel") == NotRecognized
    ensures RouteCallback("settings_language") == NotRecognized
    ensures RouteCallback("settings_notifications") == NotRecognized
  {
    RulesExclusive("terms_decline");
    NotPrefix("terms_decline", "set_lang_", 0);
    NotPrefix("terms_decline", "select_plan_", 0);
    NotPrefix("terms_decline", "age_verify_", 0);
    NotPrefix("terms_decline", "home_", 0);
    NotPrefix("admin_panel", "set_lang_", 0);
    NotPrefix("admin_panel", "select_plan_", 0);
    NotPrefix("admin_panel", "age_verify_", 1);
    NotPrefix("admin_panel", "home_", 0);
    NotPrefix("settings_language", "set_lang_", 3);
    NotPrefix("settings_language", "select_plan_", 2);
    NotPrefix("settings_language", "age_verify_", 0);
    NotPrefix("settings_language", "home_", 0);
    NotPrefix("settings_notifications", "set_lang_", 3);
    NotPrefix("settings_notifications", "select_plan_", 2);
    NotPrefix("settings_notifications", "age_verify_", 0);
    NotPrefix("settings_notifications", "home_", 0);
  }

  /** The actions of the `home_<action>` buttons. */
  const HomeActions := ["plans", "status", "settings", "help"]

  // ---------------------------------------------------------------------------
  // The main menu
  // ---------------------------------------------------------------------------

  /** `f"https://t.me/{channel_id.replace('@', '')}"` */
  function ChannelUrl(channelId: string): (url: string)
    ensures |url| >= 13 && url[..13] == "https://t.me/"
    ensures '@' !in url[13..]
  {
    "https://t.me/" + Without(channelId, '@')
  }

  /**
   * The keyboard `start` builds: the channel button first when subscribed,
   * then the four menu buttons, then the admin button for the admin
   * (captions of translated texts are written as their translation keys).
   */
  method MainMenuButtons(subscribed: bool, userId: int, adminUserId: Option<int>, channelId: string)
    returns (buttons: seq<Button>)
    ensures UrlButton("access_channel", ChannelUrl(channelId)) in buttons <==> subscribed
    ensures Button("view_plans", "home_plans") in buttons
    ensures Button("my_status", "home_status") in buttons
    ensures Button("settings", "home_settings") in buttons
    ensures Button("help", "home_help") in buttons
    ensures Button("👑 Admin Panel", "admin_panel") in buttons <==> adminUserId == Some(userId)
    ensures |buttons| == 4 + (if subscribed then 1 else 0) + (if adminUserId == Some(userId) then 1 else 0)
  {
    buttons := [];
    if subscribed {
      buttons := buttons + [UrlButton("access_channel", ChannelUrl(channelId))];
    }
    buttons := buttons + [
      Button("view_plans", "home_plans"),
      Button("my_status", "home_status"),
      Button("settings", "home_settings"),
      Button("help", "home_help")];
    if adminUserId == Some(userId) {
      buttons := buttons + [Button("👑 Admin Panel", "admin_panel")];
    }
  }

  // ---------------------------------------------------------------------------
  // Onboarding: start, language, age, terms
  // ---------------------------------------------------------------------------

  /** The record `safe_user_update` writes for a Telegram user. */
  function StartUser(user: TelegramUser): User {
    User(user.id, user.username, user.firstName, user.lastName,
         Some(LanguageOrDefault(user.languageCode)), None, false, false)
  }

  /** `not language_code or language_code == 'unknown'` */
  predicate NeedsLanguage(code: string) {
    code == "" || code == "unknown"
  }

  /**
   * `start` writes `language_code or 'es'` before it checks the language, so
   * the language menu is shown only to a user whose Telegram client reports
   * the code 'unknown'; a user without a code gets 'es' and the main menu.
   */
  lemma LanguageGateOnlyForUnknown(user: TelegramUser)
    ensures NeedsLanguage(StartUser(user).languageCode.value) <==> user.languageCode == Some("unknown")
  {
  }

  /**
   * Every `start` rewrites the user's row from the Telegram profile, so the
   * `is_admin` and `is_banned` flags stored for the user are reset to False,
   * and the stored language becomes the one Telegram reports, or 'es'.
   */
  lemma StartResetsFlags(users: seq<UserRow>, user: TelegramUser, now: int)
    requires UniqueIds(users)
    ensures var row := FindUser(UpsertUser(users, StartUser(user), now), user.id);
      && row.Some? && !row.value.isAdmin && !row.value.isBanned
      && row.value.languageCode == LanguageOrDefault(user.languageCode)
  {
    UpsertThenFind(users, StartUser(user), now);
  }

  /**
   * `start` logs the command before it creates the user, so a user's very
   * first `/start` is never recorded: the foreign key rejects the event.
   */
  lemma FirstStartNotLogged(t: Tables, enabled: bool, user: TelegramUser, now: int)
    requires !HasUser(t.users, user.id)
    ensures LogAnalytics(t, enabled, user.id, "start_command", None, now).0 == t.analytics
  {
  }

  /**
   * The main menu `start` shows: the subscription state of the user, the
   * channel button exactly when subscribed, the four menu buttons, and the
   * admin button exactly for the configured admin.
   */
  predicate IsMainMenu(reply: Reply, subs: seq<SubscriptionRow>, userId: int, cfg: Config.AppConfig, now: int) {
    && reply.MainMenu?
    && (reply.subscribed, reply.subscription) == IsUserSubscribed(subs, userId, now)
    && (UrlButton("access_channel", ChannelUrl(cfg.channelId)) in reply.buttons <==> reply.subscribed)
    && Button("view_plans", "home_plans") in reply.buttons
    && Button("my_status", "home_status") in reply.buttons
    && Button("settings", "home_settings") in reply.buttons
    && Button("help", "home_help") in reply.buttons
    && (Button("👑 Admin Panel", "admin_panel") in reply.buttons <==> cfg.adminUserId == Some(userId))
    && |reply.buttons| == 4 + (if reply.subscribed then 1 else 0) + (if cfg.adminUserId == Some(userId) then 1 else 0)
  }

  /**
   * What `start` does: the command is logged (against the tables as they
   * were), the user row is rewritten and touched, nothing else changes; the
   * language menu is shown iff Telegram reported 'unknown', the main menu
   * otherwise.
   */
  predicate StartOutcome(before: Tables, after: Tables, enabled: bool, user: TelegramUser, cfg: Config.AppConfig,
                         now: int, reply: Reply) {
    && after.analytics == LogAnalytics(before, enabled, user.id, "start_command", None, now).0
    && after.users == UpdateUserRows(UpsertUser(before.users, StartUser(user), now), user.id, Touch(now))
    && after == before.(users := after.users, analytics := after.analytics)
    && (reply == LanguageMenu <==> user.languageCode == Some("unknown"))
    && (reply != LanguageMenu ==> IsMainMenu(reply, after.subscriptions, user.id, cfg, now))
  }

  /**
   * `start`: log the command, create or refresh the user, then either ask for
   * a language or show the main menu with the subscription state.
   */
  method Start(db: Database, user: TelegramUser, cfg: Config.AppConfig, now: int) returns (reply: Reply)
    requires db.Valid()
    requires db.analyticsEnabled == cfg.enableAnalytics
    modifies db
    ensures db.Valid()
    ensures StartOutcome(old(db.State()), db.State(), db.analyticsEnabled, user, cfg, now, reply)
  {
    var _ := db.LogAnalyticsEvent(user.id, "start_command", None, now);
    var created := db.CreateUser(StartUser(user), now);
    UpsertThenFind(old(db.users), StartUser(user), now);
    var before := db.users;
    var touched := db.UpdateUserActivity(user.id, now);
    UpdateUserRowsEffect(before, user.id, Touch(now), user.id);
    var row := FindUser(db.users, user.id).value;
    if NeedsLanguage(row.languageCode) {
      reply := LanguageMenu;
      return;
    }
    var (subscribed, subscription) := IsUserSubscribed(db.subscriptions, user.id, now);
    var buttons := MainMenuButtons(subscribed, user.id, cfg.adminUserId, cfg.channelId);
    reply := MainMenu(subscribed, subscription, buttons);
  }

  /**
   * What `handle_language_selection` does: the code after the last '_' is
   * stored and logged and the age question follows, provided the user
   * exists; otherwise an error is shown and nothing changes.
   */
  predicate LanguageOutcome(before: Tables, after: Tables, enabled: bool, userId: int, data: string, now: int,
                            reply: Reply) {
    var language := LastSegment(data, '_');
    && (reply == AgeGate <==> HasUser(before.users, userId))
    && (reply != AgeGate ==> reply == LanguageError && after == before)
    && (reply == AgeGate ==>
          && GetUserLanguage(after.users, userId) == language
          && after.users == UpdateUserRows(before.users, userId, SetLanguage(language))
          && after.analytics == LogAnalytics(before, enabled, userId, "language_selected",
                                             Some(map["language" := JStr(language)]), now).0
          && after == before.(users := after.users, analytics := after.analytics))
  }

  /** `handle_language_selection` */
  method HandleLanguageSelection(db: Database, userId: int, data: string, now: int) returns (reply: Reply)
    requires db.Valid()
    modifies db
    ensures db.Valid()
    ensures LanguageOutcome(old(db.State()), db.State(), db.analyticsEnabled, userId, data, now, reply)
  {
    var language := LastSegment(data, '_');
    if FindUser(db.users, userId).None? {
      reply := LanguageError;
      return;
    }
    UpdateUserRowsEffect(db.users, userId, SetLanguage(language), userId);
    db.SetUserLanguage(userId, language);
    var _ := db.LogAnalyticsEvent(userId, "language_selected", Some(map["language" := JStr(language)]), now);
    reply := AgeGate;
  }

  /**
   * What `handle_age_verification` does: the answer is logged; 'yes' after
   * the last '_' leads to the terms, anything else is refused.
   */
  predicate AgeOutcome(before: Tables, after: Tables, enabled: bool, userId: int, data: string, now: int,
                       reply: Reply) {
    var yes := LastSegment(data, '_') == "yes";
    && (reply == TermsGate <==> yes)
    && (reply != TermsGate ==> reply == AgeRestricted)
    && after.analytics == LogAnalytics(before, enabled, userId, "age_verification",
                                       Some(map["verified" := JBool(yes)]), now).0
    && after == before.(analytics := after.analytics)
  }

  /** `handle_age_verification` */
  method HandleAgeVerification(db: Database, userId: int, data: string, now: int) returns (reply: Reply)
    requires db.Valid()
    modifies db
    ensures db.Valid()
    ensures AgeOutcome(old(db.State()), db.State(), db.analyticsEnabled, userId, data, now, reply)
  {
    var verification := LastSegment(data, '_');
    var _ := db.LogAnalyticsEvent(userId, "age_verification", Some(map["verified" := JBool(verification == "yes")]), now);
    if verification == "yes" {
      reply := TermsGate;
    } else {
      reply := AgeRestricted;
    }
  }

  /** The tables after 'terms_accepted' is logged. */
  function AfterTermsLogged(before: Tables, enabled: bool, userId: int, now: int): Tables {
    before.(analytics := LogAnalytics(before, enabled, userId, "terms_accepted", None, now).0)
  }

  /**
   * What `handle_terms_acceptance` does: 'terms_accepted' is logged, then
   * `start` runs on the resulting tables, and its screen follows the
   * completion message.
   */
  predicate TermsOutcome(before: Tables, after: Tables, enabled: bool, user: TelegramUser, cfg: Config.AppConfig,
                         now: int, reply: Reply) {
    && reply.OnboardingComplete?
    && StartOutcome(AfterTermsLogged(before, enabled, user.id, now), after, enabled, user, cfg, now, reply.next)
  }

  /** `handle_terms_acceptance`: log the acceptance, then run `start` again. */
  method HandleTermsAcceptance(db: Database, user: TelegramUser, cfg: Config.AppConfig, now: int) returns (reply: Reply)
    requires db.Valid()
    requires db.analyticsEnabled == cfg.enableAnalytics
    modifies db
    ensures db.Valid()
    ensures TermsOutcome(old(db.State()), db.State(), db.analyticsEnabled, user, cfg, now, reply)
  {
    var _ := db.LogAnalyticsEvent(user.id, "terms_accepted", None, now);
    var next := Start(db, user, cfg, now);
    reply := OnboardingComplete(next);
  }

  /**
   * What `handle_home_menu_buttons` does: the action is the second
   * '_'-separated piece; it is logged, then one of the four screens is shown
   * or the action is not recognized. Without a second piece nothing happens.
   */
  predicate HomeOutcome(before: Tables, after: Tables, enabled: bool, userId: int, data: string, now: int,
                        reply: Reply) {
    match SecondSegment(data, '_')
    case None => reply == NoReply && after == before
    case Some(action) =>
      && after.analytics == LogAnalytics(before, enabled, userId, "menu_action",
                                         Some(map["action" := JStr(action)]), now).0
      && after == before.(analytics := after.analytics)
      && (reply == Unrecognized <==> action !in HomeActions)
      && (reply.PlansScreen? <==> action == "plans")
      && (reply.PlansScreen? ==> IsPlanMenu(reply.buttons))
      && (reply.StatusScreen? <==> action == "status")
      && (reply.StatusScreen? ==> (reply.subscribed, reply.subscription) == IsUserSubscribed(after.subscriptions, userId, now))
      && (reply == SettingsScreen <==> action == "settings")
      && (reply == HelpScreen <==> action == "help")
  }

  /** `handle_home_menu_buttons` */
  method HandleHomeMenuButtons(db: Database, userId: int, data: string, now: int) returns (reply: Reply)
    requires db.Valid()
    modifies db
    ensures db.Valid()
    ensures HomeOutcome(old(db.State()), db.State(), db.analyticsEnabled, userId, data, now, reply)
  {
    var segment := SecondSegment(data, '_');
    if segment.None? {
      // `split('_')[1]` raises IndexError, which the handler only logs
      reply := NoReply;
      return;
    }
    var action := segment.value;
    var _ := db.LogAnalyticsEvent(userId, "menu_action", Some(map["action" := JStr(action)]), now);
    if action == "plans" {
      var buttons := PlanMenu();
      reply := PlansScreen(buttons);
    } else if action == "status" {
      var (subscribed, subscription) := IsUserSubscribed(db.subscriptions, userId, now);
      reply := StatusScreen(subscribed, subscription);
    } else if action == "settings" {
      reply := SettingsScreen;
    } else if action == "help" {
      reply := HelpScreen;
    } else {
      reply := Unrecognized;
    }
  }

  /**
   * What `select_plan` does: the reply is the plan choice, and only a choice
   * that leads to payment is logged as 'plan_selected'.
   */
  predicate SelectOutcome(before: Tables, after: Tables, enabled: bool, userId: int, data: string,
                          links: seq<(string, string)>, now: int, reply: Reply) {
    && reply == PlanReply(ChoosePlan(data, links))
    && (!reply.choice.PaymentInstructions? ==> after == before)
    && (reply.choice.PaymentInstructions? ==>
          && after.analytics == LogAnalytics(before, enabled, userId, "plan_selected",
                                             Some(map["plan" := JStr(reply.choice.id)]), now).0
          && after == before.(analytics := after.analytics))
  }

  /** `select_plan` */
  method SelectPlan(db: Database, userId: int, data: string, links: seq<(string, string)>, now: int) returns (reply: Reply)
    requires db.Valid()
    modifies db
    ensures db.Valid()
    ensures SelectOutcome(old(db.State()), db.State(), db.analyticsEnabled, userId, data, links, now, reply)
  {
    var choice := ChoosePlan(data, links);
    if choice.PaymentInstructions? {
      var _ := db.LogAnalyticsEvent(userId, "plan_selected", Some(map["plan" := JStr(choice.id)]), now);
    }
    reply := PlanReply(choice);
  }

  // ---------------------------------------------------------------------------
  // /grant
  // ---------------------------------------------------------------------------

  /** What `/grant` answers. */
  datatype GrantReply =
    | Usage                                                     // fewer than two arguments
    | InvalidNumber                                             // int() raised: "Error: ..."
    | GrantFailed                                               // no subscription id: "Error otorgando acceso"
    | Granted(userId: int, planType: string, days: int, endDate: int)

  /** The duration `/grant` uses: the third argument, else the plan's days, else 30; None where `int()` raises. */
  function GrantDays(args: seq<string>): (days: Option<int>)
    requires |args| >= 2
    ensures |args| > 2 ==> days == ParseInt(args[2])
    ensures |args| == 2 ==> days == Some(DefaultGrantDays(args[1]))
  {
    if |args| > 2 then ParseInt(args[2]) else Some(DefaultGrantDays(args[1]))
  }

  /** Without an explicit duration an unknown plan is granted 30 days, not refused. */
  lemma GrantUnknownPlanDefault(userArg: string, planType: string)
    requires FindPlan(planType).None?
    ensures GrantDays([userArg, planType]) == Some(30)
  {
  }

  /** The audit details: `f'Plan: {plan_type}, Days: {days}'`. */
  function GrantDetails(planType: string, days: int): string {
    "Plan: " + planType + ", Days: " + IntToString(days)
  }

  /** The arguments of `/grant` as `grant_access` reads them. */
  datatype GrantRequest =
    | TooFewArguments                                   // fewer than two arguments
    | NotANumber                                        // `int()` raised on the user id or the duration
    | Request(userId: int, planType: string, days: int)

  /**
   * `int(args[0])`, `args[1]`, then the duration: a request exactly when
   * there are two arguments and both numbers read.
   */
  function ReadGrantArgs(args: seq<string>): (q: GrantRequest)
    ensures q == TooFewArguments <==> |args| < 2
    ensures q == NotANumber <==> |args| >= 2 && (ParseInt(args[0]).None? || GrantDays(args).None?)
    ensures q.Request? ==>
      |args| >= 2 && ParseInt(args[0]) == Some(q.userId) && q.planType == args[1] && GrantDays(args) == Some(q.days)
  {
    if |args| < 2 then TooFewArguments
    else if ParseInt(args[0]).None? || GrantDays(args).None? then NotANumber
    else Request(ParseInt(args[0]).value, args[1], GrantDays(args).value)
  }

  /**
   * What `grant_access` does with a request: too few arguments only print
   * the usage, a number `int()` rejects ends with an error, an unknown user
   * makes the insert fail; each of these leaves the tables as they were.
   * Otherwise a subscription from now for `days` days with amount 0.0 is
   * inserted under the next AUTOINCREMENT id, and the grant is written to
   * the audit log (which keeps it only when the granting admin has a row).
   */
  predicate GrantOutcome(before: Tables, after: Tables, adminId: int, q: GrantRequest, now: int, reply: GrantReply) {
    match q
    case TooFewArguments => reply == Usage && after == before
    case NotANumber => reply == InvalidNumber && after == before
    case Request(userId, planType, days) =>
      if !HasUser(before.users, userId) then reply == GrantFailed && after == before
      else
        var end := now + days * DAY;
        && reply == Granted(userId, planType, days, end)
        && after.subscriptions == before.subscriptions
             + [NewSubscription(before.nextSubscriptionId, userId, planType, now, end, Some(0.0), now)]
        && after.nextSubscriptionId == before.nextSubscriptionId + 1
        && after.audit == LogAudit(before, userId, adminId, "grant_access", Some(GrantDetails(planType, days)), now).0
        && after == before.(subscriptions := after.subscriptions, nextSubscriptionId := after.nextSubscriptionId,
                            audit := after.audit)
  }

  /**
   * `create_subscription` followed by `is_user_subscribed`: once a row ending
   * after now is inserted for an existing user, the user is subscribed, and
   * the subscription shown ends no earlier than the new one.
   */
  lemma GrantThenSubscribed(t: Tables, userId: int, plan: string, start: int, end: int, amount: Option<real>, now: int)
    requires HasUser(t.users, userId) && now < end
    ensures var r := InsertSubscription(t, userId, plan, start, end, amount, now);
      && r.1.Some?
      && IsUserSubscribed(r.0.subscriptions, userId, now).0
      && end <= IsUserSubscribed(r.0.subscriptions, userId, now).1.value.endDate
  {
    var r := InsertSubscription(t, userId, plan, start, end, amount, now);
    var s := NewSubscription(r.1.value, userId, plan, start, end, amount, now);
    assert s in r.0.subscriptions && Current(s, userId, now);
    SubscribedIffCurrent(r.0.subscriptions, userId, now);
  }

  /** A grant of at least one day leaves the user subscribed until no earlier than its end. */
  lemma GrantedIsSubscribed(before: Tables, after: Tables, adminId: int, q: GrantRequest, now: int, reply: GrantReply)
    requires GrantOutcome(before, after, adminId, q, now, reply)
    requires reply.Granted? && reply.days > 0
    ensures IsUserSubscribed(after.subscriptions, reply.userId, now).0
    ensures reply.endDate <= IsUserSubscribed(after.subscriptions, reply.userId, now).1.value.endDate
  {
    var s := NewSubscription(before.nextSubscriptionId, reply.userId, reply.planType, now, reply.endDate, Some(0.0), now);
    assert s in after.subscriptions && Current(s, reply.userId, now);
    SubscribedIffCurrent(after.subscriptions, reply.userId, now);
  }

  /** The insert followed by the audit entry gives the tables a successful grant promises. */
  lemma GrantedTables(before: Tables, mid: Tables, after: Tables, adminId: int, userId: int, planType: string,
                      days: int, now: int)
    requires HasUser(before.users, userId)
    requires mid == InsertSubscription(before, userId, planType, now, now + days * DAY, Some(0.0), now).0
    requires after == mid.(audit := LogAudit(mid, userId, adminId, "grant_access", Some(GrantDetails(planType, days)), now).0)
    ensures GrantOutcome(before, after, adminId, Request(userId, planType, days), now, Granted(userId, planType, days, now + days * DAY))
  {
    LogAuditReadsUsersAndAudit(mid, before, userId, adminId, "grant_access", Some(GrantDetails(planType, days)), now);
  }

  /**
   * The `try` block of `grant_access` once both numbers are read: insert the
   * subscription from now, and write the audit entry only when an id came back.
   */
  method RecordGrant(db: Database, adminId: int, userId: int, planType: string, days: int, now: int)
    returns (reply: GrantReply)
    requires db.Valid()
    modifies db
    ensures db.Valid()
    ensures GrantOutcome(old(db.State()), db.State(), adminId, Request(userId, planType, days), now, reply)
  {
    var start := now;
    var end := start + days * DAY;
    ghost var before := db.State();
    var subscriptionId := db.CreateSubscription(userId, planType, start, end, Some(0.0), now);
    if subscriptionId.Some? && subscriptionId.value != 0 {
      ghost var mid := db.State();
      var _ := db.LogAuditEvent(userId, adminId, "grant_access", Some(GrantDetails(planType, days)), now);
      reply := Granted(userId, planType, days, end);
      GrantedTables(before, mid, db.State(), adminId, userId, planType, days, now);
    } else {
      reply := GrantFailed;
    }
  }

  /** `grant_access` */
  method GrantAccess(db: Database, adminId: int, args: seq<string>, now: int) returns (reply: GrantReply)
    requires db.Valid()
    modifies db
    ensures db.Valid()
    ensures GrantOutcome(old(db.State()), db.State(), adminId, ReadGrantArgs(args), now, reply)
    ensures reply.Granted? && reply.days > 0 ==> IsUserSubscribed(db.subscriptions, reply.userId, now).0
  {
    if |args| < 2 {
      reply := Usage;
      return;
    }
    var userId := ParseInt(args[0]);
    if userId.None? {
      reply := InvalidNumber;
      return;
    }
    var planType := args[1];
    var days := GrantDays(args);
    if days.None? {
      reply := InvalidNumber;
      return;
    }
    ghost var before := db.State();
    reply := RecordGrant(db, adminId, userId.value, planType, days.value, now);
    if reply.Granted? && reply.days > 0 {
      GrantedIsSubscribed(before, db.State(), adminId, ReadGrantArgs(args), now, reply);
    }
  }

  /**
   * The `/grant` command as registered: only when an admin id is configured
   * (and non-zero) is the handler installed, and its filter admits only that
   * user. Anyone else gets no answer and changes nothing.
   */
  method GrantCommand(db: Database, cfg: Config.AppConfig, senderId: int, args: seq<string>, now: int)
    returns (reply: Option<GrantReply>)
    requires db.Valid()
    modifies db
    ensures db.Valid()
    ensures reply.Some? <==> cfg.adminUserId == Some(senderId) && senderId != 0
    ensures reply.None? ==> db.State() == old(db.State())
    ensures reply.Some? ==> GrantOutcome(old(db.State()), db.State(), senderId, ReadGrantArgs(args), now, reply.value)
  {
    if cfg.adminUserId.Some? && cfg.adminUserId.value != 0 && senderId == cfg.adminUserId.value {
      var r := GrantAccess(db, senderId, args, now);
      reply := Some(r);
    } else {
      reply := None;
    }
  }

  // ---------------------------------------------------------------------------
  // handle_callback_query
  // ---------------------------------------------------------------------------

  /** `handle_callback_query`: run the handler the router picks for the pressed button. */
  method HandleCallbackQuery(db: Database, cfg: Config.AppConfig, user: TelegramUser, data: string, now: int)
    returns (reply: Reply)
    requires db.Valid()
    requires db.analyticsEnabled == cfg.enableAnalytics
    modifies db
    ensures db.Valid()
    ensures RouteCallback(data) == LanguageChoice ==>
      LanguageOutcome(old(db.State()), db.State(), db.analyticsEnabled, user.id, data, now, reply)
    ensures RouteCallback(data) == AgeAnswer ==>
      AgeOutcome(old(db.State()), db.State(), db.analyticsEnabled, user.id, data, now, reply)
    ensures RouteCallback(data) == TermsAccepted ==>
      TermsOutcome(old(db.State()), db.State(), db.analyticsEnabled, user, cfg, now, reply)
    ensures RouteCallback(data) == HomeButton ==>
      HomeOutcome(old(db.State()), db.State(), db.analyticsEnabled, user.id, data, now, reply)
    ensures RouteCallback(data) == PlanSelection ==>
      SelectOutcome(old(db.State()), db.State(), db.analyticsEnabled, user.id, data, Config.GetLinksDict(cfg.payments), now, reply)
    ensures RouteCallback(data) == BackToStart ==>
      StartOutcome(old(db.State()), db.State(), db.analyticsEnabled, user, cfg, now, reply)
    ensures RouteCallback(data) == NotRecognized ==> reply == Unrecognized && db.State() == old(db.State())
  {
    match RouteCallback(data)
    case LanguageChoice =>
      reply := HandleLanguageSelection(db, user.id, data, now);
    case AgeAnswer =>
      reply := HandleAgeVerification(db, user.id, data, now);
    case TermsAccepted =>
      reply := HandleTermsAcceptance(db, user, cfg, now);
    case HomeButton =>
      reply := HandleHomeMenuButtons(db, user.id, data, now);
    case PlanSelection =>
      reply := SelectPlan(db, user.id, data, Config.GetLinksDict(cfg.payments), now);
    case BackToStart =>
      reply := Start(db, user, cfg, now);
    case NotRecognized =>
      reply := Unrecognized;
  }
}

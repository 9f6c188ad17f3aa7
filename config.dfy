/**
 * The bot's configuration (hybrid_config.py): payment links per plan, the
 * application settings read from the environment, the list of problems
 * `validate` reports and the redacted summary `to_dict` logs. The process
 * environment is an explicit map from variable names to values.
 */
module Config {
  import opened Wrappers
  import opened Text
  import Plans

  // ---------------------------------------------------------------------------
  // Payment links
  // ---------------------------------------------------------------------------

  /** `PaymentConfig`: one payment URL per plan, "" when not configured. */
  datatype PaymentConfig = PaymentConfig(
    weekLink: string, monthLink: string, threeMonthLink: string,
    halfYearLink: string, yearLink: string, lifetimeLink: string)

  /** `os.getenv(key, default)` */
  function Getenv(env: map<string, string>, key: string, default: string): string {
    if key in env then env[key] else default
  }

  /** `PaymentConfig.from_env` */
  function PaymentsFromEnv(env: map<string, string>): PaymentConfig {
    PaymentConfig(
      Getenv(env, "WEEK_PAYMENT_LINK", ""), Getenv(env, "MONTH_PAYMENT_LINK", ""),
      Getenv(env, "3MONTH_PAYMENT_LINK", ""), Getenv(env, "HALFYEAR_PAYMENT_LINK", ""),
      Getenv(env, "YEAR_PAYMENT_LINK", ""), Getenv(env, "LIFETIME_PAYMENT_LINK", ""))
  }

  /**
   * `get_links_dict`: the links keyed by plan id. Its keys are exactly the
   * catalog's plan ids, in the catalog's order, so every plan has one link.
   */
  function GetLinksDict(p: PaymentConfig): (links: seq<(string, string)>)
    ensures |links| == |Plans.Catalog|
    ensures forall i :: 0 <= i < |links| ==> links[i].0 == Plans.Catalog[i].0
  {
    [("week", p.weekLink), ("month", p.monthLink), ("3month", p.threeMonthLink),
     ("halfyear", p.halfYearLink), ("year", p.yearLink), ("lifetime", p.lifetimeLink)]
  }

  /**
   * The keys whose value is empty, in order: `[k for k, v in d.items() if not v]`.
   * Any two keys of the result come from two empty items in the same order.
   */
  function EmptyKeys(items: seq<(string, string)>): (keys: seq<string>)
    ensures |keys| <= |items|
    ensures forall k :: k in keys <==> exists i :: 0 <= i < |items| && items[i] == (k, "")
    ensures forall i, j :: 0 <= i < j < |keys| ==> EmptyBefore(items, keys[i], keys[j])
  {
    if |items| == 0 then []
    else
      var rest := EmptyKeys(items[1..]);
      if items[0].1 == "" then
        EmptyKeysStepHead(items, items[1..], rest);
        [items[0].0] + rest
      else
        EmptyKeysStepSkip(items, items[1..], rest);
        rest
  }

  /** Some item holding `x` with an empty value comes before some item holding `y` with an empty value. */
  predicate EmptyBefore(items: seq<(string, string)>, x: string, y: string) {
    exists a, b :: 0 <= a < b < |items| && items[a] == (x, "") && items[b] == (y, "")
  }

  /** The ordering of `EmptyKeys` carries over to the items when the head item is not empty. */
  lemma EmptyKeysStepSkip(items: seq<(string, string)>, tail: seq<(string, string)>, rest: seq<string>)
    requires |items| > 0 && tail == items[1..]
    requires forall i, j :: 0 <= i < j < |rest| ==> EmptyBefore(tail, rest[i], rest[j])
    ensures forall i, j :: 0 <= i < j < |rest| ==> EmptyBefore(items, rest[i], rest[j])
  {
    forall i, j | 0 <= i < j < |rest|
      ensures EmptyBefore(items, rest[i], rest[j])
    {
      EmptyTailBefore(items, tail, rest[i], rest[j]);
    }
  }

  /** The ordering of `EmptyKeys` carries over to the items when the head item is empty and comes first. */
  lemma EmptyKeysStepHead(items: seq<(string, string)>, tail: seq<(string, string)>, rest: seq<string>)
    requires |items| > 0 && tail == items[1..] && items[0].1 == ""
    requires forall k :: k in rest <==> exists i :: 0 <= i < |tail| && tail[i] == (k, "")
    requires forall i, j :: 0 <= i < j < |rest| ==> EmptyBefore(tail, rest[i], rest[j])
    ensures var keys := [items[0].0] + rest;
      forall i, j :: 0 <= i < j < |keys| ==> EmptyBefore(items, keys[i], keys[j])
  {
    var keys := [items[0].0] + rest;
    forall i, j | 0 <= i < j < |keys|
      ensures EmptyBefore(items, keys[i], keys[j])
    {
      assert keys[j] == rest[j - 1];
      if i == 0 {
        assert rest[j - 1] in rest;
        EmptyHeadBefore(items, tail, keys[j]);
      } else {
        assert keys[i] == rest[i - 1];
        EmptyTailBefore(items, tail, keys[i], keys[j]);
      }
    }
  }

  /** An empty head item comes before every empty item of the rest. */
  lemma EmptyHeadBefore(items: seq<(string, string)>, tail: seq<(string, string)>, y: string)
    requires |items| > 0 && tail == items[1..] && items[0].1 == ""
    requires exists b :: 0 <= b < |tail| && tail[b] == (y, "")
    ensures EmptyBefore(items, items[0].0, y)
  {
    var b :| 0 <= b < |tail| && tail[b] == (y, "");
    assert items[0] == (items[0].0, "") && items[b + 1] == tail[b];
  }

  /** Two empty items of the rest keep their order among all the items. */
  lemma EmptyTailBefore(items: seq<(string, string)>, tail: seq<(string, string)>, x: string, y: string)
    requires |items| > 0 && tail == items[1..]
    requires EmptyBefore(tail, x, y)
    ensures EmptyBefore(items, x, y)
  {
    var a, b :| 0 <= a < b < |tail| && tail[a] == (x, "") && tail[b] == (y, "");
    assert items[a + 1] == tail[a] && items[b + 1] == tail[b];
  }

  /** `len([v for v in d.values() if v])` */
  function NonEmptyCount(items: seq<(string, string)>): nat {
    if |items| == 0 then 0
    else (if items[0].1 != "" then 1 else 0) + NonEmptyCount(items[1..])
  }

  /** Every item is either missing its value or counted as configured, never both. */
  lemma {:induction false} EmptyAndConfiguredPartition(items: seq<(string, string)>)
    ensures |EmptyKeys(items)| + NonEmptyCount(items) == |items|
  {
    if |items| > 0 {
      EmptyAndConfiguredPartition(items[1..]);
    }
  }

  /**
   * `PaymentConfig.validate`: the plan ids whose link is empty. A plan id is
   * missing exactly when it is in the catalog and its link is "".
   */
  function MissingLinks(p: PaymentConfig): (missing: seq<string>)
    ensures forall id :: id in missing <==>
      Plans.FindPlan(id).Some? && Plans.PaymentLink(GetLinksDict(p), id) == ""
    ensures forall i, j :: 0 <= i < j < |missing| ==> CatalogBefore(missing[i], missing[j])
  {
    EmptyLinksOfCatalogPlans(p);
    EmptyLinksInCatalogOrder(p);
    EmptyKeys(GetLinksDict(p))
  }

  /** A plan id has an empty link exactly when it is a catalog plan whose link is "". */
  lemma EmptyLinksOfCatalogPlans(p: PaymentConfig)
    ensures forall id :: id in EmptyKeys(GetLinksDict(p)) <==>
      Plans.FindPlan(id).Some? && Plans.PaymentLink(GetLinksDict(p), id) == ""
  {
    var links := GetLinksDict(p);
    Plans.CatalogIdsDistinct();
    forall id ensures id in EmptyKeys(links) <==>
      Plans.FindPlan(id).Some? && Plans.PaymentLink(links, id) == ""
    {
      if id in EmptyKeys(links) {
        EmptyLinkIsCatalogPlan(Plans.Catalog, links, id);
      }
      if Plans.FindPlan(id).Some? && Plans.PaymentLink(links, id) == "" {
        CatalogPlanWithoutLink(Plans.Catalog, links, id);
      }
    }
  }

  /** An id listed with an empty link is a key of the catalog whose link is "". */
  lemma EmptyLinkIsCatalogPlan<V>(cat: seq<(string, V)>, links: seq<(string, string)>, id: string)
    requires |links| == |cat| && forall i :: 0 <= i < |links| ==> links[i].0 == cat[i].0
    requires forall j, k :: 0 <= j < k < |cat| ==> cat[j].0 != cat[k].0
    requires id in EmptyKeys(links)
    ensures Plans.Lookup(cat, id).Some? && Plans.PaymentLink(links, id) == ""
  {
    var i :| 0 <= i < |links| && links[i] == (id, "");
    Plans.LookupDistinct(links, i);
    Plans.LookupDistinct(cat, i);
  }

  /** A key of the catalog whose link is "" is listed among the empty links. */
  lemma CatalogPlanWithoutLink<V>(cat: seq<(string, V)>, links: seq<(string, string)>, id: string)
    requires |links| == |cat| && forall i :: 0 <= i < |links| ==> links[i].0 == cat[i].0
    requires forall j, k :: 0 <= j < k < |cat| ==> cat[j].0 != cat[k].0
    requires Plans.Lookup(cat, id).Some? && Plans.PaymentLink(links, id) == ""
    ensures id in EmptyKeys(links)
  {
    var i :| 0 <= i < |cat| && cat[i] == (id, Plans.Lookup(cat, id).value);
    Plans.LookupDistinct(links, i);
    assert links[i] == (id, "");
  }

  /** Plan `x` comes strictly before plan `y` in the catalog. */
  predicate CatalogBefore(x: string, y: string) {
    exists a, b :: 0 <= a < b < |Plans.Catalog| && x == Plans.Catalog[a].0 && y == Plans.Catalog[b].0
  }

  /** The empty links come in catalog order. */
  lemma EmptyLinksInCatalogOrder(p: PaymentConfig)
    ensures var missing := EmptyKeys(GetLinksDict(p));
      forall i, j :: 0 <= i < j < |missing| ==> CatalogBefore(missing[i], missing[j])
  {
    var links := GetLinksDict(p);
    var missing := EmptyKeys(links);
    forall i, j | 0 <= i < j < |missing|
      ensures CatalogBefore(missing[i], missing[j])
    {
      assert EmptyBefore(links, missing[i], missing[j]);
      var a, b :| 0 <= a < b < |links| && links[a] == (missing[i], "") && links[b] == (missing[j], "");
      assert missing[i] == Plans.Catalog[a].0 && missing[j] == Plans.Catalog[b].0;
    }
  }

  /** No plan is reported missing twice, since the catalog's ids are distinct. */
  lemma MissingLinksNoRepeats(p: PaymentConfig)
    ensures var missing := MissingLinks(p);
      forall i, j :: 0 <= i < j < |missing| ==> missing[i] != missing[j]
  {
    var missing := MissingLinks(p);
    Plans.CatalogIdsDistinct();
    forall i, j | 0 <= i < j < |missing|
      ensures missing[i] != missing[j]
    {
      assert CatalogBefore(missing[i], missing[j]);
    }
  }

  // ---------------------------------------------------------------------------
  // Application configuration
  // ---------------------------------------------------------------------------

  /** `AppConfig`, with the fields the core reads. */
  datatype AppConfig = AppConfig(
    telegramToken: string,
    adminUserId: Option<int>,
    channelId: string,
    channelName: string,
    databaseUrl: string,
    dbEcho: bool,
    payments: PaymentConfig,
    logLevel: string,
    logFile: string,
    maxRetries: int,
    retryDelay: int,
    requestTimeout: int,
    enableScheduler: bool,
    enableAdminPanel: bool,
    enableAnalytics: bool,
    debugMode: bool)

  /** The dataclass defaults, `AppConfig()`. */
  const Defaults := AppConfig(
    telegramToken := "", adminUserId := None,
    channelId := "@your_private_channel", channelName := "PNP Television",
    databaseUrl := "sqlite:///data/pnp_bot.db", dbEcho := false,
    payments := PaymentConfig("", "", "", "", "", ""),
    logLevel := "INFO", logFile := "logs/bot.log",
    maxRetries := 3, retryDelay := 5, requestTimeout := 10,
    enableScheduler := true, enableAdminPanel := true, enableAnalytics := true, debugMode := false)

  /**
   * The administrator id from `ADMIN_USER_ID` (or `ADMIN_IDS`): the first
   * comma-separated item, stripped, if it is all digits; otherwise none.
   */
  function ParseAdminId(s: string): (id: Option<int>)
    ensures s == "" ==> id.None?
    ensures id.Some? <==> s != "" && IsDigits(Strip(Split(s, ',')[0]))
    ensures id.Some? ==> id.value >= 0
  {
    if s == "" then None
    else
      var first := Strip(Split(s, ',')[0]);
      if IsDigits(first) then Some(DigitsValue(first)) else None
  }

  /** The first comma-separated item of a list that starts with a numeral is that numeral. */
  lemma FirstItemOfNumeral(d: string, tail: string)
    requires IsDigits(d)
    requires tail == "" || tail[0] == ','
    ensures Split(d + tail, ',')[0] == d
  {
    assert ',' !in d by {
      forall i | 0 <= i < |d| ensures d[i] != ',' { assert IsDigit(d[i]); }
    }
    FirstItem(d, tail);
  }

  /** The text before the first comma is the first item of the list. */
  lemma FirstItem(item: string, tail: string)
    requires ',' !in item
    requires tail == "" || tail[0] == ','
    ensures Split(item + tail, ',')[0] == item
  {
    if tail == "" {
      assert item + tail == item;
      SplitWithoutSeparator(item, ',');
    } else {
      FirstItemBeforeComma(item, tail);
    }
  }

  /** The comma case of `FirstItem`. */
  lemma FirstItemBeforeComma(item: string, tail: string)
    requires ',' !in item
    requires |tail| > 0 && tail[0] == ','
    ensures Split(item + tail, ',')[0] == item
  {
    assert item + tail == item + [','] + tail[1..];
    SplitAfterPrefix(item, ',', tail[1..]);
  }

  /** A list whose first item is a numeral yields that numeral's value. */
  lemma AdminIdOfNumeral(d: string, tail: string)
    requires IsDigits(d)
    requires tail == "" || tail[0] == ','
    ensures ParseAdminId(d + tail) == Some(DigitsValue(d))
  {
    FirstItemOfNumeral(d, tail);
    StripNumeral(d);
  }

  /**
   * Whitespace around the first item is stripped before `isdigit()`:
   * `" 42"` and `"42 ,7"` both give admin 42.
   */
  lemma AdminIdOfPaddedNumeral(pre: string, d: string, post: string, tail: string)
    requires IsDigits(d)
    requires forall i :: 0 <= i < |pre| ==> IsSpace(pre[i])
    requires forall i :: 0 <= i < |post| ==> IsSpace(post[i])
    requires tail == "" || tail[0] == ','
    ensures ParseAdminId(pre + d + post + tail) == Some(DigitsValue(d))
  {
    var item := pre + d + post;
    forall i | 0 <= i < |item| ensures item[i] != ',' {
      if i < |pre| {
        assert item[i] == pre[i];
      } else if i < |pre| + |d| {
        assert item[i] == d[i - |pre|];
      } else {
        assert item[i] == post[i - |pre| - |d|];
      }
    }
    assert ',' !in item;
    FirstItem(item, tail);
    assert !IsSpace(d[0]) && !IsSpace(d[|d| - 1]);
    StripPadded(pre, d, post);
  }

  /** A single id, or a list that starts with one, yields that id. */
  lemma AdminIdOfList(n: nat, rest: string)
    ensures ParseAdminId(NatToString(n)) == Some(n)
    ensures ParseAdminId(NatToString(n) + "," + rest) == Some(n)
  {
    NatToStringReadsBack(n);
    var d := NatToString(n);
    AdminIdOfAlone(d);
    AdminIdOfHead(d, rest);
  }

  /** A numeral alone yields its value. */
  lemma AdminIdOfAlone(d: string)
    requires IsDigits(d)
    ensures ParseAdminId(d) == Some(DigitsValue(d))
  {
    AdminIdOfNumeral(d, "");
    assert d + "" == d;
  }

  /** A numeral before a comma yields its value. */
  lemma AdminIdOfHead(d: string, rest: string)
    requires IsDigits(d)
    ensures ParseAdminId(d + "," + rest) == Some(DigitsValue(d))
  {
    var tail := "," + rest;
    assert d + tail == d + "," + rest;
    AdminIdOfNumeral(d, tail);
  }

  /** A feature flag: `os.getenv(key, default).lower() == "true"`. */
  predicate Flag(env: map<string, string>, key: string, default: string) {
    Lower(Getenv(env, key, default)) == "true"
  }

  /** `int(...)` raised while reading the environment. */
  datatype EnvError = InvalidInteger(variable: string, text: string)

  /**
   * `AppConfig.from_env`: the fields are read one after another; an integer
   * setting that `int()` rejects aborts the load.
   */
  method FromEnv(env: map<string, string>) returns (r: Result<AppConfig, EnvError>)
    ensures r.Success? <==>
      ParseInt(Getenv(env, "MAX_RETRIES", "3")).Some? &&
      ParseInt(Getenv(env, "RETRY_DELAY", "5")).Some? &&
      ParseInt(Getenv(env, "REQUEST_TIMEOUT", "10")).Some?
    ensures r.Success? ==>
      var c := r.value;
      && c.telegramToken == Getenv(env, "BOT_TOKEN", Getenv(env, "TELEGRAM_TOKEN", ""))
      && c.adminUserId == ParseAdminId(Getenv(env, "ADMIN_USER_ID", Getenv(env, "ADMIN_IDS", "")))
      && c.channelId == Getenv(env, "CHANNEL_ID", Defaults.channelId)
      && c.channelName == Getenv(env, "CHANNEL_NAME", Defaults.channelName)
      && c.databaseUrl == Getenv(env, "DATABASE_URL", Defaults.databaseUrl)
      && c.payments == PaymentsFromEnv(env)
      && c.logLevel == Getenv(env, "LOG_LEVEL", "INFO")
      && c.logFile == Getenv(env, "LOG_FILE", Defaults.logFile)
      && Some(c.maxRetries) == ParseInt(Getenv(env, "MAX_RETRIES", "3"))
      && Some(c.retryDelay) == ParseInt(Getenv(env, "RETRY_DELAY", "5"))
      && Some(c.requestTimeout) == ParseInt(Getenv(env, "REQUEST_TIMEOUT", "10"))
      && c.dbEcho == Flag(env, "DB_ECHO", "false")
      && c.enableScheduler == Flag(env, "ENABLE_SCHEDULER", "true")
      && c.enableAdminPanel == Flag(env, "ENABLE_ADMIN_PANEL", "true")
      && c.enableAnalytics == Flag(env, "ENABLE_ANALYTICS", "true")
      && c.debugMode == Flag(env, "DEBUG_MODE", "false")
    ensures ParseInt(Getenv(env, "MAX_RETRIES", "3")).None? ==>
      r == Failure(InvalidInteger("MAX_RETRIES", Getenv(env, "MAX_RETRIES", "3")))
    ensures ParseInt(Getenv(env, "MAX_RETRIES", "3")).Some? && ParseInt(Getenv(env, "RETRY_DELAY", "5")).None? ==>
      r == Failure(InvalidInteger("RETRY_DELAY", Getenv(env, "RETRY_DELAY", "5")))
    ensures
      (ParseInt(Getenv(env, "MAX_RETRIES", "3")).Some? && ParseInt(Getenv(env, "RETRY_DELAY", "5")).Some? &&
       ParseInt(Getenv(env, "REQUEST_TIMEOUT", "10")).None?) ==>
      r == Failure(InvalidInteger("REQUEST_TIMEOUT", Getenv(env, "REQUEST_TIMEOUT", "10")))
    ensures env == map[] ==> r.Success? && r.value.maxRetries == 3 && r.value.retryDelay == 5 && r.value.requestTimeout == 10
  {
    DefaultsReadBack();
    var config := Defaults;
    config := config.(telegramToken := Getenv(env, "BOT_TOKEN", Getenv(env, "TELEGRAM_TOKEN", "")));

    var adminIdText := Getenv(env, "ADMIN_USER_ID", Getenv(env, "ADMIN_IDS", ""));
    if adminIdText != "" {
      config := config.(adminUserId := ParseAdminId(adminIdText));
    }

    config := config.(channelId := Getenv(env, "CHANNEL_ID", config.channelId));
    config := config.(channelName := Getenv(env, "CHANNEL_NAME", config.channelName));
    config := config.(databaseUrl := Getenv(env, "DATABASE_URL", config.databaseUrl));
    config := config.(dbEcho := Flag(env, "DB_ECHO", "false"));
    config := config.(payments := PaymentsFromEnv(env));
    config := config.(logLevel := Getenv(env, "LOG_LEVEL", config.logLevel));
    config := config.(logFile := Getenv(env, "LOG_FILE", config.logFile));

    var retriesText := Getenv(env, "MAX_RETRIES", "3");
    var retries := ParseInt(retriesText);
    if retries.None? {
      return Failure(InvalidInteger("MAX_RETRIES", retriesText));
    }
    config := config.(maxRetries := retries.value);

    var delayText := Getenv(env, "RETRY_DELAY", "5");
    var delay := ParseInt(delayText);
    if delay.None? {
      return Failure(InvalidInteger("RETRY_DELAY", delayText));
    }
    config := config.(retryDelay := delay.value);

    var timeoutText := Getenv(env, "REQUEST_TIMEOUT", "10");
    var timeout := ParseInt(timeoutText);
    if timeout.None? {
      return Failure(InvalidInteger("REQUEST_TIMEOUT", timeoutText));
    }
    config := config.(requestTimeout := timeout.value);

    config := config.(enableScheduler := Flag(env, "ENABLE_SCHEDULER", "true"));
    config := config.(enableAdminPanel := Flag(env, "ENABLE_ADMIN_PANEL", "true"));
    config := config.(enableAnalytics := Flag(env, "ENABLE_ANALYTICS", "true"));
    config := config.(debugMode := Flag(env, "DEBUG_MODE", "false"));

    r := Success(config);
  }

  /** The numeric defaults written as environment text read back as the defaults. */
  lemma NumericDefaultsReadBack()
    ensures ParseInt("3") == Some(3) && ParseInt("5") == Some(5) && ParseInt("10") == Some(10)
  {
    ParseNatRoundTrip(3, "3");
    ParseNatRoundTrip(5, "5");
    ParseNatRoundTrip(10, "10");
  }

  /** The defaults written as environment text read back as the defaults. */
  lemma DefaultsReadBack()
    ensures ParseInt("3") == Some(3) && ParseInt("5") == Some(5) && ParseInt("10") == Some(10)
    ensures Lower("true") == "true" && Lower("false") != "true"
  {
    NumericDefaultsReadBack();
    assert Lower("false")[0] == 'f';
  }

  // ---------------------------------------------------------------------------
  // AppConfig.validate
  // ---------------------------------------------------------------------------

  const LogLevels := ["DEBUG", "INFO", "WARNING", "ERROR", "CRITICAL"]

  /** `log_level.upper() in valid_levels` */
  predicate ValidLogLevel(level: string) {
    Upper(level) in LogLevels
  }

  datatype Issue =
    | TokenRequired
    | TokenTooShort
    | MissingPaymentLinks(plans: seq<string>)
    | InvalidLogLevel(level: string)
  {
    /** Where `validate` reports this issue: the token first, then the links, then the log level. */
    function Rank(): nat {
      match this
      case TokenRequired => 0
      case TokenTooShort => 0
      case MissingPaymentLinks(_) => 1
      case InvalidLogLevel(_) => 2
    }

    /** The message `validate` appends for this issue. */
    function Message(): string {
      match this
      case TokenRequired => "TELEGRAM_TOKEN/BOT_TOKEN is required"
      case TokenTooShort => "TELEGRAM_TOKEN appears to be invalid (too short)"
      case MissingPaymentLinks(plans) => "Missing payment links: " + Join(plans, ", ")
      case InvalidLogLevel(level) => "Invalid log level: " + level
    }
  }

  /**
   * The issues `validate` reports for a token, the missing links and the
   * log level's verdict: the token issue, then the links issue, then the
   * log-level issue, each present only when its check fails.
   */
  function IssueList(token: string, missing: seq<string>, levelOk: bool, level: string): seq<Issue> {
    (if token == "" then [TokenRequired] else if |token| < 40 then [TokenTooShort] else [])
    + (if missing != [] then [MissingPaymentLinks(missing)] else [])
    + (if levelOk then [] else [InvalidLogLevel(level)])
  }

  /**
   * Each issue is reported exactly when its check fails, the token is
   * either missing or too short (never both), nothing else is reported, and
   * the issues come in order, each at most once.
   */
  lemma IssueListFacts(token: string, missing: seq<string>, levelOk: bool, level: string)
    ensures var issues := IssueList(token, missing, levelOk, level);
      && (TokenRequired in issues <==> token == "")
      && (TokenTooShort in issues <==> 0 < |token| < 40)
      && !(TokenRequired in issues && TokenTooShort in issues)
      && (MissingPaymentLinks(missing) in issues <==> missing != [])
      && (InvalidLogLevel(level) in issues <==> !levelOk)
      && (forall i :: 0 <= i < |issues| ==>
            issues[i] in {TokenRequired, TokenTooShort, MissingPaymentLinks(missing), InvalidLogLevel(level)})
      && (forall i, j :: 0 <= i < j < |issues| ==> issues[i].Rank() < issues[j].Rank())
      && |issues| <= 3
  {
  }

  /**
   * `AppConfig.validate`: the token is either missing or too short (never both),
   * the missing payment links are reported together, and a log level is checked
   * case-insensitively. Nothing else is ever reported, and the issues come
   * in that order, each at most once.
   */
  method Validate(c: AppConfig) returns (issues: seq<Issue>)
    ensures issues == IssueList(c.telegramToken, MissingLinks(c.payments), ValidLogLevel(c.logLevel), c.logLevel)
    ensures TokenRequired in issues <==> c.telegramToken == ""
    ensures TokenTooShort in issues <==> 0 < |c.telegramToken| < 40
    ensures !(TokenRequired in issues && TokenTooShort in issues)
    ensures MissingPaymentLinks(MissingLinks(c.payments)) in issues <==> MissingLinks(c.payments) != []
    ensures InvalidLogLevel(c.logLevel) in issues <==> !ValidLogLevel(c.logLevel)
    ensures forall i :: 0 <= i < |issues| ==>
      issues[i] in {TokenRequired, TokenTooShort, MissingPaymentLinks(MissingLinks(c.payments)), InvalidLogLevel(c.logLevel)}
    ensures forall i, j :: 0 <= i < j < |issues| ==> issues[i].Rank() < issues[j].Rank()
    ensures |issues| <= 3
  {
    issues := [];

    if c.telegramToken == "" {
      issues := issues + [TokenRequired];
    } else if |c.telegramToken| < 40 {
      issues := issues + [TokenTooShort];
    }

    var missing := MissingLinks(c.payments);
    if missing != [] {
      issues := issues + [MissingPaymentLinks(missing)];
    }

    var levelOk := ValidLogLevel(c.logLevel);
    if !levelOk {
      issues := issues + [InvalidLogLevel(c.logLevel)];
    }
    assert issues == IssueList(c.telegramToken, missing, levelOk, c.logLevel);
    IssueListFacts(c.telegramToken, missing, levelOk, c.logLevel);
  }

  // ---------------------------------------------------------------------------
  // AppConfig.to_dict
  // ---------------------------------------------------------------------------

  /** The summary `to_dict` produces for logging. */
  datatype ConfigSummary = ConfigSummary(
    telegramToken: string,
    adminUserId: Option<int>,
    channelId: string,
    channelName: string,
    databaseUrl: string,
    logLevel: string,
    maxRetries: int,
    retryDelay: int,
    enableScheduler: bool,
    enableAdminPanel: bool,
    enableAnalytics: bool,
    debugMode: bool,
    paymentLinksConfigured: nat)

  /**
   * `AppConfig.to_dict`: the token is shown only as a placeholder, hidden
   * when set and NOT_SET when empty; every other setting is shown as it is.
   */
  function ToDict(c: AppConfig): (s: ConfigSummary)
    ensures s.telegramToken in {"***HIDDEN***", "NOT_SET"}
    ensures s.telegramToken == "***HIDDEN***" <==> c.telegramToken != ""
    ensures && s.adminUserId == c.adminUserId && s.channelId == c.channelId && s.channelName == c.channelName
            && s.databaseUrl == c.databaseUrl && s.logLevel == c.logLevel
            && s.maxRetries == c.maxRetries && s.retryDelay == c.retryDelay
            && s.enableScheduler == c.enableScheduler && s.enableAdminPanel == c.enableAdminPanel
            && s.enableAnalytics == c.enableAnalytics && s.debugMode == c.debugMode
    ensures s.paymentLinksConfigured + |MissingLinks(c.payments)| == |Plans.Catalog|
  {
    EmptyAndConfiguredPartition(GetLinksDict(c.payments));
    ConfigSummary(
      telegramToken := if c.telegramToken != "" then "***HIDDEN***" else "NOT_SET",
      adminUserId := c.adminUserId,
      channelId := c.channelId,
      channelName := c.channelName,
      databaseUrl := c.databaseUrl,
      logLevel := c.logLevel,
      maxRetries := c.maxRetries,
      retryDelay := c.retryDelay,
      enableScheduler := c.enableScheduler,
      enableAdminPanel := c.enableAdminPanel,
      enableAnalytics := c.enableAnalytics,
      debugMode := c.debugMode,
      paymentLinksConfigured := NonEmptyCount(GetLinksDict(c.payments)))
  }

  /**
   * The summary depends on the token only through whether it is set: two
   * configurations that differ only in their (non-empty) tokens log the same thing.
   */
  lemma ToDictHidesToken(c: AppConfig, otherToken: string)
    requires (c.telegramToken == "") == (otherToken == "")
    ensures ToDict(c) == ToDict(c.(telegramToken := otherToken))
  {
  }
}

# PNP Television subscription bot — Dafny model

This project models the core of a Telegram subscription bot and proves properties of it. The bot sells time-limited access passes to a private channel. It comes in two variants:

- **The hybrid bot.** It has a configuration layer, a SQLite store and onboarding handlers:
  - configuration: `hybrid_config.py`;
  - the store: `hybrid_database.py`, holding users, subscriptions, settings, the audit log and analytics events;
  - handlers: `hybrid_handlers.py`, covering language, age gate, terms, main menu, plan selection, the admin `/grant` command and the callback router.
- **The JSON bot** (`improved_bot.py`). It keeps user records as JSON objects in a dict keyed by the id's decimal text, filters every update through a field whitelist, and has its own callback router.

Both bots share the same plan catalog and the same plan-selection decision.

Modules, one per file:

| file | module | models |
|---|---|---|
| `wrappers.dfy` | `Wrappers` | `Option` and `Result` |
| `text.dfy` | `Text` | the Python string operations the bot uses: `split`, `strip`, `isdigit`, `int()`, `str()`, `upper`, `lower`, `startswith`, `replace(c, '')` |
| `values.dfy` | `Values` | JSON-like values and Python truthiness |
| `plans.dfy` | `Plans` | the plan catalog, `select_plan`'s decision and the plan keyboard |
| `config.dfy` | `Config` | `PaymentConfig` and `AppConfig`: loading from the environment, `validate` and `to_dict` |
| `store.dfy` | `Store` | the database as a value (`Tables`) and a `Database` class whose methods are the mutators of `hybrid_database.py` |
| `handlers.dfy` | `Handlers` | the handlers of the hybrid bot |
| `json_users.dfy` | `JsonUsers` | the JSON bot: the whitelist, `update_user` on a `JsonUserStore` class, `is_user_active` and its callback router |

Conventions of the model:

- **Time** is an integer number of seconds. A day is 86400. The current time is a parameter named `now`.
- **The process environment** is a `map<string, string>`.
- **Replies** are abstract outcome datatypes rather than message texts. Captions of translated texts are written as their translation keys.
- **The schema facts that SQLite enforces** are the invariant `Store.Consistent`: unique `telegram_id`, and foreign keys from subscriptions, audit entries (both ids) and analytics events to users. The connection turns on `PRAGMA foreign_keys` at `hybrid_database.py:50`. Every store method keeps the invariant.
- **Failed foreign-key inserts.** An insert that violates a foreign key changes nothing and reports failure, as the `except` branches do.
- **The analytics switch.** `Store.Database.analyticsEnabled` is the `app_config.enable_analytics` flag that `log_analytics` reads (`hybrid_database.py:480`). The handlers that also receive the configuration require the two to agree.

Behaviours of the code that the model makes explicit:

- **Language gate at `/start`** (`hybrid_handlers.py:189`).
  - The language menu is shown only when Telegram reports the code `unknown`. A user with no language code gets `'es'`, because `safe_user_update` writes `language_code or 'es'` before the gate is checked.
  - The written description of the onboarding says "no recorded language → language menu". The model follows the code (`Handlers.LanguageGateOnlyForUnknown`).
- **`/start` overwrites the whole user row.** `INSERT OR REPLACE` deletes the old row and inserts a new one. So `is_admin` and `is_banned` return to false, `created_at` becomes now, and the referral fields and notes are cleared (`Handlers.StartResetsFlags`, `Store.UpsertForgetsOldRow`).
- **A user's very first `start_command` analytics event is never stored.** It is logged before the user row exists, so the foreign key rejects it (`Handlers.FirstStartNotLogged`).
- **`/grant` does not check the plan.**
  - An unknown plan type is granted for 30 days unless a duration is given (`Handlers.GrantUnknownPlanDefault`).
  - An unknown target user makes the insert fail ("Error otorgando acceso").
  - A granting admin who has no user row still gets the grant, but no audit entry is written.
- **Who may run `/grant`.**
  - The handler is registered only when an admin id is configured and is non-zero (`hybrid_main.py:166-175`).
  - That id reaches `hybrid_main.py` as `str(admin_user_id)`, which it turns back with `int()`. `Text.ParseIntRoundTrip` shows this round trip gives back the same id.
- **Ids that pass `update_user` in the JSON bot.**
  - Python's `True` passes the id check (`isinstance(True, int)` holds) and is filed under the key `"True"`.
  - The whitelisted `id` field of an existing record can be overwritten by an update.

## Model

| member | source | states |
|---|---|---|
| Text.Split | hybrid_config.py:118 | `str.split` with one separator: never an empty list, no piece contains the separator, and the pieces joined with the separator give back the input |
| Text.LastSegmentAfterSeparator | hybrid_handlers.py:292 | the last `_`-piece of `p + "_" + t` is `t` whenever `t` has no `_`, whatever precedes it |
| Text.StripLeft | hybrid_config.py:118 | the left strip is a suffix of its input that starts with a non-space, and only whitespace is removed in front of it |
| Text.StripRight | hybrid_config.py:118 | the right strip is a prefix of its input that ends with a non-space, and only whitespace is removed after it |
| Text.StripLeftPadded | hybrid_config.py:118 | a whitespace prefix in front of a non-space character is exactly what the left strip removes |
| Text.StripRightPadded | hybrid_config.py:118 | a whitespace suffix after a non-space character is exactly what the right strip removes |
| Text.StripPadded | hybrid_config.py:118 | `strip()` of a word padded with whitespace on both sides gives back the word |
| Text.NatToStringReadsBack | hybrid_config.py:210 | `str(n)` is a non-empty digit string whose decimal value is `n` |
| Text.NatToStringInjective | improved_bot.py:257 | distinct non-negative ints have distinct decimal forms |
| Text.ParseIntRoundTrip | hybrid_main.py:49 | `int(str(i)) == i` for every int, negative ones included |
| Text.IntToStringInjective | improved_bot.py:257 | `str` is injective on ints, so distinct ids get distinct dict keys |
| Text.Upper | hybrid_config.py:176 | `upper()` for the characters that can upper-case into a log-level name: each character is mapped on its own, ASCII small letters to capitals, ı to I and ſ to S, and every other character is kept |
| Text.Lower | hybrid_config.py:145-148 | `lower()` as the `== 'true'` tests need it: ASCII capitals become small letters and every other character is kept, position by position |
| Text.Without | hybrid_handlers.py:222 | `replace('@', '')` leaves no `@`, never lengthens, and is the identity on a string without `@` |
| Text.WithoutAppend | hybrid_handlers.py:222 | removing a character distributes over concatenation |
| Text.WithoutSingle | hybrid_handlers.py:222 | on one character, removal deletes it iff it is the removed character and keeps it otherwise |
| Plans.PlanIds | hybrid_handlers.py:30-73 | the plan ids are the catalog's keys, in catalog order |
| Plans.Lookup | improved_bot.py:473 | `dict.get`: None exactly when no item has the key, otherwise the value of an item with that key |
| Plans.LookupDistinct | hybrid_handlers.py:557 | with distinct keys, looking up the i-th key yields the i-th value |
| Plans.DefaultGrantDays | hybrid_handlers.py:602 | `PLANS.get(plan, {}).get('days', 30)`: the catalog duration of a known plan, 30 for an unknown one |
| Plans.ChoosePlan | hybrid_handlers.py:555-565 | the plan id is the last `_`-piece; the result is "invalid plan" iff the id is not in the catalog, "link unavailable" iff the plan is known and its link is empty, and otherwise instructions carrying the plan and its non-empty link |
| Plans.PlanMenu | hybrid_handlers.py:443-458 | `IsPlanMenu`: exactly one "name - price" button per catalog plan with callback `select_plan_<id>`, in catalog order, then the back button to `back_to_start`, and nothing else |
| Plans.PlanTokenRoundTrip | hybrid_handlers.py:452 | the id read back from a plan button's callback is that plan's id, and the catalog finds that plan |
| Plans.ChooseCatalogPlan | hybrid_handlers.py:555-568 | pressing a catalog plan's own button selects that plan, and leads to payment iff its link is non-empty |
| Config.GetLinksDict | hybrid_config.py:57-66 | exactly one link per plan, keyed by the catalog's plan ids in catalog order |
| Config.EmptyKeys | hybrid_config.py:71 | the keys listed are exactly those whose value is empty, in the items' order: any two listed keys come from two empty items in the same order |
| Config.EmptyAndConfiguredPartition | hybrid_config.py:71 | every link is either missing or counted as configured, never both |
| Config.MissingLinks | hybrid_config.py:68-72 | a plan id is reported missing iff it is a catalog plan whose link is empty, and the ids come in catalog order |
| Config.MissingLinksNoRepeats | hybrid_config.py:68-72 | no plan id is reported missing twice |
| Config.ParseAdminId | hybrid_config.py:115-122 | None for an unset variable; a value iff the stripped first comma-separated item is all digits, and then a non-negative value |
| Config.AdminIdOfNumeral | hybrid_config.py:118-119 | a digit string at the head of the list, alone or before a comma, is read as its own value |
| Config.FirstItem | hybrid_config.py:118 | `split(",")[0]` is the text before the first comma, or the whole text when there is none |
| Config.AdminIdOfPaddedNumeral | hybrid_config.py:118-120 | a digit string with whitespace on either side, alone or before a comma (`" 42"`, `"42 ,7"`), is read as the digits' value |
| Config.AdminIdOfList | hybrid_config.py:115-122 | `str(n)`, alone or as the first item of a comma-separated list, parses back to `n` |
| Config.FromEnv | hybrid_config.py:108-150 | loading succeeds iff MAX_RETRIES, RETRY_DELAY and REQUEST_TIMEOUT (or their defaults) parse as ints. A failure names the first of them, in that order, that `int()` rejects, and carries its text. Each field is read from its variable with the code's fallbacks (BOT_TOKEN before TELEGRAM_TOKEN, ADMIN_USER_ID before ADMIN_IDS). Each flag is true iff its lower-cased value is "true". An empty environment yields the defaults 3, 5 and 10 |
| Config.DefaultsReadBack | hybrid_config.py:138-148 | the default strings of the numeric settings and flags read back as their default values |
| Config.Validate | hybrid_config.py:152-179 | the issues are `IssueList` of the token, the missing links and the log level: "token required" iff the token is empty; "too short" iff it is non-empty and under 40 characters; never both. The missing-links issue appears iff some link is missing. The log-level issue appears iff the upper-cased level is not one of the five names. They come in the code's order (token, links, log level), each at most once, at most three |
| Config.IssueListFacts | hybrid_config.py:152-179 | each issue of the list is present iff its condition holds, the two token issues exclude each other, and the list is strictly ordered by check and holds at most three issues |
| Config.ToDict | hybrid_config.py:181-198 | the token is shown as "***HIDDEN***" iff it is set and as "NOT_SET" otherwise; admin id, channel id and name, database URL, log level, retries, retry delay and the four flags are shown as configured; configured plus missing links add up to the number of plans |
| Config.ToDictHidesToken | hybrid_config.py:184 | two configurations that differ only in a token, both set or both unset, have the same summary |
| Store.FindUser | hybrid_database.py:332-347 | `get_user` finds a row iff some row has that `telegram_id`, and the row found has it |
| Store.FindUnique | hybrid_database.py:116 | with unique ids, every stored row is what `get_user` returns for its id |
| Store.LanguageOrDefault | hybrid_database.py:315 | `language_code or 'es'` is never empty and keeps a non-empty code |
| Store.RemoveUser | hybrid_database.py:305 | the replace step removes exactly the rows with that id |
| Store.RemoveUserUnique | hybrid_database.py:116 | removing a user's rows keeps ids unique |
| Store.UpsertUserExactlyOne | hybrid_database.py:301-330 | after `create_user` ids stay unique, and the new row is the only row with that id |
| Store.UpsertThenFind | hybrid_database.py:301-347 | `get_user` after `create_user` returns the freshly written row |
| Store.UpsertKeepsOthers | hybrid_database.py:301-330 | `create_user` leaves every other user's row as it was |
| Store.UpsertForgetsOldRow | hybrid_database.py:305-308 | the row after `create_user` does not depend on the old row: admin and ban flags false, created now, referral fields and notes cleared |
| Store.UpsertUserIds | hybrid_database.py:301-330 | after `create_user` a user exists iff it existed before or is the one written |
| Store.UpdateUserRows | hybrid_database.py:349-357 | the update changes only rows with the id, by the given change, and keeps the row count |
| Store.UpdateKeepsUsers | hybrid_database.py:352 | an UPDATE neither adds nor removes users |
| Store.UpdateUserRowsEffect | hybrid_database.py:349-357 | with unique ids, ids stay unique; `get_user` afterwards sees the changed row for the id and the old row for every other id |
| Store.InsertSubscription | hybrid_database.py:373-395 | the insert fails, changing nothing, iff the user does not exist. On success it appends one 'active' row under a fresh id of at least 1, advances the counter and keeps the schema invariant |
| Store.ActiveSubscription | hybrid_database.py:397-409 | None iff the user has no active subscription ending after now; otherwise such a subscription with the latest end date |
| Store.Expiring | hybrid_database.py:411-427 | a joined row is listed iff its subscription is active, ends after now and within the given days, and its user exists; the rows follow the subscriptions' table order |
| Store.ExpiringIdsIncrease | hybrid_database.py:415-424 | with AUTOINCREMENT ids the listed rows have strictly increasing subscription ids, so no row is listed twice |
| Store.ExpireDue | hybrid_database.py:429-443 | exactly the active subscriptions whose end has passed become 'expired', stamped now; the others are untouched |
| Store.ExpireIdempotent | hybrid_database.py:429-443 | after expiring, nothing is due, and a second run changes nothing |
| Store.ExpireKeepsActive | hybrid_database.py:397-443 | expiring never changes any user's active subscription |
| Store.ExpireKeepsConsistent | hybrid_database.py:161 | expiring keeps the schema invariant |
| Store.GetSetting | hybrid_database.py:449-457 | the stored value, NULL included, for a present key; the default for an absent one |
| Store.SettingRoundTrip | hybrid_database.py:449-472 | `get_setting` after `set_setting` returns the value just set, and other keys are unaffected |
| Store.Payload | hybrid_database.py:488 | an empty or absent event payload is stored as NULL, any other as itself |
| Store.LogAnalytics | hybrid_database.py:478-494 | with analytics disabled, nothing is written and the answer is True; otherwise the event is appended iff its user exists, and the answer says whether it was |
| Store.LogAudit | hybrid_database.py:496-508 | the entry is appended iff both the user and the admin exist; otherwise nothing changes and the answer is False |
| Store.KeepRecentEvents | hybrid_database.py:520-521 | cleanup keeps exactly the events created at or after the cutoff |
| Store.KeepAuditEntries | hybrid_database.py:524-528 | cleanup keeps exactly the audit entries created at or after the cutoff, and every 'user_banned' and 'admin_action' entry |
| Store.CleanupEventsCount | hybrid_database.py:514-539 | the reported count of deleted events is exactly how many fewer there are, and a second cleanup deletes nothing |
| Store.CleanupAuditCount | hybrid_database.py:514-539 | the same for audit entries |
| Store.Database.constructor | hybrid_database.py:108-250 | a new database is empty and meets the schema invariant |
| Store.Database.CreateUser | hybrid_database.py:301-330 | the user table becomes the upsert of the new row; every other table is unchanged |
| Store.Database.UpdateUserActivity | hybrid_database.py:349-357 | answers True iff the user exists; only that user's last activity becomes now |
| Store.Database.SetUserLanguage | hybrid_handlers.py:298 | only that user's language code changes |
| Store.Database.CreateSubscription | hybrid_database.py:373-395 | the new state and the returned id are those of `InsertSubscription` |
| Store.Database.ExpireSubscriptions | hybrid_database.py:429-443 | returns the number of due subscriptions and expires exactly them |
| Store.Database.SetSetting | hybrid_database.py:459-472 | replaces the setting's row, with a fresh creation time and the given description |
| Store.Database.LogAnalyticsEvent | hybrid_database.py:478-494 | the event table and the answer are those of `LogAnalytics`; nothing else changes |
| Store.Database.LogAuditEvent | hybrid_database.py:496-508 | the audit table and the answer are those of `LogAudit`; nothing else changes |
| Store.Database.CleanupOldData | hybrid_database.py:514-543 | both tables are pruned as above, and the report gives the numbers deleted |
| Handlers.GetUserLanguage | hybrid_handlers.py:107-113 | 'es' for an unknown user; otherwise the stored code of the user's unique row |
| Handlers.IsUserSubscribed | hybrid_handlers.py:115-126 | (False, None) without an active subscription; otherwise the user's active subscription, subscribed iff now is before its end |
| Handlers.SubscribedIffCurrent | hybrid_handlers.py:115-126 | subscribed iff some active subscription of the user ends after now; the one returned ends last |
| Handlers.RulesExclusive | hybrid_handlers.py:653-663 | no callback data matches two of the router's rules |
| Handlers.RouteCallback | hybrid_handlers.py:643-666 | each route is taken exactly when its own prefix or token matches |
| Handlers.RouteOnboardingTokens | hybrid_handlers.py:653-658 | the onboarding buttons reach the language, age and terms handlers |
| Handlers.RouteMenuTokens | hybrid_handlers.py:659-664 | every `home_*` menu button, every plan button and `back_to_start` reach their handlers |
| Handlers.RouteUnhandledTokens | hybrid_handlers.py:665-666 | `terms_decline`, `admin_panel` and the settings buttons, all emitted elsewhere, fall through to "not recognized" |
| Handlers.ChannelUrl | hybrid_handlers.py:222 | the channel link is `https://t.me/` followed by the channel id with no `@` |
| Handlers.MainMenuButtons | hybrid_handlers.py:216-239 | the access-channel button iff subscribed; plans, status, settings and help always; the admin button iff the user is the configured admin; nothing else |
| Handlers.LanguageGateOnlyForUnknown | hybrid_handlers.py:189-191 | after `safe_user_update`, the language gate applies iff Telegram reported 'unknown' |
| Handlers.StartResetsFlags | hybrid_handlers.py:83-92 | after `/start` the user's row has admin and ban flags false and the stored language is Telegram's code, or 'es' when there is none |
| Handlers.FirstStartNotLogged | hybrid_handlers.py:174 | the 'start_command' event of a user not yet stored is not recorded |
| Handlers.Start | hybrid_handlers.py:165-251 | `StartOutcome`: logs the event, upserts and touches the user, and changes nothing else. It shows the language menu iff the code is 'unknown'. Otherwise it shows the main menu (`IsMainMenu`): the user's subscription status, the channel button iff subscribed, the plans, status, settings and help buttons, the admin button iff the user is the configured admin, and no other button |
| Handlers.HandleLanguageSelection | hybrid_handlers.py:282-309 | an unknown user gets the error and nothing changes; a known user gets the language, as its last `_`-piece, stored, the event logged and the age gate |
| Handlers.HandleAgeVerification | hybrid_handlers.py:330-354 | logs whether the answer was 'yes'; terms gate iff it was, age-restricted otherwise |
| Handlers.HandleTermsAcceptance | hybrid_handlers.py:375-403 | `TermsOutcome`: logs 'terms_accepted', then the tables and the screen that follows the completion message are `/start`'s outcome on the logged tables |
| Handlers.HandleHomeMenuButtons | hybrid_handlers.py:405-432 | no second `_`-piece: no reply and no change. Otherwise the action is logged and the plans, status, settings or help screen is shown for the matching action, "not recognized" for any other |
| Handlers.SelectPlan | hybrid_handlers.py:544-584 | the reply is the plan choice; 'plan_selected' is logged only when it leads to payment |
| Handlers.GrantDays | hybrid_handlers.py:602 | the third argument parsed when present, else the plan's default days |
| Handlers.GrantUnknownPlanDefault | hybrid_handlers.py:602 | an unknown plan without a duration is granted 30 days |
| Handlers.ReadGrantArgs | hybrid_handlers.py:593-602 | too few arguments iff fewer than two; "not a number" iff the id or the duration does not parse; otherwise the parsed id, the plan as given and the duration of `GrantDays` |
| Handlers.GrantThenSubscribed | hybrid_handlers.py:115-126 | after a subscription ending after now is inserted for an existing user, that user is subscribed, until no earlier than the new end |
| Handlers.GrantedIsSubscribed | hybrid_handlers.py:604-629 | after a successful grant of at least one day the user is subscribed, until no earlier than the end the reply shows |
| Handlers.RecordGrant | hybrid_handlers.py:604-631 | `GrantOutcome` of a parsed request: fails, changing nothing, iff the user does not exist; otherwise appends a zero-amount 'active' subscription from now for the given days under the next id and the audit entry of `LogAudit`, and changes nothing else |
| Handlers.GrantAccess | hybrid_handlers.py:590-637 | `GrantOutcome` of `ReadGrantArgs`: usage iff fewer than two arguments; an error iff the id or duration does not parse; a failure iff the target user does not exist. Nothing changes in those three cases. Otherwise it appends a zero-amount subscription from now for the given days and the audit entry of `LogAudit`; after a grant of at least one day the user is subscribed |
| Handlers.GrantCommand | hybrid_main.py:166-175 | the grant runs iff the sender is the configured, non-zero admin, and then the reply and the new tables are those `GrantOutcome` gives `grant_access`; otherwise nothing changes |
| Handlers.HandleCallbackQuery | hybrid_handlers.py:643-669 | runs the routed handler: each route's reply and new tables are its handler's outcome (`LanguageOutcome`, `AgeOutcome`, `TermsOutcome`, `HomeOutcome`, `SelectOutcome`, `StartOutcome`); "not recognized" changes nothing |
| JsonUsers.ValidateUserData | improved_bot.py:232-247 | the result keeps exactly the input's allowed keys, with their values unchanged |
| JsonUsers.SanitizeIdempotent | improved_bot.py:232-247 | sanitising twice equals sanitising once, and only allowed keys remain |
| JsonUsers.UpdateEffect | improved_bot.py:249-279 | only the user's own record changes. In it, each allowed input field replaces the old value (`id` included), every other field is kept from the old or default record, and `last_updated` is now |
| JsonUsers.NewUserDefaults | improved_bot.py:259-268 | a new user's record starts inactive, with no expiry, no plan and zero payments, its id and created now, unless the input overrides a field |
| JsonUsers.GetUserData | improved_bot.py:281-288 | the record stored under `str(id)`, or None |
| JsonUsers.UpdateThenGet | improved_bot.py:249-288 | after an update, `get_user_data` finds the stamped record, and every other id's record is unchanged |
| JsonUsers.TrueIsAcceptedId | improved_bot.py:251-253 | `True` passes the id check under key "True"; `False` and 0 are rejected |
| JsonUsers.JsonUserStore.constructor | improved_bot.py:176-204 | the store starts with no users |
| JsonUsers.JsonUserStore.UpdateUser | improved_bot.py:249-279 | answers True iff the id is a positive int, or True. A rejected id writes nothing; otherwise the users dict becomes `UpdatedUsers` |
| JsonUsers.IsUserActive | improved_bot.py:290-311 | active iff the record is non-empty, `subscription_active` is truthy, `subscription_until` is a timestamp, and now is before it |
| JsonUsers.NewUserInactive | improved_bot.py:290-311 | a freshly created record is inactive at every time |
| JsonUsers.ActivateByUpdate | improved_bot.py:249-311 | after an update that sets the active flag and an expiry, the user is active exactly until that expiry |
| JsonUsers.TokensAreNotPlanSelections | improved_bot.py:548-560 | no exact callback token starts with `select_plan_` |
| JsonUsers.RouteCallbacks | improved_bot.py:548-563 | each route is taken exactly when its token or prefix matches; anything else is not recognized |
| JsonUsers.PaymentLinkOfPlan | improved_bot.py:101-108 | each catalog plan's link is its own environment variable, empty when unset |
| JsonUsers.NoLinkOutsideCatalog | improved_bot.py:473 | an id outside the catalog has no payment link |
| JsonUsers.PlansKeyboard | improved_bot.py:393-402 | `IsPlansKeyboard`: one "name - price" button per catalog plan with callback `select_plan_<id>`, in catalog order, then the "Volver" button to `back_to_start`, and nothing else |
| JsonUsers.ProfileRecord | improved_bot.py:326-331 | the dict `start_command` records holds exactly the four profile fields, all of them whitelisted |
| JsonUsers.ProfileKeepsStatus | improved_bot.py:326-338 | recording the profile never changes whether the user is active |
| JsonUsers.StartButtons | improved_bot.py:351-358 | plans, status and help always, and the admin button iff the id is an admin id |
| JsonUsers.StatusOf | improved_bot.py:431-432 | the status is active iff the user has a record and that record is active |
| JsonUsers.HandleCallbacks | improved_bot.py:538-563 | runs the routed handler. `show_plans` shows the `IsPlansKeyboard` buttons. A plan button yields the plan choice against the links of the environment. Only `back_to_start` writes, updating the sender's record with the four profile fields before the start screen, whose status is the one the user had before. `my_status` yields the stored status; the admin and unknown tokens yield their notices |

## Left out

- Persistence and I/O are not modelled. This covers SQLite connections, PRAGMAs, WAL, rollback, `VACUUM`, `backup_database`, `test_database_connection`, the JSON file's load and save with its temp-file rename and corrupt-file backup, and logging. Every write is assumed to succeed unless a modelled constraint rejects it. `cleanup_old_data`'s `{'error': ...}` result therefore never arises.
- Concurrency is not modelled: the lock in `execute_query`, `create_subscription` bypassing it, the scheduler thread and `asyncio.sleep` in terms acceptance.
- The Telegram transport is not modelled: message texts, translations (`get_text`), `safe_edit_message`/`safe_send_message`, `query.answer`, and the row layout of keyboards. Replies are outcome datatypes, and a keyboard is a flat list of buttons.
- Dates are not modelled as dates. `fromisoformat`/`strftime`, the local-time versus UTC `CURRENT_TIMESTAMP` mismatch and datetime overflow are all outside the model. Time is one integer `now` per call.
- Floats are not modelled. `payment_amount` is a `real` that is only stored. POLL_INTERVAL goes through `float()`, so a malformed value raises in `from_env`; that failure is not modelled.
- Text.Upper: only ASCII letters, ı and ſ are mapped. Python's full Unicode case mapping, which can change the length ('ß'.upper() is 'SS'), is not modelled. The mapping is exact for its one use, the log-level check, since only those characters can upper-case to a valid level name.
- Text.Lower: only ASCII capitals are mapped; Python's full Unicode lower-casing is not modelled. The mapping is exact for its use, the `== 'true'` tests, since only those characters can lower-case to a letter of "true".
- Text.ParseInt: `int()` is modelled for ASCII digits with an optional sign and surrounding whitespace only. Underscores between digits and non-ASCII digits, which Python also accepts, are not modelled. This affects every caller: Config.FromEnv, and Handlers.ReadGrantArgs with Handlers.GrantAccess, where `/grant 1_000 month` grants to user 1000 in Python but is "not a number" in the model.
- Config.FromEnv: `isdigit()` in the admin id is likewise modelled for ASCII digits only.
- Config.Validate: `DatabaseConfig.validate` always returns True, and the directory it creates is I/O. So "Database configuration is invalid" and "Database validation error" never appear.
- `set_user_language` belongs to the translations package, which is not part of this model. Store.Database.SetUserLanguage assumes it writes `users.language_code` for that user.
- `get_all_users` is not modelled, because its order depends on a `created_at` sort over an insertion order that the model does not track. Nor are the surrogate `id` column of the user table, `user_settings` and `payments`, which no core function writes.
- Missing `effective_user` or `callback_query` ends a handler without effect; those paths are not modelled. Exceptions raised by the Telegram calls are not modelled either.
- Handlers.HandleHomeMenuButtons: the second `query.answer` on an unrecognized action can fail after the first; the model gives the reply "not recognized".
- Only the `/grant` guard of `hybrid_main.py` is modelled. The handler registration, the retry loop, logging setup and its `BotConfig` are not.
- `setup_script.py` and `improved_launcher.py` are not part of this model, since they are scaffolding and a launcher.
- The JSON bot's `BotConfig.from_env`, which parses `ADMIN_IDS`, is not modelled. Its admin ids are a parameter of the start screen.
- Plan descriptions and the per-language description lookup are display text and are not modelled.
- JsonUsers.IsUserActive: a `subscription_until` stored as text is modelled only as a timestamp value (`JStamp`) or as not a timestamp. ISO string parsing is not modelled.
- JsonUsers.HandleCallbacks: the plans, help and admin notices carry no text. The help screen's keyboard ("Ver Planes" to `show_plans`, "Volver" to `back_to_start`, improved_bot.py:518-521) and the payment screen's "Ver Otros Planes" button to `show_plans` (improved_bot.py:493) are not modelled.
- `Json` values (values.dfy) have no float, list or object cases. `update_user` stores whatever JSON value a whitelisted key carries; the model covers null, booleans, ints, strings and timestamps only.
- `/status` as a command in the JSON bot is covered only through the `my_status` callback, which runs the same code.

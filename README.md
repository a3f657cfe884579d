# FanFan LINE translation bot — a Dafny model of its core

FanFan is a LINE bot that translates every text message posted in a group into the group's
chosen languages. This project models, in Dafny, the parts of it that make decisions:

- **Translation** (`translation.dfy`, module `Translation`): the Google and DeepL adapters, each
  a loop of at most two HTTP attempts with a back-off between them (2 s after HTTP 429, 0.3 s
  after other retried failures); the DeepL language-code mapping and supported-language cache;
  the dispatcher `translate_text`, which keeps numeric or empty text as it is, tries Google
  first and DeepL second, answers a fixed failure text when both fail, and bills the group's
  tenant once per successful translation; and `_format_translation_results`, which produces
  one `[lang] result` line per target language.
- **Tenants** (`tenant.dfy`, module `TenantStore`): the insertion-ordered `tenants` dictionary
  with create (overwrite), reverse lookup by group, validity against a clock value, idempotent
  group add and usage counters.
- **Group languages and engine preference** (`group.dfy`, `engine.dfy`): per-group maps with
  their defaults (`{"zh-TW"}` and `"google"`) and the closed engine enumeration.
- **The relational tenant record** (`models.py` → `models.dfy`, class `Models.Tenant`):
  expiry, whole days remaining, status precedence, group quota, daily reset, 7-day reminder.
- **The webhook** (`webhook.dfy`, module `Webhook`): which events are handled, who may change
  a group's languages, the language menu and the toggle/reset postbacks, the text commands,
  the hand-off of other text to a background translation job, and the acquire/release
  discipline of the translation gate.
- **The in-memory data document** (`data.dfy`, class `Data.DataStore`): defaulting of the six
  persisted keys on load, the set/list conversion of `user_prefs`, and `save_data` replacing
  the global document.
- **Configuration** (`config.dfy`): the language table, the default languages, the gate
  capacity and the `DATABASE_URL` scheme rewrite.

`text.dfy` holds the Python string operations the core relies on (`strip`, `replace`,
`isdigit`, `lower`, `upper`, `split`, `join`, integer formatting) and `wrappers.dfy` an
`Option` type.

How things are represented:

- The network is an oracle. An adapter call receives `responses`, one `Response` per possible
  attempt (a timeout, a connection failure, or a status with a parsed body). The requests an
  adapter sends and the sleeps between them are recorded in a ghost log; sleeps are in tenths
  of a second (`20` after a 429, `3` otherwise).
- The module-level `_data` dictionary is the class `Data.DataStore` with one field holding a
  `Document`. Every store operation takes the store, `modifies` it, and states the new document
  as the old one with one key replaced. `get_data()` hands out the live document, so the webhook
  reads the store directly and sees its own writes.
- The `tenants` dictionary is a sequence of `(user id, record)` entries; overwriting a key keeps
  its position, as a Python dict does. That no user id appears twice is the store's invariant
  `Data.DataStore.Valid()`: the constructor establishes it, loading a file whose tenant keys are
  unique establishes it, and every operation that writes the store keeps it.
- `user_prefs` values are either a list (`PList`) or a set (`PSet`); what a group reads depends
  only on the element set.
- Clock readings are parameters: `now` in integer seconds, dates as integer day numbers, the
  webhook's uptime in whole seconds. Tokens are parameters of `create_tenant`.
- The translation gate is a counter (`Webhook.TranslationGate`). main.py imports
  `translation_semaphore` from the services package, whose `__init__.py` does not define it, so
  its kind is assumed: a counting semaphore created with `MAX_CONCURRENT_TRANSLATIONS` slots, on
  which a non-blocking acquire takes a slot when one is free and a release gives one back. Background jobs are `Spawn` actions of the webhook, run later by
  `Webhook.AsyncTranslateAndReply`.
- The webhook handler is proved against a pure decision function `Webhook.Step` over
  `Webhook.Settings` (each group's language set, the whitelist, the group admins and the
  auto-translate switches), and the event loop against its left fold `Webhook.Run`.

Two consequences of the code that the proofs make explicit:

- Un-selecting a group's last language stores an empty list. The confirmation then says
  `(無)`, but the group keeps translating into `zh-TW`, because an empty entry reads as the
  default (`Webhook.EmptiedSelectionReadsDefault`). Pressing that language again therefore
  gives `{zh-TW, code}`, not the original one-language set (`Webhook.ToggleTwiceFromSingle`).
- `prefer_deepl_first` is accepted by `translate_text` and `_format_translation_results` but
  never read: Google is always consulted first (`Translation.DeepLClient.TranslateText`).

Where the test text and the code disagree, the model follows the code: tests/test_translation.py
line 22 lists `http_429` as a possible failure reason, but both adapters answer
`rate_limited` for a 429 (`Translation.ReasonNamesDistinct` shows the two names denote
different reasons).

## Model

| member | source | states |
|---|---|---|
| Config.MenuCodes | config.py:41-51 | the menu codes are exactly the codes of `LANGUAGE_MAP` |
| Config.LanguageMapShape | config.py:41-51 | `LANGUAGE_MAP` has 9 entries with pairwise distinct codes |
| Config.DefaultLangsOnMenu | config.py:54 | `DEFAULT_TRANSLATE_LANGS` is non-empty and every default code is on the menu |
| Config.CodesHaveNoColon | config.py:41-51 | no language code contains `:`, so `lang:<code>` postback data splits back to the code |
| Config.GateCapacityPositive | config.py:24 | `MAX_CONCURRENT_TRANSLATIONS` is positive (it is 4) |
| Config.RewriteDatabaseUrl | config.py:15-17 | a URL starting with `postgres://` gets `postgresql://` in place of that prefix with the rest kept; any other URL is unchanged; the result never starts with `postgres://` |
| Config.RewriteIdempotent | config.py:16-17 | rewriting twice is rewriting once |
| Data.Elements | utils/data.py:28-31 | a set entry reads as itself, a list entry as the set of its items |
| Data.Put | services/tenant.py:21-31 | assigning a tenant keeps an existing key's position or appends a new key, makes the lookup return the new record, leaves every other lookup unchanged and keeps keys unique |
| Data.KeyIndex | services/tenant.py:40 | the position of a key is the first entry holding it |
| Data.Lookup | services/tenant.py:50-53 | a lookup is absent exactly for users not in the table, and otherwise returns an entry of the table |
| Data.LoadedPrefs | utils/data.py:28-31 | loading keeps every group and turns each stored list into the set of its items |
| Data.Normalise | utils/data.py:26-36 | a loaded document keeps only the six known keys, each defaulting to an empty list or map when missing; the unpersisted `auto_translate` starts empty |
| Data.ListOf | utils/data.py:59 | `list(s)` lists every element of the set exactly once |
| Data.SavedPrefs | utils/data.py:58-61 | saving keeps every group, listing set entries and keeping list entries |
| Data.SaveLoadRoundTrip | utils/data.py:26-66 | loading what was saved gives every group back with the same element set, and the other persisted keys unchanged |
| Data.DataStore.GetData | utils/data.py:45-47 | `get_data()` returns the current global document |
| Data.DataStore.SaveData | utils/data.py:50-66 | a given document becomes the global one (none keeps it), and the written projection has the six keys with set entries listed |
| Data.DataStore.LoadData | utils/data.py:19-42 | a well-formed file replaces the document by its normal form, a malformed one leaves it unchanged, a missing one is written from the current document; the store is valid afterwards when the file's tenant keys are unique, or when it was valid and the file was not loaded |
| Data.DataStore.constructor | utils/data.py:9-16 | the initial document has the six keys, all empty, and the store is valid |
| TenantStore.NewTenant | services/tenant.py:19-31 | a created record has no groups, zero counters and expires 30 days per month after `now` |
| TenantStore.CreateTenant | services/tenant.py:15-33 | `create_tenant` overwrites the user's record with a fresh one, leaves other tenants unchanged and returns the token and expiry |
| TenantStore.PutSame | services/tenant.py:22 | writing back a tenant's own record changes nothing |
| TenantStore.PutPut | services/tenant.py:22 | a second create for the same user replaces the first |
| TenantStore.FirstOwner | services/tenant.py:40-43 | there is no owner exactly when no tenant lists the group; an owner is an entry of the table |
| TenantStore.FirstOwnerAt | services/tenant.py:40-43 | the owner is the first tenant, in insertion order, that lists the group |
| TenantStore.GetTenantByGroup | services/tenant.py:36-43 | the loop returns the first owner in insertion order, or none; with unique tenant keys the owner returned is the record stored under its user id |
| TenantStore.OwnerIsLookedUp | services/tenant.py:40-42 | with unique tenant keys, the first owner of a group is the record `tenants[user_id]` reads under its id |
| TenantStore.IsTenantValid | services/tenant.py:46-61 | valid exactly when the user has a record with an expiry and `now` is strictly before it; never valid for an unknown user |
| TenantStore.ValidAfterCreate | services/tenant.py:15-61 | a created tenant is valid exactly until 30 days per month after its creation |
| TenantStore.AddedGroup | services/tenant.py:71-72 | the group is in the list afterwards, exactly once when it was not there, and a duplicate-free list stays duplicate-free |
| TenantStore.WithGroup | services/tenant.py:64-74 | the table after adding a group: same keys, the user's group list extended as `AddedGroup` says with the rest of the record kept, every other user's record unchanged, user ids still unique |
| TenantStore.WithGroupIdempotent | services/tenant.py:64-74 | adding the same group twice is adding it once |
| TenantStore.AddGroupToTenant | services/tenant.py:64-74 | answers False and changes nothing for an unknown user; otherwise answers True, the group is then listed, other tenants are untouched, and there is no quota check |
| TenantStore.WithUsage | services/tenant.py:77-85 | the table after a usage update: same keys, the user's two counters increased by the deltas with the rest kept, every other user's record unchanged, user ids still unique |
| TenantStore.WithUsageAdds | services/tenant.py:77-85 | two counter updates add up to one with the summed deltas |
| TenantStore.WithUsageZero | services/tenant.py:77-85 | zero deltas change nothing |
| TenantStore.SameOwners | services/tenant.py:40-43 | the owner of a group depends only on the keys and group lists |
| TenantStore.UsageKeepsOwner | services/tenant.py:36-85 | counter updates never change which tenant owns a group |
| TenantStore.UpdateTenantStats | services/tenant.py:77-85 | adds the deltas to the user's counters, a no-op for an unknown user, other tenants untouched |
| GroupStore.LoadGroupLangs | services/group.py:7-18 | none when the group has no entry or an empty one; otherwise the entry's element set |
| GroupStore.GroupLangs | services/group.py:38-44 | the stored set when non-empty, `{"zh-TW"}` otherwise; never empty |
| GroupStore.DefaultsAgree | services/group.py:44 | the fallback equals `DEFAULT_TRANSLATE_LANGS` and is on the menu |
| GroupStore.SaveGroupLangs | services/group.py:21-27 | only the group's entry changes, and it becomes a list of the given languages |
| GroupStore.DeleteGroupLangs | services/group.py:30-35 | removes only the group's entry, which then reads as the default |
| GroupStore.SetGroupLangs | services/group.py:47-49 | a non-empty set reads back as itself, an empty one as the default; other groups untouched |
| GroupStore.StoredLangsReadBack | services/group.py:15-44 | replacing one entry changes what that group reads and no other group |
| GroupStore.GroupStatsForStatus | services/group.py:52-55 | one element per stored group entry, empty entries included |
| EngineStore.Coerce | services/engine.py:20-21 | `google` and `deepl` are kept, anything else becomes `google` |
| EngineStore.EnginePref | services/engine.py:7-15 | the stored engine when it is `google` or `deepl`, `google` otherwise |
| EngineStore.SetEnginePref | services/engine.py:18-26 | stores the coerced engine under the group and changes nothing else |
| EngineStore.SetThenGet | services/engine.py:7-26 | after setting, the group reads the engine if valid, `google` otherwise; other groups unchanged |
| EngineStore.SetIdempotent | services/engine.py:18-26 | coercing is idempotent, so a second set of the same engine stores what the group already reads, and that changes no group's reading |
| Models.Tenant.constructor | models.py:10-36 | a new row has the column defaults |
| Models.Tenant.ExpiredStaysExpired | models.py:45-52 | once expired a tenant stays expired with no days left |
| Models.Tenant.DaysRemaining | models.py:49-52 | the floor of the remaining time in whole days, clamped at 0, and 0 once expired |
| Models.Tenant.DaysRemainingNonIncreasing | models.py:49-52 | time passing never adds days |
| Models.Tenant.GetStatus | models.py:54-61 | suspended wins over expired; active exactly when neither holds |
| Models.Tenant.IsExpired | models.py:45-47 | expired exactly when the remaining time's whole-day count (`delta.days`) is negative, that is when `now` is past the expiry |
| Models.Tenant.CanAddGroup | models.py:63-65 | when it answers True one more group fits the quota; when it answers False for a tenant within its quota, the quota is used up |
| Models.Tenant.CanAddGroupAdmits | models.py:63-65 | a caller that checks `can_add_group()` first takes an offered group exactly when the answer is True |
| Models.AdmittedWithinQuota | models.py:63-65 | adding groups one at a time, each only after `can_add_group()` allows it, keeps a tenant within its quota: the offered groups are taken in order until the quota is full and the rest are turned away |
| Models.Tenant.ResetDailyStats | models.py:67-73 | on a new day zeroes the day's count, records the day and answers True; on the same day changes nothing and answers False |
| Models.ResetTwiceSameDay | models.py:67-73 | a second reset on the same day changes nothing and answers False |
| Models.Tenant.ShouldRemind7Days | models.py:85-87 | never due once a reminder was sent; always due for an expired tenant that has not been reminded |
| Models.Tenant.ShouldRemind7DaysWhen | models.py:85-87 | the reminder is due exactly when fewer than eight full days remain and none was sent |
| Translation.ReasonNamesDistinct | services/translation.py:87-228 | distinct failure reasons have distinct reason strings |
| Translation.HttpPrefix | services/translation.py:121-125 | a reason string starts with `http_` exactly for other HTTP statuses |
| Translation.Backoff | services/translation.py:99-127 | the wait before a retry is 2 s after a 429 and 0.3 s otherwise |
| Translation.GoogleAnswer | services/translation.py:191-226 | a Google attempt yields text exactly on success, and the text is non-empty |
| Translation.GoogleSpec | services/translation.py:157-228 | the answer of the two Google attempts carries text exactly on success, the text is non-empty, and the reason is never `unknown_error` |
| Translation.TranslateWithGoogle | services/translation.py:157-228 | the loop answers as `GoogleSpec` (the final attempt's reason), text exactly on success, never `unknown_error`; it sends at most two requests and sleeps only between them |
| Translation.Upper | services/translation.py:78 | ASCII upper-casing, position by position |
| Translation.DeepLTarget | services/translation.py:59-78 | the target is the mapped DeepL code, or the code upper-cased |
| Translation.DeepLAnswer | services/translation.py:113-152 | a DeepL attempt yields text exactly on success, and the text is non-empty |
| Translation.DeepLClient.constructor | services/translation.py:18 | the supported set starts empty |
| Translation.DeepLClient.LoadSupportedLanguages | services/translation.py:21-49 | no key: unchanged; HTTP 200: the upper-cased returned codes; anything else: the fixed 14-code fallback |
| Translation.DeepLSpec | services/translation.py:52-154 | without a key the answer is `no_api_key` and for a target outside a non-empty supported set `unsupported_language`; text exactly on success, non-empty, never `unknown_error` |
| Translation.DeepLClient.TranslateWithDeepL | services/translation.py:52-154 | answers as `DeepLSpec`: `no_api_key` without a key and `unsupported_language` for a target outside a non-empty supported set, both with no request; otherwise the same retry discipline as Google |
| Translation.FallbackCoverage | services/translation.py:45-83 | with the fallback set, Thai, Vietnamese, Indonesian and Burmese are unsupported and are never sent, while zh-TW, en, ja, ru and ko are sent |
| Translation.DigitStringByMembers | services/translation.py:240 | `isdigit` holds exactly for a non-empty all-digit string |
| Translation.UntranslatableIff | services/translation.py:240-241 | text is kept as it is exactly when it is empty, or its stripped form has a digit and only digits, spaces, `.` and `,` |
| Translation.NumbersKept | services/translation.py:240-241 | numeric text is returned unchanged and no provider is consulted |
| Translation.WordsSent | services/translation.py:240-241 | text with any other visible character goes to the providers |
| Translation.Dispatch | services/translation.py:239-272 | the text is kept exactly when it is untranslatable; a translation is never empty and is the text of the provider it names; DeepL's is used only when Google had none, and when Google had none and DeepL has a non-empty text that text is the answer; a failure carries both providers' reasons |
| Translation.GoogleFirst | services/translation.py:244-264 | a Google success is the answer; otherwise Google then DeepL are consulted, in that order |
| Translation.BothFailFallback | services/translation.py:266-272 | when both providers fail the answer is exactly the fixed failure text |
| Translation.Payer | services/translation.py:248-251 | the billed user is present only for a group id with an owner, and is a tenant key |
| Translation.Billed | services/translation.py:248-251 | billing keeps the tenants table free of repeated user ids |
| Translation.BilledZero | services/translation.py:246-263 | no successes bill nothing |
| Translation.BilledAdds | services/translation.py:246-263 | bills accumulate additively |
| Translation.BillingKeepsPayer | services/translation.py:248-251 | billing never changes who pays for the group |
| Translation.BillStep | services/translation.py:278-280 | one more language adds one translation and the text length to the bill exactly when it succeeded |
| Translation.ChargeGroup | services/translation.py:248-251 | charges the group's first owner one translation and the text length, and nothing when there is no owner |
| Translation.DeepLClient.TranslateText | services/translation.py:231-272 | answers the dispatch outcome; Google is consulted first and DeepL only after Google failed; the tenant is billed once with `len(text)` only on success |
| Translation.ResultLines | services/translation.py:275-281 | one line per language, in list order, each `[lang] result` |
| Translation.OneLinePerLanguage | services/translation.py:277-281 | splitting the joined result at newlines gives back one line per language when no result holds a newline |
| Translation.TranslatedCount | services/translation.py:278-279 | at most one success per language |
| Translation.CharsPerTranslation | services/translation.py:278-279 | the characters billed are the successes times the text length |
| Translation.DeepLClient.FormatTranslationResults | services/translation.py:275-281 | the newline-joined result lines, and the tenant billed once per successful language |
| Webhook.GroupKey | main.py:311 | the key is usable exactly when the event has a group id or a user id, and it is the group id when there is one |
| Webhook.Skipped | main.py:310-315 | a handled event has a user id and a usable key, and every event with a user id is handled |
| Webhook.SkippedIffNoUser | main.py:310-315 | an event is skipped exactly when it has no user id; the key is the group id, or the user id in a one-to-one chat |
| Webhook.IsGroupAdmin | main.py:152-155 | holds exactly when the group's recorded admin is the user |
| Webhook.MenuButtons | main.py:233-255 | one button per `LANGUAGE_MAP` entry in table order with data `lang:<code>`, marked `✅` exactly when selected, then the reset button |
| Webhook.LanguageSelectionMessage | main.py:228-280 | the loop builds the menu for the group's current languages |
| Webhook.PostbackCode | main.py:348 | the code read from `lang:` data holds no colon |
| Webhook.MenuButtonCode | main.py:347-348 | the code read back from a menu button's data is that button's language |
| Webhook.Toggle | main.py:349-353 | the pressed code flips and every other code stays |
| Webhook.ToggleInvolution | main.py:349-353 | flipping the same code twice gives the set back |
| Webhook.SelectedLines | main.py:356 | at most one line per table entry, none exactly when no table code is selected |
| Webhook.Summary | main.py:356 | the confirmation body is never empty, and it is `(無)` when no table language is selected |
| Webhook.SummaryNoneIff | main.py:356 | the confirmation lists `(無)` exactly when no table language is selected |
| Webhook.SettingsOf | services/group.py:15-17 | the settings hold each stored entry as its element set, for exactly the stored groups |
| Webhook.LangsOf | services/group.py:38-44 | a group's languages on the settings are never empty |
| Webhook.LangsOfAgrees | services/group.py:38-44 | reading the settings agrees with `get_group_langs` on the document |
| Webhook.StoredEntrySettings | services/group.py:26 | storing one entry changes only that group's set |
| Webhook.Privileged | main.py:337 | masters, whitelisted users and the group's recorded admin are privileged, and nobody else |
| Webhook.AutoTranslateOn | main.py:388 | a group without a switch translates; a group with one follows it |
| Webhook.StatusText | main.py:371-375 | the status shows the whole hours and the remaining whole minutes (below 60) of the uptime, then the number of stored groups |
| Webhook.Step | main.py:309-397 | an event never changes the whitelist, admins or auto-translate switches; a skipped event does nothing; only a postback changes languages, and only its own group's |
| Webhook.UnprivilegedPostbackRefused | main.py:337-341 | a postback from a user who is not a master, whitelisted, or the group admin is refused and changes nothing |
| Webhook.ResetStoresDefault | main.py:343-346 | `reset` stores the default so the group reads `{"zh-TW"}` and confirms |
| Webhook.ToggleStoresFlipped | main.py:347-357 | `lang:<code>` stores the set with that code flipped and others kept, and confirms with the new selection |
| Webhook.ToggleTwiceRestores | main.py:349-354 | pressing a language twice restores the set when the first press left some language selected |
| Webhook.ToggleTwiceFromSingle | main.py:349-354 | pressing the only selected language twice gives `{zh-TW, code}` unless the code is `zh-TW` |
| Webhook.EmptiedSelectionReadsDefault | main.py:349-357 | un-selecting the last language confirms `(無)` while the group reads `{"zh-TW"}` |
| Webhook.CommandsAnswered | main.py:366-381 | `/狀態`, `/選單`, `/menu` in any case and with surrounding blanks are answered, never translated, and change nothing |
| Webhook.AdminCommandForMasters | main.py:383-385 | `/指令` from a master opens the management menu |
| Webhook.OtherTextTranslated | main.py:383-397 | any other text, `/指令` from a non-master included, becomes a translation job of the stripped text into the group's languages when auto-translate is on, which is the default |
| Webhook.Run | main.py:309-397 | one action per event |
| Webhook.RunActions | main.py:309 | each event's action is decided on the settings left by the events before it |
| Webhook.RunKeepsAccess | main.py:309-397 | a webhook call never changes the whitelist, admins or auto-translate switches |
| Webhook.UnprivilegedRunKeepsLangs | main.py:335-341 | events from users without privilege never change any group's languages |
| Webhook.HandleEvent | main.py:309-397 | one loop iteration does what `Step` says and writes only `user_prefs` |
| Webhook.HandleEvents | main.py:306-397 | the event loop does what `Run` says, with every reply delivered and every event well-formed |
| Webhook.HandleWebhook | main.py:287-399 | a bad signature (when a secret is set) answers 400 and a non-JSON body answers 400, both changing nothing; otherwise the events are handled and, with every reply delivered and every event well-formed, the answer is `OK` |
| Webhook.TranslationGate.constructor | config.py:24 | the gate starts with all slots free |
| Webhook.TranslationGate.TryAcquire | main.py:160 | takes a slot exactly when one is free, and says so |
| Webhook.TranslationGate.Release | main.py:178 | gives one slot back |
| Webhook.AsyncTranslateAndReply | main.py:158-178 | on a gate of `MAX_CONCURRENT_TRANSLATIONS` slots: without a free slot: replies busy, releases nothing, changes nothing; with one: replies the formatted results, bills as the formatter does, and releases exactly once, leaving the gate as it found it |

## Left out

- HTTP, JSON decoding of provider replies and `time.sleep`: replaced by the response oracle and the ghost log of requests and sleeps.
- The HMAC-SHA256 signature computation, base64 and JSON parsing of the webhook body: the expected signature and the parsed event list are parameters of `Webhook.HandleWebhook`.
- Flask routes, the LINE SDK `reply` conversion (main.py:126-149) and sending itself: replies are returned as values (`Webhook.Action`, `Webhook.Outgoing`).
- Webhook.HandleWebhook / Webhook.HandleEvents: the model assumes that every reply is delivered and every event is well-formed. In the source, `reply()` has no `try` around `reply_message`, which raises on an expired or used reply token, and `event['postback']['data']`, `event['message']['type']`, `event['message']['text']` and `event['replyToken']` raise on a missing field; either exception ends the loop, the later events of the batch are not handled, Flask answers HTTP 500 instead of `OK`, and the language changes of the events before (and of the failing postback itself, saved before its reply) stay written.
- The layout of the flex messages (headers, sizes, alt texts) and the management menu `create_command_menu`: modelled as the `CommandMenu` message; the language menu is modelled by its buttons.
- Threads and real concurrency: a spawned job is a `Spawn` action run later by `Webhook.AsyncTranslateAndReply`; the gate is a counter and jobs are not interleaved.
- Webhook.AsyncTranslateAndReply: exceptions raised by the reply call are swallowed by the source; the model has no exceptions, so the returned `Outgoing` is the reply attempted, and the one release happens on every path.
- Webhook.HandleWebhook: the uptime is one whole-second value per request, where the source reads the clock at each `/狀態`; for non-negative seconds the hour and minute figures are the same as the source's float arithmetic.
- `touch_group_activity` and `check_inactive_groups` (services/activity.py) are empty and not part of this model.
- Where a stored language entry is a set, `get_group_langs` hands out that very set and the toggle mutates it before saving; the model builds a new set, which gives the same saved state.
- The order of `list(set)` in Python is not modelled: `Data.ListOf` and the job's `order` are any duplicate-free listing of the set.
- Wall clock, ISO-8601 parsing and token generation: `now`, days and tokens are parameters; an unparseable expiry is an absent one.
- Python's Unicode `isdigit`, `isspace`, `lower` and `upper`: modelled on ASCII digits, Python's whitespace set and ASCII letters.
- `user_prefs` values that are neither lists nor sets: the bot never writes them.
- Tenant records stored without `groups` or `stats` (`Data.TenantRecord`): the model reads them as an empty group list and zero counters. Every reader in the source treats the two forms the same. But the source keeps such a record as it was loaded, so `save_data` writes it back without those keys, while the model writes `"groups": []` and zero counters.
- Data.DataStore.LoadData: a data file whose `tenants` object repeats a user id is taken as given; `json.load` would keep the last value, and the model promises `Valid()` only when the file's tenant keys are unique.
- File reads and writes of `data.json` (utils/data.py:22-23,67-69): a `DataFile` parameter and the returned projection stand for them.
- SQLAlchemy: the ORM columns and relationships of models.py, `db.create_all`, and the database branches of main.py.
- models.py is damaged after line 73 and `should_remind_1day` has no body: only the methods at lines 45-73 and 85-87 are modelled.
- Per-provider counters, daily reset inside `update_tenant_stats`, reminders being sent, ownership transfer and first-claim admin do not exist in the code and are not modelled.
- utils/master_users.py (master list file), utils/monitoring.py (process statistics), handlers/events.py (no effect), the package re-exports and process supervision (`keep_alive`, restarts) are not part of this model.
- Logging with `print` is not modelled.

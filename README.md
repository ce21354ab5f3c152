# Luna license manager: a verified model

This project models the core of the Luna / Supercluster WordPress
installation in Dafny. It covers:

- **the license registry.** This is the `vl_licenses_registry` option. Every
  read and every write cleans it: legacy `lic_` keys are dropped, each
  record's `key` is its map key, and the contact e-mail is sanitised. The
  model also has key generation in the `VL-XXXX-XXXX-XXXX` format, lookup,
  redaction, the dashboard segment and the daily creation of the built-in
  licenses.
- **reading a license key out of a request or a URL.** A `license` argument
  comes first, then `lic`, then the two console and constellation path
  patterns. The dashboard URL is built from a key, and a generated key comes
  back out of it unchanged.
- **client users.** This covers finding the user bound to a license, and
  `ensure_client_user`, which updates the user with the client's e-mail or
  creates a client with the first free login.
- **the per-request guards.** These are the silent console sign-on, console
  protection, `filter_login_redirect`, and the two bounces that send a
  signed-in client from the login screens to its dashboard.
- **the REST endpoints** that client sites call: activation, heartbeat and
  cloud-connection completion.
- **the per-license data streams**, with the category endpoint table and the
  security health score.
- **two browser scripts.** The first is the Luna chat page
  (`luna-chat.js`): escaping, answer formatting, the response route, the
  queued prompt and submission. The second is the account-aware composer
  hub (`luna-composer-hub.js`): account normalisation, the shared account,
  the account summary, the submit rule, sending, and the suggested-prompt
  buttons.

Each file is one module:

| file | module |
|---|---|
| `common.dfy` | `Common`: `Option`, PHP `empty` and truthiness, JavaScript values |
| `text.dfy` | `Text`: ASCII case, case-insensitive search, trimming, joins |
| `host.dfy` | `WordPress`: the sanitisers the plugin calls, passed as function values |
| `keys.dfy` | `LicenseKeys` |
| `registry.dfy` | `Registry`, with the class `LicenseRegistry` over the option |
| `urls.dfy` | `Urls` |
| `users.dfy` | `Users`, with the class `UserDirectory` |
| `guards.dfy` | `Guards`, with the class `Site` holding one request |
| `rest.dfy` | `Rest` |
| `streams.dfy` | `Streams`, with the class `StreamStore` over the `vl_data_streams` option |
| `health.dfy` | `Health` |
| `html.dfy` | `Html` |
| `luna_chat.dfy` | `LunaChat`, with the class `ChatPage` |
| `composer_hub.dfy` | `ComposerHub`, with the classes `Composer` and `PromptButton` |

The PHP code changes state step by step, so the story is told by classes and
methods:

- the registry,
- the user directory,
- the request state of the guards,
- the stream store,
- the chat page and the composers.

Each such method is proved against a reference function of the old state,
and lemmas about those functions prove the promised properties.

WordPress itself is outside the model: the sanitisers, `is_email`, user
queries, cookies and page tests. The clocks and `random_int` are outside it
too. They enter as parameters, as function values in `WordPress.Host`, or as
state fields.

In three places the code does something other than what its own comments or
its evident design say. The model follows the code.

- The chat page's `sendPrompt` takes `data.answer` whenever it is a string,
  even an empty one, and only then falls back to `data.message`. An empty
  string answer therefore shows the failure message, even when `message`
  holds text. `LunaChat.AnswerBeforeMessage` states this.
- `add_data_stream`, `update_stream_health` and `assign_stream_categories`
  are documented (`@return bool Success status`) as returning whether the
  write happened. In the code they
  return nothing after a write (see "## Findings").
- `filter_login_redirect` tries to store the key of a requested console URL
  when no key has settled (lines 1061-1068). By then that same key was
  already read from the same URL at lines 1039-1045 and rejected, so the
  branch can never store anything. `Guards.ConsoleClaimNeverStores` states
  this, and `Guards.Site.FilterLoginRedirect` shows that the user ends as
  `Guards.SettledUser` says.

## Model

Paths in the source column are relative to the repository root.

| member | source | states |
|---|---|---|
| Registry.CleanRecord | wp-content/plugins/luna-license-manager/luna-license-manager.php:163-204 | the cleaned record's `key` is the key it is stored under; it has exactly the stored fields plus `key`; every field other than `key` and `contact_email` keeps its value; a string e-mail is sanitised |
| Registry.CleanStore | wp-content/plugins/luna-license-manager/luna-license-manager.php:163-204 | a key survives cleaning exactly when it was stored and is not legacy; every kept record is keyed by its own key |
| Registry.DirtyIffChanged | wp-content/plugins/luna-license-manager/luna-license-manager.php:163-204 | the read path writes the option back exactly when cleaning changes the stored option |
| Registry.CleanOfClean | wp-content/plugins/luna-license-manager/luna-license-manager.php:163-204 | cleaning a clean store returns it unchanged and causes no write |
| Registry.CleanStoreIsClean | wp-content/plugins/luna-license-manager/luna-license-manager.php:163-204 | with an idempotent `sanitize_email`, the result of cleaning is clean |
| Registry.CleanIdempotent | wp-content/plugins/luna-license-manager/luna-license-manager.php:163-204 | cleaning twice equals cleaning once, and a second read does not write |
| Registry.Normalise | wp-content/plugins/luna-license-manager/luna-license-manager.php:172-197 | the `foreach` builds exactly the cleaned store, and its update flag is exactly "cleaning changed something" |
| Registry.LicenseRegistry.Get | wp-content/plugins/luna-license-manager/luna-license-manager.php:163-204 | returns the cleaned store; writes it back only when it was dirty; the returned store is clean |
| Registry.LicenseRegistry.Set | wp-content/plugins/luna-license-manager/luna-license-manager.php:206-234 | always writes, and what it writes is the cleaned form of its argument |
| Registry.FindByKeyField | wp-content/plugins/luna-license-manager/luna-license-manager.php:1375-1380 | the scan returns a record whose `key` field is the license, and returns nothing exactly when no record has it |
| Registry.FindInClean | wp-content/plugins/luna-license-manager/luna-license-manager.php:1375-1380 | in a cleaned store, the only record whose `key` field is a license is the one stored under that license |
| LicenseKeys.Chunk | wp-content/plugins/luna-license-manager/luna-license-manager.php:245-247 | four draws give the four alphabet symbols they select |
| LicenseKeys.SymbolsInAlphabet | wp-content/plugins/luna-license-manager/luna-license-manager.php:245-249 | every drawn symbol is one of `ABCDEFGHJKLMNPQRSTUVWXYZ23456789` |
| LicenseKeys.GenerateKey | wp-content/plugins/luna-license-manager/luna-license-manager.php:245-249 | the key is `VL-` and three dash-separated groups of four drawn symbols; it is in the canonical 17-character format and is not legacy |
| LicenseKeys.CanonicalIsNotLegacy | wp-content/plugins/luna-license-manager/luna-license-manager.php:301-307 | no key in the generated format starts with `lic_` in any case |
| LicenseKeys.Redact | wp-content/plugins/luna-license-manager/luna-license-manager.php:309-315 | the redacted form is empty exactly when the key is empty |
| LicenseKeys.RedactHidesMiddle | wp-content/plugins/luna-license-manager/luna-license-manager.php:309-315 | two generated keys that agree on the first eight and the last four characters redact alike, to 15 characters |
| LicenseKeys.DashOthers | wp-content/plugins/luna-license-manager/luna-license-manager.php:317-321 | every character outside `[A-Za-z0-9-]` becomes `-`, and every other character is kept |
| LicenseKeys.SegmentShape | wp-content/plugins/luna-license-manager/luna-license-manager.php:317-321 | a dashboard segment is made of `[a-z0-9-]` and neither starts nor ends with `-` |
| LicenseKeys.SegmentOfCanonical | wp-content/plugins/luna-license-manager/luna-license-manager.php:317-321 | the segment of a generated key is that key in lower case |
| LicenseKeys.SegmentIdempotent | wp-content/plugins/luna-license-manager/luna-license-manager.php:317-321 | taking the segment of a segment changes nothing |
| Registry.NewRecord | wp-content/plugins/luna-license-manager/luna-license-manager.php:259-267 | the new record carries its key, the e-mail it is given, and status `active` or `inactive` as asked |
| Registry.LicenseRegistry.CreateWithKey | wp-content/plugins/luna-license-manager/luna-license-manager.php:251-274 | a non-legacy key is kept and a legacy one is replaced by a generated key; the record is stored under its key with the sanitised e-mail; nothing else changes |
| Registry.LicenseRegistry.Create | wp-content/plugins/luna-license-manager/luna-license-manager.php:276-279 | stores a record under a fresh generated key with status `inactive` |
| Registry.LicenseRegistry.LookupByKey | wp-content/plugins/luna-license-manager/luna-license-manager.php:281-299 | a legacy key finds nothing and does not read the option; any other key finds the record stored under it, if any |
| Registry.AddDefaultsDomain | wp-content/plugins/luna-license-manager/luna-license-manager.php:1792-1802 | after the loop, the store holds exactly the old keys and the built-in keys |
| Registry.AddDefaultsKeeps | wp-content/plugins/luna-license-manager/luna-license-manager.php:1793-1794 | a license already present is never overwritten |
| Registry.AddDefaultsAdded | wp-content/plugins/luna-license-manager/luna-license-manager.php:1795-1798 | an added license is keyed by itself, active, created now and never seen |
| Registry.DefaultsNotLegacy | wp-content/plugins/luna-license-manager/luna-license-manager.php:1765-1790 | none of the four built-in keys is a legacy key, so cleaning keeps them |
| Registry.MissingLicensesStored | wp-content/plugins/luna-license-manager/luna-license-manager.php:1764-1806 | after the write, every old record is as it was and every built-in license is present |
| Registry.LicenseRegistry.MaybeCreateMissingLicenses | wp-content/plugins/luna-license-manager/luna-license-manager.php:1755-1807 | within 86400 seconds of the last check nothing changes; otherwise the check time is updated and the built-in licenses that are missing are added |
| Urls.ParseUrl | wp-content/plugins/luna-license-manager/luna-license-manager.php:394-396 | a query is reported exactly when `?` occurs before any `#`; a reported path is non-empty and holds no `?` or `#` |
| Urls.UrlDecodePlain | wp-content/plugins/luna-license-manager/luna-license-manager.php:397 | `urldecode` leaves a string without `%` or `+` unchanged |
| Urls.LastValue | wp-content/plugins/luna-license-manager/luna-license-manager.php:397-404 | `parse_str` keeps the last value given for a name, and nothing when the name never occurs |
| Urls.TokenAtSpec | wp-content/plugins/luna-license-manager/luna-license-manager.php:370-382 | the matcher for `([^/?#&]+)` returns exactly the longest non-empty run of token characters at its position |
| Urls.SegmentMatchSpec | wp-content/plugins/luna-license-manager/luna-license-manager.php:370-382 | the optional `(?:[^/?#]+/)` branch captures `t` exactly when a non-empty run of segment characters ends in `/`, the parameter name follows in any case, and `t` is the maximal token after it |
| Urls.AfterHeadSpec | wp-content/plugins/luna-license-manager/luna-license-manager.php:370-382 | after a head, the segment branch is taken whenever it matches, and otherwise the parameter must follow the head directly, as a greedy `?` backtracks |
| Urls.MatchAtSpec | wp-content/plugins/luna-license-manager/luna-license-manager.php:370-382 | at one position, the capture is that of the first alternative head that matches there, so `console` is tried before `dashboard` |
| Urls.SearchIsLeftmost | wp-content/plugins/luna-license-manager/luna-license-manager.php:370-382 | the matcher returns `t` exactly when the pattern captures `t` at the leftmost position where it matches, and returns nothing exactly when it matches nowhere |
| Urls.PregMatch | wp-content/plugins/luna-license-manager/luna-license-manager.php:370-382 | `preg_match` succeeds exactly when the pattern matches somewhere, and its group is the leftmost capture |
| Urls.CaptureFollowsParam | wp-content/plugins/luna-license-manager/luna-license-manager.php:370-382 | whatever a pattern captures is a non-empty token without `/ ? # &` that directly follows an occurrence, in any case, of the parameter name |
| Urls.CapturesUnique | wp-content/plugins/luna-license-manager/luna-license-manager.php:370-382 | the leftmost capture of a pattern is unique |
| Urls.RequestLicense | wp-content/plugins/luna-license-manager/luna-license-manager.php:341-387 | the source is `license` exactly when that argument survives sanitising non-empty, else `lic` in the same way; else it is the path exactly when the console or the constellation pattern matches the request URI, and the key is the console pattern's leftmost capture when that matches, else the constellation pattern's; otherwise there is no source and the license is empty |
| Urls.LicenseFromUrl | wp-content/plugins/luna-license-manager/luna-license-manager.php:389-419 | an empty URL gives `''`; otherwise the query's `license` wins, then its `lic`; then the leftmost capture of `~/lic=...~i` in the path when it matches, else that of `~/license=...~i`; with no path or no match the result is `''` |
| Urls.ConsolePathTest | wp-content/plugins/luna-license-manager/luna-license-manager.php:37-72 | the console-path test is a case-insensitive search of the path for `ai-constellation-dashboard` or `ai-constellation-console` |
| Urls.MentionsTwo | wp-content/plugins/luna-license-manager/luna-license-manager.php:63-69 | trimming slashes from the path and from each base does not change what the search finds |
| Urls.DashboardUrl | wp-content/plugins/luna-license-manager/luna-license-manager.php:323-334 | without a key the URL is the bare base; with one it is what `add_query_arg` makes of `license=<key>` on the base, clean-up included |
| Urls.CleanLink | wp-content/plugins/luna-license-manager/luna-license-manager.php:329-333 | a key that is not empty, has no `=` or `?` and does not start with `&` or a newline is appended unchanged as `?license=<key>` |
| Urls.LinkTrimsQuestion | wp-content/plugins/luna-license-manager/luna-license-manager.php:329-333 | a trailing `?` on such a key is trimmed away: `abc?` links as `abc` |
| Urls.LinkDropsFinalEquals | wp-content/plugins/luna-license-manager/luna-license-manager.php:329-333 | a trailing `=` on such a key is dropped: `abc=` links as `abc` |
| Urls.LinkDropsEqualsBeforeAmp | wp-content/plugins/luna-license-manager/luna-license-manager.php:329-333 | an `=` right before an `&` is dropped: `a=&b` links as `a&b` |
| Urls.DashboardRoundTrip | wp-content/plugins/luna-license-manager/luna-license-manager.php:323-334 | reading a generated key back out of its dashboard URL gives that key |
| Urls.QueryOfKey | wp-content/plugins/luna-license-manager/luna-license-manager.php:396-399 | `parse_str('license=KEY')` gives back a key that needs no decoding |
| Users.FindUserByLicense | wp-content/plugins/luna-license-manager/luna-license-manager.php:456-488 | an empty key finds nobody; a result owns the key under either meta field and is the first user that does; no result means no user owns it |
| Users.FindAfterAppend | wp-content/plugins/luna-license-manager/luna-license-manager.php:456-488 | in the directory's order, where a created user comes last, adding a user never changes who is found for a key that already had an owner |
| Users.UsernameBase | wp-content/plugins/luna-license-manager/luna-license-manager.php:550-566 | the base login is never empty, and is the sanitised, space-free, lower-case client name whenever that is usable |
| Users.CandidatesDistinct | wp-content/plugins/luna-license-manager/luna-license-manager.php:568-573 | the logins tried (`base`, `base1`, `base2`, ...) are pairwise different |
| Users.UserDirectory.FreshUsername | wp-content/plugins/luna-license-manager/luna-license-manager.php:568-573 | the login chosen is free, and every candidate before it is taken |
| Users.NewClient | wp-content/plugins/luna-license-manager/luna-license-manager.php:585-611 | a created user has only the client role, owns the key under both meta fields, uses the key as activation key and has the client name as display and first name |
| Users.Updated | wp-content/plugins/luna-license-manager/luna-license-manager.php:517-542 | an existing user gains the client role and the key under both meta fields; the site and name are set only when given; id, login, e-mail and password stay |
| Users.UserDirectory.EnsureClientUser | wp-content/plugins/luna-license-manager/luna-license-manager.php:501-617 | an empty or invalid sanitised e-mail gives `invalid_email` and changes nothing; otherwise the first user with that e-mail is returned as not created and is the only user changed, as `Updated` says; otherwise a failing `wp_create_user` returns its error and changes nothing; otherwise exactly one client is appended, with the next id, the first free login, the key under both metas and the given password, or the generated one when it is blank, and is returned as created |
| Guards.SignOnConditions | wp-content/plugins/luna-license-manager/luna-license-manager.php:1113-1124 | sign-on targets user `i` exactly when the license is non-empty and not legacy, its record exists with status unset, null or `active`, and the first user bound to it is `i` and is a client |
| Guards.Site.MaybeBootstrapConsoleSession | wp-content/plugins/luna-license-manager/luna-license-manager.php:1101-1134 | for admins, signed-in viewers and non-console requests, nothing happens; otherwise the sign-on target is signed in once, with `$_GET['license']` set when the key came from elsewhere; on any failure nothing changes |
| Guards.Site.ProtectConsole | wp-content/plugins/luna-license-manager/luna-license-manager.php:1139-1178 | off the console, nothing happens; without a usable license, redirects to the public site; otherwise copies the key into `$_GET['license']`; a signed-in viewer passes, the sign-on target is signed in once, and any other visitor is sent to `/supercluster-login/`; the signed-in user changes only when the sign-on target is signed in |
| Guards.StoredKey | wp-content/plugins/luna-license-manager/luna-license-manager.php:1014-1017 | the stored key is `vl_license_key` when set, else `license_key` |
| Guards.DiscoveredKey | wp-content/plugins/luna-license-manager/luna-license-manager.php:1031-1054 | the settled key is `''` or a non-empty non-legacy key, and is the stored key whenever that is usable |
| Guards.SettledUser | wp-content/plugins/luna-license-manager/luna-license-manager.php:1031-1054 | a usable stored key leaves the user unchanged; otherwise a legacy stored key loses both license metas, a discovered key is written to `vl_license_key`, and with none discovered `vl_license_key` is gone after a legacy drop and unchanged otherwise; no other field or meta entry changes in either direction |
| Guards.SettledHasNoLegacyKey | wp-content/plugins/luna-license-manager/luna-license-manager.php:1031-1054 | after a legacy stored key is settled, neither license meta holds a legacy key |
| Guards.ConsoleClaimNeverStores | wp-content/plugins/luna-license-manager/luna-license-manager.php:1061-1068 | when no key has settled, the key of the requested URL has already been rejected, so the console branch's claim cannot store anything |
| Guards.ClientLanding | wp-content/plugins/luna-license-manager/luna-license-manager.php:1076-1086 | with no console URL requested, a client lands on the dashboard for a non-legacy key or on the bare public site |
| Guards.Site.FilterLoginRedirect | wp-content/plugins/luna-license-manager/luna-license-manager.php:1006-1087 | no user returns the default unchanged; a stored key grants the client role; a user who is still not a client gets the requested URL or the default and nothing changes; otherwise that user alone becomes `SettledUser` of the user with the role, and the URL is a requested console URL as given, else the landing for the settled key |
| Guards.Site.RedirectAuthenticatedClients | wp-content/plugins/luna-license-manager/luna-license-manager.php:1183-1207 | only a signed-in client on the login page is redirected: to the dashboard when its `vl_license_key` has a record, else to the console page; a legacy key loses both license metas on that user alone, and otherwise no user changes |
| Guards.Site.MaybeRedirectLoggedInClientFromWpLogin | wp-content/plugins/luna-license-manager/luna-license-manager.php:1212-1239 | the account actions and non-clients pass with nothing changed; a signed-in client goes to the dashboard when its key has a record, else to the public site; a legacy key loses both license metas on that user alone, and otherwise no user changes |
| WordPress.SanitizeKey | wp-content/plugins/luna-license-manager/luna-license-manager.php:1213 | the sanitised action holds only `[a-z0-9_-]` |
| Guards.BounceNeverLegacy | wp-content/plugins/luna-license-manager/luna-license-manager.php:1190-1196 | the URL a bounce redirects to never carries a legacy key |
| Rest.StampedFields | wp-content/plugins/luna-license-manager/luna-license-manager.php:1436-1437 | a heartbeat makes the record active and seen now, and touches no other field |
| Rest.ActivatedFields | wp-content/plugins/luna-license-manager/luna-license-manager.php:1391-1396 | an activation sets status, last seen, site, site name and both versions, and keeps every other field |
| Rest.StampKeepsClean | wp-content/plugins/luna-license-manager/luna-license-manager.php:1391-1398 | a write that keeps `key` and `contact_email` keeps the registry clean |
| Rest.FindLicense | wp-content/plugins/luna-license-manager/luna-license-manager.php:1372-1380 | the scan finds the license exactly when the registry holds a record under it |
| Rest.ActivateLicense | wp-content/plugins/luna-license-manager/luna-license-manager.php:1356-1401 | a missing license or site gives 400 `missing_params` with no write; an unknown key gives 404 `license_not_found` with the records unchanged; otherwise only the matched record changes, as activation stamps it |
| Rest.LicenseHeartbeat | wp-content/plugins/luna-license-manager/luna-license-manager.php:1406-1441 | a missing license gives 400 `missing_license`; an unknown key gives 404; otherwise only the matched record changes, becoming active and seen now |
| Streams.Find | wp-content/plugins/luna-license-manager/luna-license-manager.php:2221 | the position found holds the key and is its first occurrence; nothing is found exactly when no entry has the key |
| Streams.PutLookup | wp-content/plugins/luna-license-manager/luna-license-manager.php:2205 | writing an array slot sets that key, leaves every other key's value alone and keeps keys unique |
| Streams.ArrayKey | wp-content/plugins/luna-license-manager/luna-license-manager.php:2205 | a stream id that is a canonical decimal integer in PHP's 64-bit range, negative ones included, is an integer key; any other id stays a string key |
| Streams.ArrayKeyExamples | wp-content/plugins/luna-license-manager/luna-license-manager.php:2205 | `"-5"` and `"12"` become integer keys; `"-0"` and `"05"` stay strings |
| Streams.PushIsPut | wp-content/plugins/luna-license-manager/luna-license-manager.php:1998 | `$a[] = $v` writes under a key not yet in use |
| Streams.WithDefaultsRequired | wp-content/plugins/luna-license-manager/luna-license-manager.php:2182-2186 | a stored stream always carries its id, its license and both timestamps |
| Streams.WithDefaultsDefaults | wp-content/plugins/luna-license-manager/luna-license-manager.php:2188-2203 | status, health score, categories and the counts are the caller's, or their defaults |
| Streams.WithDefaultsKeeps | wp-content/plugins/luna-license-manager/luna-license-manager.php:2182-2205 | no other field is added, and every other field of the caller's is kept |
| Streams.StreamStore.AddDataStream | wp-content/plugins/luna-license-manager/luna-license-manager.php:2170-2208 | without a license, a stream id or data, nothing is written and the result is false; otherwise the defaulted stream is stored under its id, the result is true and no other license changes |
| Streams.CopyMetrics | wp-content/plugins/luna-license-manager/luna-license-manager.php:2226-2232 | exactly the allowed metrics the caller sets are copied, and every other field is kept |
| Streams.CopyAllowed | wp-content/plugins/luna-license-manager/luna-license-manager.php:2226-2232 | the `foreach` over the allowed metrics computes that copy |
| Streams.StreamStore.UpdateStreamHealth | wp-content/plugins/luna-license-manager/luna-license-manager.php:2218-2237 | an unknown license or stream writes nothing and gives false; otherwise only that stream changes, gaining the allowed metrics and a new update time |
| Streams.IntersectIdempotent | wp-content/plugins/luna-license-manager/luna-license-manager.php:2255-2263 | filtering the categories twice filters nothing more |
| Streams.AssignedCategory | wp-content/plugins/luna-license-manager/luna-license-manager.php:2247-2267 | after an assignment a stream carries a category exactly when it was asked for and is one of the ten known ones |
| Streams.StreamStore.AssignStreamCategories | wp-content/plugins/luna-license-manager/luna-license-manager.php:2247-2267 | an unknown license or stream writes nothing and gives false; otherwise only that stream's categories and update time change |
| Streams.InCategoryLookup | wp-content/plugins/luna-license-manager/luna-license-manager.php:2276-2292 | a stream is listed under a category exactly when it is stored and carries that category |
| Streams.LicenseStreamsLookup | wp-content/plugins/luna-license-manager/luna-license-manager.php:2276-2292 | `get_license_streams` lists a key's stream, narrowed to the category when one is given, and nothing for an unknown license |
| Streams.ListedAfterPut | wp-content/plugins/luna-license-manager/luna-license-manager.php:2247-2292 | a freshly written stream is listed under a category exactly when it carries it |
| Streams.StreamStore.StoreSet | wp-content/plugins/luna-license-manager/luna-license-manager.php:1812-1819 | the whole store is replaced by its argument |
| Streams.StreamStore.CompleteCloudConnection | wp-content/plugins/luna-license-manager/luna-license-manager.php:1946-2012 | a missing service or token, an unknown or expired token, or a token of another service each give their failure with nothing changed; otherwise the connection is appended to the token's license and the token is deleted |
| Health.EndpointCategories | wp-content/plugins/luna-license-manager/luna-license-manager.php:2357-2372 | the endpoint table covers exactly the ten stream categories |
| Health.EndpointsInNamespace | wp-content/plugins/luna-license-manager/luna-license-manager.php:2357-2372 | an unknown category has no endpoints, and every endpoint lies under `luna_widget/v1/` |
| Health.CountOutdated | wp-content/plugins/luna-license-manager/luna-license-manager.php:2512-2526 | each loop counts the entries that flag an update |
| Health.CalculateSecurityHealth | wp-content/plugins/luna-license-manager/luna-license-manager.php:2508-2532 | the score is 100 less five per outdated plugin or theme, clamped to [0, 100] |
| Health.ScoreRange | wp-content/plugins/luna-license-manager/luna-license-manager.php:2528-2531 | the score is a multiple of five in [0, 100]; it is 100 exactly when nothing is outdated and 0 exactly from twenty outdated entries on |
| Health.ScoreMonotone | wp-content/plugins/luna-license-manager/luna-license-manager.php:2528-2531 | more outdated entries never raise the score |
| Health.OutdatedPluginCosts | wp-content/plugins/luna-license-manager/luna-license-manager.php:2512-2531 | one more outdated plugin costs five points until the score reaches zero |
| Health.OutdatedCountAppend | wp-content/plugins/luna-license-manager/luna-license-manager.php:2512-2526 | counting plugins and themes separately and adding equals counting them together |
| Html.EscapeIsPerChar | wp-content/themes/supercluster/assets/javascript/luna-chat.js:10-17 | because `&` is replaced first, the chain of five replacements escapes each character exactly once |
| Html.EscapeRoundTrip | wp-content/themes/supercluster/assets/javascript/luna-chat.js:10-17 | decoding the five entities gives the original text back |
| Html.EscapeIsSafe | wp-content/themes/supercluster/assets/javascript/luna-chat.js:10-17 | the output holds no raw `<`, `>`, `"` or `'` |
| Html.ChatEscape | wp-content/themes/supercluster/assets/javascript/luna-chat.js:10-17 | a falsy value gives `''`; a string escapes to text that decodes back to it |
| Html.HubEscape | wp-content/plugins/luna-widget-only/assets/js/luna-composer-hub.js:57-64 | a falsy input gives `''`; a string escapes to text that decodes back to it |
| Html.FormatNewlinesBreaksRuns | wp-content/themes/supercluster/assets/javascript/luna-chat.js:19-21 | the two replacements turn each run of two or more newlines into `<br><br>` and each lone newline into `<br>` |
| Html.FormatPlain | wp-content/themes/supercluster/assets/javascript/luna-chat.js:19-21 | text without newlines passes through unchanged |
| Html.ChatFormatAnswer | wp-content/themes/supercluster/assets/javascript/luna-chat.js:19-21 | the formatted answer holds no newline |
| Html.HubFormatAnswer | wp-content/plugins/luna-widget-only/assets/js/luna-composer-hub.js:66-69 | the formatted answer holds no newline |
| Html.HubTrimsFirst | wp-content/plugins/luna-widget-only/assets/js/luna-composer-hub.js:66-69 | the hub formats what the chat page would format after trimming |
| LunaChat.DefaultClient | wp-content/themes/supercluster/assets/javascript/luna-chat.js:146-148 | the default client is never empty, and is `composeClient` whenever that is a non-empty string |
| LunaChat.ResponseRouteIff | wp-content/themes/supercluster/assets/javascript/luna-chat.js:189-193 | the page is the response route exactly when its path, without trailing slashes, is `/products/luna/chat/response` or lies below it |
| LunaChat.RouteMatchIsUnder | wp-content/themes/supercluster/assets/javascript/luna-chat.js:189-193 | stripping trailing slashes and then comparing is the segment-boundary prefix test |
| LunaChat.ReadQueued | wp-content/themes/supercluster/assets/javascript/luna-chat.js:304-324 | a prompt comes back exactly when the stored prompt is a string that has not expired; a missing or empty client falls back to the default |
| LunaChat.QueueRoundTrip | wp-content/themes/supercluster/assets/javascript/luna-chat.js:295-324 | a prompt queued and read back within five minutes comes back with its client |
| LunaChat.ChatPage.QueuePromptForResponse | wp-content/themes/supercluster/assets/javascript/luna-chat.js:295-302 | stores the prompt, its client or the default, and the time, and changes nothing else |
| LunaChat.ChatPage.TakeQueuedPrompt | wp-content/themes/supercluster/assets/javascript/luna-chat.js:304-324 | empties the slot before reading it, and returns what the stored item yields |
| LunaChat.ChatPage.SetLoading | wp-content/themes/supercluster/assets/javascript/luna-chat.js:259-271 | the in-flight flag and the disabled button follow the flag |
| LunaChat.TargetClient | wp-content/themes/supercluster/assets/javascript/luna-chat.js:332-334 | a non-blank client is used trimmed; otherwise the non-empty default |
| LunaChat.Outcome | wp-content/themes/supercluster/assets/javascript/luna-chat.js:348-361 | the answer is shown exactly when the reply is a body whose chosen text is non-empty; anything else shows the failure message |
| LunaChat.AnswerBeforeMessage | wp-content/themes/supercluster/assets/javascript/luna-chat.js:353-356 | a string `answer` is chosen even when `message` is set, and an empty one is a failure |
| LunaChat.ChatPage.SendPrompt | wp-content/themes/supercluster/assets/javascript/luna-chat.js:326-365 | an empty prompt, or one sent while a request is in flight, changes nothing; otherwise exactly one request is posted, its outcome is shown and the in-flight flag is cleared |
| LunaChat.ChatPage.AttemptSubmit | wp-content/themes/supercluster/assets/javascript/luna-chat.js:380-400 | a blank trimmed prompt returns false and changes nothing; otherwise the prompt is queued with its client and true is returned; on the response route it is sent unless a request is in flight and the reply's outcome is shown, and on any other page the page is redirected there, and only there; the active prompt marker is cleared unless the submit came from a prompt, and otherwise kept |
| LunaChat.TargetClientIdempotent | wp-content/themes/supercluster/assets/javascript/luna-chat.js:387-392 | with a trimmed default, resolving the queued client again gives the same client, so the queued and the sent client agree |
| ComposerHub.Normalise | wp-content/plugins/luna-widget-only/assets/js/luna-composer-hub.js:23-43 | an item is kept exactly when it is an object with a non-empty trimmed license; the license is trimmed and the label defaults to it |
| ComposerHub.NormaliseAll | wp-content/plugins/luna-widget-only/assets/js/luna-composer-hub.js:23-43 | no more accounts than items, each with a non-empty license and label |
| ComposerHub.IndexHas | wp-content/plugins/luna-widget-only/assets/js/luna-composer-hub.js:23-43 | every kept account's license is in the index |
| ComposerHub.IndexOnly | wp-content/plugins/luna-widget-only/assets/js/luna-composer-hub.js:23-43 | the index holds only licenses of kept accounts |
| ComposerHub.IndexHoldsLast | wp-content/plugins/luna-widget-only/assets/js/luna-composer-hub.js:23-43 | a license maps to the last account carrying it |
| ComposerHub.LoadIsSpec | wp-content/plugins/luna-widget-only/assets/js/luna-composer-hub.js:23-43 | building the list and the index in one pass gives the normalised list and its index |
| ComposerHub.LoadAccounts | wp-content/plugins/luna-widget-only/assets/js/luna-composer-hub.js:23-43 | the reduce produces the normalised accounts and their license index |
| ComposerHub.FirstDemo | wp-content/plugins/luna-widget-only/assets/js/luna-composer-hub.js:45-52 | finds the first demo account, or reports that there is none |
| ComposerHub.SharedAccountKey | wp-content/plugins/luna-widget-only/assets/js/luna-composer-hub.js:45-52 | a known trimmed `activeAccount` is kept; otherwise the first demo account's license, else the first account's; `''` exactly when there are no accounts; a non-empty key is always a known license |
| ComposerHub.AccountMetaEmpty | wp-content/plugins/luna-widget-only/assets/js/luna-composer-hub.js:303-318 | the summary is empty exactly when there is no account, or it has no site, no status and is not a demo |
| ComposerHub.AccountMetaOrder | wp-content/plugins/luna-widget-only/assets/js/luna-composer-hub.js:303-318 | for any mix of pieces, the set ones among site, status and `Demo` appear in that order, with one ` · ` between each two shown |
| ComposerHub.AccountMetaLine | wp-content/plugins/luna-widget-only/assets/js/luna-composer-hub.js:320-335 | with an account the line shows its summary; without one it asks for an account when one is required and is empty otherwise; it is shown exactly when it has text |
| ComposerHub.AccountMetaHidden | wp-content/plugins/luna-widget-only/assets/js/luna-composer-hub.js:320-335 | the line is hidden exactly when no account is required and none is chosen, or the chosen account has no site, no status and is not a demo |
| ComposerHub.Composer.constructor | wp-content/plugins/luna-widget-only/assets/js/luna-composer-hub.js:414-422 | with accounts, an account is required and starts as the shared key's account, else the first |
| ComposerHub.Composer.SetAccount | wp-content/plugins/luna-widget-only/assets/js/luna-composer-hub.js:337-356 | the account is set, the shared key follows a chosen account, and the submit rule holds |
| ComposerHub.Composer.SetLoading | wp-content/plugins/luna-widget-only/assets/js/luna-composer-hub.js:425-434 | the button is disabled exactly while a request is in flight, or while an account is required and none is chosen |
| ComposerHub.Outcome | wp-content/plugins/luna-widget-only/assets/js/luna-composer-hub.js:443-459 | the answer is shown exactly when the reply is usable, the picked answer is a string, and the meta `source`, `account_label` and `account_site` are each a string or falsy; it is then the formatted answer with the meta lines; every other case, including the throw from `escapeHTML` on a truthy non-string, shows the failure message |
| ComposerHub.MetaLine | wp-content/plugins/luna-widget-only/assets/js/luna-composer-hub.js:447-456 | a falsy value gives no line; a truthy string gives one line `Name: ` followed by its escaped text, which unescapes back to the value |
| ComposerHub.NoMetaNoLines | wp-content/plugins/luna-widget-only/assets/js/luna-composer-hub.js:510 | a reply without `meta` shows its answer with no meta lines |
| ComposerHub.EmptyReplyShowsStockText | wp-content/plugins/luna-widget-only/assets/js/luna-composer-hub.js:491 | a reply with neither answer nor message shows "Luna did not return a response." with its meta lines, unless a meta value makes `escapeHTML` throw |
| ComposerHub.Composer.SendPrompt | wp-content/plugins/luna-widget-only/assets/js/luna-composer-hub.js:462-516 | an empty prompt, or one sent while a request is in flight, changes nothing; a required but missing account is refused with a message; otherwise one request carrying the account's license is posted, the reply's outcome is shown (answer and meta lines, or the failure message), its meta relabels the account, and the in-flight flag is cleared |
| ComposerHub.NormalisedEmptyIffBlank | wp-content/plugins/luna-widget-only/assets/js/luna-composer-hub.js:523-526 | collapsing and trimming a prompt leaves nothing exactly when it is only white space |
| ComposerHub.Composer.BindPrompt | wp-content/plugins/luna-widget-only/assets/js/luna-composer-hub.js:519-553 | a missing element or a blank prompt is refused and nothing changes; otherwise the element is bound, not pressed, targeted at this composer, and carries the normalised prompt |
| ComposerHub.Composer.HydrateLegacyPrompts | wp-content/plugins/luna-widget-only/assets/js/luna-composer-hub.js:251-273 | elements already bound are left alone; every other element is bound exactly when its prompt is not blank, and then to this composer with the normalised prompt; an element left unbound keeps all its attributes |

## Left out

- I/O is not modelled. This covers HTTP replies beyond their status and body fields, `exit`, cookies, `error_log`, the DOM, `fetch`, `sessionStorage` exceptions, SpeechRecognition and the chat page's rendering. The awaited requests are modelled as completing at once, with the reply passed in.
- The WordPress sanitisers, `is_email`, `esc_url_raw`, `sanitize_user`, `wp_generate_password`, user queries, roles, `is_page`, `is_admin` and `home_url` are not modelled inside. They are function values or state. Where a proof needs something of them, it is stated as a hypothesis: `sanitize_email` is idempotent, and `sanitize_text_field` keeps strings made only of letters, digits and dashes.
- `random_int` is modelled as a sequence of draws passed in. `current_time`, `time()` and `Date.now()` are parameters.
- Registry records hold only strings and PHP `null`. Other scalar field values are not modelled.
- The top-level order of the registry and of the stream store is not modelled, because both are maps. The order of one license's streams is kept, in a sequence of key/value pairs that follows PHP's integer-like string keys.
- Registry.LicenseRegistry.Get: the PHP `foreach` visits entries in array order. The model visits them as a set, which gives the same result because each key is handled on its own.
- Streams.Intersect: PHP's loose `in_array` and `array_intersect` comparisons are modelled as strict string equality. A category list that is not an array, where `in_array` would raise an error, is not modelled.
- Health.CalculateSecurityHealth: the PHP score is a float. The model uses integers, which are exact here because every step subtracts a multiple of five from 100. Stream fields that PHP holds as numbers (`health_score`, the counts) are modelled as mathematical reals.
- Urls.ParseUrl: only the parts of `wp_parse_url` this plugin reads are modelled: the path and the query, after a `scheme://` or `//` authority. A URL that `wp_parse_url` rejects as malformed is parsed like any other.
- Urls.LastValue: query names with `[` (PHP's array syntax) are dropped rather than building nested arrays; such a name never reads back as `license` or `lic` here.
- Users.UserDirectory.EnsureClientUser: `wp_update_user`, `wp_create_user` and `update_user_meta` are modelled as edits of the directory; a creation failure is an input. The `WP_User` result is given as an index. The `existing_user_missing` error is not modelled: it needs `email_exists` and `get_user_by` to disagree, and the directory is one source for both.
- LicenseKeys.Redact: `substr` counts bytes and the model counts characters, so the two agree only on ASCII keys; a non-ASCII key is cut at other places.
- LicenseKeys.DashOthers: `preg_replace` without the `u` flag replaces each byte, so a non-ASCII character becomes one dash per byte of its UTF-8 form, where the model writes one dash per character.
- Rest.FindLicense: PHP turns a registry key that looks like a decimal integer into an integer, and the cleaned record's `key` field with it. The scan's `===` against the request's string then fails, and a key `0` would also fail the `!$found_id` test. The model keys the registry by strings and finds such a record. Generated keys never look like integers, so only hand-made keys are affected.
- Users.FindUserByLicense, Users.FindAfterAppend and Users.FirstWithEmail: the directory's sequence order stands for the order `WP_User_Query` returns, which by default sorts by login, and a new user is appended at the end. With two clients sharing a key, the query could return a newer one whose login sorts first. Meta values and e-mails are compared exactly, where the database compares them by its collation, which by default ignores case.
- ComposerHub.SharedAccountKey requires every account license to be non-empty, which ComposerHub.NormaliseAll guarantees.
- ComposerHub.Composer.SetAccount: passing the choice on to the other composers on the page is not modelled; the model has one composer. Writing the summary line into the DOM is described by ComposerHub.AccountMetaLine but not kept as state.
- ComposerHub.Composer.HydrateLegacyPrompts: the model has one composer, so the choice of an element's target composer among several, and the early return when no composer exists, are not modelled.
- ComposerHub.Composer.SendPrompt: the reply's `meta.account_label` and `meta.account_site` relabel the account only when they are non-empty strings. The source also copies other truthy values into the account before `showAnswer` throws on them; the model then shows the same failure message but keeps the old label and site. The account objects are copied rather than shared between the list and the index, so aliasing is not modelled.
- Streams.NextIndex: `$a[] =` is modelled as in PHP before 8.3, where an array whose integer keys are all negative appends under 0; PHP 8.3 appends under one more than the greatest negative key.
- Urls.DashboardUrl: `add_query_arg` is modelled only for the dashboard base, which has no query and no fragment; its handling of an existing query or fragment is not needed here.
- LunaChat.ChatPage.TakeQueuedPrompt: only numeric stamps are modelled as able to expire. In the script, `Date.now() - payload.ts` also converts a numeric string or `true`, so such stamps can expire too; the model treats every non-number stamp as not expired.
- The admin screens, the AJAX handlers, the outbound data fetches, the e-mail of connection links, the analytics generators and the theme's `functions.php` are not modelled: they are presentation or network code.

## Findings

| source | as written | input that shows it | evidently intended | confidence | as-written member | corrected member |
|---|---|---|---|---|---|---|
| wp-content/plugins/luna-license-manager/luna-license-manager.php:2207 | `add_data_stream` ends with `return self::data_streams_store_set($all_streams);`, but `data_streams_store_set` (1817-1819) returns nothing, so a successful add returns `null` and the caller at 3722-3735 reports "Failed to add data stream" | license `VL-AAAA-BBBB-CCCC`, stream id `s1`, any data array: the stream is stored and the result is falsy | return `true` after the write | not executed | Streams.StreamStore.AddDataStreamAsWritten | Streams.StreamStore.AddDataStream |
| wp-content/plugins/luna-license-manager/luna-license-manager.php:2236 | `update_stream_health` returns the result of `data_streams_store_set`, which is `null`, so the caller at 3750-3762 reports "Failed to update stream health" after a successful update | a stored stream `s1` of license `VL-AAAA-BBBB-CCCC` and metrics `health_score => 90`: the metric is written and the result is falsy | return `true` after the write | not executed | Streams.StreamStore.UpdateStreamHealthAsWritten | Streams.StreamStore.UpdateStreamHealth |
| wp-content/plugins/luna-license-manager/luna-license-manager.php:2266 | `assign_stream_categories` returns the result of `data_streams_store_set`, which is `null`, although it has just stored the categories | a stored stream `s1` and categories `['security']`: the categories are written and the result is falsy | return `true` after the write | not executed | Streams.StreamStore.AssignStreamCategoriesAsWritten | Streams.StreamStore.AssignStreamCategories |

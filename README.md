# SkyChat moderation core in Dafny

SkyChat is a chat relay. Client applications (tenants, each known by an API key) submit player messages, and the relay admits or refuses them. Admitted messages are broadcast to every client, including over per-client webhooks. This project models and verifies the relay's moderation core:

- **Message admission** (`ChatService`, module `Chat`, file `chat.dfy`):
  - the identity checks;
  - the process-wide window of recent messages and the spam rules read from it;
  - text normalisation and the ordered content filters;
  - the per-sender bad-word counter that triggers a fifteen-minute auto-mute;
  - the display-name lookup loop;
  - the rule for when a message row is written;
  - client creation.
- **Mutes** (`MuteService`, module `Mutes`, file `mutes.dfy`):
  - the escalating mute duration (`GetMuteTime`);
  - the cache of the longest effective mute per user, with its rebuild, lazy refresh and eviction;
  - `MuteUser` with its validation, rate limit and escalation;
  - `UnMuteUser` and the cancel transition.
- **Tenant registry and webhooks** (`ChatBackgroundService`, module `Registry`, file `registry.dfy`):
  - token and name lookup, and the wholesale refresh of the registry;
  - removal of `§x` formatting codes;
  - the per-client delivery decision;
  - removal of a client whose webhook answers 502 Bad Gateway.

Supporting modules:
- `Text` (`text.dfy`): substring search, lower-casing, character removal and formatting-code stripping.
- `Models` (`models.dfy`): the records, the error codes and the database.
- `Wrappers` (`wrappers.dfy`): `Option` and `Result`.

Modelling choices:

- **Database.** Its `Messages`, `Mute` and `Clients` tables are sequences of records held by one `Db` object. The services share that object.
- **Mute identity.** A mute's id is its position in the table.
- **In-place state.** Each static or instance collection the services update is a field of the service class, and the methods reassign it:
  - `recentMessages` and `filterSkipAttempts` in `ChatService`;
  - the mute cache in `MuteService`;
  - `Clients` in `ChatBackgroundService`.
- **The incoming message.** It is a class whose fields the methods update: `ClientName`, `Name`, and the stripped `Message` in `SendWebhooks`.
- **Time.** One clock counts seconds from 0001-01-01, so 0 is `default(DateTime)`.
- **Nulls.** An empty string stands for a null string. The message's client name is an `Option`, because the code treats null and non-null names differently there.
- **Outside calls become parameters.** The player-name lookup, the leetspeak normaliser and each webhook's HTTP status are passed in as functions. The new API key is passed in as a string.
- **Errors.** An `ApiException` is modelled as `Err(code)`, or as a refusal of type `Option<ErrorCode>`.

Three points of the code that are easy to misread:
- **Name lookups.** The code (`tries++ > 3`) makes up to five lookups and replaces the fifth answer with "invalid name" even when that answer is not empty. `Chat.NameFrom` and `Chat.FifthAnswerDiscarded` state this.
- **Bad-word counter lifetime.** `filterSkipAttempts` is an instance field of a transient service. See Findings.
- **Escalation arithmetic.** `GetMuteTime` multiplies in 32-bit `int`, so the factor wraps past 2^31 - 1. The stored expiry must also stay within `DateTime.MaxValue`; otherwise the addition throws and nothing is written. `Mutes.Wrap32`, `Mutes.MuteHours` and `Mutes.ExpiryOverflows` state both.

## Model

| member | source | states |
|---|---|---|
| Text.RemoveAll | Services/ChatService.cs:153 | `Replace(c, "")` leaves no `c`, and keeps every other character of the input |
| Text.LettersOnly | Services/ChatBackgroundService.cs:90 | the `[^a-z]` replacement keeps exactly the characters a-z of the input |
| Text.StripFormatting | Services/ChatBackgroundService.cs:79 | removing the `§.` matches never lengthens the text |
| Text.StripLeavesNoCode | Services/ChatBackgroundService.cs:79 | after stripping, no `§` is followed by a character the pattern `§.` matches |
| Text.StripIdentity | Services/ChatBackgroundService.cs:79 | text without a formatting code is left unchanged |
| Text.StripIdempotent | Services/ChatBackgroundService.cs:79 | stripping twice is the same as stripping once |
| Registry.ToDictionary | Services/ChatBackgroundService.cs:68 | keying the client rows by API key succeeds iff no key repeats; the keys are then exactly the rows' keys, each holding its row |
| Registry.IsSlur | Services/ChatBackgroundService.cs:90-91 | the lower-cased, leetspeak-normalised text reduced to a-z holds "kys", "fag" or "retard" (used by `WebhookFor`) |
| Registry.ChatBackgroundService.GetClient | Services/ChatBackgroundService.cs:41-46 | the client stored under the token, and `invalid_token` iff the token is not registered |
| Registry.ChatBackgroundService.GetClientByName | Services/ChatBackgroundService.cs:48-51 | a registered client with that name, and none iff no client has the name |
| Registry.ChatBackgroundService.Refresh | Services/ChatBackgroundService.cs:68 | the registry is replaced wholesale by the rows keyed by API key, so no stale entry survives, and a non-empty table leaves the service `Ready`; on a duplicate key it stays as it was |
| Registry.RefreshedRegistryIsReady | Services/ChatBackgroundService.cs:31 | a service whose registry was keyed from a non-empty, duplicate-free table is `Ready` |
| Registry.ChatBackgroundService.Ready | Services/ChatBackgroundService.cs:31 | the service is ready iff some client is registered (stated through `Refresh` and `RefreshedRegistryIsReady`) |
| Registry.WebhookFor | Services/ChatBackgroundService.cs:83-108 | a client without a webhook gets nothing, because a request without a URI is refused before sending; a client without a webhook auth value gets nothing, because the validating `Headers.Add` of the `Authorization` header throws before sending; a tfm client gets nothing for a tfm-sent message, for a null client name or for a slur, and otherwise gets the reduced payload with `isPremium` and its webhook auth; every other client gets the full message; each request goes to the client's webhook with its auth header |
| Registry.OrdinaryClientsReceiveAll | Services/ChatBackgroundService.cs:102-106 | every non-tfm client of the registry that has a webhook and a webhook auth value receives the full message |
| Registry.HooklessClientsUntouched | Services/ChatBackgroundService.cs:102-112 | a client without a webhook or without a webhook auth value is sent nothing and is never removed by a broadcast |
| Registry.DeliveredTextIsStripped | Services/ChatBackgroundService.cs:79-97 | no delivered payload carries a formatting code |
| Registry.ChatBackgroundService.SendWebhooks | Services/ChatBackgroundService.cs:76-114 | the message text is stripped of `§x` codes, each client of the registry as it stood gets the delivery `WebhookFor` decides, and exactly the clients that were sent a request and answered 502 leave the registry |
| Mutes.MuteFactor | Services/MuteService.cs:101-116 | the escalation factor is at least 1 |
| Mutes.MuteFactorClosedForm | Services/MuteService.cs:103-113 | the factor is 10^a · 3^b, with a the rule-1 mutes and b the rule-2 (not rule-1) mutes that expire within 400 days and do not start with "tfm" |
| Mutes.MuteFactorConcat | Services/MuteService.cs:103-113 | the factor of two histories joined is the product of their factors |
| Mutes.MuteFactorPermutation | Services/MuteService.cs:103-113 | the factor does not depend on the order of the mutes |
| Mutes.AddingMuteNeverShortens | Services/MuteService.cs:103-113 | inserting a mute anywhere in the history never lowers the exact factor (the 32-bit wrap of `MuteHours` can) |
| Mutes.Wrap32 | Services/MuteService.cs:110-112 | C#'s unchecked `int` keeps the value in the 32-bit range, congruent to the exact one modulo 2^32, and unchanged when it fits |
| Mutes.WrapMul | Services/MuteService.cs:110-112 | multiplying step by step in wrapped arithmetic gives the wrap of the exact product |
| Mutes.MuteHours | Services/MuteService.cs:114-115 | the hours lie between 1 and 2^31 - 1, and equal the factor when it fits in an `int` |
| Mutes.GetMuteTime | Services/MuteService.cs:101-116 | the loop in 32-bit arithmetic returns `MuteHours`: the wrapped fold, at least 1, equal to the closed form while the factor fits in an `int` |
| Mutes.CollapseKeys | Services/MuteService.cs:88-98 | the rebuilt cache has exactly the loaded users as keys, each mapped to one of that user's loaded mutes |
| Mutes.Keep | Services/MuteService.cs:91-97 | one loop step: a user not yet cached is added, and a strictly later expiry replaces the cached mute |
| Mutes.Collapse | Services/MuteService.cs:88-98 | the cache the loop builds from the loaded rows, in their order (properties in `CollapseKeys`, `CollapseLongest`, `CollapseFirstOfLongest`) |
| Mutes.CollapseLongest | Services/MuteService.cs:91-94 | each cached mute expires no earlier than any loaded mute of the same user |
| Mutes.CollapseFirstOfLongest | Services/MuteService.cs:93-94 | on equal expiry the first loaded mute is kept, since the comparison is strict |
| Mutes.RebuiltCache | Services/MuteService.cs:86-98 | the cache keys are exactly the users with an unexpired, uncanceled mute, and each value is such a mute of that user with the latest expiry |
| Mutes.CanceledRowLeavesCache | Services/MuteService.cs:150-156 | the rebuilt cache never serves a canceled row; when that row was the user's only effective mute, the user leaves the cache, so a later `GetMute` finds nothing |
| Mutes.InForceRowStaysCached | Services/MuteService.cs:86-98 | a row that stays in force keeps its user in the rebuilt cache with a mute in force lasting at least as long |
| Mutes.FirstMessageFrom | Services/MuteService.cs:72 | the user's first message in id order, and none iff the user never wrote |
| Mutes.RecentMutesBy | Services/MuteService.cs:63-64 | the muter's uncanceled mutes issued within the last six hours |
| Mutes.PriorMutes | Services/MuteService.cs:71 | the user's uncanceled mutes, the history escalation reads |
| Mutes.Passthrough | Services/MuteService.cs:60-61 | a tfm client's mute whose message holds "AUTOMUTE" |
| Mutes.RateLimited | Services/MuteService.cs:65 | more than five recent mutes by the muter, which is not the allow-listed one |
| Mutes.Escalates | Services/MuteService.cs:67-68 | the message plus reason holds "rule ", or there is no expiry |
| Mutes.ExpiryOverflows | Services/MuteService.cs:75-76 | an escalated expiry of now plus `MuteHours` lies past `DateTime.MaxValue` |
| Mutes.EightRuleOneMutesOverflow | Services/MuteService.cs:75-76 | with eight rule-1 mutes in the history the next escalated mute (10^8 hours) is past `DateTime.MaxValue` for any clock, so it is refused |
| Mutes.StoredMuteCountsTowardsRateLimit | Services/MuteService.cs:63-65 | a stored, uncanceled mute is stamped at insert and so counts at once towards its muter's six-hour rate limit, whatever timestamp the caller sent |
| Mutes.EscalatedMuteLastsAnHour | Services/MuteService.cs:75-76 | an escalated mute runs at least one hour from now |
| Mutes.MuteService.GetMutes | Services/MuteService.cs:42-46 | `invalid_token` iff the token is unknown, otherwise exactly the cached mutes |
| Mutes.MuteService.UpdateMuteCache | Services/MuteService.cs:84-99 | the cache is cleared and refilled with, per user, the longest effective mute |
| Mutes.MuteService.GetMute | Services/MuteService.cs:135-148 | the cache is rebuilt only when empty; a mute is returned only if it is unexpired and not canceled; otherwise only that user's entry is evicted |
| Mutes.MuteService.MuteUser | Services/MuteService.cs:54-82 | in order: a null mute gives `invalid_mute`, an empty uuid throws, an unknown token gives `invalid_token`, a tfm client's AUTOMUTE is returned unwritten, more than five live mutes by the muter within six hours gives `too_many_mutes` (allow-listed muter exempt); an escalated mute needs a previous message and an expiry within `DateTime.MaxValue`; otherwise the mute is stored, escalated when it cites "rule " or has no expiry, and the cache is rebuilt |
| Mutes.MuteService.Record | Services/MuteService.cs:67-81 | the expiry `Expiry` gives is written with the mute, stamped with the insert time, and the cache rebuilt; any error of `Expiry` writes nothing |
| Mutes.MuteService.Expiry | Services/MuteService.cs:67-77 | the caller's expiry, or for an escalated mute `invalid_mute` without a previous message, an out-of-range error past `DateTime.MaxValue`, else now plus `MuteHours` hours |
| Mutes.MuteService.DisableMute | Services/MuteService.cs:150-156 | exactly the mute's row is changed: CANCELED is set and the unmuting client and unmuter are recorded |
| Mutes.MuteService.UnMuteUser | Services/MuteService.cs:118-128 | `no_mute_found` when the user has no mute in force; otherwise that row is canceled and the rebuilt cache no longer serves it |
| Mutes.MuteService.UnMuteUserAsWritten | Services/MuteService.cs:118-128 | as the code runs: the cancel is written only when `GetMute` rebuilt the cache in this call; when the cache was already filled, the reply is success and the user still has a cached mute in force |
| Mutes.MuteService.CancelAndReload | Services/MuteService.cs:125-126 | the cancel reaches the table only when the entity is tracked; the rebuilt cache then keeps a user whose row was not written |
| Chat.Identify | Services/ChatService.cs:77-83 | in order: an unknown token gives `invalid_token`, an empty uuid `invalid_uuid`, a client name other than the token's `token_mismatch`; it passes iff all three hold |
| Chat.LatestIndex | Services/ChatService.cs:141 | the entry ordering by timestamp picks carries the latest timestamp and is the first such entry |
| Chat.WasLastMessage | Services/ChatService.cs:141 | the entry picked by the descending timestamp order is the sender's with this text |
| Chat.AlreadySentLong | Services/ChatService.cs:142 | the window holds this text from the sender and the text is longer than six characters |
| Chat.IsSpam | Services/ChatService.cs:139-145 | `ThrowIfSpam` refuses: either of the two checks holds (properties in `LongRepeatIsSpam`, `ImmediateRepeatIsSpam`, `ShortMessagesOnlyRejectedWhenLatest`, `OtherSendersNeverSpam`) |
| Chat.Admit | Services/ChatService.cs:93-95 | after an enqueue the window holds the newest entries in arrival order, ends with the new message, and holds at most nine |
| Chat.WindowStaysBounded | Services/ChatService.cs:93-95 | any run of enqueues keeps the window at nine entries or fewer |
| Chat.StaysInWindow | Services/ChatService.cs:93-95 | eviction is oldest-first: an entry survives as many further enqueues as fit in the window |
| Chat.LongRepeatIsSpam | Services/ChatService.cs:142-144 | a message longer than six characters is refused as `message_spam` when re-sent by its sender within the next eight admissions |
| Chat.ImmediateRepeatIsSpam | Services/ChatService.cs:141-144 | any message re-sent right after it was admitted with the newest timestamp is refused |
| Chat.ShortMessagesOnlyRejectedWhenLatest | Services/ChatService.cs:141-143 | a message of six characters or fewer is refused only when it repeats the latest entry |
| Chat.OtherSendersNeverSpam | Services/ChatService.cs:141-142 | entries of other senders never make a message spam |
| Chat.StripSeparators | Services/ChatService.cs:153 | the normaliser removes every `_`, `-` and `.` and keeps every other character |
| Chat.Normalize | Services/ChatService.cs:153 | the normalised text has no `_`, `-` or `.` and is padded by a space on each side |
| Chat.SeparatorsIgnored | Services/ChatService.cs:153 | inserting `_`, `-` or `.` anywhere does not change the normalised text |
| Chat.DottedPatternsNeverMatch | Services/ChatService.cs:174-178 | no pattern containing a dot can match the normalised text, so the link filter is dead |
| Chat.HasBadWord | Services/ChatService.cs:156 | the normalised text holds one of the 27 bad words |
| Chat.HasLink | Services/ChatService.cs:174-178 | the link filter's five alternatives, read on the normalised and the lower-cased raw text |
| Chat.DottedBadWordIsDead | Services/ChatService.cs:29 | the bad word "b.com" can never match |
| Chat.ContentVerdict | Services/ChatService.cs:153-184 | the content filters never give `link_found`; the message passes iff it holds none of "my ah ", a bad word, the authmod link or "binmaster" |
| Chat.Rule2ShadowsBadWord | Services/ChatService.cs:154-156 | `rule_2` is checked first: a text with "my ah " also holds the bad word "my ah" but is refused as `rule_2` |
| Chat.Bumped | Services/ChatService.cs:158 | a hit adds one to the sender's counter, starting at one, and leaves the other counters alone |
| Chat.FreshTableNeverAutoMutes | Services/ChatService.cs:28 | a service whose counter table starts empty never files the auto-mute for the message it checks |
| Chat.AutoMute | Services/ChatService.cs:161-168 | the mute filed: this sender, muter "chat-service", text "You violated the chat rules", issued now and expiring in fifteen minutes |
| Chat.AutoMuteTextIsPlain | Services/ChatService.cs:164 | "You violated the chat rules" cites no "rule " and holds no "AUTOMUTE" |
| Chat.AutoMuteLastsFifteenMinutes | Services/ChatService.cs:161-168 | the auto-mute is neither a tfm passthrough nor escalated, so it is stored with an expiry of now plus fifteen minutes |
| Chat.Sendable | Services/ChatService.cs:150-184 | a muted sender is refused `user_muted`, and any other filter than the bad words gives its own code with nothing changed; the message passes iff the sender is not muted and no filter fires; only a bad-word hit changes the counters; a mute row is added only as the auto-mute, together with a cleared table |
| Chat.BadWordHit | Services/ChatService.cs:156-172 | a bad-word hit is always refused, as `bad_words` or as the `too_many_mutes` of the auto-mute; the table grows only by the auto-mute |
| Chat.FourthHitFilesAutoMute | Services/ChatService.cs:158-172 | the fourth hit files a fifteen-minute mute by "chat-service" that is in force, clears the whole table and still refuses with `bad_words` |
| Chat.EarlyHitsOnlyCount | Services/ChatService.cs:156-172 | earlier hits only bump the counter and refuse with `bad_words` |
| Chat.HitRun | Services/ChatService.cs:156-172 | the decision after k bad-word hits in a row from an empty table, each hit as `BadWordHit` |
| Chat.FourthHitOfARunFilesAutoMute | Services/ChatService.cs:158-171 | with the table kept and no rate limit: hits one to three only count, the fourth files the auto-mute and empties the table, the fifth counts 1 again and files nothing |
| Chat.CacheAfter | Services/ChatService.cs:150-168 | the cache after the check: rebuilt when the auto-mute was filed, otherwise as `GetMute` left it |
| Chat.AutoMutedSenderIsRefused | Services/ChatService.cs:150-152 | a sender just auto-muted is refused `user_muted` by every check within the next fifteen minutes, whatever the text |
| Chat.NameFrom | Services/ChatService.cs:126-136 | the lookups end with a non-empty name after at most five calls: the first non-empty answer among the first four, otherwise "invalid name" |
| Chat.ResolvedName | Services/ChatService.cs:126-136 | no lookup when the name is set; the name always ends non-empty after at most five lookups |
| Chat.FirstAnswerWins | Services/ChatService.cs:127-131 | the first non-empty answer among the first four lookups becomes the name |
| Chat.FifthAnswerDiscarded | Services/ChatService.cs:131-134 | after four empty answers a fifth lookup is made and its answer is replaced by "invalid name" |
| Chat.ChatService.SendMessage | Services/ChatService.cs:74-121 | a failed identity check or spam changes no table; otherwise the message enters the window, is stored exactly once whether refused or not, and the reply, counters, mutes and mute cache follow `Sendable` and `CacheAfter`; an accepted message gets its resolved name |
| Chat.ChatService.Deliver | Services/ChatService.cs:86-120 | enqueue and trim, check, store on every outcome, and fill the name only on acceptance; the mute cache ends as `CacheAfter` states |
| Chat.ChatService.Enqueue | Services/ChatService.cs:93-95 | the window becomes `Admit` of the old one and stays below ten entries |
| Chat.ChatService.Finish | Services/ChatService.cs:102-117 | the message row is appended once on either path; the name is resolved only for an accepted message |
| Chat.ChatService.AssertMessageSendable | Services/ChatService.cs:147-185 | the refusal, counters and mute table are those `Sendable` decides for the cache `GetMute` reads, and the cache ends as `CacheAfter` states |
| Chat.ChatService.CountBadWord | Services/ChatService.cs:156-172 | the counter update and auto-mute follow `BadWordHit`; the cache is rebuilt exactly when the auto-mute was filed |
| Chat.ChatService.FileAutoMute | Services/ChatService.cs:161-168 | the auto-mute is stored unless "chat-service" is rate limited, which gives `too_many_mutes`; a stored auto-mute rebuilds the cache |
| Chat.ChatService.FillName | Services/ChatService.cs:123-137 | the loop leaves the name and the number of lookups `ResolvedName` gives, and no other field changes |
| Chat.ChatService.CreateClient | Services/ChatService.cs:198-208 | a taken name gives `client_exists` and writes nothing; otherwise the client is stored with the new key; client names stay unique |

## Left out

- Redis publish, the emoji replacement, Prometheus counters, logging and tracing activities: side effects that decide nothing when they return. The emoji swap restores the text, and the model keeps it unchanged.
- Chat.ChatService.SendMessage: the name lookup (`Services/ChatService.cs` line 129) and the Redis publish (line 114) are taken to return. Either one throwing ends the request after the enqueue and before the write at line 116, so that admitted message would not be stored.
- The `Task.Run` hand-off from `SendMessage` to `SendWebhooks`: the two are modelled as separate operations, because the hand-off is concurrency.
- Concurrency of the concurrent queue and dictionaries, and of the webhook fan-out: the model is single-threaded, and the fan-out is a loop over the registry in arbitrary key order.
- `MuteProducer`, the controller, `Startup`, the migrations and the client-creation DTO: configuration and transport. The controller's `missing_authorization` check is not part of this model.
- `GetMuteMessage`: it formats the refusal text only.
- API key generation: random bytes, passed in as `key`.
- The database fallback after `return null` in `GetMute` is unreachable and is not modelled.
- `ToLower` is modelled for ASCII and basic Cyrillic capitals only.
- Lengths are counted in characters, not UTF-16 code units.
- Mutes.GetMuteTime: the `double` it returns is modelled as the integer it always holds; the unused `firstMessageTime` parameter is passed in and ignored.
- Database-generated columns (message `Timestamp`, client `Id`) are taken from the caller. A stored mute's `Timestamp` is stamped with the clock, as the database does on insert. `DateTime.Now` and `DateTime.UtcNow` are one clock.
- A null `Message`, `ApiKey` or client `Name`, which would throw a null-reference exception, is not modelled.
- Mutes.MuteService.UnMuteUser: a null unmute uuid is modelled as the empty string and answered `no_mute_found`; in the source `muteCache.TryGetValue(null, ...)` throws an `ArgumentNullException` (a server error) after `GetMute` has rebuilt an empty cache. The state effects agree; only the reply differs. The same holds for `UnMuteUserAsWritten`.
- Mutes are values: the cached mute and the tracked database entity are not aliased. `DisableMute` writes the row by id, which is the corrected behaviour of the Findings row on `UnMuteUser`. `UnMuteUserAsWritten` models the tracked-or-not outcome by whether the cache was rebuilt in the call.
- The clock is taken to lie inside `DateTime`'s range, more than 400 days after 0001-01-01 and more than fifteen minutes before `DateTime.MaxValue`. The 400-day lookback and the auto-mute's `AddMinutes(15)` would throw outside it.
- `StartsWith("tfm")` is compared character by character. .NET compares it by the current culture, which can, for example, ignore a leading zero-width character.
- Rows are read back in insertion order; the database's order without `OrderBy` is unspecified.
- Registry.ChatBackgroundService.SendWebhooks: a null client name on the message makes each tfm client's task throw; it is modelled as no delivery to that client.
- Registry.WebhookFor: only an empty webhook counts as missing. A non-empty relative or malformed URI also makes `SendAsync` throw before sending, so such a client gets nothing and is never removed; the model sends to it.
- Registry.WebhookFor: only an empty (or null) webhook auth value counts as unusable. A non-empty value that does not parse as `scheme [credentials]`, such as a bare key holding `/` or `=`, also makes `Headers.Add` throw a `FormatException` before sending, so such a client gets nothing and is never removed; the model sends to it, because header parsing is not modelled.
- Registry.ChatBackgroundService.Refresh: a duplicate API key also ends the background refresh loop for good; the model goes on accepting later refreshes.
- Chat.ChatService.SendMessage: the HTTP exception transport is modelled as `Err(code)`. The argument exception of an empty mute uuid cannot arise from the auto-mute, whose uuid is checked first.

## Findings

| source | as written | input that shows it | evidently intended | confidence | as-written member | corrected member |
|---|---|---|---|---|---|---|
| Services/ChatService.cs:28 | `filterSkipAttempts` is an instance field, and `ChatService` is registered transient (`Startup.cs` line 103), so every request gets a new, empty counter table | one sender posting a bad word in four separate requests: each request's table holds 1 for the sender, never more than 3, so the auto-mute is never filed | the table lives as long as the process, like the static `recentMessages`, so the fourth hit files the fifteen-minute mute | high; not executed | Chat.FreshTableNeverAutoMutes | Chat.FourthHitFilesAutoMute |
| Services/MuteService.cs:150-155 | `DisableMute` sets CANCELED on the mute `GetMute` took from the static cache and saves the current request's context. `MuteService` is transient and the context is per request (`Startup.cs` lines 93 and 104), so a mute cached by an earlier request is not tracked and nothing is written | a mute filed in one request, then an unmute in a later request while the cache is filled: the reply is success, the row stays in force, and the reload at line 126 caches it again | the cancel is written to the mute's row, so the user leaves the cache unless another mute is in force | medium; not executed; rests on Entity Framework Core change tracking | Mutes.MuteService.UnMuteUserAsWritten | Mutes.MuteService.UnMuteUser |

In this model the counter table is a field of the `ChatService` object. It persists across `SendMessage` calls, which is the corrected behaviour. `Chat.FourthHitOfARunFilesAutoMute` follows such a table through five hits. `Chat.AutoMutedSenderIsRefused` shows that the mute then refuses the sender's next messages.

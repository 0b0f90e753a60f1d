# WhatsApp session gateway: verified model

The system is an HTTP gateway in front of a WhatsApp browser-automation library. It keeps one library client per user ID and caches the login QR code each client emits. It sends a batch of messages to a list of numbers, one after the other, and builds a report that pairs every message the account sent with the first later reply in the same chat. A separate helper file normalises phone numbers to and from the WhatsApp ID form `+<digits>@c.us`.

The model has five modules:

- `Wrappers`: `Option` and `Result`.
- `Formatter` (helpers/formatter.js) covers three things:
  - `phoneNumberFormatter` is a method with its zero-stripping loop, proved equal to the specification function `Formatted`.
  - `extractPhoneNumber` is modelled with JavaScript's replace-first semantics for a string pattern.
  - `formatPhoneNumbers` is an element-wise map.
  
  It also holds the shape, idempotence and round-trip lemmas.
- `Dispatch` (index.js:219-249) is the bulk-send loop. It is a method proved against per-recipient functions: the digits-only chat ID, the message chosen for index `i`, the send mode and the result record. The summary counts are proved to add up. `client.sendMessage` is an oracle: `outcomeOf(i)` is the outcome of the send for recipient `i`.
- `Reports` (index.js:297-317) is the report builder. Its nested loops are a method proved equal to the function `ReportOf`. `ReportOf` itself ensures "one entry per own message"; the lemma `ChatReportPairs` states "the response is the first later reply in list order, or null".
- `Sessions` (index.js:23-322) holds the registry:
  - A `Registry` class has the two dictionaries `clients` and `qrCodes` as `map` fields.
  - A `Client` class has a mutable `isReady` flag and the user ID its callbacks captured.
  - Each request handler and each library event (`qr`, `ready`, `disconnected`) is one method.
  - `destroy()` is an oracle boolean "it threw".
  - The fetched chats of a report are a `Result`.
  - Four scenario methods run short event sequences on a fresh registry and state their outcome.

Behaviour of the code that is easy to misread, and that the model follows:

- In `/start-session`, the `destroy()` of a previous client that is not ready is awaited outside any inner `try` (index.js:38-41). If it throws, the request ends with 500 and the old client stays registered. It is not merely logged.
- `/close-session` destroys the client whether or not it is ready (index.js:149-153). A failure is only logged, and both map entries are removed.
- The `disconnected` event only clears `isReady` (index.js:77-80). The client stays in the registry and its QR code stays cached. `auth_failure` only logs (index.js:74-76). No event removes a session.
- Restarting a session that is not ready leaves any cached code of the old client in place, and callbacks of the replaced client keep writing to `qrCodes[userId]`. `Sessions.StaleClientScenario` shows both.
- The QR checks test truthiness: an empty code counts as no code (index.js:101, 126).

## Model

| member | source | states |
|---|---|---|
| Formatter.Retain | helpers/formatter.js:8 | a global replace of the complement class by `""` keeps only characters in the class, and never lengthens the string |
| Formatter.RetainAppend | helpers/formatter.js:8 | the filter distributes over concatenation |
| Formatter.RetainKeepsAll | helpers/formatter.js:8 | a string made only of kept characters is unchanged by the filter |
| Formatter.RetainDropsAll | helpers/formatter.js:8 | a string with no kept character filters to the empty string |
| Formatter.RetainAgrees | helpers/formatter.js:8 | two character classes that agree on every character of a string filter it the same way |
| Formatter.KeepDialChars | helpers/formatter.js:8 | step 1 keeps only digits and `+`, and never lengthens the number |
| Formatter.StripLeadingZeros | helpers/formatter.js:11-13 | the result is a suffix of the input, every removed character is `0`, and the result does not start with `0` |
| Formatter.WithPlus | helpers/formatter.js:16-18 | the result starts with `+` and is the input with at most one character added in front; an input that already starts with `+` is returned unchanged |
| Formatter.StrippedDialChars | helpers/formatter.js:8-13 | stripping leading zeros from digits-and-plus leaves digits-and-plus |
| Formatter.WithPlusCanonical | helpers/formatter.js:11-18 | after the plus is added to dial characters with no leading zero, only `+` and digits remain; a `0` right after the `+` means the filtered string already began with `+` |
| Formatter.PhonePart | helpers/formatter.js:8-18 | the part before the suffix starts with `+` and holds only digits and `+`; a `0` right after the `+` comes only from an input whose filtered, zero-stripped form already began with `+` |
| Formatter.Formatted | helpers/formatter.js:6-26 | the specification of `phoneNumberFormatter`: the result is longer than the suffix, starts with `+` and ends with `@c.us` (the rest of its shape is in `FormattedShape`) |
| Formatter.FormattedShape | helpers/formatter.js:6-26 | the formatter's output starts with `+`, ends with `@c.us`, is longer than the suffix, and holds only digits and `+` before the suffix, so the suffix appears once; the zero-after-plus property as above |
| Formatter.NoDialStringEndsWithSuffix | helpers/formatter.js:21-23 | after the filter the string never ends with `@c.us`, so the suffix is always appended |
| Formatter.SuffixHasNoDialChar | helpers/formatter.js:8 | none of `@`, `c`, `.`, `u`, `s` survives the filter |
| Formatter.FormattedFixesCanonical | helpers/formatter.js:8-23 | a canonical phone part, with or without its suffix, formats to itself plus the suffix |
| Formatter.FormattedSplits | helpers/formatter.js:6-26 | the output is a canonical phone part followed by the suffix |
| Formatter.FormattedIdempotent | helpers/formatter.js:6-26 | formatting twice equals formatting once |
| Formatter.PhoneNumberFormatter | helpers/formatter.js:6-26 | the step-by-step version with its zero-stripping loop returns exactly `Formatted(number)` |
| Formatter.IndexFrom | helpers/formatter.js:35 | the first position at or after `k` where the pattern occurs, or none, with no occurrence before it |
| Formatter.RemoveFirst | helpers/formatter.js:35 | with no occurrence the string is unchanged; otherwise exactly the first occurrence is cut out and the rest is kept |
| Formatter.ExtractPhoneNumber | helpers/formatter.js:33-43 | the result starts with `+`; it is the ID with its first `@c.us` removed, prefixed with `+` only when that does not already start with `+` |
| Formatter.RemoveSuffixOfCanonical | helpers/formatter.js:35 | in a canonical phone part followed by `@c.us`, the first occurrence of the suffix is the trailing one |
| Formatter.ExtractAfterFormat | helpers/formatter.js:6-43 | extracting from a formatted ID gives the formatted ID without its trailing suffix |
| Formatter.FormatAfterExtract | helpers/formatter.js:6-43 | formatting the extracted number of a formatted ID gives that ID back |
| Formatter.Map | helpers/formatter.js:51 | one result per element, element `i` mapped from input element `i` |
| Formatter.FormatPhoneNumbers | helpers/formatter.js:50-52 | the length is preserved and element `i` is the formatter applied to `numbers[i]` |
| Formatter.FormatPhoneNumbersIdempotent | helpers/formatter.js:50-52 | formatting a formatted list changes nothing |
| Dispatch.DigitsOnly | index.js:221 | `replace(/[^\d]/g, '')` keeps only digits and never lengthens the number |
| Dispatch.DispatchId | index.js:221 | the loop's chat ID ends with `@c.us` |
| Dispatch.DispatchIdShape | index.js:221 | the loop's chat ID is digits only, then `@c.us` |
| Dispatch.DispatchIdMatchesFormatter | index.js:221 | for a number without `+` whose digits do not start with `0`, the general formatter gives the loop's chat ID with a `+` in front |
| Dispatch.MessageAt | index.js:222 | the message for index `i` is `mensajesPorNumero[i]` when present, otherwise `""` |
| Dispatch.ModeFor | index.js:225-231 | media with the message as caption exactly when there is media and a non-empty message, media alone exactly when there is media and an empty message, the message as text exactly when there is no media |
| Dispatch.ResultFor | index.js:232-238 | the result keeps the raw number; it is a success exactly when the send resolved, and carries the error's message exactly when it threw |
| Dispatch.CountSucceeded | index.js:247 | at most one per result, and zero exactly when no result is a success |
| Dispatch.CountFailed | index.js:248 | at most one per result, and zero exactly when every result is a success |
| Dispatch.CountsAddUp | index.js:243-249 | every result counts once, as sent or as failed |
| Dispatch.Summarize | index.js:243-249 | `total` is the number of recipients and `enviados + fallidos == total`, with each count over the results |
| Dispatch.SendAll | index.js:219-241 | one send per recipient in input order, to the digits-only ID, in the mode the media and the message decide; one result per recipient with the raw number and its outcome, whatever earlier sends did; a non-string number stops the loop right there |
| Dispatch.SendFor | index.js:221-231 | the send for recipient `i`: the loop's chat ID of its number and the mode its message and the media decide |
| Dispatch.TwoRecipientsOneFailure | index.js:219-249 | two recipients where the second send fails give two results in input order and a summary of one sent and one failed |
| Reports.SentMessages | index.js:303 | exactly the account's own messages, never more than the chat holds |
| Reports.SentMessagesSingle | index.js:303 | one message is kept exactly when it is ours |
| Reports.SentMessagesAppend | index.js:303 | the filter of a concatenation is the concatenation of the filters, so with the one-message case it keeps list order and repetitions |
| Reports.IsReply | index.js:305 | the `find` test: a message that is not ours with a strictly greater timestamp |
| Reports.FirstReplyFrom | index.js:305 | the first index at or after `k` holding a message that is not ours and strictly later, or none |
| Reports.FirstReply | index.js:305 | the first such reply in list order: every earlier message is not a reply; or none when no message is a reply |
| Reports.ReadOrNull | index.js:311 | a zero or absent read timestamp becomes null; any other is kept |
| Reports.EntryFor | index.js:306-314 | the entry copies the chat's user and the sent message's body, timestamp and ack, with `readTimestamp || null`; the response and its timestamp are the first later reply's body and timestamp, both null when there is none |
| Reports.Entries | index.js:304-314 | one entry per sent message |
| Reports.EntriesAt | index.js:304-314 | entry `i` is the entry built for sent message `i` |
| Reports.EntriesStep | index.js:304-314 | one more sent message appends its entry at the end |
| Reports.ReportStep | index.js:301-316 | one more chat appends its entries at the end |
| Reports.SentMessagesCount | index.js:303 | the filtered list is as long as the count of own messages |
| Reports.ChatReport | index.js:302-315 | one chat's entries: one per sent message, in order |
| Reports.ReportOf | index.js:301-316 | the report has one entry per own message over all chats |
| Reports.ChatReportPairs | index.js:303-314 | each entry carries its chat's number and its sent message's body, timestamp, ack and `readTimestamp || null`; the response timestamp is null when the response is; its response is null exactly when no later reply exists, and otherwise is the body and timestamp of the first reply in list order |
| Reports.BuildReport | index.js:297-316 | the nested push loops build exactly `ReportOf(chats)` |
| Sessions.Client.constructor | index.js:43-62 | a new client for a user is not ready |
| Sessions.Registry.constructor | index.js:23-24 | both dictionaries start empty |
| Sessions.Registry.HasCode | index.js:101 | `qrCodes[userId]` is truthy: present and not the empty string |
| Sessions.Registry.IsActive | index.js:190 | `clients[userId]` exists and is ready |
| Sessions.Registry.SessionStatus | index.js:113-137 | `no_session` exactly when there is no client, `ready` exactly when the client is ready, `needs_scan` exactly when it is not ready and a non-empty code is cached, `initializing` otherwise |
| Sessions.Registry.GetQr | index.js:93-111 | 404 exactly when there is no client, 202 exactly when there is a client but no non-empty code, otherwise the cached code |
| Sessions.Registry.QrAgreesWithStatus | index.js:93-137 | the two read-only handlers agree on absence, on `needs_scan` versus the code, and on `initializing` versus 202 |
| Sessions.Registry.StartSession | index.js:27-91 | a ready client: 400 with nothing changed; a client that is not ready whose destroy throws: 500 with nothing changed; otherwise `clients[userId]` is a fresh not-ready client and no other entry changes; `qrCodes` is never touched; no other user's status changes |
| Sessions.Registry.CloseSession | index.js:139-181 | an absent user: 404 with nothing changed; otherwise both `clients[userId]` and `qrCodes[userId]` are removed whether or not destroy throws, and nothing else changes; no other user's status changes |
| Sessions.Registry.OnQr | index.js:64-67 | the captured user's code is overwritten and nothing else changes; no other user's status changes |
| Sessions.Registry.OnReady | index.js:68-73 | the captured client becomes ready and the captured user's code is deleted; while that client is still registered the status is `ready`; no other user's status changes |
| Sessions.Registry.OnDisconnected | index.js:77-80 | the client is no longer ready but stays registered with its code, so its status is `needs_scan` or `initializing`, never `no_session`; no other user's status changes |
| Sessions.Registry.SendMessages | index.js:183-257 | rejected before any send, in order: no ready client, no message and no media, no number list or an empty one; a request that passes all three is always answered with the summary or the 500; then one result per number in input order, and a summary whose sent and failed counts are the successful and failed results and add up to the total; a non-string number gives 500 after the sends before it |
| Sessions.Registry.Report | index.js:289-322 | 400 without a ready client; a library failure is passed through with its message; otherwise the report of the fetched chats |
| Sessions.LoginScenario | index.js:27-137 | start, a code, then ready: `needs_scan` (or `initializing` for an empty code), then `ready`, and get-qr answers 202 |
| Sessions.RestartWhileReady | index.js:27-91 | a second start while the first session is ready is refused with 400 and the session stays ready |
| Sessions.StaleClientScenario | index.js:38-81 | after a restart, the replaced client's `qr` event still makes the status `needs_scan`; its `ready` event then clears the code without making the new client ready |
| Sessions.CloseDespiteFailedDestroy | index.js:139-156 | closing with a failing destroy still gives `no_session` and 404 on get-qr, and a second close answers 404 |

## Left out

- HTTP framework, CORS, file-upload middleware and `app.listen` (index.js:1-20, 325-327): plumbing. Replies are datatypes with an `HttpStatus` code, not JSON bodies.
- `Client`/`LocalAuth` construction, the browser options and `client.initialize()` (index.js:43-62, 82): foreign library calls. A new client is only a not-ready object. A throw from `new Client` is not modelled.
- The `auth_failure` callback (index.js:74-76): it only logs.
- Media handling (index.js:205-215): temp-file write, base64 read and `MessageMedia` construction are filesystem and library I/O. Media is a boolean `hasMedia`, and a failure of this I/O (a 500) is not modelled.
- The per-recipient delay and `parseInt(delay)` (index.js:240), and the deferred auth-directory removal after close (index.js:161-175): timers and filesystem effects whose only observable effect is logging.
- `JSON.parse` of `numbers` and `mensajesPorNumero` (index.js:186-187): the requests arrive already parsed. `numbers` is `None` when it is not an array. `mensajesPorNumero` is a list of strings, so non-string or non-array messages, and a parse error's 500, are not modelled.
- Sessions.Registry.SendMessages: a non-string element of `numbers` is modelled as the 500 it causes. The `number` field of a result and the error message of a failed send are strings, not arbitrary JSON values.
- The labels endpoints (index.js:260-287): they pass library results through unchanged.
- The report's library calls `getChatsByLabelId` and `fetchMessages({ limit: 50 })`: their outcome is a parameter. The 50-message limit and a failure of one chat's fetch part-way through are folded into that single `Result`.
- debug-helper.js is not part of this model: it only calls library getters and logs.
- Asynchronous interleaving: each request and event is one atomic method call. A request's own `await` points, such as an event arriving while `destroy()` is pending, are not modelled.
- Keys inherited from `Object.prototype` (such as a user ID `"__proto__"`), and JavaScript's UTF-16 code units: strings are sequences of Dafny characters.
- Console logging throughout.

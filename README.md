# LUAX tracker: request gates, rate windows and terminal reveal

This project models the sequential logic of a small Next.js application in Dafny. The application has two parts:

- a landing page (`pages/index.js`) that shows a scripted fake terminal and, on load, decides whether to report the visitor;
- one serverless endpoint (`api/track.js`) that relays the report to a webhook.

Three pieces are modelled:

1. **The relay handler** (`api/track.js`). It checks the HTTP method, then the static `x-custom-header` value, then a per-address sliding window over the module-level `requestCounts` table, then whether a webhook is configured. Only then does it build the notification. `Relay.Relay` holds the table as a `map<string, seq<int>>`. Its `Handle` method follows the handler step by step. `Relay.Check` is the rate-window step as a function. `Embed.BuildEmbed` builds the notification from the request body, with per-field fallbacks and the user agent cut to 100 characters.
2. **The collector's gates** (`pages/index.js`). `BotGate.IsLikelyBot` is the bot heuristic. `Collector.Session` holds the session-storage list of visits. Its `CheckRateLimit` method is the client-side window (threshold 10). Its `SendData` method is the short-circuit `isLikelyBot() || !checkRateLimit()` gate.
3. **The terminal reveal** (`pages/index.js`). `Terminal.TerminalView` holds `(lines, currentIndex)`. Each call to `Step` is one timer firing.

Both windows follow the same rule, defined once in `SlidingWindow`:

- the stored list is filtered to timestamps `t` with `now - t < 60000`;
- if more than `limit` remain, the request is refused and the filtered list is *not* written back;
- otherwise the filtered list followed by `now` is stored.

The main theorem is `SlidingWindow.DecisionMatchesHistory`. Assume a non-decreasing clock. Then the lazily pruned list answers exactly as the full history of admitted requests would: a request passes if and only if at most `limit` admitted requests lie in the trailing window. `AcceptedWithinWindowBound` follows from it: at most `limit + 1` admitted requests ever lie in one window. `Relay.ServerReplayProjects` and `Relay.ServerAcceptedProjects` show that addresses do not interfere: each address's entry and its admitted requests are those of a single window that sees only that address. Together these give the relay's bound: at most six admitted requests per address in any 60 000 ms, and the seventh is refused with 429.

Four facts about the code that the model makes explicit:

- The handler refuses when more than five filtered timestamps remain. So six requests in one window pass and the seventh gets 429 (`Relay.SeventhImmediateRequestRefused`).
- The placeholder for a missing or empty field is `"Bilinmiyor"`, and `"Direct"` for the referrer.
- Without `navigator.connection` the collector sends the string `'Unknown'` (pages/index.js:79). That string is truthy, so the relay shows `undefined (undefined Mbps)` rather than the placeholder (`Embed.UnknownConnectionShowsUndefined`).
- The handler inserts an empty entry for an unseen address before the window check. For an unseen address the filtered list is empty, so a 429 can never follow that insertion. `Relay.Check` proves that the table is unchanged on every 429.

Inputs from outside the program are parameters:

- the clock reading `now`;
- whether the webhook URL is set (`webhookConfigured`);
- whether the outbound POST rejects (`forwardFails`);
- the two formatted dates of the notification (`localTime`, `isoNow`);
- the chosen source address `ip`;
- the browser's user agent, `webdriver` flag and plugin count.

## Model

| member | source | states |
|---|---|---|
| SlidingWindow.Recent | api/track.js:19 | the filtered list has no more entries than the input, and a timestamp occurs in it iff it occurs in the input with `now - t < 60000` |
| SlidingWindow.RecentIsFilter | api/track.js:19 | the filtered list is an in-order subsequence of the input that holds each timestamp inside the window exactly as often as the input does, and nothing else; together these fix the result |
| SlidingWindow.RecentAppend | api/track.js:19 | filtering distributes over concatenation |
| SlidingWindow.RecentRecent | api/track.js:19 | filtering at an earlier time and then at a later time equals filtering at the later time |
| SlidingWindow.Admit | api/track.js:19-26 | passes iff at most `limit` recent entries remain; a refusal leaves the stored list untouched; an admission stores the recent entries followed by `now`: at most `limit + 1` entries, all inside the window |
| SlidingWindow.Replay | api/track.js:15-26 | after a run of checks, no more timestamps were admitted than requests were made, and each admitted one is one of the request times |
| SlidingWindow.ReplayTracksAccepted | api/track.js:19-26 | with a non-decreasing clock, the stored list is exactly the admitted timestamps filtered at the last admission, and it never holds more than `limit + 1` entries |
| SlidingWindow.DecisionMatchesHistory | api/track.js:19-23 | with a non-decreasing clock, the next request passes iff at most `limit` admitted requests lie in the trailing 60 000 ms |
| SlidingWindow.AcceptedWithinWindowBound | api/track.js:21-26 | with a non-decreasing clock, at most `limit + 1` admitted requests lie in any trailing window |
| Relay.Check | api/track.js:15-26 | passes iff at most five stored timestamps for the address are recent; on 429 the whole table is unchanged; on admission the entry becomes the recent timestamps followed by `now` (at most 6, all inside the window); other addresses are unchanged |
| Relay.ServerReplayProjects | api/track.js:1-26 | after any sequence of requests, an address's entry is what a single window would hold after seeing only that address's requests |
| Relay.ServerAcceptedProjects | api/track.js:15-26 | the requests the server's own rate window step admitted from an address are exactly those a single window admits when it sees only that address's requests |
| Relay.ServerDecisionMatchesHistory | api/track.js:19-23 | with a non-decreasing clock, a request from an address passes the window iff at most five of the requests the server admitted from it lie in the trailing 60 000 ms |
| Relay.ServerWindowBound | api/track.js:21-26 | with a non-decreasing clock, at most six of the requests the server admitted from one address lie in any trailing window |
| Relay.BurstRecorded | api/track.js:15-26 | up to six simultaneous requests from one address are all recorded in its entry |
| Relay.SeventhImmediateRequestRefused | api/track.js:19-23 | of seven requests from one address in the same millisecond, the first six pass and the seventh gets 429 |
| Relay.Relay.constructor | api/track.js:1 | a fresh process starts with an empty table |
| Relay.Relay.Handle | api/track.js:3-69 | a non-POST gets 405 and a wrong or missing header gets 403, both leaving the table unchanged and sending nothing; after the two gates the table becomes `Check`'s table; a refusal is 429; with no webhook configured the result is 500 `Webhook not configured`, with `now` already recorded; otherwise the notification is built from the body and posted, and the result is 200, or 500 `Internal server error` when the body is missing or the POST rejects |
| Embed.BuildEmbed | api/track.js:37-56 | the twelve fields carry the source's names in the source's order; the ip, platform, language, screen, timezone and referrer fields show the input when present and non-empty, otherwise `Bilinmiyor` (the referrer falls back to `Direct`); the user-agent field is the first min(100, length) characters inside code fences; touch and cookie fields follow the flags; title, colour and footer are fixed, and the timestamp is the given ISO time |
| Embed.UserAgentTruncation | api/track.js:44 | a user agent of at most 100 characters is shown whole; a longer one shows exactly its first 100 characters |
| Embed.Decimal | api/track.js:46 | the rendered colour depth is a non-empty string of decimal digits that denotes the number, with no leading zero |
| Embed.UnknownConnectionShowsUndefined | api/track.js:49 | the label `Unknown` that the collector sends without connection information is shown as `undefined (undefined Mbps)`, not as `Bilinmiyor` |
| BotGate.ToLower | pages/index.js:39 | lowercasing keeps the length and maps each character independently |
| BotGate.ToLowerAppend | pages/index.js:39 | lowercasing distributes over concatenation |
| BotGate.IncludesFrom | pages/index.js:41 | true iff the pattern occurs at some position no earlier than the start |
| BotGate.Includes | pages/index.js:41 | `includes` is true iff the pattern occurs at some position |
| BotGate.SomeIncluded | pages/index.js:41 | `some` is true iff one of the patterns is included |
| BotGate.IsLikelyBot | pages/index.js:38-48 | a visitor is not a likely bot iff no bot word occurs in the lowercased user agent, `webdriver` is unset and at least one plugin is reported |
| BotGate.IncludesInContext | pages/index.js:41 | an occurrence survives text added on either side |
| BotGate.BotStaysBot | pages/index.js:38-48 | text added around a bot's user agent never makes it pass |
| BotGate.CaseInsensitive | pages/index.js:39-41 | the heuristic gives the same answer for a user agent and its lowercase form |
| BotGate.CrawlerExample | pages/index.js:39-41 | sanity check: `Googlebot` is caught by the word `bot` |
| BotGate.FlagExamples | pages/index.js:43-45 | sanity check: with `webdriver` set, zero plugins or no plugin list, any user agent is a likely bot |
| Collector.Session.constructor | pages/index.js:26 | a new session's stored list is empty |
| Collector.Session.CheckRateLimit | pages/index.js:24-36 | allowed iff at most ten recent visits remain; a refusal leaves storage as it was; an allowance stores the recent visits followed by `now` (at most 11, all inside the window) |
| Collector.Session.SendData | pages/index.js:50-54 | a likely bot is blocked and storage is untouched, because `checkRateLimit` is never called; otherwise the result and the new storage are the window check's |
| Collector.SessionDecisionMatchesHistory | pages/index.js:27-31 | with a non-decreasing clock, a load that reaches the window check passes iff at most ten earlier loads passed in the trailing 60 000 ms |
| Collector.SessionWindowBound | pages/index.js:29-35 | with a non-decreasing clock, at most eleven page loads of one session pass in any trailing window |
| Terminal.PendingDelay | pages/index.js:100-104 | a timer is pending iff lines are left, and its delay is the next line's delay |
| Terminal.Tick | pages/index.js:100-104 | a firing keeps the reveal invariant (`lines` is the first `currentIndex` script lines, and `currentIndex` is at most 13); at the end it changes nothing; otherwise it advances by one line |
| Terminal.TicksFromStart | pages/index.js:99-108 | after `n` firings from mount, the first min(n, 13) script lines are shown |
| Terminal.RevealCompletes | pages/index.js:99-108 | after 13 or more firings the whole script is shown and no timer is pending |
| Terminal.TerminalView.constructor | pages/index.js:4-5 | the component mounts with no lines and index 0 |
| Terminal.TerminalView.NextDelay | pages/index.js:100-104 | a timer is scheduled exactly while lines are left, with the next line's delay; this is the decision `PendingDelay` gives for the current state |
| Terminal.TerminalView.Step | pages/index.js:101-104 | keeps the reveal invariant; before the end it appends `terminalLines[currentIndex]` and increments the index; at the end it changes nothing |

## Left out

- The outbound calls are not modelled: the address lookup (pages/index.js:57-58) and the webhook POST (api/track.js:58-62) are network I/O. The webhook appears only as the `webhookConfigured` and `forwardFails` flags. `Handle` returns the notification it would post.
- Building the visitor record from browser APIs (pages/index.js:60-80) is not modelled. These are reads of the browser environment; the relay takes the resulting body as a `Payload`.
- Date formatting is not modelled. `toLocaleString('tr-TR')` and `toISOString` (api/track.js:52, 54) are locale and clock libraries; their results are string parameters.
- JSON encoding and decoding are not modelled: of session storage, of the request and of the response. The stored visits are a `seq<int>`. A missing storage key and the list `[]` are not told apart; both read as `[]`. A non-numeric entry in storage is not modelled.
- Embed.BuildEmbed: the connection field takes `effectiveType` and `downlink` as already-rendered text, because `downlink` is a floating-point number. The colour depth is a natural number. Touch and cookie support are booleans, with a missing value read as false. Field values are assumed to be strings when present.
- Embed.Decimal: writes every natural number in plain decimal digits, while JavaScript writes numbers of 10^21 and above in exponent form (`1e+21`). A client can send such a colour depth, and the model then shows all digits, not the source's exponent text.
- Embed.UserAgentTruncation: counts characters as Unicode code points, while `substring` counts UTF-16 code units. The two differ only for characters outside the Basic Multilingual Plane.
- BotGate.ToLower: lowercases ASCII letters only, while `toLowerCase` applies full Unicode case mapping. The bot words are ASCII. A non-ASCII capital that lowercases to text containing one of them is not modelled.
- Concurrency is not modelled. Concurrent handler invocations can race on `requestCounts`; the model has one sequential caller.
- The choice of the source address between the forwarded-for header and the connection address (api/track.js:12) is not modelled. The address is an opaque string. The case where neither exists, so the key is `undefined`, is not modelled.
- React rendering, styling and animation (pages/index.js:110-189) are not modelled. The scheduling and cancelling of timers is not modelled either; each timer firing is an explicit `Step`.
- Console logging on a blocked request or an error is not modelled.

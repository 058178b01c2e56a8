# Gotify forwarder plugin — verified model

The plugin listens to every chat message the AstrBot host delivers. When a
message comes from a monitored user, is not blank and passes the keyword
filter, the plugin renders it through two configurable templates and posts
the result to a Gotify server as a push notification. Two chat commands come
with it: `gotify_test` posts a fixed test notification, and `gotify_status`
prints the configuration.

This project models in Dafny the decision and rendering pipeline of
`main.py`:

- the configuration check;
- the sender allow-list;
- the case-insensitive keyword filter, as a method with loops proved equal
  to a quantified specification;
- the order of the four gates in `on_message`;
- template rendering with its all-or-nothing fallback;
- the request that is posted (URL and query parameters);
- the line-by-line construction of the status report;
- the configuration gate of the test command.

Files and modules:

| file | module | contents |
|---|---|---|
| `wrappers.dfy` | `Wrappers` | `Option` |
| `text.dfy` | `Text` | the Python string operations the plugin uses, each with a partner |
| `templates.dfy` | `Templates` | templates as literal and `{name}` pieces, and rendering |
| `settings.dfy` | `Settings` | the configuration dictionary (every key optional) and its defaults |
| `filtering.dfy` | `Filtering` | configuration check, allow-list, keyword filter |
| `message.dfy` | `Message` | the chat event and the notification payload |
| `delivery.dfy` | `Delivery` | the request that is posted, and one send |
| `forwarder.dfy` | `Forwarder` | the `on_message` handler |
| `commands.dfy` | `Commands` | `gotify_test` and `gotify_status` |
| `scenarios.dfy` | `Scenarios` | concrete configurations worked end to end |

The model has no class: the only state the plugin changes is its HTTP
session, which is left out. The configuration is read-only and is passed to
every operation.

Each configuration key is an `Option`; a missing key takes the same default
`main.py` uses. These are: empty server and token, an empty user list, filter
off, the two default templates, priority 5 and logging on.

Three behaviours of `main.py` that a reader might not expect, all modelled
as written:

- The configuration check strips whitespace, so a server or token made only
  of blanks counts as missing (`main.py:74-78`).
- The send builds its URL from the raw, unstripped `gotify_server`
  (`main.py:160`). Surrounding whitespace therefore ends up in the URL, and a
  trailing `/` hidden behind a trailing blank is kept.
- The sender's display name is whatever the event reports
  (`main.py:121`). No per-platform name resolution appears in `main.py`.

## Model

| member | source | states |
|---|---|---|
| Text.TrimStart | main.py:74-75 | the result is a suffix of the input; what was dropped is all whitespace; the result does not start with whitespace |
| Text.TrimEnd | main.py:74-75 | the result is a prefix of the input; what was dropped is all whitespace; the result does not end with whitespace |
| Text.Strip | main.py:74-78 | `strip()` gives the empty string exactly when the input is blank |
| Text.StripRemovesOuterWhitespace | main.py:74-75 | `strip()` returns the input minus its leading and trailing whitespace, and the result starts and ends with non-whitespace |
| Text.StripIsUnique | main.py:74-75 | at most one string is the stripped form of a given string, so `Strip` is fully characterized |
| Text.TrimTrailingSlashes | main.py:160 | `rstrip('/')` keeps a prefix, drops only `/`, and leaves no trailing `/` |
| Text.TrimTrailingSlashesAbsorbsSlash | main.py:160 | one more trailing `/` does not change the result of `rstrip('/')` |
| Text.Lower | main.py:99-112 | lower-casing keeps the length, maps each ASCII capital to its small letter, keeps every other character and leaves no ASCII capital |
| Text.LowerIsIdempotent | main.py:99-104 | lower-casing twice equals lower-casing once |
| Text.LowerKeepsBlankness | main.py:51-55 | a text is blank exactly when its lower-cased form is |
| Text.Contains | main.py:103-113 | the substring test is true exactly when the needle occurs at some position of the haystack |
| Text.EmptyOccursEverywhere | main.py:104 | the empty string is a substring of every string |
| Text.Join | main.py:237 | joining no parts gives the empty string, and joining one part gives that part |
| Text.SplitJoin | main.py:237 | joining separator-free lines with a one-character separator and splitting again gives the lines back |
| Text.NatDigits | main.py:216 | decimal digits only, at least one, and a leading zero only as the single digit of 0 |
| Text.IntToString | main.py:89 | `str(n)` starts with `-` exactly for negative numbers and is spelled canonically: at least one digit, no leading zero, no `-0` |
| Text.ParseIntRoundTrip | main.py:216 | reading back `str(n)` gives `n` |
| Text.IntToStringIsInjective | main.py:89 | different integers have different decimal forms |
| Text.CanonicalIsIntToString | main.py:89 | a canonically spelled string that reads back as `n` is `str(n)` itself, so `str(n)` is the only canonical spelling of `n` |
| Text.Repeat | main.py:207 | `'=' * n` has length `n` and consists only of `=` |
| Templates.FieldNames | main.py:128-130 | exactly the names of the template's placeholders |
| Templates.Render | main.py:143-144 | `template.format(**vars)`, with no result for the `KeyError`; no contract of its own, characterised by `Templates.RenderSucceedsIffAllKnown` and `Templates.RenderConcat` |
| Templates.RenderSucceedsIffAllKnown | main.py:142-145 | `format(**vars)` succeeds exactly when every placeholder names a supplied variable (otherwise a `KeyError`) |
| Templates.RenderConcat | main.py:143-144 | rendering a concatenation concatenates the renderings, and fails when either half fails |
| Templates.RenderLiteralsOnly | main.py:143-144 | a template without placeholders renders the same whatever the variables |
| Settings.EntryString | main.py:89 | `str(entry)`: a text entry is unchanged; a numeric entry gives its canonical decimal spelling, which reads back as that number |
| Settings.EntryStrings | main.py:89 | the list comprehension maps every entry to its string form, in order |
| Filtering.CheckConfig | main.py:72-84 | true exactly when the stripped server and token are non-empty and the user list is non-empty; a missing key counts as empty |
| Filtering.IsMonitoredUser | main.py:86-89 | true exactly when some entry's string form equals the sender id; always false for a missing or empty list |
| Filtering.NumericEntryMatchesItsDecimalForm | main.py:89 | in a one-entry list holding a numeric entry, the sender is monitored exactly when its id spells the entry's decimal form |
| Filtering.Forwards | main.py:91-116 | the filter decision as one formula; no contract of its own, characterised by `Filtering.ShouldForwardMessage` and the four filter lemmas below |
| Filtering.ShouldForwardMessage | main.py:91-116 | the loops with early returns decide exactly the quantified rule `Forwards`: filter off passes all; otherwise no exclude keyword may match, and a non-empty include list needs one match |
| Filtering.DisabledFilterPassesEverything | main.py:93-97 | with `enable_filter` absent or false every text passes |
| Filtering.ExcludeWinsOverInclude | main.py:101-105 | a matching exclude keyword rejects the text even if an include keyword matches |
| Filtering.IncludeDecidesWithoutExcludeMatch | main.py:107-116 | with no exclude match, the text passes exactly when the include list is empty or one include keyword matches |
| Filtering.EmptyKeywordMatchesEverything | main.py:101-114 | an empty exclude keyword rejects every text; an empty include keyword admits every text not excluded |
| Filtering.FilterIgnoresCase | main.py:99-114 | lower-casing the text first does not change the decision |
| Message.Variables | main.py:133-139 | the variable dictionary has exactly the five names, binding the sender's name, the sender id, the message text, the timestamp and the platform |
| Message.FallbackTitle | main.py:148 | the title used after a `KeyError`; no contract of its own, tied to the default template by `Message.DefaultTitleRendersFallback` |
| Message.FallbackBody | main.py:149 | the body used after a `KeyError`; no contract of its own, tied to the default template by `Message.DefaultBodyRendersFallback` |
| Message.BuildMessage | main.py:118-155 | priority is `gotify_priority` (default 5); if both templates name only known variables, title and body are their renderings; otherwise both are the fallback strings |
| Message.DefaultTitleRendersFallback | main.py:128-148 | the default title template renders to the fallback title |
| Message.DefaultBodyRendersFallback | main.py:129-149 | the default body template renders to the fallback body |
| Message.DefaultTemplatesMatchFallback | main.py:127-155 | with no `message_template` configured, the payload is the fallback one |
| Message.UnknownFieldDiscardsBoth | main.py:142-149 | an unknown placeholder in the title sends the body to its fallback too |
| Delivery.Request.Params | main.py:164 | the query parameters are exactly `{"token": gotify_token}` |
| Delivery.EndpointUrl | main.py:160-163 | the URL is the server minus its trailing `/` run, followed by `/message` |
| Delivery.EndpointUrlIgnoresTrailingSlash | main.py:160 | a trailing `/` on the server does not change the URL |
| Delivery.BuildRequest | main.py:157-166 | a request exists exactly when `gotify_server` is present; it carries the endpoint URL, the raw token and the payload |
| Delivery.ValidConfigYieldsRequest | main.py:160-164 | after a passing configuration check a request always exists, and it carries the configured non-blank token |
| Delivery.SendToGotify | main.py:157-179 | at most one request is posted, and the call succeeds exactly when one was posted and Gotify accepted it |
| Forwarder.ShouldSend | main.py:39-58 | the four gates of `on_message` as one condition; no contract of its own, characterised by `Forwarder.OnMessage` |
| Forwarder.OnMessage | main.py:37-70 | the gates run in order (configuration, sender, blank text, filter) and the first one that fails decides the outcome; a send happens exactly when `ShouldSend` holds; the request is the rendered payload posted once to the endpoint; a filtered message is logged when logging is on, a blank one never; a success is logged when logging is on |
| Forwarder.UnmonitoredSenderIsNeverSent | main.py:46-47 | nothing is sent for a sender on no entry of the list, whatever the text |
| Forwarder.SendingIgnoresCase | main.py:51-116 | lower-casing the text does not change whether it is sent |
| Commands.TestPayload | main.py:189-193 | the fixed test notification, priority 5; no contract of its own, its use stated by `Commands.TestGotify` |
| Commands.TestGotify | main.py:181-200 | a failing configuration check gives the fixed refusal and posts nothing; otherwise the fixed test payload (priority 5) is posted once with the configured token, and the reply is the success message exactly when Gotify accepted it and the failure message when it refused |
| Commands.WithUserLines | main.py:218-219 | the user-list line, its label and the entries joined by `, `, is appended exactly when the list is non-empty; earlier lines are untouched |
| Commands.WithFilterLines | main.py:221-232 | the enabled line when filtering is on and the disabled line otherwise, then, only when it is on, the include line and then the exclude line, each present when its list is non-empty; earlier lines are untouched |
| Commands.ReportLines | main.py:205-235 | the `status_lines` list from the values `check_status` reads; no contract of its own, characterised by `Commands.ReportFrame` and the report lemmas below |
| Commands.StatusLines | main.py:205-235 | the `status_lines` list for a configuration; no contract of its own, characterised by `Commands.CheckStatus` and the `Status` lemmas below |
| Commands.CheckStatus | main.py:203-237 | the reply is the report's lines joined with newlines |
| Commands.HeadLinesAre | main.py:206-216 | the opening block is exactly five lines: the header, the rule, then the server, token and count lines |
| Commands.CountLineReadsBack | main.py:216 | the count line starts with its label and what follows reads back as the number of users |
| Commands.StatusOpensWithHeaderAndCount | main.py:205-216 | the report has at least eight lines: the header first, the rule of thirty `=` second, and the user count fifth |
| Commands.StatusLineCount | main.py:205-235 | eight lines, plus one for a non-empty user list, plus one for each non-empty keyword list when filtering is on |
| Commands.StatusHidesToken | main.py:211-215 | the token enters the report only as configured / not configured: tokens of the same blankness give the same report |
| Commands.StatusReplySplitsIntoLines | main.py:237 | if no configured value holds a newline, splitting the reply on newlines gives the report's lines back |
| Commands.StatusListsUsersIffAny | main.py:218-219 | a user-list line appears exactly when the user list is non-empty |
| Commands.StatusShowsServerAndToken | main.py:210-215 | the third line shows the stripped server, or 未配置 when it is blank; the fourth shows 已配置 when the token is non-blank and 未配置 otherwise |
| Commands.StatusClosesWithPriorityAndLogging | main.py:234-235 | the report's last two lines are the priority line with `gotify_priority` and then the logging line with the `enable_logging` toggle |
| Commands.StatusShowsFilterState | main.py:222-232 | the line after the user count, or after the user list when there is one, is the enabled line exactly when filtering is on and the disabled line otherwise |
| Commands.StatusShowsIncludesIffActive | main.py:222-228 | an include-keyword line appears exactly when filtering is on and the include list is non-empty |
| Commands.StatusShowsExcludesIffActive | main.py:222-230 | an exclude-keyword line appears exactly when filtering is on and the exclude list is non-empty |
| Scenarios.BasicIsValid | main.py:72-84 | a server, a token and one user pass the configuration check |
| Scenarios.MonitoredTextIsSent | main.py:39-64 | with no filter, any non-blank message from user 42 is sent |
| Scenarios.MonitoredHelloPayload | main.py:127-155 | Alice's "hello" gets the title "来自 Alice 的消息", the default body and priority 5 |
| Scenarios.MonitoredHelloRequest | main.py:157-164 | the request goes to `https://g.example/message` with token `tok` |
| Scenarios.OtherSenderIsIgnored | main.py:46-47 | sender 99 is never sent |
| Scenarios.NumericEntryMatchesOnlyDecimalForm | main.py:89 | a numeric entry 42 matches "42" and not "042" |
| Scenarios.ExcludedWordBlocksIncludedWord | main.py:99-105 | "Buy SPAM now" is rejected by exclude "spam" although include "buy" matches |
| Scenarios.EmptyListStatus | main.py:216-219 | with no users, the count line reads 0 and there is no list line |

## Left out

- The HTTP session lifecycle in `initialize` and `terminate` (main.py:17-32). This is resource management with no decision logic. The start-up warning there only logs.
- The POST itself and the handling of its response (main.py:166-179). These are network I/O. Whether Gotify accepted a request (status 200, no exception) is a boolean parameter `accepted`. There is exactly one attempt and no retry.
- Logging (every `logger` call). Logs are side effects only. The model records in `Forwarder.Handling` whether an info line is written.
- The outer `except Exception` of `on_message` (main.py:69-70). Every path the model covers completes without raising.
- Async generators and `yield event.plain_result`. A command's reply is returned as a string.
- The wall clock (`datetime.now()`, main.py:124, main.py:191). The formatted timestamp is an input string.
- Text.Lower: only ASCII capitals are lowered, and each character maps to one character. Python's `str.lower()` also lowers non-ASCII characters, some of them to ASCII letters (U+212A KELVIN SIGN becomes `k`) or to two characters (U+0130 becomes `i` followed by U+0307). The keyword filter's decision can therefore differ from `main.py`'s whenever the text or a keyword holds a non-ASCII character that `str.lower()` changes, even for an ASCII keyword: the model forwards a text made of U+212A alone past the exclude keyword `k`, which `main.py` rejects.
- Templates.RenderSucceedsIffAllKnown: covers only plain `{name}` placeholders. Not modelled: `{{` and `}}` escapes, format specs and conversions, attribute or index access, positional fields (an `IndexError`), and malformed braces (a `ValueError`). Those errors are not caught by `_build_message`.
- Settings.EntryString: entries of `monitored_users` are integers or strings. Booleans, floats and other JSON values are not modelled.
- Configuration values of the wrong type (say a server that is a number) would raise inside `on_message`. They are not modelled: every key holds a value of its documented type or is absent.
- Per-platform display-name probing and a debug command. Neither appears in `main.py`, so the sender name is the one the event reports.

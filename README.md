# github-activity: a verified model of the activity formatter

`github-activity` is a command-line tool. It takes a GitHub user name,
fetches that user's recent public events from
`https://api.github.com/users/<name>/events`, and prints one
human-readable line per event, for example
`- Pushed 2 commits to octo/repo` or `- Opened issue #12 in octo/repo`.

This Dafny project models the tool's one source file, `src/main.rs`:

- `Json`: the already-parsed payload value (`serde_json::Value`), with the
  lookups the formatter uses on it (`get`, `as_str`, `as_array`, `as_u64`).
- `Activity`: the event record and `format_activity`, which has twelve
  recognised event types and a catch-all. Also `capitalize_first_letter`
  and the field-with-fallback chains
  (`get(..).and_then(..).unwrap_or(..)`).
  - The formatter's single `match` on the type string is split into two
    steps: `KindOf` picks the arm, and `Describe` builds its text.
    `FormatActivity` is the composition of the two.
  - Every arm builds its text from the same pieces, in the same order, as
    the corresponding `format!`.
- `Fetch`: the status-code decision of `fetch_user_activity`, the request
  URL, and the error messages.
- `Cli`: what `main` prints. On success it prints the "no activity" line,
  or a header, a blank line and one `- ` line per event. On failure it
  prints one `Error:` line and exits with code 1. The report loop is a
  method with a loop invariant. It is proved equal to the report function.
- `Text`: the decimal rendering that `{}` gives an unsigned integer, and
  the substring relation.
- `Wrappers`: `Option` and `Result`.

Formatting is total. No function of the formatter has a precondition on
the event: every field it reads falls back to a default when the field is
missing or has the wrong JSON type, exactly as the source does.

## Model

| member | source | states |
|---|---|---|
| Activity.FormatActivity | src/main.rs:87-214 | No contract of its own: the formatter is the composition of `KindOf` and `Describe`. `CatchAllIffUnrecognised`, `MentionsRepository` and `UnrecognisedKindLine` specify it. |
| Activity.Describe | src/main.rs:89-212 | No contract of its own: one arm per kind, built from the same pieces as the corresponding `format!`. `DefaultsWhenFieldsAbsent`, `ActionLeadsLine`, `NumberEndsLine`, `PushSingularIff`, `PushLineInjective` and `CreateLine` specify it. |
| Activity.KindOf | src/main.rs:88-212 | The arm an event-type string selects is named by that string. It is the catch-all exactly when the string is not one of the twelve recognised types. |
| Activity.KindOfKindName | src/main.rs:88-209 | Each recognised arm is selected by its own type string and no other arm is. |
| Activity.ToUppercase | src/main.rs:220 | Upper-casing one character gives one character that is not a lower-case letter. A lower-case letter becomes its capital. Any other character is kept. |
| Activity.CapitalizeFirstLetter | src/main.rs:216-222 | The length is kept. Everything after the first character is kept. The first character becomes its capital and is never lower case afterwards. The empty string stays empty. |
| Activity.CapitalizeIdentity | src/main.rs:216-222 | Capitalising leaves a string unchanged if and only if it is empty or does not start with a lower-case letter. |
| Activity.CapitalizeIdempotent | src/main.rs:216-222 | Capitalising twice is the same as capitalising once. |
| Activity.CapitalizeExamples | src/main.rs:216-222 | "created" becomes "Created". "" and "Merged" are unchanged. |
| Activity.StrOr | src/main.rs:130-132 | A string field gives its text when the value is a JSON string. It gives the default when the field is absent or holds any other type. |
| Activity.U64Or0 | src/main.rs:146-148 | A number field gives its value when it is an integer in the unsigned 64-bit range. Otherwise it gives 0. A non-zero result always comes from such an integer. |
| Activity.CommitCount | src/main.rs:90-93 | The commit count is the length of `commits` when it is an array, and 0 otherwise. |
| Activity.PushSingularIff | src/main.rs:89-98 | A push line reads "Pushed 1 commit to <repo>" if and only if the payload's `commits` is an array of exactly one element. Any other payload gives the plural. |
| Activity.PushExamples | src/main.rs:89-98 | Zero, one and two commits give "0 commits", "1 commit" and "2 commits". A non-array `commits` counts as zero. |
| Activity.PushLineInjective | src/main.rs:94-97 | Equal push lines have equal commit counts and equal repositories, so both can be read back from the line. |
| Activity.CreateLine | src/main.rs:99-119 | A missing, non-string or "repository" `ref_type` gives "Created repository". "branch" and "tag" name the `ref`, which defaults to "unknown". Any other string is printed as the created thing. |
| Activity.DefaultsWhenFieldsAbsent | src/main.rs:87-213 | When the payload has none of the keys that kind reads (any other keys may be present), every kind prints its template with its defaults filled in. These are 0 commits, "repository", "branch", "unknown", the default action capitalised, and number 0. For example, a watch event whose payload holds only `action` still reads "Starred <repo>". |
| Activity.ActionLeadsLine | src/main.rs:129-209 | For the six action-bearing kinds, the line starts with the capitalised action (the payload's own or the kind's default), followed by a space. |
| Activity.NumberEndsLine | src/main.rs:129-209 | For issue, pull-request, comment and review events, the line ends with "#", the decimal number read from that kind's own field (0 when absent), " in " and the repository. |
| Activity.UnrecognisedKindLine | src/main.rs:210-212 | An unrecognised type is reported verbatim as "Performed <type> in <repository>". This is the reverse half of `CatchAllIffUnrecognised`, stated on its own as a corollary. |
| Activity.MentionsRepository | src/main.rs:87-213 | Every line, for every event, contains the repository name. |
| Activity.CatchAllIffUnrecognised | src/main.rs:87-213 | A line reads "Performed <type> in <repository>" if and only if the type is not one of the twelve recognised ones. No recognised arm can produce the catch-all text with its own type, whatever its payload. |
| Fetch.EventsUrl | src/main.rs:61 | The URL is the users endpoint, the user name unescaped, then "/events". The name can be cut back out of the URL. |
| Fetch.EventsUrlInjective | src/main.rs:61 | Different user names give different URLs. This is a corollary of the last clause of `EventsUrl`. |
| Fetch.FetchUserActivity | src/main.rs:60-85 | The fetch succeeds exactly on status 200 with a decodable body, and then yields that body's events. A send failure, a decode failure, 404 (user not found, naming the user), 403 (rate limit) and any other status (kept with its reason phrase) each give their own error. |
| Fetch.NotFoundNamesUser | src/main.rs:75-77 | The not-found message contains the user name asked about. |
| Fetch.ErrorMessage | src/main.rs:75-83 | No contract of its own: the text of each failure. `NotFoundNamesUser`, `StatusMessageRoundTrip`, `StatusMessageInjective` and `StatusMessageExamples` specify it. |
| Fetch.StatusMessageRoundTrip | src/main.rs:81-83 | The unexpected-status message is the fixed prefix, three digits whose value is the status, a space, then the reason phrase. The phrase is the canonical one, or "<unknown status code>" when there is none. |
| Fetch.StatusMessageInjective | src/main.rs:81-83 | Equal unexpected-status messages have the same status and the same reason phrase. |
| Fetch.StatusMessageExamples | src/main.rs:81-83 | 500 with its phrase reads "... status: 500 Internal Server Error". A status without a phrase reads "... status: 599 <unknown status code>". |
| Cli.EventLines | src/main.rs:46-48 | There is one line per event, in the order received. Line i is "- " followed by the description of event i. |
| Cli.ReportLines | src/main.rs:41-49 | The report has exactly one line if and only if there are no events, and that line is the "No recent activity" line. Otherwise it has the header, a blank line, then each event's line in order: two more lines than events. |
| Cli.PrintReport | src/main.rs:41-49 | The loop over the events prints exactly the report. |
| Cli.Run | src/main.rs:39-55 | Exit code 0 happens exactly when the fetch succeeds. Standard output then holds the report and standard error is empty. On failure standard output is empty, standard error holds the single line "Error: <message>", and the exit code is 1. |
| Cli.EndToEndExamples | src/main.rs:39-55 | A feed with one two-commit push prints "- Pushed 2 commits to octo/repo" after the header. An empty feed prints only the no-activity line. 404 and 403 give the not-found and rate-limit errors. |
| Text.NatToString | src/main.rs:94-97 | A count or number prints as at least one decimal digit, with no leading zero except for 0 itself. |
| Text.NatToStringRoundTrip | src/main.rs:94-97 | Reading the printed digits back gives the number. |
| Text.NatToStringInjective | src/main.rs:137-140 | Distinct numbers print as distinct texts. |

## Left out

- The HTTP request: the `reqwest` client, the `User-Agent` header and `send`. What the network returned comes in as an `Exchange` parameter: either a send failure, or a status plus the outcome of decoding the body.
- Decoding the body into events (`serde`). A body that does not decode is carried as an opaque error text. Decoding is a library call whose rules are not part of this model.
- The client library's table of canonical reason phrases is not modelled. The phrase for the received status, if the library knows one, arrives with the `Exchange`. Transport and decoding messages are opaque texts.
- Command-line parsing (`clap`) and the `tokio` runtime. The user name is a parameter.
- `created_at` is not in the model, because the formatter never reads it. The actor's login is kept but, as in the source, never printed.
- `Activity.ToUppercase`: upper-cases ASCII letters only. Rust's `char::to_uppercase` also maps non-ASCII letters and can return several characters (for example "ß" gives "SS"). The model keeps every non-ASCII character unchanged.
- `Activity.CapitalizeFirstLetter`: inherits the ASCII-only restriction of `ToUppercase`, so a first character is changed only when it is `a`..`z`.
- `Json.Number` holds any integer. The parser stores integers only up to 64 bits and stores larger ones as floats. `as_u64` gives the same answer for every value the parser can produce: an integer in 0..2^64-1, and nothing otherwise.
- `Cli.PrintReport` returns the printed lines as a sequence. Interleaving with standard error and buffering are not modelled. The loop collects the event lines and then places the header and blank line in front, which leaves the printed sequence unchanged.
- `Cli.Run` models `std::process::exit(1)` as exit code 1 and a normal return as exit code 0.

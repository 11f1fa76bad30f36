# aqua-events-go: the audit-to-Slack formatter

A Dafny model of the decision layer of aqua-events-go, a small service that receives audit
events from Aqua Security and relays them to a Slack webhook. The model covers:

- the **classifier**: which template `Format` renders for an audit, chosen by result code
  (1 = success, 2 = block, 3 = detect, 4 = alert), category and type, with fixed precedence;
- the **attachment colour**, which depends on the result code alone. A result code outside 1..4
  leaves the colour of the previous call, because the Go `Message` keeps its attachment between
  calls;
- the **captions** (the attachment's author-subname line). These include the vulnerability total
  `Critical+High+Medium+Low`, computed as Go `int` arithmetic that wraps at 64 bits, and the
  policy status phrase;
- the **failed-controls list**, joined with ", ";
- the **suppression decision** of `ProcessAudit`. It maps the result code to a keyword and looks
  that keyword up in the ignore list with `sliceContains`, which trims the key with
  `strings.TrimSpace` but leaves the list entries as they are.

Modules:

- `Slack` (`slack.dfy`) models `src/slack/slack.go`.
- `SlackProperties` (`slack_properties.dfy`) holds the lemmas that relate several calls or inputs.
- `Aqua` (`aqua.dfy`) holds the audit record of `src/aqua/audit.go`.
- `Controls` (`controls.dfy`) holds the failed-controls join, and a split that gives back the
  names when there is at least one name and none contains a comma.
- `GoInt` (`go_int.dfy`) and `GoStrings` (`go_strings.dfy`) model the parts of Go's runtime that
  this code relies on: 64-bit `int` wrap-around, `%d` rendering, `unicode.IsSpace` and
  `strings.TrimSpace`.
- `Optional` (`optional.dfy`) defines `Option`.

The classifier has two definitions. `Classify` is an independent first-match rule table.
`Format` follows the source's nested `if`s, with one function per result code
(`FormatSuccess`, `FormatDetect`, `FormatBlock`, `FormatAlert`). The contract of `Format` states that the branch it
takes is the one `Classify` picks.

Three behaviours of the code are easy to misread; the model treats them as follows:

- An audit with a result code outside 1..4 is not dropped. `Format` leaves its text empty and its
  caption at the default "AquaEvents". `ProcessAudit` never suppresses it, so it is posted
  (`UnknownResultIsPosted`).
- A blocked runtime event prints the response label "Detect" (`BlockedEventSaysDetect`). The model
  keeps this as written.
- `audit.Data` is declared as a struct (`src/aqua/audit.go:14`), but `Format` unmarshals it as a
  string, and does so twice (`slack.go:143`, `slack.go:156`). The model takes the struct as
  already decoded, and both unmarshals as yielding that one value.

## Model

| member | source | states |
|---|---|---|
| Slack.Classify | src/slack/slack.go:83-181 | The precedence of the templates. For success, Administration type comes first, then CVE type or category, then Docker type or container/image category. Detect has CVE, then container/file/secret. Block has container/file/secret only. Alert has image only. Everything else with a result code in 1..4 is the raw dump; any other result code gets no template. Each case, the raw dump included, is stated as an if-and-only-if over the fields. |
| Slack.FormatSuccess | src/slack/slack.go:83-106 | The success branch renders exactly the text and caption of the template `Classify` picks, and leaves every other attachment field as it was. |
| Slack.FormatDetect | src/slack/slack.go:107-126 | The detect branch renders exactly the text and caption of the template `Classify` picks, and leaves every other attachment field as it was. |
| Slack.FormatBlock | src/slack/slack.go:127-140 | The block branch renders exactly the text and caption of the template `Classify` picks, and leaves every other attachment field as it was. |
| Slack.FormatAlert | src/slack/slack.go:141-180 | The alert branch renders exactly the text and caption of the template `Classify` picks, and leaves every other attachment field as it was. |
| Slack.Format | src/slack/slack.go:73-188 | The static author fields are always set. The colour is good for 1, warning for 3 and danger for 2 and 4; any other code keeps the previous colour. The text and caption are those of the branch `Classify` picks: the template with its response label (and, for the alert template, the joined controls), the raw dump, or an empty text with the default caption. The returned webhook message holds exactly the updated attachment, and the webhook and ignore list are untouched. |
| SlackProperties.ColorDependsOnlyOnResult | src/slack/slack.go:83-148 | Two audits with equal result codes get equal colours, whatever their other fields. |
| SlackProperties.UnknownResultKeepsPreviousColor | src/slack/slack.go:78-83 | After any previous call, an audit with an unknown result code keeps that call's colour, gets an empty text and gets the default caption. |
| SlackProperties.AdministrationOutranksCve | src/slack/slack.go:85-89 | A success audit of type Administration and category CVE gets the administration template and the administration caption. |
| SlackProperties.BlockedEventSaysDetect | src/slack/slack.go:127-133 | A blocked container/file/secret event gets the runtime template with the label "Detect" and the colour danger. |
| Slack.SeverityTotal | src/slack/slack.go:113-114 | The total differs from the exact sum of the four severity counts by a multiple of 2^64, as Go's 64-bit `int` addition does; when the sum fits in int64, it is exactly the sum. |
| GoInt.Add | src/slack/slack.go:114 | One Go `int` addition is exact when the sum fits in int64, and otherwise is off by exactly 2^64 in one direction. |
| GoInt.AddFour | src/slack/slack.go:114 | Three wrapping additions in a row differ from the exact sum of the four operands by a multiple of 2^64, and equal it when it fits. |
| GoInt.FormatInt | src/slack/slack.go:113 | The `%d` rendering: a minus sign exactly for negative numbers, then decimal digits with no leading zero; zero prints as "0". |
| GoInt.FormatIntRoundTrip | src/slack/slack.go:113 | The `%d` rendering of an integer reads back as the same integer. |
| SlackProperties.VulnerabilityCaptionReportsTotal | src/slack/slack.go:109-114 | The detect caption of a CVE scan names the image and the registry. Its number reads back as the wrapped sum of the severity counts, and as exactly the sum when that fits. |
| Slack.StatusPhrase | src/slack/slack.go:149-154 | The phrase is "non-compliant container(s) already running" exactly when blocking and pending both hold; otherwise it is "non-compliant". |
| SlackProperties.StatusCaptionSuffix | src/slack/slack.go:149-154 | A status caption ends with "already running" if and only if the data is blocking and pending, whatever the image name. |
| SlackProperties.PolicyCaptionReportsRunningContainers | src/slack/slack.go:149-173 | The alert caption of an image ends with "already running" if and only if blocking and pending both hold; otherwise it reads "Image <name> is non-compliant". |
| SlackProperties.PolicyTextCarriesControls | src/slack/slack.go:162-172 | The alert text of an image carries the template, the label "Alert" and the joined failed controls. |
| Controls.JoinControlsCons | src/slack/slack.go:162-169 | The join built from the back, as the loop builds it, equals the join from the front: the first name, then ", ", then the rest joined. |
| Controls.JoinControls | src/slack/slack.go:162-169 | The join of no names is "". Its contents are stated by `JoinControlsCons`, `JoinControlsEnds` and `SplitJoinRoundTrip`. |
| Controls.JoinControlsEnds | src/slack/slack.go:162-169 | A non-empty join starts with the first name and ends with the last. An empty first or last name therefore leaves a leading ", " or a trailing ", " (["", "a"] joins to ", a"). |
| Controls.SplitJoinRoundTrip | src/slack/slack.go:162-169 | A non-empty list of names without commas splits back from its join into the same names, in the same order. So the join keeps all contents and order, with no extra separators. |
| Controls.EmptyControlsAmbiguous | src/slack/slack.go:162-169 | The empty list and the list holding one empty name both join to "". |
| Slack.Contains | src/slack/slack.go:192-197 | True exactly when some list entry equals the word. |
| Slack.SliceContains | src/slack/slack.go:191-197 | True exactly when some list entry equals the key with its surrounding white space trimmed. |
| SlackProperties.EntriesAreNotTrimmed | src/slack/slack.go:191-197 | Only the key is trimmed. A key with no white space at its ends matches exactly the entries equal to it, so an entry with surrounding spaces or in another letter case does not match. |
| SlackProperties.PaddedKeyMatches | src/slack/slack.go:191-197 | A key padded with white space on either side matches exactly the entries equal to the bare key. |
| Slack.KeywordIsTrimmed | src/slack/slack.go:40-64 | Each keyword looked up for a result code ("block", "success", "detect", "alert") is unchanged by trimming. |
| Slack.ProcessAudit | src/slack/slack.go:35-71 | Nothing is posted if and only if the result code has a keyword and that keyword is an entry of the ignore list. Otherwise the posted message holds exactly the formatted attachment. The message state is updated as `Format` updates it, whether or not anything is posted. |
| SlackProperties.UnknownResultIsPosted | src/slack/slack.go:35-71 | An audit with an unknown result code is always posted, with an empty text. |
| SlackProperties.BlockEntrySuppressesBlocks | src/slack/slack.go:40-45 | With the ignore list ["block"], exactly the block events are suppressed. |
| SlackProperties.CleanScanExample | src/slack/slack.go:89-94 | A success scan of nginx:latest from docker.io gets the caption "Scan of image nginx:latest from registry docker.io revealed no security issues" and the colour good. |
| GoStrings.IsSpace | src/slack/slack.go:193 | The white space `strings.TrimSpace` removes: within Latin-1 exactly tab, newline, vertical tab, form feed, carriage return, space, U+0085 and U+00A0. |
| GoStrings.IsSpaceIsWhiteSpace | src/slack/slack.go:193 | A character is white space exactly when it lies in one of the ranges of Unicode's White_Space property. |
| GoStrings.TrimSpace | src/slack/slack.go:193 | The result neither starts nor ends with white space. It is a contiguous part of the key, starting at the first non-space character, and everything cut off on either side is white space. |
| GoStrings.TrimSpaceNoOp | src/slack/slack.go:193 | A key with no white space at either end is left unchanged. |
| GoStrings.TrimSpaceIdempotent | src/slack/slack.go:193 | Trimming twice gives the same result as trimming once. |
| GoStrings.TrimSpacePadding | src/slack/slack.go:193 | Trimming a word padded with white space gives back exactly the word. |

## Left out

- Posting to the webhook (`slack.PostWebhook`) and all logging are network and log I/O. The model
  only records which message would be posted.
- `json.Marshal` of the fallback body is represented by the opaque text `RawDump`.
- `json.Unmarshal` of the alert data is left out: the policy data is taken as already decoded. A
  decode failure, which would leave a zero or partially filled `Data`, is not modelled.
- Timestamps are left out: the RFC 822 rendering of `audit.Time` and the attachment's `Ts` from
  `time.Now()` depend on the wall clock and Go's time formatting.
- The multi-line text bodies produced by `fmt.Sprintf` are abstracted. Each records its template,
  its response label and, for the alert template, the joined failed controls.
- `splitBadData` only logs, so it has no observable result.
- The unused `AuthorLink` constant is left out, and so are the attachment fields `Format` never
  sets.
- The `strings.TrimSuffix` call in the controls join discards its result, so it is not modelled.
- Strings are sequences of Unicode scalar values. How `TrimSpace` treats invalid UTF-8 bytes is
  not modelled.
- Go's `int` is modelled as 64 bits wide: the model assumes a 64-bit platform.
- Slack.Format: states the template, the label and the controls of the text, not its full
  rendered layout.
- Calls on one `Message` are taken to run one at a time. `ProcessAudit` and `Format` change the
  shared attachment through a pointer receiver, so concurrent calls on the same `Message` would
  race; the colour carried over from one call to the next assumes they do not.
- Controls.JoinControls: its own contract states only the empty case; its contents are stated by
  `JoinControlsCons`, `JoinControlsEnds` and `SplitJoinRoundTrip`.

# slackpost-lambda, modelled in Dafny

The program is an AWS Lambda function. It receives an SNS event whose first
record carries a CloudWatch alarm-state change as JSON text. It decodes that
text and builds a Slack message with one attachment. It then POSTs the
message to the webhook named by `SLACK_WEBHOOK`.

The model has three modules:

- `GoBytes` (`bytes.dfy`): Go strings as byte sequences, `Option` for values
  that may be nil, and `Ascii` for string literals.
- `UrlPath` (`path_escape.dfy`): Go's `url.PathEscape`, which the link
  construction calls. It is modelled as a byte-wise percent-encoder for one
  path segment, using the `%XX` form of section 2.1 of RFC 3986. The bytes it
  keeps are those of Go's `shouldEscape(c, encodePathSegment)`: letters,
  digits, `- _ . ~` and `$ & + : = @`. That set is a subset of what section 3.3
  of RFC 3986 lets a segment carry unescaped. Every other byte becomes `%` and
  two upper-case hex digits. Go's `net/url` is not part of this model.
  `PathUnescape` is the standard percent-decoder, after Go's
  `url.PathUnescape`. It serves as the inverse of the encoder.
- `SlackPost` (`slackpost.dfy`): the types of `slackpost.go`,
  `buildSlackMessage` as the function `BuildSlackMessage`, and the return-value
  logic of `postToSlack` and `handler` as `PostToSlack` and `Handler`. The steps
  that touch the outside world are the fields of an `Env` value. Each one
  either yields a value or fails with an opaque `Error`. The steps are: JSON
  decoding, JSON encoding, the value of `SLACK_WEBHOOK`, building the request,
  and sending it. `PostToSlack` reports what it returns, plus the request it
  handed to the HTTP client. `Handler` reports what it returns, plus the call
  it made to `postToSlack` (its argument and its result).

Behaviour of the code worth noting:

- The value of `SLACK_WEBHOOK` is passed to request building unchecked,
  even when it is empty.
- A request with no records makes the read of record 0 panic, so `Handler`
  requires a record.
- A non-200 status is not returned as an error; line 114 only prints the
  code. At `slackpost.go:115` the function returns `err`, which the successful
  `client.Do` has just set to nil. `NonOkStatusReturnsNil` states this.

## Model

| member | source | states |
|---|---|---|
| `UrlPath.PathEscape` | slackpost.go:75 | each escaped byte adds two to the length; the output holds only segment-safe bytes and `%`, so (with `SegmentEndersEscaped`) never `/`, `?` or `#` |
| `UrlPath.SegmentEndersEscaped` | slackpost.go:75 | `/`, `?` and `#` are never segment-safe, so they never appear unescaped in an escaped name |
| `UrlPath.UnescapeEscape` | slackpost.go:75 | decoding the escaped name gives back exactly the name, for every byte string |
| `UrlPath.EscapeInjective` | slackpost.go:75 | two different names never escape to the same text |
| `UrlPath.EscapeIdentity` | slackpost.go:75 | escaping leaves a name unchanged if and only if every byte of it is segment-safe |
| `UrlPath.AlnumUnchanged` | slackpost.go:75 | a name made only of ASCII letters and digits is not changed by escaping |
| `SlackPost.BuildSlackMessage` | slackpost.go:69-93 | the message has empty top-level text and exactly one attachment |
| `SlackPost.AlarmOfBuild` | slackpost.go:69-93 | name, description, reason, previous state and region can all be read back from the message; only the new state is lost |
| `SlackPost.NewStateIgnored` | slackpost.go:69-93 | changing `NewStateValue` does not change the message |
| `SlackPost.ColorAndAuthorFixed` | slackpost.go:72-90 | the color is `"danger"` and the author name is empty, for every alarm |
| `SlackPost.TitleAndBody` | slackpost.go:74-76 | the title is exactly `AlarmName` and the body is exactly `NewStateReason` |
| `SlackPost.PretextQuotesDescription` | slackpost.go:73 | the pretext is a backtick, then the description, then a backtick, so its length is the description's plus two |
| `SlackPost.FieldsAreRegionThenPreviousState` | slackpost.go:78-89 | the fields are exactly `Region` with the region, then `Previous State` with the old state, both short, and nothing else |
| `SlackPost.TitleLinkDecodesToName` | slackpost.go:75 | the link is the console prefix followed by a segment of segment-safe bytes and `%` (so, with `SegmentEndersEscaped`, no `/`, `?` or `#`) that decodes to exactly the alarm name |
| `SlackPost.AlnumNameInLink` | slackpost.go:75 | an alarm name of ASCII letters and digits appears in the link as it is |
| `SlackPost.LinksTellAlarmsApart` | slackpost.go:75 | alarms with different names get different links |
| `SlackPost.HighCpuExample` | slackpost.go:69-93 | the alarm `high-cpu` in `us-east-1` gives title `high-cpu`, an unescaped link, color `danger` and the fields Region=us-east-1, Previous State=OK |
| `SlackPost.SpaceAndSlashExample` | slackpost.go:75 | the name `a b/c` becomes `a%20b%2Fc` in the link |
| `SlackPost.PostToSlack` | slackpost.go:95-119 | postToSlack returns nil only after a request was handed to the client |
| `SlackPost.PostFailsOnlyOnStepError` | slackpost.go:97-118 | a marshal, request-build or transport error is returned unchanged; once sending succeeds, the result is nil whatever the status |
| `SlackPost.NonOkStatusReturnsNil` | slackpost.go:113-116 | a response with a status other than 200 still makes postToSlack return nil |
| `SlackPost.SentRequestIsThePost` | slackpost.go:97-107 | a request is sent if and only if marshalling and request building succeed; it is the POST of the encoded message to the unchecked `SLACK_WEBHOOK` value |
| `SlackPost.Handler` | slackpost.go:55-67 | handler posts if and only if decoding succeeds, and returns an error if and only if it did not post |
| `SlackPost.DecodeErrorAborts` | slackpost.go:56-60 | a decode error is returned unchanged and postToSlack is never called |
| `SlackPost.PostResultIgnored` | slackpost.go:63-66 | after a successful decode, the built message is posted once and handler returns nil, whatever postToSlack returned |
| `SlackPost.OnlyFirstRecordRead` | slackpost.go:57 | records after the first make no difference to handler |

## Left out

- JSON decoding and encoding (`encoding/json`, slackpost.go:57, 97): these are library calls, modelled as the abstract `Env.unmarshal` and `Env.marshal` steps. Which inputs fail to decode, and the wire form of the message, are not modelled.
- The HTTP client, request construction and response handling (slackpost.go:96, 102-111): network I/O, modelled as the abstract `Env.newRequest` and `Env.send` steps. Closing the response body is not modelled.
- `os.Getenv("SLACK_WEBHOOK")` (slackpost.go:102): environment access, modelled as the value `Env.slackWebhook`.
- Logging and `fmt.Println` (slackpost.go:62, 65, 114): side-channel output only.
- `main` and `lambda.Start` (slackpost.go:121-123): runtime wiring.
- The envelope fields `Type` and `Timestamp` (slackpost.go:18-19): nothing reads them.
- The panic on a request with no records (slackpost.go:57): modelled as the precondition of `Handler`, not as an outcome.
- `UrlPath.PathUnescape`: returns None for a malformed escape. It does not model the text of Go's `EscapeError`.

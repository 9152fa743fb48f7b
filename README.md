# end2end: a verified model of the request builders and the metrics accumulator

`end2end` is a small Go helper for HTTP end-to-end tests. A test builds a request
with a chain of calls, can attach an expected status code and a destination for
the decoded body, and then runs the call. Every v2 call that gets a response also
pushes a timing record onto a process-wide channel; the legacy `Requester` pushes
nothing. One background consumer drains that channel into a
running `Metrics` accumulator. This project models three parts of it in Dafny:

- **The metrics accumulator** (`v2/metrics.go`), in `metrics.dfy`. `Metrics` is a
  class whose five fields are updated record by record. `Record` is the loop
  body. `Collect` is the drain, run sequentially: it takes the closed channel's
  records in arrival order, folds them in, then gives the completion signal.
  The fields are specified by the pure fold `Accumulate` (built from `Step`).
  The lemmas prove what the fold means: the count, the exact sum, the maximum,
  the earliest slowest endpoint, and the minimum under its "0 means unset" rule.
  Go's `int64` wrap-around on `++` and `+=` is modelled explicitly in `int64.dfy`.
- **The v2 builder and its response check** (`v2/request.go`), in `request_v2.dfy`.
  A `Request` struct is copied by value, but every copy holds the same
  `*http.Request` pointer. So the `*http.Request` is a class (`Http.Request`, in
  `http.dfy`), and the builder steps that touch headers or the query declare
  `modifies` on it. `Headers` and `Params` loop over a Go map in an arbitrary
  order; the loops are verified against an order-independent specification
  (for `Headers`, on keys that are distinct after Go's case canonicalisation,
  see "Left out").
  The status and content-type decision of `RequestExpectant.Call` is a pure
  function (`ExpectantPlan`). `CallExpectant` follows the source's control flow
  step by step and is proved to agree with that function.
- **The legacy builder** (`request.go`), in `requester.dfy`. It has its own decision
  function (`RequesterPlan`) and control flow (`Call`). A lemma states exactly
  where the two decisions disagree.

`outcomes.dfy` holds the vocabulary the two decisions share. `Outcome` says how a
call ends: it returns, it is fatal with a cause, or it panics. `Exchange` holds
the verdicts of the transport and the codecs. `Carry` carries out a plan.

Three behaviours of the code are easy to miss; the model follows the code:

- The code does not give builder values independent copies of the request: all
  copies alias one `*http.Request` (see `RequestV2.CopiesShareTheRequest`).
- In v2, a nil destination returns early only when the status matches, and a
  status mismatch is fatal even with a nil destination
  (`RequestV2.MismatchIsFatal`). The legacy `Requester` returns for a nil
  destination without looking at the status.
- A 0-ms duration is read as "unset": the next record replaces the minimum
  whatever its value (`Metrics.ZeroMinimumIsReplaced`). So, with non-negative
  durations (as elapsed times are), the minimum is taken only over the records
  after the last 0-ms one
  (`Metrics.MinIsLowestSinceLastZero`), so a 0-ms record followed by a 40-ms
  one leaves the minimum at 40.

## Model

| member | source | states |
|---|---|---|
| Int64.Wrap | v2/metrics.go:23-24 | the int64 a Go integer result truncates to: in range and congruent to it modulo 2^64, equal to it when it fits |
| Int64.Add | v2/metrics.go:24 | Go int64 addition: exact when the sum fits, otherwise congruent modulo 2^64 |
| Int64.WrapThenAdd | v2/metrics.go:23-24 | a running int64 sum wrapped at every step equals the wrapped exact sum |
| Metrics.Step | v2/metrics.go:23-33 | one record raises the count by one (when it does not overflow); the maximum never falls and covers the new duration, and when it moves the slowest endpoint becomes the record's; the minimum either stays or becomes the new duration, and once set it never rises and covers the new duration |
| Metrics.Accumulate | v2/metrics.go:22-34 | folding records in arrival order: the maximum never falls below the starting one and covers every processed duration |
| Metrics.AccumulateFirst | v2/metrics.go:22 | folding the records equals processing the oldest first and folding the rest, which is the order the channel delivers them |
| Metrics.Sum | v2/metrics.go:24 | reference (unbounded) total of the durations, never negative for non-negative durations |
| Metrics.Peak | v2/metrics.go:26-29 | reference maximum: at least 0 and every duration, and either 0 or one of them |
| Metrics.Lowest | v2/metrics.go:31-33 | reference minimum of a non-empty run: at most every duration, and one of them |
| Metrics.SinceLastZero | v2/metrics.go:31 | the suffix after the last 0-ms record: a true suffix, no zero in it, preceded by a zero when shorter |
| Metrics.CountIsNumberOfRecords | v2/metrics.go:22-23 | from zero, N records leave the count at N (wrapped to int64, exact below 2^63) |
| Metrics.TotalIsSumOfDurations | v2/metrics.go:24 | the total waiting time is the wrapped sum of all durations, exact when the sum fits |
| Metrics.TotalStep | v2/metrics.go:24 | one record adds its duration to a running total that is the sum so far modulo 2^64, as `+=` on an `int64` does |
| Metrics.MaxIsPeak | v2/metrics.go:26-29 | the maximum is the largest of 0 and every duration, so at least each duration |
| Metrics.SlowestIsEarliestPeak | v2/metrics.go:26-28 | the slowest endpoint is that of the earliest record reaching the maximum (ties keep the earlier), and "" while no duration exceeds 0 |
| Metrics.MinIsLowestSinceLastZero | v2/metrics.go:31-33 | with non-negative durations the minimum is 0 right after a 0-ms record, else the smallest duration since the last one |
| Metrics.MinIsLowest | v2/metrics.go:31-33 | for a non-empty run of positive durations the minimum is their smallest, so at most each of them |
| Metrics.StepMovesMaxAndEndpointTogether | v2/metrics.go:26-29 | one update moves maximum and slowest endpoint together to a strictly slower record, or leaves both |
| Metrics.ZeroMinimumIsReplaced | v2/metrics.go:31-32 | a 0 minimum is replaced unconditionally; a 0-ms record then a 40-ms one leaves 40 |
| Metrics.TwoRequestsScenario | v2/metrics.go:22-33 | 50 ms then 150 ms give count 2, total 200, maximum 150 at the second endpoint, minimum 50 |
| Metrics.Sink.constructor | v2/metrics.go:3 | the channel starts empty and open |
| Metrics.Sink.Send | v2/request.go:85-89 | a send appends one record at the end; sending on a closed channel is excluded (Go panics) |
| Metrics.Sink.Close | v2/request_test.go:23 | closing keeps the buffered records; closing twice is excluded (Go panics) |
| Metrics.Sink.Receive | v2/metrics.go:22 | a receive takes the oldest buffered record |
| Metrics.Metrics.constructor | v2/request_test.go:18 | a fresh accumulator holds the zero value of every field |
| Metrics.Metrics.Record | v2/metrics.go:23-33 | the loop body changes the five fields exactly as one fold step does |
| Metrics.Metrics.Collect | v2/metrics.go:20-37 | after close, every record is consumed once in arrival order, the fields are the fold of them, and one completion signal follows the last |
| Http.AddValue | v2/request.go:54 | `Header.Add` appends one value under its key and keeps every other key |
| Http.SetValue | v2/request.go:68 | `Values.Set` leaves exactly the new value under its key and keeps every other key |
| Http.FirstValue | v2/request.go:139 | `Header.Get` gives the first value under a key, "" when there is none |
| Http.AddEach | v2/request.go:53-55 | adding a map of pairs appends each value after the existing ones; other keys keep theirs |
| Http.SetEach | v2/request.go:66-71 | setting a map of pairs leaves each given key with its one new value; other keys keep theirs |
| Http.AddEachStep | v2/request.go:53-55 | adding one more key extends the result by a single `Add`; with keys kept as distinct strings, the result does not depend on the map's iteration order |
| Http.SetEachStep | v2/request.go:67-69 | the same for `Set`, so the query result does not depend on the iteration order |
| Http.Request.constructor | v2/request.go:26 | `http.NewRequest` on a parsed URL stores the method ("GET" when it is empty), the text passed to `http.NewRequest`, the parsed path and query, and the body, and no headers |
| Http.Request.AddHeader | v2/request.go:54 | one `Header.Add` through the pointer; nothing else in the request changes |
| Http.Request.SetBasicAuth | v2/request.go:37 | Authorization becomes the single value "Basic " + base64("user:password"); nothing else changes |
| Http.Request.AddHeaders | request.go:99-101 | the loop over the header map leaves the headers at AddEach of the old ones, in any iteration order of the (case-distinct) keys |
| Outcomes.ContentType | v2/request.go:139 | the first value under the Content-Type key, or the empty string when there is none |
| Outcomes.CodecFor | v2/request.go:139-170 | only the exact types image/png, image/jpeg and image/gif select an image codec; everything else is JSON |
| Outcomes.Carry | v2/request.go:128-174 | a status failure is fatal (unreadable body or mismatch); a failed decode is fatal; a non-Writer image destination panics; a failed encode is fatal; the call returns normally exactly for the early-return plan, a successful JSON decode, or a successful image decode into a Writer that encodes |
| RequestV2.NewRequest | v2/request.go:25-32 | a fresh request object with the given method ("GET" for an empty one), URL and body and no headers; the url field stays "" |
| RequestV2.WithBasicAuth | v2/request.go:36-39 | Authorization is replaced through the shared pointer; the same builder value is returned |
| RequestV2.WithBearerToken | v2/request.go:42-45 | "Bearer " + token is added as one more Authorization value; the same builder value is returned |
| RequestV2.Headers | v2/request.go:48-58 | unchanged receiver; without a request nothing happens, otherwise each pair is appended under its key |
| RequestV2.Params | v2/request.go:61-73 | unchanged receiver; without a request nothing happens, otherwise each given key holds only its new value and other query keys are kept |
| RequestV2.Expect | v2/request.go:100-106 | the same request with exactly the given destination and expected status |
| RequestV2.RecordOf | v2/request.go:85-89 | the metrics record carries the actual status, the elapsed milliseconds and the URL path |
| RequestV2.Call | v2/request.go:76-90 | a transport error is fatal and records nothing; otherwise exactly one record is pushed |
| RequestV2.Send | v2/request.go:177-189 | exactly one record is pushed and the status is returned unchecked |
| RequestV2.ExpectantPlan | v2/request.go:124-170 | return early iff the destination is nil and the status matches; fail iff the status differs; otherwise decode with the codec the content type selects |
| RequestV2.ExpectantOutcome | v2/request.go:109-175 | how `RequestExpectant.Call` ends: a transport error is fatal; it returns normally exactly when the status matches and either the destination is nil or the body decodes (and, for an image codec, the Writer destination encodes) |
| RequestV2.CallExpectant | v2/request.go:109-175 | the record is pushed once a response exists, before any status check; the control flow ends as the plan decides |
| RequestV2.CopiesShareTheRequest | v2/request.go:19-22 | a header added through one builder copy is seen through another copy |
| RequestV2.MismatchIsFatal | v2/request.go:128-137 | any status mismatch is fatal, whatever the destination, nil included |
| RequestV2.ReturnsEarlyIff | v2/request.go:124-126 | the early return happens exactly for a nil destination with the expected status |
| RequestV2.MissingContentTypeIsJson | v2/request.go:139-172 | a non-nil destination with a matching status and no Content-Type header decodes as JSON, whatever the transport verdict |
| Legacy.NewRequestToEndpoint | request.go:24-26 | only the URL is stored: no request object, nil destination, status 0 |
| Legacy.Create | request.go:30-39 | a fresh POST request to the stored URL with the payload replaces any earlier one, headers included |
| Legacy.Update | request.go:43-56 | a fresh PUT request to the stored URL, `path` ignored, replaces any earlier one |
| Legacy.Delete | request.go:60-68 | a fresh DELETE request to the stored URL, no body, `path` ignored, replaces any earlier one |
| Legacy.Get | request.go:72-80 | a fresh GET request to the stored URL followed by the filters replaces any earlier one |
| Legacy.WithBasicAuth | request.go:82-85 | Authorization is replaced through the pointer; the receiver is returned |
| Legacy.Read | request.go:88-92 | only the destination and the expected status change; URL and request stay |
| Legacy.Headers | request.go:94-104 | unchanged receiver; without a request nothing happens, otherwise each pair is appended under its key |
| Legacy.Assert | request.go:107-111 | the receiver is returned unchanged |
| Legacy.ExpectStatusCode | request.go:114-117 | the receiver is returned unchanged; the status is not stored |
| Legacy.RequesterPlan | request.go:127-146 | return iff the destination is nil; fail iff the status differs and the destination is not a `*web.Error`; otherwise JSON decode |
| Legacy.RequesterOutcome | request.go:120-147 | how `Requester.Call` ends: a transport error is fatal; it returns normally exactly when the destination is nil, or the status matches or the destination is a `*web.Error`, and the JSON body decodes |
| Legacy.Call | request.go:120-147 | the control flow ends as the legacy plan decides |
| Legacy.NoImageBranch | request.go:144-146 | the legacy call never panics and never reaches an image encoder |
| Legacy.WebErrorToleratesMismatch | request.go:131-146 | with a `*web.Error` destination the outcome depends only on whether the body decodes as JSON |
| Legacy.DecisionsDisagreeExactly | request.go:127-146 | the two decisions differ exactly for: nil destination with a wrong status, `*web.Error` destination with a wrong status, or a non-nil destination with a matching status and an exact image content type |

## Left out

- Transport: `http.DefaultClient.Do`, reading the response body and `defer Close` are I/O. Their results (transport error or not, status, headers, whether the body could be read) are fields of `Exchange`.
- Timing: `time.Now`, `time.Since` and `Milliseconds` read a clock. The elapsed milliseconds are a parameter.
- Codecs: PNG, JPEG and GIF decoding and encoding, and `json.Decoder`, are foreign libraries. Whether they succeeded is an input. The decoded value written into the destination is not modelled.
- Test framework: `t.Fatal`, `t.Errorf` and `log.Fatal` become outcome values, not halting. The diagnostic text they print is not modelled.
- Concurrency: the goroutine of `Collect`, its concurrent run beside the producers, and the completion channel are not modelled. The drain is modelled as a sequential loop that runs after the channel is closed, and the signal as the last event of a returned trace.
- Metrics.Sink.Send: the channel's capacity of 1000, and blocking on a full buffer, are not modelled. Blocking is a scheduling effect.
- URL handling: parsing URL text, header-key canonicalisation and encoding the query back into `RawQuery` are net/url and net/http internals. The parsed path and query are inputs, and keys are opaque strings. `target` is the text passed to `http.NewRequest`; `Params` changes the query but not that text. Header keys that differ only in case ("x-id" and "X-Id") stay distinct in the model, while Go's `Header.Add` canonicalises them into one key whose values then come in map iteration order; the order-independence of `Headers` holds only for keys that are already distinct after canonicalisation.
- Basic authentication: the base64 encoding under section 2 of RFC 7617 is a given function parameter.
- `web.Error` is an external package. It is reduced to a flag on the destination. Whether a destination is an `io.Writer` is reduced to a flag in the same way.
- Construction errors: `NewRequest`, `Create`, `Update`, `Delete` and `Get` are modelled only on the path where `http.NewRequest` and `json.Marshal` succeed. On failure the source calls `log.Fatal`, which exits the process.
- RequestV2.Send: the path where `Do` returns an error is not modelled. There the source dereferences a nil response.
- Panics from a nil `*http.Request` are preconditions (`WithBasicAuth`, `WithBearerToken`, `Call`, `Send`, `CallExpectant`, and the legacy `WithBasicAuth` and `Call`), not modelled outcomes.
- The average that the test's `TestMain` prints is a floating-point division. It is not modelled.
- The test files `v2/request_test.go` and `request_test.go` call a live third-party API, and the legacy one calls a function that does not exist. They are not part of this model.

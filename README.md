# Gen-API client of ScoutAssistant, in Dafny

ScoutAssistant is a chat bot that answers through Gen-API, a task-queue
generation backend. Its function `generate_response_from_api` (main.py)
submits a generation task and checks the task's status up to fifteen times,
sleeping two seconds before each check. It then turns what it saw into the
reply string for the user:
the generated content, a start failure echoing the backend's status, a parse
failure, the task's failure detail, a timeout, an HTTP error code or a
generic error.

This project models that function with the network abstracted away:

- `json.dfy` (module `Json`): decoded JSON values and the Python semantics
  the function applies to them. These are truthiness, `dict.get`, which
  gives `None` for an absent key just as for a JSON `null`, and the
  subscript `x[k]` with its `KeyError`, `IndexError` and `TypeError`.
- `payload.dfy` (module `Payload`): the pure decisions on one payload. These
  are start acceptance, exact status classification, the content path
  `response[0].message.content` and the error-detail selection.
- `client.dfy` (module `Client`): the replies of the backend as inputs. The
  submission's reply is a value, and `polls(k)` is the reply to status
  check `k`. A reply is an HTTP response (status code and a body that is
  JSON or not) or no response at all. `Step` and `Start` are the outcome of
  one reply, `PollFrom`/`Run` the reference definition of the whole run,
  and `GenerateResponse` the function itself as a method with the polling
  `while` loop. It returns the outcome, the number of status checks made
  and the seconds slept.

The model follows main.py as written. In particular:

- statuses are compared exactly, with no trimming or case folding;
- only the `response` field is read, with no `result`/`output` fallback;
- a submission acknowledged as `"processing"` is rejected;
- only `request_id` is read, not `id`;
- the content is returned verbatim, including an empty string or a
  non-string value;
- the detail of a failed task whose `result` is JSON `null` is `null`
  itself, because `.get` with a default only falls back for an absent key.

## Model

| member | source | states |
|---|---|---|
| Json.Truthy | main.py:32 | `not request_id` holds exactly for the seven falsy values: null, false, 0, 0.0, "", [] and {} |
| Json.Get | main.py:29-30 | `d.get(key)` is `None` (JSON null) for an absent key, otherwise the stored value |
| Json.GetOr | main.py:74 | `d.get(key, default)` gives the stored value when the key is present and the default only when it is absent |
| Json.Subscript | main.py:60 | one subscript `x[k]`: a dict by a present key and a list by an index in range give the element, a string by an index gives a one-character string, a missing key or an integer on a dict is a `KeyError`, an index out of range an `IndexError`, and every other combination a `TypeError` |
| Json.Lookup | main.py:60 | a subscript chain with no subscript gives the value itself, and with one is that subscript; when it succeeds its first subscript succeeded |
| Json.LookupConcat | main.py:60-63 | a chain `x[p...][q...]` is `x[p...]` followed by `q...`, and the first exception ends it |
| Payload.Accepted | main.py:29-32 | an accepted submission holds a non-null `request_id` and a `status` equal to "starting" (its full characterisation is `Client.StartVerdict`) |
| Payload.Classify | main.py:55-72 | only strings are recognised, and a status is a failure exactly when it is "failed" or "error" (exactness is `Payload.RecognisedStatuses`) |
| Payload.ExtractContent | main.py:60-63 | extraction succeeds only on a dict whose "response" is a list, and raises a `TypeError` on a non-dict (its full characterisation is `Payload.ExtractContentShape`) |
| Payload.RecognisedStatuses | main.py:55-72 | only the exact strings "success", "processing", "failed" and "error" are recognised; "failed" and "error" and nothing else are failures |
| Payload.ExtractContentShape | main.py:58-66 | the subscript chain `data["response"][0]["message"]["content"]` succeeds exactly when "response" is a non-empty list whose head is a dict holding a dict "message" with a "content", and then yields that content; a string, an empty list, a missing key or a wrong type raises |
| Payload.ContentRoundTrip | main.py:60-62 | any content placed at the path is extracted verbatim, with no emptiness or type check |
| Payload.ErrorDetail | main.py:74-76 | detail is the fallback literal when "result" is absent or an empty list, its first element when it is a non-empty list, and the value itself otherwise |
| Payload.DetailRoundTrip | main.py:74-76 | the first element of any non-empty "result" list is reported unchanged, whatever follows it |
| Client.Decode | main.py:26-27 | a 4xx/5xx code aborts with exactly that code; no response, a non-JSON body and a non-dict payload each abort in the generic error branch; under any other code a dict body is passed on unchanged |
| Client.Start | main.py:26-34 | the submission ends the run only with a start failure, an HTTP error or a generic error; polling begins only after a non-error code with an accepted dict payload |
| Client.Step | main.py:50-78 | a status check never yields a timeout or a start failure, and an HTTP error status on it always yields that HTTP error |
| Client.PollFrom | main.py:40-82 | from attempt k the loop makes between k+1 and 15 checks, a timeout only after all 15, and never reports a start failure |
| Client.Run | main.py:17-89 | at most 15 checks; no check at all exactly when the submission ends the run; a timeout only after 15 checks |
| Client.GenerateResponse | main.py:2-89 | the method's outcome and number of checks are those of `Run`, and it sleeps 2 seconds before each check made |
| Client.PollFromEnds | main.py:40-82 | a run either times out after 15 checks that all let the loop go on, or ends with the outcome of the first check that does not, after exactly that many checks |
| Client.TimeoutIffNoCheckEnds | main.py:40-82 | a started run times out if and only if none of the 15 checks ends it, and it then made all 15 checks |
| Client.FirstEndingCheckDecides | main.py:55-78 | the first check that ends the run decides the outcome and no later check is made |
| Client.OnlyMadeChecksMatter | main.py:40-78 | replies to checks that were never made do not change the run |
| Client.SubmitFaultAborts | main.py:84-89 | an HTTP error, no response, a non-JSON body or a non-dict payload on the submission ends the run at once with the matching error and no check |
| Client.StartVerdict | main.py:29-34 | a dict submission under a non-error code starts polling if and only if `request_id` is truthy and `status` is exactly "starting"; otherwise the run ends echoing the status |
| Client.ProcessingStartRejected | main.py:32-34 | any dict submission whose status is "processing", under any non-error code, is a start failure echoing "processing", with no check made |
| Client.StepContinues | main.py:53-72 | a check with a dict payload under a non-error code goes on exactly when its status is none of "success", "failed", "error" (including "processing", an unknown value or none) |
| Client.PaddedStatusContinues | main.py:55-72 | a dict check under a non-error code whose status is a padded or differently cased variant (" success", "success\n", "Success", "Failed", " error") is not recognised, so the loop polls again |
| Client.NoTerminalStatusTimesOut | main.py:40-82 | when none of the 15 dict checks, each under a non-error code, reports "success", "failed" or "error", the run times out after exactly 15 checks |
| Client.AllProcessingTimesOut | main.py:37-82 | fifteen "processing" dict replies under any non-error codes give a timeout after exactly 15 checks and 30 seconds of sleep |
| Client.SuccessReturnsContent | main.py:55-62 | the first "success" check on any dict payload with the content path, under a non-error code, returns `data["response"][0]["message"]["content"]` verbatim after exactly that many checks |
| Client.SuccessWithoutContentFails | main.py:58-66 | a "success" dict payload without the content path, under a non-error code, is a parse failure at once, without polling again |
| Client.FailureReportsDetail | main.py:72-78 | the first "failed" or "error" check on a dict payload under a non-error code ends the run with the selected detail |
| Client.HttpErrorAborts | main.py:84-86 | an HTTP error status on any check ends the run with that code |
| Client.PollFaultAborts | main.py:87-89 | no response, or a non-JSON body or a non-dict payload under a non-error code, on a check ends the run in the generic error branch after that check |

## Left out

- The HTTP calls (`requests.post`, `requests.get`), `asyncio.to_thread` and `time.sleep`: I/O and thread plumbing; the replies are inputs and the sleeps are counted in seconds.
- The request timeouts (10 s and 5 s): a transport timeout is the reply `NoResponse`, which ends the run in the generic error branch like a refused connection.
- The request body and headers and the poll URL built from the request id: static assembly around opaque configuration strings.
- Logging: side effects with no behavioural content.
- The wording of the user-facing messages and the text of the caught exception they embed: the outcome is a datatype instead of a string.
- JSON numbers NaN and Infinity, which Python's decoder accepts: `Frac` is a real number; both are truthy and neither is compared anywhere.
- Nothing beyond `generate_response_from_api`: main.py normalises no status and reads no payload field other than `request_id`, `status`, `response` and `result`, so the model has nothing more to capture.

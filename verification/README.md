# NanoGPT proxy: fallback resolution and response classification

This project models the decision logic of the local NanoGPT relay in
`proxy/nanogpt_proxy.py`. The relay accepts chat-completion requests and
tries a fixed, ordered list of upstream NanoGPT endpoints. It stops at the
first endpoint that answers with something other than 404/405 and relays a
classified reply. It also models the `/status` connectivity probe.

The upstream is an oracle. `attempts[i]` is what posting the payload to
candidate `i` yields: `Received(Response(status, text, json))` or
`TransportFailure(reason)`. The `json` field is the result of
`response.json()`, kept abstract as an `Option`. With that, every operation
is a total, deterministic function over datatypes and strings.

Modules:
- `Wrappers` (`wrappers.dfy`): `Option` and `Result`.
- `Strings` (`strings.dfy`): substring test, prefix/suffix, `s[:n]`, and `str(n)` for naturals.
- `Json` and `Http` (`json.dfy`): parsed JSON values and the Python operations the handler applies to them (truthiness, `in`, `[key]`, `.get`, `len`, `[0]`); the reply type.
- `Endpoints` (`endpoints.dfy`): the candidate base URLs and full-URL construction.
- `Resolver` (`resolver.dfy`): the fallback loop, as a recursive fold.
- `Classifier` (`classifier.dfy`): the status-to-reply classification.
- `Gate` (`gate.dfy`): request validation and the outbound payload.
- `ChatHandler` (`handler.dfy`): the chat route end to end.
- `StatusProbe` (`probe.dfy`): the `/status` route.

In these places the code behaves in ways that are easy to misread; the model follows the code:
- When every candidate raises, the route answers 502 "All NanoGPT API configurations failed". The route has its own `Timeout` (504) and `ConnectionError` (503) handlers (lines 234-240), but the `except Exception` inside the loop (line 179) swallows every transport exception first, so those handlers are never reached from the loop.
- A truthy inbound body that is not a JSON object (a list, a string, a number, `true`) reaches `request_data.get(...)` in the request log line. That raises, so the catch-all answers 500. Only a falsy body or an object without `messages` gets the 400 replies.
- `messages` only has to be present (line 138). An empty list passes the gate.
- On the 200 path, the length of the first choice's content is computed only for the log (line 207). On an unexpected shape (for example, `choices` is a string, or the first choice is not an object) that computation raises, and the catch-all answers 500.
- `https://nanogpt.com/api/v1` has no hyphen, so it fails the `nano-gpt.com/api/v1` test and is posted to as `https://nanogpt.com/api/v1/v1/chat/completions`.
- The probe posts to a legacy URL when the primary post raises. When both raise, the error text quotes the primary's exception.
- The second break test after the `try` (line 183) is only reached after a 404/405 answer, so it never fires. The model has no separate branch for it.

## Model

| member | source | states |
|---|---|---|
| `Strings.Take` | proxy/nanogpt_proxy.py:231 | `text[:200]` is a prefix of the text, has length `min(len, 200)`, and is the whole text when it has at most 200 characters |
| `Endpoints.EndpointSuffix` | proxy/nanogpt_proxy.py:157-161 | the suffix is `/chat/completions` exactly when the base contains `nano-gpt.com/api/v1`, and `/v1/chat/completions` exactly when it does not |
| `Endpoints.FullUrlShape` | proxy/nanogpt_proxy.py:164 | the posted URL starts with the base, continues with the chosen suffix, and always ends in `/chat/completions` |
| `Endpoints.CandidateUrlsInOrder` | proxy/nanogpt_proxy.py:60-67 | the six URLs tried, in order; the hyphen-less `nanogpt.com/api/v1` bases end in `/api/v1/v1/chat/completions` |
| `Resolver.ResolveFrom` | proxy/nanogpt_proxy.py:156-184 | from candidate `i` on: indices are tried consecutively; a usable candidate exists exactly when one is kept; the kept one is the first usable, its response is held, and nothing after it is tried; with none usable, all are tried and the held response is the latest received |
| `Resolver.Resolve` | proxy/nanogpt_proxy.py:152-184 | starting with no response, candidates are tried in list order, each at most once, and the loop stops right after the first usable one |
| `Resolver.FirstUsableWins` | proxy/nanogpt_proxy.py:173-176 | the earliest candidate answering with a status other than 404/405 is the one kept, with exactly the candidates up to it tried |
| `Resolver.ExhaustedIffNoUsable` | proxy/nanogpt_proxy.py:186 | after the loop, "no response, or a 404/405 response" holds exactly when no candidate answered with another status, whatever the mix of exceptions and 404/405 |
| `Resolver.LastReceivedCons` | proxy/nanogpt_proxy.py:163-181 | consuming one attempt: a response replaces the held response, a transport exception leaves it as it was |
| `Resolver.HeldIsLatestResponse` | proxy/nanogpt_proxy.py:163-181 | with no usable candidate, the held response is absent exactly when every post raised; otherwise it is a response that arrived, with only exceptions after it |
| `Classifier.FirstContentLength` | proxy/nanogpt_proxy.py:207 | computing the first choice's content length succeeds exactly when `choices` is a non-empty list whose first element is an object, whose `message` is absent or an object, and whose `content` is absent or a str, list or object; for a str content it is the content's length |
| `Classifier.ClassifyOk` | proxy/nanogpt_proxy.py:197-210 | a parsed 200 body is returned unchanged with status 200 exactly when it is an object with non-empty `choices` and a computable content length; an object without non-empty `choices` gives 502; every other outcome is 502 or 500 |
| `Classifier.Classify` | proxy/nanogpt_proxy.py:197-232 | 200 goes to the 200 path, or to the unparsed-body outcome exactly when the body is not JSON; 401 and 429 give their fixed replies; every status other than 200 is relayed unchanged, and other statuses carry the text cut to 200 characters |
| `Classifier.ErrorTagCarriesStatus` | proxy/nanogpt_proxy.py:226-232 | a relayed error's `error` tag is `NanoGPT API error: ` followed by at least one decimal digit, with no leading zero, and the digits read back to the upstream status |
| `Strings.NatToStringRoundTrip` | proxy/nanogpt_proxy.py:230 | the decimal rendering of a status, read back as digits, is that status |
| `Gate.CheckRequest` | proxy/nanogpt_proxy.py:122-146 | a missing or falsy body gives 400; a truthy non-object gives 500; an object without `messages` gives 400; otherwise the payload has the body's keys plus `model` and `stream`, `stream` is false, `model` is kept or defaulted, and every other key is unchanged |
| `ChatHandler.HandleChat` | proxy/nanogpt_proxy.py:122-191 | a refused request makes no upstream post and answers 400 or 500; otherwise it forwards the gate's payload; the URLs posted to are always a prefix of the candidate list, in order |
| `ChatHandler.ClassifyNeverExhaustion` | proxy/nanogpt_proxy.py:186-191 | no classified response equals the "all configurations failed" reply |
| `ChatHandler.ExhaustionIffNoUsableCandidate` | proxy/nanogpt_proxy.py:186-191 | the route answers 502 "All NanoGPT API configurations failed" exactly when no candidate answered with a status other than 404/405, and then all six were tried |
| `ChatHandler.TransportFailuresGive502` | proxy/nanogpt_proxy.py:179-191 | when every post raises, the reply is the 502 exhaustion reply, not a timeout or connection error |
| `ChatHandler.FirstGoodCandidateAnswers` | proxy/nanogpt_proxy.py:156-210 | after any run of failed or 404/405 candidates, the first 200 answer with usable `choices` is relayed verbatim with status 200, and exactly the candidates up to it were tried |
| `ChatHandler.FirstUsableClassified` | proxy/nanogpt_proxy.py:156-232 | for an accepted request, the route's result is the classification of the first usable candidate's response, whatever its status, with exactly the candidates up to it posted to |
| `ChatHandler.UpstreamStatusRelayed` | proxy/nanogpt_proxy.py:212-232 | any status other than 200 from the first usable candidate is the status the caller gets; 401 and 429 come with their fixed replies, and every other status with the `NanoGPT API error: <status>` tag and the upstream text cut to 200 characters |
| `StatusProbe.Probe` | proxy/nanogpt_proxy.py:273-307 | the reply is always HTTP 200 and operational; the legacy URL is posted to exactly when the primary raises; connectivity is `success` exactly when the obtained status is 200 and `failed` otherwise; the status code is reported exactly when one was obtained; when both raise, the error quotes the primary's exception |

## Left out

- Flask routing, `jsonify`, CORS and the development-server start (lines 47-48, 318-324): framework plumbing. A reply is modelled as a status and a JSON value.
- The TLS session with certificate verification disabled (lines 17-45): transport configuration inside the HTTP library. It is a security concern, because upstream certificates are never checked, but it has no decision logic.
- Environment loading and the exit on a missing API key (lines 56-57, 69-72): process bootstrap. The primary base URL is its default, and the key is taken to be configured, as the process does not start otherwise.
- The request headers (lines 74-81) and the probe's test request (lines 263-268): they only reach the transport, which the oracle stands for.
- Logging, timestamps, elapsed-time measurement and the 10,000-character size warning (lines 83-85, 119, 128-135, 194-195, 270, 280, 290): observational only. The `timestamp` and `response_time_seconds` fields are omitted from the modelled reply bodies. The one effect kept is that line 129 raises on a truthy non-object body.
- The outer exception handlers of the chat route (lines 234-248): which one catches a failure of `response.json()` depends on the HTTP library's exception hierarchy, so that outcome is the separate `BodyNotJson` result with no status. The catch-all 500 (lines 250-252) is modelled for the failures the model can name.
- How `request.get_json()` treats a malformed body or a non-JSON content type depends on the Flask version. The model takes the inbound body as already obtained, `None` meaning no JSON data.
- The probe's outer handler (lines 309-316): nothing the model covers inside it can raise.
- `/health` (lines 87-96): a constant reply with no logic.
- JSON object key order: objects are maps. Order only affects how a reply is printed.
- JSON numbers are modelled as reals, and truthiness treats zero as false, as Python does for both ints and floats.

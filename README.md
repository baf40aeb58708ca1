# PostPerson request/response core in Dafny

PostPerson is a browser-based HTTP request composer: a single React screen
(`src/app/page.js`). The user picks a method and a URL and sends the request.
The screen then shows the response body, which it displays as JSON, XML or
HTML according to the content-type header; it also measures the latency but
does not display it. It also keeps the last ten successful requests for
replay, in memory and in the browser's storage under `requestHistory`.

This project models the part of that screen that holds state and makes
decisions:

- `RequestBuilder` covers the request descriptor built at the start of a send.
  The method is lower-cased. The URL is kept as given. The query-parameter
  and header rows collapse into maps, and the last duplicate key wins. The
  body is parsed and attached only on the Body tab.
- `ContentType` covers the response-type rule. It is a case-sensitive
  substring test: "json" is checked first, then "xml", and "html" is the
  fallback. It is proved equal to "occurs at some position".
- `History` covers the most-recent-first log capped at ten entries, the value
  written to storage, and the start-up load.
- `Transaction` covers one send as a value. It gives the request issued, the
  outcome shown (with the "No response" and "Unknown" fallbacks of the catch
  block), the detected type and the entry recorded.
- `PostPerson.PostPersonState` is a class with one field per state hook and
  a `storage` field. Each method is one event handler: the mount effect,
  `saveToHistory`, `sendRequest`, the history replay click, and the
  method, URL and response-type controls.

The HTTP client (axios), the JSON parser, the clock and the timestamp
formatter are inputs. The parser is `parse: string -> Result<Value, string>`,
the client is `http: RequestConfig -> Transport`, and the latency and
display time are plain arguments.

Three behaviours of the code are easy to get wrong:

- A delivered response without a `content-type` header does not fall
  through to HTML. `undefined.includes` throws at line 63, and the catch at
  line 68 replaces the response with an error. The response type is not set
  and nothing is saved (`Transaction.MissingContentTypeIsError`).
- Unreadable stored history does not load as an empty log. `JSON.parse` at
  line 29 is not guarded. Only an absent key gives `[]`, and unreadable text
  throws out of the mount effect (`History.Load`, `PostPersonState.LoadHistory`).
- The error fallbacks use `||`, so a status of 0 also shows "Unknown", and
  any falsy data (null, false, 0, "") shows "No response" (`Transaction.Caught`).

The screen has no control that calls `setActiveTab`. The tab therefore stays
"Params" from the first render, and every handler in the model keeps
`activeTab` unchanged. So, as written, a request body is never sent.

## Model

| member | source | states |
|---|---|---|
| `RequestBuilder.Lower` | src/app/page.js:45 | The result has the same length and no upper-case ASCII letter. Each upper-case letter becomes its lower-case form, and every other character is kept. |
| `RequestBuilder.FromEntries` | src/app/page.js:47-48 | The map's keys are exactly the keys occurring in the rows. For the last row carrying a key, the map holds that row's value, so later duplicates overwrite earlier ones. |
| `RequestBuilder.BuildConfig` | src/app/page.js:44-50 | Building fails exactly when the tab is Body and the body does not parse, and the failure carries the parser's error. On success the method is lower-cased, the URL is unchanged and params and headers are the collapsed maps. A body is present iff the tab is Body, and then it is the parsed value. |
| `RequestBuilder.BodyIgnoredOffBodyTab` | src/app/page.js:49 | Off the Body tab, building always succeeds without data. The request is the same whatever the body text is and whatever the parser would do with it. |
| `ContentType.Includes` | src/app/page.js:63-64 | `s.includes(t)` holds iff `t` occurs in `s` at some position. |
| `ContentType.Classify` | src/app/page.js:62-65 | The result is JSON iff "json" occurs, even when "xml" occurs too. It is XML iff "xml" occurs and "json" does not, and HTML iff neither occurs. |
| `ContentType.ClassifyJsonWithParameters` | src/app/page.js:63 | "application/json; charset=utf-8" gives JSON. |
| `ContentType.ClassifyXml` | src/app/page.js:64 | "text/xml" gives XML. |
| `ContentType.ClassifyJsonBeforeXml` | src/app/page.js:63-64 | "application/xml; profile=json" gives JSON, because the json test comes first. |
| `ContentType.ClassifyFallback` | src/app/page.js:65 | "text/plain" gives HTML. "APPLICATION/JSON" also gives HTML, because the test is case-sensitive. |
| `History.Take` | src/app/page.js:35 | `slice(0, n)` is a prefix of length `min(|s|, n)`. |
| `History.Prepend` | src/app/page.js:35 | The new log starts with the new entry and has length `min(|old| + 1, 10)`. The rest is the first `min(|old|, 9)` old entries in order, so a full log drops its oldest entry. |
| `History.SaveAllKeepsMostRecent` | src/app/page.js:34-38 | Start from a log of at most ten entries, or save at least once. After any run of saves the log is the first ten of (the saved entries, newest first, followed by the starting log). |
| `History.Load` | src/app/page.js:29 | An absent key loads `[]`. A written log loads as written. Unreadable text throws, and nothing catches it. |
| `History.SaveThenLoad` | src/app/page.js:29-37 | Loading the storage that a save has just written yields the log that the save produced. |
| `Transaction.Caught` | src/app/page.js:68-75 | The error message is kept. The data is the response's data when a response exists and its data is truthy, else "No response", so the shown data is always truthy. The status is "Unknown" iff there is no response or its status is 0, else the response's status. |
| `Transaction.Execute` | src/app/page.js:41-79 | No request is issued iff the tab is Body and the body does not parse, and an issued request is the built one. The outcome is never the initial empty one. A type is detected and an entry is recorded iff the response is shown. The response is shown iff the request was issued, the client delivered a response, and that response had a content-type. The entry is the draft's method, URL, header rows and body with the given time. |
| `Transaction.BodyParseErrorIssuesNothing` | src/app/page.js:49-75 | A Body-tab draft that does not parse issues nothing. The parse error is shown with "No response" and "Unknown", with no type and no entry. |
| `Transaction.MissingContentTypeIsError` | src/app/page.js:62-75 | A delivered response without content-type ends as the TypeError, shown with "No response" and "Unknown", with no type and no entry. |
| `Transaction.RejectionIsError` | src/app/page.js:53-75 | A rejected request shows the caught error, with no type and no entry. With no server response, that is "No response" and "Unknown". |
| `Transaction.GetJsonScenario` | src/app/page.js:44-67 | A GET from the Params tab with no rows issues `get` with empty maps and no body. A 200 JSON reply is shown, typed JSON, and the draft is recorded. |
| `PostPerson.PostPersonState.constructor` | src/app/page.js:16-25 | The initial hook values: GET, the default URL, the Params tab, no rows, body "{}", no response, empty history, type JSON. |
| `PostPerson.PostPersonState.LoadHistory` | src/app/page.js:28-31 | The history becomes the loaded log exactly when loading does not throw, and the in-memory and stored logs then agree. Nothing else changes. |
| `PostPerson.PostPersonState.SaveToHistory` | src/app/page.js:34-38 | The history becomes `Prepend(old, entry)`, which is at most ten entries with the entry first. Exactly that list is written under `requestHistory`. The draft, response and type are unchanged. |
| `PostPerson.PostPersonState.SendRequest` | src/app/page.js:41-79 | The request issued, the shown response and the response type follow `Execute`. The history gains exactly one entry on success, with storage rewritten to match. On any failure the history and storage are unchanged. The draft is never changed, and storage stays in sync with the history. |
| `PostPerson.PostPersonState.Replay` | src/app/page.js:139-144 | Method, URL, header rows and body become the entry's, whatever they were before. The tab, query rows, response, type, history and storage are unchanged. |
| `PostPerson.PostPersonState.SelectMethod` | src/app/page.js:102 | The method becomes the selected one, and nothing else changes. |
| `PostPerson.PostPersonState.EditUrl` | src/app/page.js:113 | The URL becomes the typed one, and nothing else changes. |
| `PostPerson.PostPersonState.ChooseResponseType` | src/app/page.js:160-166 | The response type becomes the chosen one, and nothing else changes. |

## Left out

- Rendering (the sidebar, icons, history list markup, the `showHistory` toggle and the response viewer branches) is not modelled: it is presentation only.
- The `loading` flag and the disabled Send button are not modelled. The same goes for React's batching of state updates and stale closures over `history`: they concern scheduling of overlapping sends, and the model runs one handler at a time.
- The HTTP client is the `http` parameter. Its rule that non-2xx statuses reject, its header-name normalisation and its default headers are not modelled.
- `Date.now()` and `toLocaleString()` are not modelled: the latency is the `elapsed` argument and the display time is the `now` argument.
- JSON text is not modelled. `JSON.parse` of the body is the `parse` parameter. Stored history is held as the written list (`Written`) or as text that does not parse (`Unreadable`). Stored text that parses to some other value (a falsy value, or a non-array) is not modelled.
- `localStorage.setItem` is not modelled as failing. The quota error it can throw would leave the new in-memory history in place while showing an error.
- `RequestBuilder.FromEntries`: the maps do not keep the key order of the object handed to the HTTP client, which decides the order of the query string.
- `RequestBuilder.Lower`: does not model lower-casing outside ASCII; `toLowerCase` also maps other Unicode letters.
- `Values.Value` numbers are integers only: floating point, `NaN` and `-0` (which are falsy) are not modelled.
- `Transaction.MissingContentTypeMessage`: the TypeError text is the V8 engine's wording; other engines word it differently.
- The draft editors the screen does not offer (query parameters, headers, body and tab) have no methods. Their values change only through `Replay` or not at all.

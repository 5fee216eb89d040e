# Equipment QR service requests: a Dafny model

The system is a small Flask application (`app.py`). It links pieces of equipment to a CRM intake endpoint through QR codes:

- `POST /generate` takes an equipment id, the CRM endpoint and an API key. It builds a scan URL that carries the three values as query parameters and renders that URL as a QR code.
- `GET /` reads the three parameters back. It shows the scanner page when all three are there, and the generator page otherwise.
- The scanner page posts a JSON body to `POST /submit_service`. That handler upper-cases the service type, classifies its priority, stamps a request id of the form `{equipment_id}_{service_type}_{YYYYMMDD_HHMMSS}`, and builds the CRM payload. It appends an entry to an append-only log file and answers with a JSON reply. Any exception that reaches the handler becomes a reply with status 500. A failed log write does not reach it: `log_service_request` catches it, and the reply is still a success (see the log-file line under "## Left out").

The model has these modules:

- `Text` models the string operations the handlers use: ASCII `lower`/`upper`, `rstrip`, `partition`/`split` and zero-padded decimals.
- `Timestamps` models a clock reading, passed in as fields, with its two renderings: `strftime('%Y%m%d_%H%M%S')` and `isoformat()`.
- `Priorities` models `get_service_priority`.
- `QueryArgs` models how the framework turns a requested URL into `request.args`:
  - everything before `?` and from `#` on is dropped;
  - the rest is split at `&`;
  - each piece is cut at its first `=`;
  - keys and values are unquoted: `+` becomes a space and `%HH` is decoded.
- `Routes` models `index`, `generate_qr` and the scan URL's round trip.
- `Submission` models `submit_service` as a function from the parsed body and the clock to the payload and the reply.
- `RequestLog` models the log as a class `ServiceLog` whose `entries` sequence `log_service_request` appends to. It also has the `SubmitService` method, which runs the handler against a log.

Behaviour of the code a reader might not expect:

- **A missing `equipment_id` is accepted.** `submit_service` never checks `equipment_id`. A body without one is accepted, and its request id starts with `None_` (`MissingEquipmentIdAccepted`). Within the model, where every member is a string, `null` or missing, only a missing or `null` `service_type` fails, because `.upper()` is then applied to `None`. A JSON `null` body also fails, at `.get`. Both failures answer with status 500 and the exception's text.
- **Fields must be non-empty, not just present.** `index` and `generate_qr` test that each value is truthy, so an empty value counts as missing.
- **The scan URL is not escaped, so the round trip holds only for some values.** A value free of `&`, `#`, `+` and `%` comes back exactly (`ScanUrlRoundTrip`). Four lemmas show what goes wrong otherwise:
  - `PlusInKeyReadsAsSpace`: a `+` is read back as a space.
  - `PercentInKeyIsDecoded`: a `%` followed by two hex digits is read back as the single character with that code.
  - `AmpersandInUrlOverridesKey`: an endpoint ending in `&api_key=…` overrides the real key, because the first pair wins.
  - `HashCutsKey`: a `#` truncates the key.
- **Any service type is accepted.** Any type whose lower-casing is not a key of the table gets priority MEDIUM (`UnknownTypeIsMedium`); `inspection` is one (`InspectionIsMedium`).

## Model

| member | source | states |
|---|---|---|
| Text.Lower | app.py:569 | `lower()` keeps the length and lower-cases each character. |
| Text.Upper | app.py:514 | `upper()` keeps the length and upper-cases each character. |
| Text.LowerOfUpper | app.py:514 | Lower-casing an upper-cased text gives the same result as lower-casing the original. |
| Text.RStrip | app.py:462 | `rstrip('/')` gives a prefix of the input that does not end in `/`, and every character removed was a `/`. |
| Text.RStripKeepsAbsent | app.py:462 | Stripping adds no new character, so a root without `?` or `#` keeps that property. |
| Text.Partition | app.py:432-434 | The text before the first separator holds no separator. When a separator is found, the input is the text before it, the separator and the text after it; otherwise the input is returned whole. |
| Text.PartitionFirst | app.py:432-434 | A separator-free head followed by the separator is cut exactly there. |
| Text.PartitionAbsent | app.py:432-434 | A text without the separator is not cut. |
| Text.Split | app.py:432-434 | `split` gives at least one part. No part holds the separator, and joining the parts gives back the input. |
| Text.SplitJoin | app.py:432-434 | Splitting the join of separator-free parts gives back exactly those parts. |
| Text.JoinFour | app.py:432-434 | Four parts joined with a separator are the parts with the separator between each two. |
| Text.Pad | app.py:522 | `%0Nd` gives exactly N digits, and they read back as the number. |
| Text.DigitsHaveNoSeparator | app.py:522 | A text of digits holds no separator that is not a digit. |
| Text.DigitsFrom | app.py:522 | A slice equal to a run of digits reads as that run's value. |
| Timestamps.DaysInMonth | app.py:522 | A month has 28 to 31 days. |
| Timestamps.Strftime | app.py:522 | The stamp has 15 characters with `_` at position 8. |
| Timestamps.StrftimeFields | app.py:522 | Year, month, day, hour, minute and second each read back from their digit positions in the stamp. |
| Timestamps.StrftimeSecondResolution | app.py:522 | Two stamps are equal if and only if the readings agree down to the second. |
| Timestamps.Fraction | app.py:574 | The `.ffffff` suffix is empty for microsecond 0 and seven characters otherwise. |
| Timestamps.IsoFormat | app.py:574 | `isoformat()` has 19 characters, or 26 when the microsecond is not zero. |
| Timestamps.IsoFormatFields | app.py:574 | The separators `- - T : :` are in place, and each field reads back as the clock's. |
| Timestamps.IsoFormatMicroseconds | app.py:574 | A non-zero microsecond follows a `.` and reads back as the clock's. |
| Priorities.ServicePriority | app.py:562-569 | HIGH if and only if the lower-cased type is `repair`. LOW if and only if it is `training`. MEDIUM for everything else. |
| Priorities.PriorityIgnoresCase | app.py:569 | Types that lower-case alike get the same priority. |
| Priorities.PriorityOfUpper | app.py:514-518 | The upper-cased type in the payload gets the priority of the submitted type. |
| Priorities.Priority.Name | app.py:565-567 | Each priority has its own text: `HIGH`, `MEDIUM` or `LOW`. |
| Priorities.PriorityTable | app.py:564-568 | The table `PriorityMap` has the entries repair HIGH, maintenance MEDIUM and training LOW, and every key of the table is classified as its entry. |
| Priorities.TableKeys | app.py:564-569 | Every key of the table, looked up as it is, is classified as its entry. |
| Priorities.TableEntry | app.py:564-569 | `repair` is HIGH, `maintenance` is MEDIUM and `training` is LOW, each found through its own lower-casing; `TableKey` rests on it. |
| Priorities.TableKey | app.py:564-569 | One key of the table, already lower-case, is classified as its entry. |
| Priorities.LowerOfLowerCase | app.py:569 | Text with no capital letter is its own lower-casing. |
| Priorities.ShoutedRepairIsHigh | app.py:569 | `REPAIR` is HIGH. |
| Priorities.MixedCaseTrainingIsLow | app.py:569 | `Training` is LOW. |
| Priorities.UnknownTypeIsMedium | app.py:569 | Any type whose lower-casing is not a key of the table is MEDIUM rather than rejected. |
| Priorities.InspectionIsMedium | app.py:569 | `inspection` is MEDIUM. |
| QueryArgs.HexValue | app.py:432-434 | A hex digit's value is below 16. |
| QueryArgs.Unquote | app.py:432-434 | Unquoting never lengthens a text, and it leaves a text without `+` or `%` unchanged. What a `+` and a valid `%HH` become is stated by `UnquotePlus` and `UnquoteEscape`. |
| QueryArgs.QueryString | app.py:432-434 | The query the server sees never contains `#`, and it is empty when the URL has no `?`. |
| QueryArgs.ParsePieces | app.py:432-434 | Skipping empty pieces yields at most one pair per piece. |
| QueryArgs.ParsePair | app.py:432-434 | A piece without `=` is a key with an empty value. |
| QueryArgs.ParseQuery | app.py:432-434 | An empty query gives no pairs, and a query without `&` gives exactly one pair. |
| QueryArgs.ArgOf | app.py:432-434 | `request.args.get(key)` is None for a URL without a query. |
| QueryArgs.Lookup | app.py:432-434 | `args.get` is None if and only if no pair has the key. Otherwise the value is that of the first pair with the key. |
| QueryArgs.ParsePairAt | app.py:432-434 | A piece is cut at its first `=`, so a later `=` stays in the value. |
| QueryArgs.Pieces | app.py:463 | Each pair is written as `key=value`. |
| QueryArgs.Unquoted | app.py:432-434 | Each pair keeps its key and has its value unquoted. |
| QueryArgs.ParseWritten | app.py:432-434 | Parsing the `&`-joined pieces of pairs with plain keys and `&`-free values gives back the pairs with their values unquoted. |
| QueryArgs.ParsePiecesWritten | app.py:432-434 | Parsing each written piece gives back its pair with the value unquoted. |
| QueryArgs.UnquotePlus | app.py:432-434 | A `+` between two plain texts reads back as a space. |
| QueryArgs.UnquoteEscape | app.py:432-434 | A `%` followed by two hex digits, after plain text, reads back as the one character whose code the two digits give; what follows is unquoted in turn. |
| QueryArgs.UnquotePlainPrefix | app.py:432-434 | Plain text in front of any text is kept as it is, and the rest is unquoted on its own. |
| QueryArgs.UnquoteLeadingEscape | app.py:432-434 | An escape at the front reads back as one character. |
| QueryArgs.UnquoteLeadingPlain | app.py:432-434 | A first character other than `+` and `%` is kept. |
| QueryArgs.UnquotePlainStep | app.py:432-434 | One more plain character in front of a kept prefix is kept too. |
| Routes.Truthy | app.py:436 | Defines Python truth of an optional text: present and non-empty. |
| Routes.AllPresent | app.py:454 | Defines the test all three fields pass, `a and b and c` or `all([a, b, c])`. |
| Routes.RequestParams | app.py:432-434 | The three `request.args.get` reads. A URL without a query gives three Nones. |
| Routes.NoQueryShowsGenerator | app.py:428-445 | A URL without a query opens the generator page with no notice. |
| Routes.Index | app.py:428-445 | Scanner page if and only if all three parameters are present and non-empty. The scanner shows exactly those values. The generator page has no notice and no code. |
| Routes.ScanUrl | app.py:463 | The URL starts with the root, and its length is the root's length, plus the fixed text, plus the lengths of the three values. |
| Routes.EncodedUrl | app.py:462-463 | The encoded URL is the root with its trailing `/` stripped, followed by exactly `/?`. |
| Routes.GenerateQr | app.py:447-497 | Always the generator page, with a notice. The notice is "All fields are required" if and only if a field is missing or empty. A code is shown if and only if the notice is a success. With a complete form, a successful render always gives the success notice and the rendered scan URL, shown with the form's values. A render failure is reported with its error text. |
| Routes.ScanQuery | app.py:463 | The server receives the scan URL's whole query. |
| Routes.ScanQueryPieces | app.py:463 | The query is the three pairs written out and joined with `&`. |
| Routes.ScanUrlReadBack | app.py:428-463 | When the values hold no `&` or `#`, `index` reads back each value unquoted. |
| Routes.ScanArgs | app.py:432-463 | The pairs the server parses from the scan URL are the three scan pairs, with their values unquoted. |
| Routes.ScanKeysPlain | app.py:463 | The three parameter names hold no `=`, `&`, `+` or `%`, so they are read back as written. |
| Routes.UnquotedScanPairs | app.py:432-434 | Unquoting the scan pairs unquotes exactly the three values. |
| Routes.LookupScanPairs | app.py:432-434 | Each of the three names finds its own value. |
| Routes.ScanUrlRoundTrip | app.py:428-463 | Values free of `&`, `#`, `+` and `%` come back exactly, and when they are non-empty the scanner opens on the same target. |
| Routes.GenerateThenScan | app.py:428-497 | A code generated from such values opens the scanner page on the fields it was generated from. |
| Routes.PlusInKeyReadsAsSpace | app.py:463 | An unescaped `+` in the key comes back as a space. |
| Routes.PercentInKeyIsDecoded | app.py:463 | An unescaped `%HH` in the key comes back as the one character with code HH, so the scanner posts a different key. |
| Routes.AmpersandInUrlOverridesKey | app.py:463 | An endpoint ending in `&api_key=X` makes `index` read key X instead of the form's key. |
| Routes.OverridingQuery | app.py:463 | Such a URL parses as four pairs, with the injected key first. |
| Routes.OverridingPairs | app.py:432-434 | The four-pair query text parses as written. |
| Routes.ParseCleanPairs | app.py:432-434 | Pairs with plain keys and clean values parse back exactly. |
| Routes.FourPiecesText | app.py:463 | The overriding query is four pieces joined with `&`. |
| Routes.OverridingText | app.py:463 | Those four pieces, glued with `&`, spell out the overriding query text. |
| Routes.LookupPrefix | app.py:432-434 | A key found among the first pairs is found with the same value in the whole list. |
| Routes.HashCutsKey | app.py:463 | A `#` in the key cuts it off. A key starting with `#` makes the code open the generator page. |
| Submission.Get | app.py:504-505 | `data.get(k)` is a text exactly when the member is a string. A missing member and `null` both give None. |
| Submission.GetOr | app.py:521 | `data.get('location', '')` defaults only a missing member. An explicit `null` stays None. |
| Submission.StatusCode | app.py:547-560 | 200 if and only if the reply is a success, and 500 if and only if it is an error. |
| Submission.Show | app.py:522 | An f-string renders a missing value as `None`. |
| Submission.RequestId | app.py:522 | The request id is the rendered equipment id, then `_`, the submitted service type as given, `_`, and the 15-character stamp; its length is the three parts plus 17. |
| Submission.Submit | app.py:499-560 | Fails if and only if the body is `null` or `service_type` is not a string, with the matching exception text. On success, the payload carries the equipment id, the upper-cased type, the client's timestamp and user agent, status REQUESTED, the priority text of the submitted type, and metadata (QR_SCAN, location defaulted, request id). The reply carries the success message, the equipment id, the submitted type and the payload's request id. |
| Submission.PayloadPriorityAgrees | app.py:514-518 | The payload's priority text is that of its own upper-cased service type. |
| Submission.ReplyMatchesPayload | app.py:547-553 | A success reply has status 200, the payload's equipment id and request id, and a message that starts with the payload's type. |
| Submission.MissingEquipmentIdAccepted | app.py:504-522 | A body without `equipment_id` is accepted, and its request id starts with `None_`. |
| Submission.RequestIdSecondResolution | app.py:522 | Two accepted submissions of the same body give identical results if and only if the clock readings agree to the second. |
| Submission.RequestIdStamp | app.py:522 | For a fixed id and type, request ids are equal if and only if the stamps are. |
| Submission.StampParts | app.py:522 | The stamp is eight date digits, `_`, then six time digits. |
| Submission.RequestIdSplits | app.py:522 | When neither the id nor the type holds `_`, cutting the request id at `_` gives back the id, the type, the date and the time. |
| Submission.StampPieces | app.py:522 | The stamp is an eight-digit date and a six-digit time, neither holding `_`, joined by `_`. |
| Submission.SplitFour | app.py:522 | Four texts free of `_`, joined with `_`, split back into the same four. |
| Submission.RequestIdPieces | app.py:522 | The request id is the rendered equipment id, the type, an eight-digit date and a six-digit time, joined with `_`. |
| Submission.RepairRequestAccepted | app.py:499-569 | A repair request for EQP-001 is accepted, classified HIGH and announced as `REPAIR request submitted successfully`. |
| Submission.UpperRepair | app.py:514 | `repair` upper-cases to `REPAIR`. |
| RequestLog.IsoFormatShaped | app.py:574 | Every log timestamp has the ISO layout. |
| RequestLog.ServiceLog.constructor | app.py:581 | A new log is empty. |
| RequestLog.ServiceLog.LogServiceRequest | app.py:571-585 | Exactly one entry (ISO time, id, type, payload) is appended when the write succeeds, and nothing otherwise. Every entry keeps an ISO timestamp. |
| RequestLog.SubmitService | app.py:499-560 | Returns the handler's reply and status. A failed submission leaves the log unchanged. A successful one appends exactly its own entry when the write succeeds. The log stays one whose every entry came from a submission. |
| RequestLog.EntryOf | app.py:573-578 | The entry a submission logs is stamped with `isoformat()` of the logging clock (an ISO-shaped text). It holds the body's equipment id and the submitted service type as given (not upper-cased), and carries the submission's payload. That payload agrees with the entry on equipment id, upper-cased type, priority and status. |
| RequestLog.AppendFromSubmission | app.py:581-582 | Appending such an entry keeps every entry one from a submission. |

## Left out

- The HTML page, its JavaScript and the template rendering: a page is modelled by the values the handler passes to the template.
- The QR encoder, the PNG writer and base64: together they are the parameter `render` of `GenerateQr`. Its failure is the error path of lines 493-497.
- The Flask plumbing: routing, `request.url_root`, form and JSON decoding. A form is `Params`, and a JSON body is `Option<Body>`, where None stands for a JSON `null`.
- Non-JSON bodies and bodies that are not objects: they raise exceptions whose texts are not modelled.
- Members that are neither strings nor `null` (numbers, booleans, arrays, objects) are outside the model. A non-string `service_type` raises an `AttributeError` worded after its type at `.upper()`. The other members are carried through unchanged, and a non-string `equipment_id` is rendered with `str()` in the request id.
- The resolution of `crm_api_url` and `api_key` at lines 508-509: the values only reach a console message and the disabled CRM request.
- The CRM HTTP request itself (commented out in the source), with its headers and timeout.
- The console messages (`print`).
- The log file: its opening and writing are the boolean `written`. A failed write is caught inside `log_service_request` (lines 580-585): it leaves the log unchanged, and the reply is still the success reply. The JSON serialisation of each line is not modelled; entries are kept as values.
- The clock: each reading is passed in as a `Clock`. Submission takes two readings, one for the request id and a later one for the log entry.
- `/health` and the server start-up.
- `Text.Lower`, `Text.Upper`: case mapping covers ASCII only. Python's Unicode case mapping, including changes in length, is not modelled.
- `Timestamps.Strftime`: years before 1000 are outside the model. The platform's `%Y` does not pad them.
- `QueryArgs.Unquote`: `%HH` decodes to the character with that code, not as UTF-8 bytes, and invalid escapes are kept as written.
- Normalisation of the scan URL by the browser or the QR reader is not modelled.

# amocrm-client: session, transport and incoming-call submission, in Dafny

This project models the decision logic of a Go client for the amoCRM HTTP API.

- **Authentication (`New`).** The login, the API hash and the account URL are checked in that order. Then the reply of the authentication endpoint is sorted into one of these outcomes: wrong status, a body that does not decode, rejected, or accepted. An accepted reply yields a `clientInfo` holding the URL, the reply's cookies, and the first account's timezone.
- **Request building (`DoGet`, `DoPost`, `DoPostWithoutCookie`).** Each builds the request it hands to the HTTP client. The first two attach every session cookie in order. The third attaches none. None of them changes the client.
- **Response-envelope interpretation (`GetResponseID`).** The result is the first item's id, or the server's error string, or `"No Items"`, or the decoding error.
- **Incoming-call submission (`AddIncomingLeadCall`).** Nine fail-fast guards run over the call fields (one guard is a repeat). Then a one-element `add` batch is posted to the account URL followed by the `incomingleadsip` endpoint path, and the reply is read by `GetResponseID`.

HTTP and JSON are replaced by plain values:
- a request is a `Request` record;
- a reply is a status code, a cookie list and an already-decoded body, or the cause of a decoding failure;
- the exchange itself is a function the caller supplies (`post` for authentication, a `Transport` for the lead POST).

The package-level endpoint table `apiUrls` and the verdict of `url.Parse` come in through `Client.Env`. A key missing from `apiUrls` reads as `""`, as a Go map lookup does.

"Nothing is sent" is stated as independence: the outcome is the same whatever the exchange function would have answered.

Files:
- `wrappers.dfy`: `Option` and `Result`.
- `client.dfy`: module `Client`, which models client.go. It holds the class `ClientInfo` (the fields `New` fills in one after the other) and its request-building methods. It also holds `New` and its value-level specification `Authenticate`, and `GetResponseID`.
- `incoming_lead.dfy`: module `IncomingLead`, which models incomingLead.go. `Validate` is the nine guards exactly as written. `FirstEmpty` over `RequiredFields` is an independent reference definition: the first empty field among the eight. The two are proved equal.

Three facts about the source that the model keeps as they are:
- `DoPostWithoutCookie` encodes its body as JSON (client.go:150) but labels it `application/x-www-form-urlencoded` (client.go:161).
- "No items and no error" is an ordinary error with the text `"No Items"` (client.go:178). It is not a separate kind of error.
- `New` copies the timezone (client.go:90-92) before it checks `auth` (client.go:93-95). A rejected reply still returns no client, so this cannot be observed.

## Model

| member | source | states |
|---|---|---|
| `Client.ClientInfo.constructor` | client.go:61-64 | a new client holds the login and hash as given, and an empty URL, timezone and cookie list |
| `Client.ClientInfo.AttachCookies` | client.go:108-110 | every cookie of the client is attached, in order |
| `Client.ClientInfo.DoGet` | client.go:103-115 | an unparsable URL is an error; otherwise a GET to that URL with every client cookie in order, no header besides the attached cookies, no body, and exactly one query value `data[k]` under each key `k` of `data`, whatever order the map is visited in; the client is not modified |
| `Client.ClientInfo.DoPost` | client.go:129-145 | an unparsable URL is an error; otherwise a JSON POST of `data` to that URL carrying every client cookie in order; the client is not modified |
| `Client.ClientInfo.DoPostWithoutCookie` | client.go:148-164 | an unparsable URL is an error; otherwise a POST of `data` with no cookie and exactly the `Accept` and `Content-Type` headers the source sets; the client is not modified |
| `Client.Authenticate` | client.go:52-101 | authentication succeeds exactly when login and hash are non-empty, the URL parses, and the reply has status 200, decodes, and has `auth` true |
| `Client.New` | client.go:52-101 | returns a client exactly when there is no error; the error is the one `Authenticate` gives; a returned client is fresh and its fields are the accepted session |
| `Client.EmptyLoginRefused` | client.go:55-57 | an empty login fails with exactly `"login is empty"`, whatever the hash, the URL and the server |
| `Client.EmptyHashRefused` | client.go:58-60 | with a login, an empty hash fails with exactly `"hash is empty"` |
| `Client.InvalidInputSendsNothing` | client.go:55-68 | with an empty login or hash or an unparsable URL, the outcome is an error and does not depend on the authentication endpoint |
| `Client.WrongStatusRefused` | client.go:78-100 | any status other than 200 is an error that depends only on the status: the body is not decoded and no client is returned |
| `Client.MalformedReplyRefused` | client.go:80-89 | a 200 reply whose body does not decode is that decoding error |
| `Client.RejectedCarriesServerError` | client.go:93-95 | `auth == false` is an error whose text is exactly the server's error string, and no client is returned |
| `Client.AcceptedSession` | client.go:61-96 | an accepted reply gives login and hash unchanged, `Url` the account URL, `Cookie` the reply's cookies, and `Timezone` that of the first account, or `""` when there is no account |
| `Client.AuthRequestShape` | client.go:70-75 | the authentication request is a cookie-less POST of `USER_LOGIN` and `USER_HASH` to the account URL followed by the `auth` path, with the form-urlencoded `Content-Type` header and nothing added to the query |
| `Client.GetResponseID` | client.go:167-181 | no error exactly when the reply decodes and has items; then the id is the first item's; every error comes with id 0 |
| `Client.FirstItemWins` | client.go:174-180 | with items, the result is the first item's id and no error, whatever the later items and the error string hold |
| `Client.NoItemsServerError` | client.go:174-177 | no items and a non-empty error string give id 0 and an error with exactly that text |
| `Client.NoItemsNoError` | client.go:178 | no items and an empty error string give id 0 and the error `"No Items"` |
| `IncomingLead.Validate` | incomingLead.go:9-35 | the nine guards as written, Duration checked twice, give the error text of the first guard that fires; no error exactly when all eight call fields are non-empty |
| `IncomingLead.FirstEmpty` | incomingLead.go:9-35 | the reference check: no result exactly when every required field is non-empty; otherwise the name of an empty field with every earlier field non-empty |
| `IncomingLead.ValidateReportsAt` | incomingLead.go:9-35 | the guards as written report the first empty field in the order To, From, DateCall, Duration, Link, ServiceCode, Uniq, AddNote: they fail fast and do not accumulate errors |
| `IncomingLead.ValidateReportsFirstEmpty` | incomingLead.go:18-23 | the nine guards give the same result as the first-empty check over the eight fields, so the repeated Duration guard never fires and removing it changes no result |
| `IncomingLead.AddIncomingLeadCall` | incomingLead.go:8-43 | every error comes with id 0, and a call without error passed validation |
| `IncomingLead.EmptyToRefused` | incomingLead.go:9-11 | an empty `To` gives exactly `(0, "IncomingLeadInfo.To is empty")`, whatever the other fields, the transport and the endpoint table |
| `IncomingLead.ReportsFirstEmptyField` | incomingLead.go:9-35 | the error of a submission names the first empty field, with id 0 |
| `IncomingLead.InvalidLeadSendsNothing` | incomingLead.go:9-38 | with any required field empty, the result is an error with id 0 and does not depend on the transport or the endpoint table, so nothing is posted |
| `IncomingLead.ValidLeadIsPosted` | incomingLead.go:36-42 | with every required field present, the result is `(0, BadUrl)` with nothing sent when the URL does not parse; otherwise it comes from one JSON POST to the account URL followed by the `incomingleadsip` path, carrying the client's cookies and the batch `add: [lead]` of length one. A failed exchange returns `(0, that error)`. A reply is read by `GetResponseID` |

## Left out

- HTTP I/O (`http.Post`, `client.Do`, `ioutil.ReadAll`, body streaming): the exchange is a function parameter, and the `Do*` methods return the request the source hands to `client.Do`.
- JSON encoding and decoding: replies arrive decoded, or as the cause of a decoding failure. A failure of `json.Marshal` or of the encoder in `DoPost` and `DoPostWithoutCookie` is not modelled, because the typed payloads here always encode.
- The acceptance rules of `url.Parse` and `http.NewRequest`: the model takes them as the predicate `Env.urlParses`.
- Client.ClientInfo.DoGet: the query holds only the values DoGet adds. Merging them with a query already present in the URL and encoding the result with `url.Values.Encode` are not modelled.
- Client.ClientInfo.AttachCookies: cookies are kept as a list. The formatting of the `Cookie` header by `req.AddCookie` is not modelled.
- Client.WrongStatusRefused: the text of the wrong-status error is not modelled, only its status code. The source builds that text with `string(resp.StatusCode)`, which turns the number into a character, not into digits.
- A failed authentication POST in `New` is not modelled. The source never checks the error of `http.Post` (client.go:75); the `defer resp.Body.Close()` at client.go:77 reads `resp.Body` at once, so a failed POST dereferences a nil response.
- Debug output (`fmt.Println`) is left out, because it does not affect results.
- The values of the `apiUrls` table are not part of this model: the table is a parameter (`Env.apiUrls`).
- IncomingLead.ValidLeadIsPosted: "exactly one POST" is stated as "the result is the transport's answer to one request". Transport calls are not counted.
- `IncomingLead` and `IncomingLeadRequest` are not defined in the modelled files. The model keeps the eight call fields the guards read and carries the other fields opaquely.
- lead_models.go is not part of this model: it declares data types only.
- Ids are unbounded integers. Go's `int` width matters only to JSON decoding, which is left out.

# Birth-chart routes, modelled in Dafny

This project models `routes/mapa-astral.js`, the Express router of a service
that computes astrological birth charts for signed-in users. The model has
these parts:

- **Authentication** (`verifyUser`). The model reads the `Authorization`
  header and takes the token out of `Bearer <token>` the way `split` does.
  The identity provider's `verifyIdToken` is a parameter: a total function
  from a token to a uid or an error message.
- **Validation** (`validateInputData`). The validator checks the five fields
  of the request body. It collects one error per bad field, in the source's
  order, and normalises the accepted data. It is modelled as written,
  including the two ways it throws a `TypeError`:
  - Converting an object to a string throws when the object has an own
    `toString` that is not a function, or is an array holding such an object.
    The date and time are converted at lines 61 and 68, and the coordinates at
    lines 97-98. Such a body is answered 500, not 400.
  - Line 99 throws when the name is present but is not a string (see
    Findings). A validator corrected at that line sits beside the original.
- **The store** (`fireSet`, `fireAdd` and the status read). Each user has
  one chart document, written by merge. Merge skips undefined fields, as
  `firebase.js` configures. Each user also has a notification log, written
  by append. Any write may fail, and a failed write changes nothing.
- **The background run** (`processarMapaAstral`). The run computes the chart,
  saves it as `completed`, then adds a success notification. If any step
  fails, it adds an error notification. The computation library's answer is
  a parameter.
- **The two handlers**. Each is a decision function plus a method that does
  the writes. `POST /calcular` answers 400, 202, 401 or 500. On 202 it then
  runs the background computation. On 500 it tries to notify the caller.
  `GET /status` answers 200 with a view of the chart document, or 404, 401
  or 500.

Files: `wrappers.dfy` (Option and Result), `js_values.dfy` (JavaScript
values and truthiness), `js_strings.dfy` (trim, search, split and the two
regular expressions), `validator.dfy`, `auth.dfy`, `store.dfy` and
`mapa_astral.dfy`.

## Model

| member | source | states |
|---|---|---|
| JsValues.Or | routes/mapa-astral.js:284-287 | the `or` operator on a value and a fallback gives the value when it is truthy and the fallback otherwise |
| JsStrings.TrimStart | routes/mapa-astral.js:87 | the result is a suffix of the input, it starts with a non-whitespace character, and every removed character is whitespace |
| JsStrings.TrimEnd | routes/mapa-astral.js:87 | the result is a prefix of the input, it ends with a non-whitespace character, and every removed character is whitespace |
| JsStrings.Trim | routes/mapa-astral.js:87-99 | the trimmed string is the infix of the input that starts after its leading whitespace. Only whitespace lies before and after it, and when it is non-empty neither of its ends is whitespace |
| JsStrings.TrimEmptyIff | routes/mapa-astral.js:87 | `s.trim().length < 1` holds exactly when every character of `s` is whitespace |
| JsStrings.IndexOf | routes/mapa-astral.js:31 | the result is the first index where the separator occurs, or none when it occurs nowhere |
| JsStrings.SplitSecond | routes/mapa-astral.js:31 | `split(sep)[1]` exists exactly when `sep` occurs. It starts right after the first occurrence and ends at the next occurrence that begins after it, or at the end of the string. So `sep` begins nowhere inside it, even for a separator that overlaps itself |
| JsStrings.FirstField | routes/mapa-astral.js:31 | `split(sep)[0]` starts the string and no occurrence of `sep` begins within it. It is the whole string iff `sep` does not occur, and otherwise `sep` follows it, so it ends at the first occurrence |
| Validator.Errors | routes/mapa-astral.js:56-89 | the error list holds at most one message per field, so at most five |
| Validator.FirstConversionFailure | routes/mapa-astral.js:61-98 | no field is reported exactly when none of date, time, lat and lng has a string conversion that throws; the name is never the one reported |
| Validator.NormalisedName | routes/mapa-astral.js:99 | `name?.trim() \|\| null` is defined exactly for a nullish or string name. It gives the trimmed string when that is non-empty, and otherwise no name |
| Validator.Validate | routes/mapa-astral.js:55-102 | the validator returns exactly when no date, time or coordinate fails its string conversion and the name is nullish or a string. The first field whose conversion throws is the one reported. A returned result is valid iff it has no errors, and its errors are the collected ones. Valid data has numeric coordinates and the trimmed name, or no name |
| Validator.CollectErrors | routes/mapa-astral.js:56-89 | the push-by-push pass over the five fields builds exactly the specified error list. It throws exactly when the date or the time fails its conversion, and then names that field, the date first |
| Validator.CheckPattern | routes/mapa-astral.js:59-70 | a falsy value gets "required", a value whose conversion throws throws, and any other value gets "format" iff it does not match the pattern |
| Validator.ValidateInputData | routes/mapa-astral.js:55-102 | the imperative validator has the specified outcome, including both kinds of throw |
| Validator.ErrorsOfField | routes/mapa-astral.js:56-89 | the messages about one field are exactly that field's own check; each field is checked independently and gets at most one message |
| Validator.ValidIffNoErrors | routes/mapa-astral.js:91-93 | `isValid` holds iff no field has a message |
| Validator.DatePatternShape | routes/mapa-astral.js:61 | the date pattern matches exactly the strings of four digits, dash, two digits, dash, two digits |
| Validator.TimePatternShape | routes/mapa-astral.js:68 | the time pattern matches exactly the strings of two digits, colon, two digits, colon, two digits |
| Validator.DateAcceptedIff | routes/mapa-astral.js:59-63 | the date is accepted iff its text has the date shape. A falsy date gets "required"; a truthy one that does not match gets "format" |
| Validator.TimeAcceptedIff | routes/mapa-astral.js:66-70 | the time is accepted iff its text has the time shape. A falsy time gets "required"; a truthy one that does not match gets "format" |
| Validator.NoCalendarCheck | routes/mapa-astral.js:61-68 | the patterns check shape only: `2024-13-99` and `99:99:99` are accepted |
| Validator.LatAcceptedIff | routes/mapa-astral.js:73-77 | latitude is accepted iff it is a number in [-90, 90]. "Required" means exactly null or undefined; a present non-number gets the range message |
| Validator.LngAcceptedIff | routes/mapa-astral.js:80-84 | longitude is accepted iff it is a number in [-180, 180]. "Required" means exactly null or undefined; a present non-number gets the range message |
| Validator.NameOutcomes | routes/mapa-astral.js:87-99 | an absent or empty name gives no error and no name. A non-blank string gives no error and is kept trimmed. The name message is given iff the name is truthy and either not a string or all whitespace |
| ValidatorFixed.ValidateFixed | routes/mapa-astral.js:87-101 | the corrected validator returns exactly when no date, time or coordinate fails its string conversion, and otherwise throws for the first that does. Its errors are the collected ones, it is valid iff there are none, and valid data carries the trimmed string name, or none |
| ValidatorFixed.NonStringNameThrows | routes/mapa-astral.js:99 | as written, any present name that is not a string makes the validator throw. When no other field throws first, the throw is the `trim` one, even when line 87 has already recorded the name message for a truthy name |
| ValidatorFixed.NumericNameThrows | routes/mapa-astral.js:99 | a well-formed request whose name is the number 5 makes the validator throw |
| ValidatorFixed.UnconvertibleLatitudeThrows | routes/mapa-astral.js:73-98 | a latitude object whose `toString` is not a function gets the range message at line 76 and then throws at line 97, in both the original and the corrected validator |
| ValidatorFixed.FixedReportsNonStringName | routes/mapa-astral.js:87-88 | corrected, a truthy non-string name makes the validator return whenever no other field's conversion throws, and then with the name message and an invalid result |
| ValidatorFixed.FixedAgreesWhereSourceReturns | routes/mapa-astral.js:91-101 | wherever the source's validator returns, the corrected one returns the same result |
| ValidatorFixed.FixedDiffersOnlyAtTrim | routes/mapa-astral.js:99 | the corrected validator differs from the original exactly on the inputs where the original throws at `trim` |
| Auth.BearerToken | routes/mapa-astral.js:25-35 | the "absent or malformed" message is given iff the header is missing or does not start with `Bearer `. Otherwise the result is the "not provided" message, or a non-empty token that follows the scheme and does not contain it |
| Auth.VerifyUser | routes/mapa-astral.js:24-43 | a header failure is passed on without asking the provider. The provider's uid is returned as is, and its failure is reported as `Token inválido: <reason>`. Every failure message contains `Token` |
| Auth.AuthFailureIsUnauthorized | routes/mapa-astral.js:232-237 | every error `verifyUser` throws is classified 401, by both handlers |
| Auth.MalformedHeaderIgnoresOracle | routes/mapa-astral.js:27-29 | a malformed header fails the same way whatever the identity provider would say |
| Auth.BearerRoundTrip | routes/mapa-astral.js:27-35 | `Bearer <t>` yields `t` for every non-empty token that does not contain the scheme |
| Auth.TokenEndsAtNextScheme | routes/mapa-astral.js:31-35 | with a second `Bearer ` in the header, the token stops before it, and `Bearer Bearer x` is rejected as an empty token |
| Auth.MessagesMentionToken | routes/mapa-astral.js:28-34 | both header messages contain `Token` |
| Auth.StatusForError | routes/mapa-astral.js:232-243 | a caught error is classified 401 or 500, and nothing else |
| Auth.StatusForErrorCases | routes/mapa-astral.js:232 | a message starting with `Token` or `Unauthorized` is classified 401. A message without the letters `T` and `U` is classified 500 |
| Store.Merge | firebase.js:69-71 | a merge write sets every defined field of the values, skips undefined ones and keeps the document's other fields |
| Store.ReplayLog | routes/mapa-astral.js:133-142 | a sequence of writes appends to a user's notification log exactly the notifications addressed to that user, in order |
| Store.ReplayChart | routes/mapa-astral.js:113-122 | a sequence of writes merges into a user's chart exactly the values addressed to that user, in order, so the latest write wins. A user with no such write keeps the chart |
| Store.ReplayConcat | routes/mapa-astral.js:113-142 | replaying two write sequences one after the other equals replaying their concatenation |
| Store.Db.FireSet | routes/mapa-astral.js:113-122 | on success the document is merged with the values and the write is appended to the trace. On failure the store and the trace are unchanged. Notifications and other users' charts are never touched |
| Store.Db.FireAdd | routes/mapa-astral.js:133-142 | on success the notification is appended to the user's log and the write to the trace. On failure the store and the trace are unchanged. Charts and other users' logs are never touched |
| Store.Db.ReadChart | routes/mapa-astral.js:274 | a read either fails or returns the user's chart document, or "missing" when there is none |
| Store.Db.Respond | routes/mapa-astral.js:210-243 | sending a reply leaves the store unchanged and appends the reply to the trace of effects |
| MapaAstral.ProcessarMapaAstral | routes/mapa-astral.js:150-188 | the run ends in one of the outcomes its computation allows. The store afterwards is the old store with exactly that outcome's writes replayed, and those writes are what the run adds to the trace, in order |
| MapaAstral.ChartValuesFields | routes/mapa-astral.js:158-163 | the completed chart holds the normalised date, time, coordinates and name (or null), the result, the server timestamp and the status `completed`, and no `error` field |
| MapaAstral.RunWrites | routes/mapa-astral.js:150-188 | a run writes at most twice, only its user's records. It begins with the chart merge exactly when it completes or fails at the success notification, and that merge carries the completed chart |
| MapaAstral.SuccessNotificationFollowsCompletedChart | routes/mapa-astral.js:158-172 | a success notification is written only by a completed run, as its second write, right after the chart merge whose status is `completed` |
| MapaAstral.RunNotifiesOnce | routes/mapa-astral.js:150-188 | a run writes only its user's records and adds exactly one notification: success when it completes, error when it fails. The one exception is a failed error write, which adds none. The chart is written iff the save step succeeded |
| MapaAstral.RunEffect | routes/mapa-astral.js:150-188 | after a run the user's log has grown by the run's notification. The chart holds the merged completed result iff it was saved. Other users' records are unchanged |
| MapaAstral.CompletedRun | routes/mapa-astral.js:155-172 | a completed run merges the chart values into the user's document and appends one success notification |
| MapaAstral.ThrownIsInternal | routes/mapa-astral.js:232-243 | neither `TypeError` the validator throws mentions `Token` or `Unauthorized`, so both are classified 500 |
| MapaAstral.DecidePost | routes/mapa-astral.js:199-260 | 202 only for an authenticated caller whose input was returned valid, with that data. 400 only for an authenticated caller whose input was returned invalid, with its non-empty errors. A 500 that notifies names the authenticated, non-empty uid of a request whose validator threw. A failed authentication gives 401, or 500 without a notification |
| MapaAstral.UnauthenticatedIsUnauthorized | routes/mapa-astral.js:202-204 | a request that fails authentication is answered 401, whatever its body |
| MapaAstral.InvalidInputIsBadRequest | routes/mapa-astral.js:209-214 | an authenticated request with invalid input is answered 400 with every field error |
| MapaAstral.ValidInputIsAccepted | routes/mapa-astral.js:216-226 | an authenticated request with valid input is answered 202 and dispatches the run over the normalised data |
| MapaAstral.NonStringNameIsInternalError | routes/mapa-astral.js:99 | as written, an authenticated request with a present non-string name is decided as 500 with a system-error notification to be attempted for the caller. The attempt may fail and be swallowed, see `ReplyAndNotify` |
| MapaAstral.ConversionFailureIsInternalError | routes/mapa-astral.js:61-98 | an authenticated request with a date, time or coordinate whose string conversion throws is decided as 500, with a notification to be attempted for the caller |
| MapaAstral.FixedValidatorInternalErrorOnlyOnConversion | routes/mapa-astral.js:199-260 | with the validator corrected at line 99, a request is answered 500 exactly when it is authenticated and a date, time or coordinate fails its string conversion |
| MapaAstral.Calcular | routes/mapa-astral.js:199-260 | the handler answers with the decision and runs the validator only after authentication succeeds. What it appends to the trace is the reply followed by the writes the decision allows: for 202 the run's writes, and for 500 with a known caller an optional system-error notification. The store afterwards is the old one with exactly those writes replayed |
| MapaAstral.Dispatch | routes/mapa-astral.js:216-226 | the 202 reply is sent first, then one possible run of the computation. The trace grows by the reply followed by exactly that run's writes, and the store changes by those writes |
| MapaAstral.ReplyAndNotify | routes/mapa-astral.js:240-258 | the 500 reply is sent first and the trace records it first; it may be followed by one system-error notification to the caller. A failure of that write is swallowed and changes nothing |
| MapaAstral.ReplyFirst | routes/mapa-astral.js:209-243 | in every trace a request can append, there is exactly one reply, and it comes before every write |
| MapaAstral.RejectedRequestPersistsNothing | routes/mapa-astral.js:202-214 | requests answered 400 or 401 write nothing |
| MapaAstral.AcceptedPersistsOwnRecords | routes/mapa-astral.js:216-226 | an accepted request writes only the caller's records and at most one notification |
| MapaAstral.ViewOf | routes/mapa-astral.js:282-288 | the status is the stored one when that is truthy, and `unknown` otherwise. `hasResult` holds iff `mapa` is truthy. `createdAt` is passed through. `error` is the stored one when that is truthy, and null otherwise |
| MapaAstral.DecideStatus | routes/mapa-astral.js:270-305 | 200 with the document's view exactly when the caller is authenticated and the document is found. 404 exactly when authenticated and the document is missing. A failed authentication or read gives 401 or 500 |
| MapaAstral.GetStatus | routes/mapa-astral.js:270-305 | an unauthenticated poll is answered 401. Otherwise the answer is 200 with the view, 404 without a document, or 401/500 when the read fails |
| MapaAstral.NotFoundIffNoChart | routes/mapa-astral.js:276-280 | a poll is answered 404 exactly when the caller has no chart document |
| MapaAstral.CompletedView | routes/mapa-astral.js:282-288 | after the completed chart is merged, the view shows `completed`, the server timestamp and any earlier `error` field. `hasResult` is the truthiness of the new result, or of the earlier `mapa` when the library resolved with `undefined` and the merge skipped it |
| MapaAstral.StatusAfterCompletedRun | routes/mapa-astral.js:150-188 | after a completed run, polling shows `completed`, the server timestamp and whether a result exists. That is the previous run's result when this run's result was `undefined` |
| MapaAstral.LatestSubmissionWins | routes/mapa-astral.js:158-172 | after two completed submissions, the one chart document holds every defined field of the later run, and the log has two success notifications |

## Left out

- The Express wiring, CORS, the body parsers and the HTTP reply bodies are out of the model. Replies are status codes, and the field errors are named cases rather than the Portuguese texts. The request body is taken to be an object whose fields are modelled values. `express.json()` and `express.urlencoded({extended: true})` in `index.js` both produce such an object.
- Logging (`console.log` and `console.error`) is out of the model.
- The Firebase initialisation in `firebase.js` is out of the model, except the `ignoreUndefinedProperties` setting.
- The computation library `@itsmaneka/astrolink` is an oracle whose answer is a parameter of the run. The identity provider's `verifyIdToken` is an oracle passed to the handlers.
- Server timestamps are one opaque value. Notification titles and messages are identified by which of the three notifications they are.
- `setImmediate` concurrency is out of the model. The background run is modelled as running to completion right after the 202 reply. Interleaving with other requests, and two runs of one user racing, are not captured.
- A store write that reports failure is assumed to have written nothing. The store's failure messages are arbitrary strings.
- When the catch block's own error notification fails, the run ends as an unhandled rejection. The model records this (`Failed(stage, false)`); what the Node.js process then does is not modelled.
- A failed run writes no `failed` status into the chart document. The code never does so, and the model follows it. The `error` field that `GET /status` reports is therefore never written by these routes.
- Store.Merge: merges top-level fields only. A field that holds an object replaces the stored one whole, whereas the store's merge write merges nested maps key by key, and only an empty map replaces. So a stored `mapa` object keeps keys from an earlier result that the later one lacks.
- MapaAstral.LatestSubmissionWins: the later run's value of a field that is an object in both runs, in practice `mapa`, is not what the document holds afterwards. Because of the key-by-key merge, keys only the earlier result had remain.
- The ordering of replies and writes is recorded in a ghost trace on the store. The trace records what the model does in order; it is not an observation of the network.
- The collection and document names are fixed: `users/{uid}/mapa_astral/data` and `users/{uid}/notifications`. They are not modelled as strings.
- `parseFloat` at lines 97-98 is modelled by whether its string conversion throws. Its value is read only on valid input, where the coordinates are already numbers and parse back to themselves. NaN, infinities and IEEE rounding are out of the model: JSON numbers are modelled as exact reals.
- Validator.Validate: the returned `data` for an invalid input is dropped, since no caller reads it.
- Validator.Validate: a number or boolean is taken never to match the date or time pattern. Its text is never all digits with `-` or `:` in place, so the model does not compute that text.
- Validator.Validate: the model does not compute an object's or array's string conversion. It takes the conversion as given: its text (`Obj.text`), or `None` when the conversion throws.

## Findings

| source | as written | input that shows it | evidently intended | confidence | as-written member | corrected member |
|---|---|---|---|---|---|---|
| routes/mapa-astral.js:99 | `name?.trim()` calls `trim` on any name that is not null or undefined, so a number, boolean, object or array throws a `TypeError`. For a truthy such name, line 87 has already pushed the name message. For `0` and `false`, `name &&` short-circuits and nothing is pushed. `POST /calcular` then answers 500 and tries to write an "Erro no Sistema" notification | body `{date: "1990-05-20", time: "14:30:00", lat: -23.55, lng: -46.63, name: 5}` with a valid token | a truthy non-string name is reported as the name message of lines 87-88 with a 400 answer, a falsy one counts as absent, and `name` is trimmed only when it is a string | not executed | ValidatorFixed.NumericNameThrows, ValidatorFixed.NonStringNameThrows, MapaAstral.NonStringNameIsInternalError | ValidatorFixed.ValidateFixed, ValidatorFixed.FixedReportsNonStringName, ValidatorFixed.FixedDiffersOnlyAtTrim, MapaAstral.FixedValidatorInternalErrorOnlyOnConversion |

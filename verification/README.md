# formHandler in Dafny

A model of the two request handlers of formHandler, a serverless form
back end on AWS Lambda, DynamoDB and SES.

- **Submission intake** (`functions/form-handler/index.ts`). A form post
  goes through a fixed chain of steps:
  1. Resolve the config-activation gate. It is cached per process and
     decides whether `formId` is mandatory.
  2. Parse the JSON body. A missing or empty body counts as `{}`.
  3. Validate `formId`.
  4. Enrich the record with `id`, `forwardedFor`, `sourceIP` and
     `timestamp`.
  5. Write the record to the submissions table.
  6. Email it as HTML, with string values escaped.
  7. Respond.

  Every step has a fixed response when it fails.
- **Admin CRUD** (`functions/admin/index.ts`). It dispatches on the HTTP
  method over the form configuration table. It answers 200, 201, 204,
  400, 404, 405 or 500.

The model is functional:

- A record is an ordered sequence of fields (`Values.Record`).
- A missing key reads as `Undefined`.
- Assigning to an existing key keeps its position. A new key is appended.
- Every external call is an input outcome:
  - `describeTable`, `scan`, `put` and `sendEmail` in the intake handler;
  - the single DynamoDB call of an admin request.
- The JSON parser is a function parameter (`Values.JsonParser`). Like
  `JSON.parse`, it never yields an object with a repeated key.
- The uuid and the clock reading are input values.
- The intake handler returns the new gate cache, the response and the
  list of calls it made (`FormHandler.Effect`). That list is how
  ordering is stated: an email is only ever sent right after a write, and
  a rejected request makes no write.
- The admin handler is a transition over `map<Value, Record>`.

Modules, leaf first:

- `Wrappers`: `Option` and JavaScript truthiness of optional strings.
- `Values`: JSON values and records.
- `Escape`: the `<`/`>` sanitizer.
- `Render`: the email HTML body and the SES request.
- `Gate`: `checkIfFormConfigActive` and its cache.
- `Http`: responses.
- `FormHandler`: the intake pipeline.
- `Admin`: the CRUD dispatcher.

Three behaviours of `functions/form-handler/index.ts` worth knowing:

- Error responses of the intake handler carry only `Content-Type`, with
  no `Access-Control-Allow-Origin`.
- `forwardedFor` is `undefined` when `X-Forwarded-For` is absent or
  empty and `x-forwarded-for` is absent. It is not a dedicated marker
  value; an empty `x-forwarded-for` gives the empty string.
- A missing `FORM_SUBMISSIONS_TABLE_NAME`, `EMAIL_FROM` or `EMAIL_TO` is
  a per-request error, not a startup failure:
  - a missing table name gives 500 "Error writing to DynamoDB";
  - a missing email address gives 500 "Error sending email", after the
    write.

Two lemmas show that keys and array/object values reach the email
unescaped: `Render.KeyMarkupPassesThrough` and
`Render.CompositeMarkupPassesThrough`. `Escape.EscapeCollision` shows
that `&` is not escaped, so `<` and a literal `&lt;` render alike. The
model keeps both behaviours as written.

## Model

| member | source | states |
|---|---|---|
| Values.Assign | functions/form-handler/index.ts:152-155 | a property write makes the key read back as the value; an existing key keeps its place in the key order, a new key is appended |
| Values.Lookup | functions/form-handler/index.ts:138 | a property read: a missing key reads as `undefined`, a present key reads as the value of one of its fields |
| Values.AssignFrame | functions/form-handler/index.ts:152-155 | a property write leaves every other key reading as before |
| Values.AssignWellFormed | functions/form-handler/index.ts:152-155 | a property write never creates a duplicate key |
| Values.EmptyBodyIsEmptyRecord | functions/form-handler/index.ts:124 | a missing or empty body is parsed as `{}` and decodes to the empty record |
| Values.ParseBody | functions/form-handler/index.ts:124 | `JSON.parse(body \|\| '{}')`: a missing or empty body is parsed as `{}`, a set body as itself, and a decoded object has no repeated key |
| Escape.ReplaceAll | functions/form-handler/index.ts:84 | a global replace of one character leaves none of it behind when the replacement does not contain it |
| Escape.ReplaceAllConcat | functions/form-handler/index.ts:84 | a global replace works character by character: it distributes over concatenation |
| Escape.EscapeHtml | functions/form-handler/index.ts:83-85 | the escaped string contains no `<` and no `>` |
| Escape.TwoPassIsSingleMap | functions/form-handler/index.ts:84 | the two global replaces equal one per-character map `<`→`&lt;`, `>`→`&gt;`, every other character unchanged |
| Escape.EscapeIdentityWithoutBrackets | functions/form-handler/index.ts:84 | a string with no brackets is returned unchanged |
| Escape.EscapeConcat | functions/form-handler/index.ts:84 | escaping distributes over concatenation |
| Escape.EscapeRoundTrip | functions/form-handler/index.ts:84 | on text without `&`, decoding the two entities recovers the original string |
| Escape.EscapeCollision | functions/form-handler/index.ts:84 | `&` is not escaped, so `<` and the literal text `&lt;` escape to the same string |
| Escape.EscapeElement | functions/form-handler/index.ts:81-85 | a tag pair around bracket-free text (the script-tag injection) arrives as entities around the same text |
| Render.BuildHtmlBody | functions/form-handler/index.ts:79-87 | walking the keys and appending one paragraph per field builds exactly the heading followed by the paragraphs of all fields in key order |
| Render.ValueTextMeaning | functions/form-handler/index.ts:82-86 | what `${value}` inserts after the sanitizer: a string escaped character by character, a number as its decimal text, `true`/`false`, `null`, `undefined`, and an array or object as its own text |
| Render.NumberTextRoundTrip | functions/form-handler/index.ts:86 | the text of an integer reads back as that integer |
| Render.NumberTextCanonical | functions/form-handler/index.ts:86 | the text of an integer is canonical: a `-` exactly when the number is negative, then at least one digit and no leading zero |
| Render.DigitsRoundTrip | functions/form-handler/index.ts:86 | the decimal digits of a natural number read back as that number |
| Render.MarkupCount | functions/form-handler/index.ts:79-87 | every `<` and `>` in the body is template markup (2 for the heading, 4 per field) or comes from a key or an unescaped non-string value |
| Render.LabelledMarkup | functions/form-handler/index.ts:86 | a field paragraph adds exactly four tags to whatever brackets its key and value text hold |
| Render.NoMarkupInjection | functions/form-handler/index.ts:79-87 | string values never add markup: with bracket-free keys and array/object texts, the body holds exactly the template's brackets |
| Render.KeyMarkupPassesThrough | functions/form-handler/index.ts:86 | keys are inserted unescaped: a `<` in a key reaches the body |
| Render.CompositeMarkupPassesThrough | functions/form-handler/index.ts:83-86 | array and object values are inserted unescaped |
| Render.ComposeEmail | functions/form-handler/index.ts:74-107 | the email exists exactly when both addresses are set; it comes from `EMAIL_FROM`, goes to the single recipient `EMAIL_TO`, has subject "New Form Submission" and the rendered body |
| Gate.CheckIfFormConfigActive | functions/form-handler/index.ts:27-55 | active exactly when the table name is set, `describeTable` returns a table and the scan count is positive; no call without a name, the scan only after a table was found |
| Gate.FailOpen | functions/form-handler/index.ts:27-55 | a missing name, missing table, thrown call, absent or zero count all leave the gate inactive |
| Gate.Resolve | functions/form-handler/index.ts:115-117 | a resolved cache is returned as is without calls; an unresolved one is decided by the store check and makes exactly the store check's calls |
| FormHandler.FirstRunQueriesStore | functions/form-handler/index.ts:115-124 | the first invocation's calls begin with exactly the store check's queries, before any write or email, and the first is `describeTable` when the configuration table is named |
| FormHandler.ForwardedFor | functions/form-handler/index.ts:153 | the `X-Forwarded-For` header when it is present and non-empty; otherwise `x-forwarded-for` when present; otherwise `undefined` |
| FormHandler.ForwardedForIsOr | functions/form-handler/index.ts:153 | the forwarded-for value is exactly the JavaScript `\|\|` of the two header reads |
| FormHandler.EnrichSetsMetadata | functions/form-handler/index.ts:152-155 | the enriched record reads back the uuid, the forwarded-for value, the source IP and the timestamp, overwriting client fields of those names |
| FormHandler.EnrichPassesClientFields | functions/form-handler/index.ts:152-155 | every other client field reads as in the decoded body |
| FormHandler.EnrichKeepsKeyOrder | functions/form-handler/index.ts:152-155 | the client keys come first in their order; the only keys added are the four metadata keys |
| FormHandler.EnrichKeySet | functions/form-handler/index.ts:152-155 | a key is present after enrichment exactly when the client sent it or it is one of the four metadata keys |
| FormHandler.EnrichWellFormed | functions/form-handler/index.ts:152-155 | enrichment never duplicates a key |
| FormHandler.WriteSubmission | functions/form-handler/index.ts:57-70 | without a table name it fails before calling put; otherwise exactly one put of the whole item, succeeding as the store does |
| FormHandler.SendNotification | functions/form-handler/index.ts:72-110 | without sender or recipient it fails before calling SES; otherwise exactly one email, from `EMAIL_FROM` to the single recipient `EMAIL_TO`, with the fixed subject and the rendered item, succeeding as SES does |
| FormHandler.Deliver | functions/form-handler/index.ts:157-193 | an accepted record gets 200 exactly when the write and the email both go through, else 500 with a message; with no table name no call is made, otherwise the first call is the one put of the record; at most two calls, and a second call happens exactly when the put succeeded and both addresses are set, and is then the one email of the record; no query follows, and every email directly follows a write |
| FormHandler.QueriesFirst | functions/form-handler/index.ts:115-183 | putting the gate's configuration queries in front of the calls keeps every email directly behind a write |
| FormHandler.Handle | functions/form-handler/index.ts:112-194 | the cache is resolved after every call and unchanged once set; status is 200, 400 or 500; errors carry only `Content-Type` and a message, success the CORS headers and the record; every email directly follows a write |
| FormHandler.InvalidJsonRejected | functions/form-handler/index.ts:122-134 | a body that fails to parse gives 400 "Invalid JSON in request body" with no write and no email |
| FormHandler.MissingFormIdRejected | functions/form-handler/index.ts:137-149 | with the gate active and `formId` falsy: 400 "Form ID is missing" with no write and no email |
| FormHandler.InactiveGateRequiresNothing | functions/form-handler/index.ts:136-158 | with the gate inactive no field is required and a decoded body reaches the write |
| FormHandler.WriteFailureResponse | functions/form-handler/index.ts:157-169 | a failed write or a missing table name gives 500 "Error writing to DynamoDB" and no email |
| FormHandler.EmailFailureResponse | functions/form-handler/index.ts:171-183 | a failed email gives 500 "Error sending email" with the enriched record already written |
| FormHandler.SuccessResponse | functions/form-handler/index.ts:157-193 | 200 exactly when every stage goes through; then the body is the enriched record, and the calls are exactly the gate's queries, one put of that record and one email of it |
| FormHandler.SuccessEchoesClientFields | functions/form-handler/index.ts:152-192 | when the body validates and the write and email go through, the response is 200 and returns every non-metadata client field unchanged, with the client's keys first in their order |
| FormHandler.PutsWriteTheEnrichedBody | functions/form-handler/index.ts:136-158 | the only record ever written is the enriched body that passed validation |
| FormHandler.EnrichKeepsFormId | functions/form-handler/index.ts:137-155 | enrichment passes the client's `formId` through unchanged, so the field validated is the field stored |
| FormHandler.StoredRecordsAreComplete | functions/form-handler/index.ts:136-158 | no record is written without id, sourceIP and timestamp, nor, with the gate active, without a truthy formId |
| FormHandler.StoredRecordsAreWellFormed | functions/form-handler/index.ts:152-192 | neither a written record nor the record returned with 200 repeats a key |
| FormHandler.ResolvedGateIsReused | functions/form-handler/index.ts:115-117 | once the cache is set, later invocations neither query the store nor change the cached answer |
| FormHandler.GateResolvedAtMostOnce | functions/form-handler/index.ts:25-117 | over any run the gate is resolved at most once, and the process keeps the first invocation's answer |
| Admin.GetItem | functions/admin/index.ts:17-34 | GET with an id returns 200 with the stored item, or 404 "Item not found"; the store is unchanged |
| Admin.ListItems | functions/admin/index.ts:35-41 | GET without an id returns 200 with all items; the store is unchanged |
| Admin.CreateItem | functions/admin/index.ts:42-59 | POST without a truthy `id` gives 400 and no change; otherwise the item is stored under its id, replacing any item there, and echoed with 201 |
| Admin.UpdateItem | functions/admin/index.ts:60-80 | PUT sets name and email of the item at the path id (creating it if absent), changes no other key, and echoes the request body with 200 |
| Admin.DeleteItem | functions/admin/index.ts:81-97 | DELETE removes the key whether or not present, changes no other key, and answers 204 with an empty body |
| Admin.Handle | functions/admin/index.ts:6-104 | every response is one of 200, 201, 204, 400, 404, 405, 500 without headers; a rejected call or any 4xx/5xx leaves the store unchanged |
| Admin.OnlyTargetKeyChanges | functions/admin/index.ts:15-103 | every key other than the request's target keeps its item or stays absent |
| Admin.ReadsKeepStore | functions/admin/index.ts:7-102 | GET, unknown methods and a missing table name never change the store; a missing table name gives 500, an unknown method 405 |
| Admin.PathIdRequired | functions/admin/index.ts:60-87 | PUT and DELETE without a truthy path id answer 400 "id is required" and change nothing |
| Admin.UpdateSetsOnlyNameAndEmail | functions/admin/index.ts:68-76 | an update sets name and email and leaves every other attribute as it was |
| Admin.CreateThenGet | functions/admin/index.ts:17-59 | after a POST, a GET of the item's id returns the item |
| Admin.CreateThenList | functions/admin/index.ts:35-59 | after a POST, a listing holds the item at its id and every other item as it was before |
| Admin.ListAgreesWithGet | functions/admin/index.ts:16-41 | a listing and a GET by id agree: an id is listed exactly when the GET finds it, with the same item, and otherwise the GET answers 404 |
| Admin.UpdateThenGet | functions/admin/index.ts:17-80 | after a PUT, a GET returns the body's name and email and the earlier item's other attributes |
| Admin.DeleteThenGet | functions/admin/index.ts:17-97 | after a DELETE, a GET of the same id answers 404 |
| Admin.DeleteIsIdempotent | functions/admin/index.ts:81-97 | deleting twice equals deleting once; deleting an absent key changes nothing |

## Left out

- AWS SDK clients and endpoint selection (functions/form-handler/index.ts:7-22). Each call is reduced to an outcome: success or failure, plus the `Table` presence and `Count` for the gate.
- The JSON parser. It is a parameter. Bodies that parse to `null`, a primitive or an array are outside the model, because the model decodes only to records.
- `JSON.stringify`. Response bodies stay structured. A success body therefore still holds a `forwardedFor` field whose value is `undefined`, which the real serializer would drop.
- Non-integer numbers. `Value.Num` holds integers. The text of an array or object value (`Composite`) is an input, not computed from its elements.
- Render.NumberText: integers of magnitude at or above 10^21 are written out in plain digits. JavaScript writes them in exponent form (`1e+21`), and integers above 2^53 are not exact in JavaScript. The model's numbers are unbounded integers.
- JavaScript key order for integer-like keys. Key order is the sequence order.
- UUID generation and the clock. They are input values, and no uniqueness of ids is claimed.
- Logging.
- Concurrent first resolution of the gate by overlapping invocations. Invocations are modelled one after another (`FormHandler.RunAll`).
- Malformed events. `event.headers` is assumed to be an object and `requestContext.http.sourceIp` a string.
- The header `Access-Control-Allow-Credentials`. The source sets the boolean `true`; the model uses the string "true".
- Admin.UpdateItem: a body without `name` or `email` is modelled as a failing update call. DynamoDB refuses an update expression whose value placeholder has no value. Beyond that, DynamoDB's validation of attribute types and key schema is not modelled.
- Admin.ListItems: scan pagination is not modelled; the scan returns the whole store.
- The admin store is keyed by the item's `id` value. The table's declared `formId`/`formName` key schema (lib/form-handler-stack.ts:58-67) is not modelled.
- `functions/cors-handler/index.ts`. It is a constant 204 response with fixed headers.
- `lib/form-handler-stack.ts`, the infrastructure declaration. The stack grants the intake function write access to the submissions table only. That bears on whether `describeTable` can succeed when deployed, but deployment is not modelled.
- `admin-html/js/login.js` and `admin-html/js/admin.js`: browser UI.

# dynamo-write-validator, modelled in Dafny

This project models the logic of a DynamoDB write-validator dashboard:

- **Request classification** (`proxy.ts`). The middleware reads the `x-amz-target` header (`<ApiVersion>.<Operation>`). It splits the header on `.`. It checks the version against a one-entry allow-list and the operation against a five-name enum. The result is one of three outcomes: pass the request through, reject it with `Invalid dynamo operation: …`, or build a `DynamoRequestData` record for the validator.
- **The data model** (`lib/types.ts`). It covers attribute types, key types, operations, log entries with their two type guards, table schemas and the request record.
- **The schema registry page** (`app/schemas/page.tsx`). This is a class holding the schema list, the selected schema and the "creating" flag. Its handlers select, create, save (upsert by id) and delete (filter by id).
- **The schema editor** (`components/schemas/SchemaEditor.tsx`). This is a class holding the form fields. Its methods append, patch and remove attribute rows, and assemble the `TableSchema` that a submit hands on.
- **The log stream** (`components/logs/LogStream.tsx`). This is a class holding the status filter. Pure functions give the filtered list and the per-status counts.

The files are:

- `wrappers.dfy` holds `Option`.
- `js_string.dfy` holds JavaScript's `split` with a one-character separator, and `trim`.
- `types.dfy` holds the data model.
- `proxy.dfy` (module `Middleware`) holds the classifier.
- `schemas_page.dfy` (module `Schemas`) holds the registry page.
- `schema_editor.dfy` (module `Editor`) holds the editor.
- `log_stream.dfy` (module `Logs`) holds the log stream.

Two behaviours of the code are modelled as written:

- The operation enum contains `QueryItem`, not `Query`. So the `DynamoDB_20120810.Query` target that the AWS SDK sends is rejected (`SdkQueryRejected`).
- A target with an unsupported API version is passed through rather than rejected (`UnsupportedVersionPassesThrough`).

Two further facts about the code shape the model:

- There is no schema validation engine. `ValidateDynamoRequest` only logs its argument (lib/dynamo.ts:5-15), so no checking of required attributes, key types or value types is modelled.
- The operation enum names `QueryItem` (lib/types.ts:89-95), and the model follows it.

TypeScript field names `type` and `method` are Dafny keywords. They appear here as `attrType`, `keyType` and `httpMethod`.

## Model

| member | source | states |
|---|---|---|
| JsString.IndexOf | proxy.ts:16-17 | the first position of the separator, or the length when there is none; no separator occurs before it |
| JsString.Split | proxy.ts:16-17 | `split('.')` yields at least one part; no part contains a dot; joining the parts with dots gives back the input; there is one part exactly when the input has no dot |
| JsString.SplitHead | proxy.ts:16 | the first part is the text before the first separator; the remaining parts are the split of what follows it |
| JsString.SplitAfterPrefix | proxy.ts:16-17 | splitting `a.b` where `a` has no dot gives `a` followed by the parts of `b` |
| JsString.SplitJoin | proxy.ts:16-17 | split undoes join when no part holds the separator |
| JsString.TrimStart | components/schemas/SchemaEditor.tsx:95 | `trimStart` leaves a suffix; everything dropped is white space; the suffix does not start with white space |
| JsString.TrimEnd | components/schemas/SchemaEditor.tsx:95 | `trimEnd` leaves a prefix; everything dropped is white space; the prefix does not end with white space |
| JsString.Trim | components/schemas/SchemaEditor.tsx:95 | `trim()` never lengthens a string; what it leaves neither starts nor ends with white space; a string with no white space at either end is left as it is |
| JsString.TrimEmpty | components/schemas/SchemaEditor.tsx:95 | `name.trim() === ""` exactly when every character of the name is white space |
| Types.KeyTypesAreScalar | lib/types.ts:4-17 | a key type is exactly `S`, `N` or `B`; `BOOL`, `NULL`, the sets, `L` and `M` never are |
| Types.ParseOperation | lib/types.ts:89-95 | `safeParse` succeeds exactly on one of the five names, case-sensitively; an absent token fails; a parsed operation's name is the token |
| Types.ParseOperationName | lib/types.ts:89-95 | parsing an operation's own name gives that operation back |
| Types.OperationSets | lib/types.ts:20 | the enum has five distinct names; every logged `OperationType` parses; `GetItem` and `QueryItem` are not logged types, so the subset is strict; `Query` and `Scan` are not in the enum |
| Types.LogEntry.Status | lib/types.ts:43-56 | the `status` discriminant is `success` exactly for success entries and `error` exactly for error entries |
| Types.IsSuccessLogEntry | lib/types.ts:81-83 | `isSuccessLogEntry` holds exactly of success entries |
| Types.IsErrorLogEntry | lib/types.ts:85-87 | `isErrorLogEntry` holds exactly of error entries |
| Types.GuardsPartition | lib/types.ts:81-87 | `isSuccessLogEntry` holds exactly of success entries and `isErrorLogEntry` exactly of error entries; exactly one of the two holds |
| Middleware.Header | proxy.ts:14-39 | `headers.get(name)` gives the value stored under the name, and nothing exactly when the header is absent |
| Middleware.ApiVersionToken | proxy.ts:16 | the version token is the text before the first dot and holds no dot |
| Middleware.OperationToken | proxy.ts:17 | the operation token is absent exactly when the target has no dot; otherwise it is the text between the first and second dots |
| Middleware.Proxy | proxy.ts:13-48 | a rejection message starts with `Invalid dynamo operation: `; anything but pass-through requires a supported call; a built record carries the body, the raw target and an operation whose name is the operation token |
| Middleware.IsSupportedCall | proxy.ts:20-24 | the guard holds exactly for a POST whose target starts with an allowed version followed by a dot or by nothing |
| Middleware.VersionTokenIff | proxy.ts:16-23 | for a version without a dot, `split('.')[0]` equals it exactly when the target starts with it, followed by a dot or by nothing |
| Middleware.PassThroughExactly | proxy.ts:20-24 | the request passes through exactly when the target is absent or empty, the method is not POST, or the version token is not `DynamoDB_20120810` |
| Middleware.AcceptedOperations | proxy.ts:18-29 | under a supported call, a record is built exactly when the operation token is one of the five names, and the request is rejected otherwise |
| Middleware.BodyReadOnlyWhenValidated | proxy.ts:25-31 | unless a record is built, the decision does not depend on the body |
| Middleware.RecordHeaders | proxy.ts:33-41 | the record's `content-length` and `x-amz-date` are the header values, or `""` when absent |
| Middleware.VersionTokenOf | proxy.ts:16 | the version token of `v.rest` is `v` when `v` has no dot |
| Middleware.OperationTokenOf | proxy.ts:17 | the operation token of `v.o` and of `v.o.tail` is `o` |
| Middleware.ProxyOfTokens | proxy.ts:16-41 | given the target's two tokens, the request passes through unless it is a POST under an allowed version, and a record is built exactly when the operation token is an enum name, with that operation |
| Middleware.ProxyOfTarget | proxy.ts:20-41 | for target `v.o`, the outcome is pass-through unless POST with an allowed `v`, and a record exactly when `o` is an enum name |
| Middleware.ProxyOfLongTarget | proxy.ts:16-41 | for target `v.o.tail`, the same holds as for `v.o` |
| Middleware.NoDotIsInvalid | proxy.ts:16-29 | a supported call whose target has no dot is rejected as an invalid operation |
| Middleware.TailIgnored | proxy.ts:16-29 | appending `.tail` to the target changes neither the outcome nor the parsed operation |
| Middleware.SdkQueryRejected | lib/types.ts:89-95 | the SDK's `DynamoDB_20120810.Query` target is rejected |
| Middleware.ScanRejected | proxy.ts:25-29 | `DynamoDB_20120810.Scan` is rejected |
| Middleware.UnknownOperationRejected | tests/proxy.integration.test.ts:56-69 | `DynamoDB_20120810.InvalidOperation` is rejected with a text beginning `Invalid dynamo operation` |
| Middleware.PutItemAccepted | proxy.ts:31-41 | `DynamoDB_20120810.PutItem` by POST builds a `PutItem` record carrying the raw target |
| Middleware.UnsupportedVersionPassesThrough | proxy.ts:47 | `DynamoDB_99999999.PutItem` passes through |
| Schemas.FindIndexById | app/schemas/page.tsx:27 | `findIndex` gives the first position with the id, or -1 exactly when no entry has it |
| Schemas.ReplaceById | app/schemas/page.tsx:29 | the mapped list has the same length, with every entry that has the id replaced and every other entry kept |
| Schemas.RemoveById | app/schemas/page.tsx:38 | the filtered list holds no entry with the id and keeps every entry without it |
| Schemas.Upsert | app/schemas/page.tsx:26-32 | after a save the schema is listed; every other entry was listed before; the list grows by at most one |
| Schemas.UpsertExisting | app/schemas/page.tsx:27-29 | saving a listed id keeps the length; entries with that id become the schema; the others stay in place |
| Schemas.UpsertNew | app/schemas/page.tsx:30-31 | saving a new id appends the schema, so the old list is a prefix and the length grows by one |
| Schemas.UpsertStores | app/schemas/page.tsx:26-32 | after a save the schema is listed, and saving it again changes nothing |
| Schemas.UpsertKeepsDistinctIds | app/schemas/page.tsx:26-32 | a save keeps ids distinct when they were |
| Schemas.RemoveByIdConcat | app/schemas/page.tsx:38 | deleting distributes over concatenation, so the survivors keep their relative order |
| Schemas.RemoveAbsent | app/schemas/page.tsx:38 | deleting an id nobody has leaves the list unchanged |
| Schemas.RemoveIdempotent | app/schemas/page.tsx:37-41 | deleting twice equals deleting once |
| Schemas.RemoveCount | app/schemas/page.tsx:38 | the length drops by exactly the number of entries with the id |
| Schemas.DeleteAfterSave | app/schemas/page.tsx:26-41 | deleting a just-saved id gives the same list as deleting it before the save |
| Schemas.SchemasPage.constructor | app/schemas/page.tsx:10-14 | the page starts from the given list, with nothing selected and not creating |
| Schemas.SchemasPage.HandleSelect | app/schemas/page.tsx:16-19 | selects the schema, clears creating, keeps the list; the editor opens on the schema, keyed by its id |
| Schemas.SchemasPage.HandleCreateNew | app/schemas/page.tsx:21-24 | clears the selection, sets creating, keeps the list; the editor opens empty under key `new` |
| Schemas.SchemasPage.HandleSave | app/schemas/page.tsx:26-35 | the list becomes the upsert of the schema; the schema is selected and creating is cleared; the editor shows the saved schema, keyed by its id (or `new` when the id is empty) |
| Schemas.SchemasPage.HandleDelete | app/schemas/page.tsx:37-41 | the list loses exactly the entries with the id; nothing is selected and creating is cleared; the editor closes |
| Schemas.SchemasPage.HandleCancel | app/schemas/page.tsx:43-46 | clears the selection and creating, keeps the list; the editor closes |
| Schemas.EditorKey | app/schemas/page.tsx:72 | the editor's key is the selected schema's id, or `new` when nothing is selected or the id is empty |
| Schemas.SchemasPage.Editor | app/schemas/page.tsx:70-77 | the editor is shown exactly when a schema is selected or one is being created; its key is the selected id or `new`; it receives no schema while creating, and the selected one otherwise |
| Editor.KeyTypeOptionsAreKeyTypes | components/schemas/SchemaEditor.tsx:23-27 | the form offers exactly the key types `S`, `N`, `B`, each once |
| Editor.ApplyPatch | components/schemas/SchemaEditor.tsx:76 | `{...attr, ...updates}`: each field the patch names takes the patch's value, every other field keeps the row's; an empty patch changes nothing |
| Editor.PatchAt | components/schemas/SchemaEditor.tsx:70-79 | an in-range index updates only that row; an out-of-range index changes nothing |
| Editor.RemoveAt | components/schemas/SchemaEditor.tsx:81-83 | an in-range index removes exactly that row and keeps the order of the rest; an out-of-range index changes nothing |
| Editor.IsNamed | components/schemas/SchemaEditor.tsx:95 | an attribute with an empty name never passes the submit filter |
| Editor.IsNamedIff | components/schemas/SchemaEditor.tsx:95 | an attribute passes the submit filter exactly when its name is not all white space |
| Editor.NamedAttributes | components/schemas/SchemaEditor.tsx:95 | the kept attributes are exactly those whose name is not all white space |
| Editor.PatchFields | components/schemas/SchemaEditor.tsx:70-79 | a patch overwrites exactly the fields it names, at its index; the length and all other rows are unchanged |
| Editor.PatchTwice | components/schemas/SchemaEditor.tsx:70-79 | two patches of one row equal one merged patch in which the later fields win |
| Editor.RemoveAddedAttribute | components/schemas/SchemaEditor.tsx:66-83 | removing the row just appended restores the list |
| Editor.NamedAttributesCons | components/schemas/SchemaEditor.tsx:95 | the filter keeps a leading row exactly when it is named, then filters the rest |
| Editor.NamedAttributesConcat | components/schemas/SchemaEditor.tsx:95 | dropping blank names distributes over concatenation, so kept rows stay in their original order |
| Editor.NamedAttributesKeepsNamed | components/schemas/SchemaEditor.tsx:95 | a list without blank names is kept whole |
| Editor.InitialState | components/schemas/SchemaEditor.tsx:48-64 | the fields are copied from the schema, the sort key's name and type included; a schema without a sort key gives sort key name `""` and type `S`; with no schema the fields are `""`, key type `S`, no sort key and no attributes |
| Editor.SubmitId | components/schemas/SchemaEditor.tsx:89 | the submitted id is the edited schema's own when it has a non-empty one, and the fresh id when there is no schema or its id is empty |
| Editor.Assemble | components/schemas/SchemaEditor.tsx:88-96 | the submitted schema keeps a non-empty existing id and otherwise takes the fresh id; it takes the table name and partition key from the form; it has a sort key exactly when the checkbox is set; its attributes are the non-blank rows, in order and with repeats |
| Editor.SubmitUnchanged | components/schemas/SchemaEditor.tsx:48-96 | opening a schema with an id and no blank attribute names, then submitting it untouched, returns the same schema with its id kept |
| Editor.SubmitNewUntouched | components/schemas/SchemaEditor.tsx:48-96 | an untouched new form submits the fresh id with empty defaults |
| Editor.SchemaEditor.constructor | components/schemas/SchemaEditor.tsx:48-64 | the form starts in the initial state for its schema |
| Editor.SchemaEditor.AddAttribute | components/schemas/SchemaEditor.tsx:66-68 | appends `{name: "", type: S, required: false}`; all else is unchanged |
| Editor.SchemaEditor.UpdateAttribute | components/schemas/SchemaEditor.tsx:70-79 | the rows become the patched rows with the same length; all else is unchanged |
| Editor.SchemaEditor.RemoveAttribute | components/schemas/SchemaEditor.tsx:81-83 | the rows lose the indexed row, one fewer when in range; all else is unchanged |
| Editor.SchemaEditor.SetTableName | components/schemas/SchemaEditor.tsx:123 | sets the table name only |
| Editor.SchemaEditor.SetPartitionKeyName | components/schemas/SchemaEditor.tsx:137 | sets the partition key name only |
| Editor.SchemaEditor.SetPartitionKeyType | components/schemas/SchemaEditor.tsx:144 | sets the partition key type, always a key type, and nothing else |
| Editor.SchemaEditor.SetHasSortKey | components/schemas/SchemaEditor.tsx:154 | sets the sort-key checkbox only |
| Editor.SchemaEditor.SetSortKeyName | components/schemas/SchemaEditor.tsx:167 | sets the sort key name only |
| Editor.SchemaEditor.SetSortKeyType | components/schemas/SchemaEditor.tsx:174 | sets the sort key type, always a key type, and nothing else |
| Editor.SchemaEditor.DeleteTarget | components/schemas/SchemaEditor.tsx:108-113 | delete is offered exactly for an existing schema, and it passes that schema's id |
| Editor.SchemaEditor.HandleSubmit | components/schemas/SchemaEditor.tsx:85-99 | returns the schema assembled from the current fields; an existing non-empty id is kept, and a new schema or one with an empty id gets the fresh id; the attributes are the non-blank rows in order |
| Logs.Shows | components/logs/LogStream.tsx:21-24 | `all` admits every entry; `success` admits exactly what `isSuccessLogEntry` accepts, `error` exactly what `isErrorLogEntry` accepts |
| Logs.FilterLogs | components/logs/LogStream.tsx:21-24 | the shown entries are exactly the input entries the filter admits |
| Logs.WithStatus | components/logs/LogStream.tsx:26-27 | the counted entries are exactly those with the given status |
| Logs.FilterAllIsIdentity | components/logs/LogStream.tsx:21-22 | under `all` the list is shown whole |
| Logs.FilterIsStatusFilter | components/logs/LogStream.tsx:21-27 | under `success` or `error` the shown list is exactly the entries with that status, in input order |
| Logs.FilterConcat | components/logs/LogStream.tsx:21-24 | filtering distributes over concatenation, so relative order is kept |
| Logs.FilterKeepsShown | components/logs/LogStream.tsx:21-24 | a list the filter fully admits is shown whole |
| Logs.FilterIdempotent | components/logs/LogStream.tsx:21-24 | filtering a filtered list again with the same filter changes nothing |
| Logs.CountsCoverAll | components/logs/LogStream.tsx:26-27 | the success count plus the error count is the number of entries |
| Logs.LogStream.constructor | components/logs/LogStream.tsx:17 | the filter starts as `all`, so every entry is shown |
| Logs.LogStream.SetFilter | components/logs/LogStream.tsx:54-70 | a filter button sets the filter |
| Logs.LogStream.FilteredLogs | components/logs/LogStream.tsx:21-24 | the shown entries are exactly the entries the current filter admits; under `all` the whole list |
| Logs.LogStream.SuccessCount | components/logs/LogStream.tsx:26 | the success count is the length of the `success` list and at most the number of entries |
| Logs.LogStream.ErrorCount | components/logs/LogStream.tsx:27 | the error count is the length of the `error` list and at most the number of entries |
| Logs.LogStream.CountsAgree | components/logs/LogStream.tsx:21-27 | the button counts add up to the number of entries and equal the lengths of the `success` and `error` lists |

## Left out

- HTTP transport is not modelled: `NextResponse.next()`, constructing a `Response`, and the bun test server. The outcome is the `Decision` datatype.
- Reading the body is not modelled: the body is a given, already-decoded value. A body that fails to parse as JSON (`await request.json()` throws) is not modelled.
- The routing matcher (`config.matcher: '/'`, proxy.ts:50-52) is not modelled: the model has no request path. `Proxy` models the `proxy` function as it is called for a matched request.
- Header lookup is modelled on lower-case names only. Case-insensitive header matching is left out.
- The text of zod's parse error is not modelled. It comes from an external library, so it is a function parameter (`zodError`). Only the fixed prefix of the rejection is stated.
- `ValidateDynamoRequest` only logs its argument, and the proxy then answers with `JSON.stringify` of its undefined result. That logging and that response body are left out. The model stops at the record handed over.
- The console logging in lib/dynamo.ts and lib/actions.ts is left out, and so is the constant-returning `storeSchema` server action.
- `generateId` uses `Math.random`, so it is not modelled. The generated id is the `freshId` parameter.
- React state batching is not modelled: handlers assign their fields in order. No handler reads a field it has just set, so the final state is the same.
- The `clearLogs` server action, `router.refresh` and `startTransition` are left out. They are asynchronous and the list is a prop.
- JSX rendering, CSS classes, the `attributeTypeOptions` labels and the other components are left out: Button, Navbar, layout, home page, LogEntry's `formatTime`, LogDetails' `JSON.stringify`.
- lib/mock-data.ts is static fixture data. It is not part of this model.
- JavaScript numbers are doubles; `NumberValue` holds a `real`, so floating point is not modelled. A log timestamp (a `Date`) is an integer count of milliseconds.
- `Record<string, unknown>` in log entries is narrowed to a map from names to attribute values.

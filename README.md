# get-sheet-by-url: direct-id token extraction and response selection

This project models the one handler of the smartsheet-mcp tool server that
has logic of its own: the `get-sheet-by-url` tool. Its `execute` operation
takes a sheet URL, builds a client for the spreadsheet service's SDK,
extracts the sheet's direct-id token from the URL with the regular
expression `/\/sheets\/([^?\/]+)/`, and then produces one of three results:

- an error envelope `{content: [{type: "text", text: "Failed to get sheet: Invalid URL format"}], isError: true}`
  when the URL holds no token (and the SDK is not called);
- a success envelope `{content: [{type: "text", text: <serialized sheet>}]}`
  when `getSheetByDirectIdToken(token, undefined, undefined, undefined, undefined)` resolves;
- the bare string `"Failed to get sheet: " + <stringified error>` (not an
  envelope) when building the client throws or the SDK call rejects.

Three modules:

- `Wrappers` (`wrappers.dfy`): `Option`, `Result` (a settled promise) and
  `Outcome` (a step that completes or throws).
- `DirectIdToken` (`direct_id_token.dfy`): the regular-expression match as
  a leftmost scan (`FindMatch`) and a greedy run (`Run`), combined in
  `ExtractToken`. Its meaning is given independently by the predicates
  `MatchesAt`, `LeftmostMatch` and `MaximalRunAt`, and
  `ExtractTokenCharacterized` proves the function equal to that meaning in
  both directions. Compositional lemmas state how the scan behaves on
  concatenated URLs: prefixes without a match are skipped, a marker followed
  by `/`, `?` or nothing is passed over, and a token stops at the first
  delimiter.
- `GetSheetByUrl` (`get_sheet_by_url.dfy`): `Execute`, a pure function of
  the URL and of the behaviour of what it calls, returning the response and
  the list of SDK calls made. The outcome of building the client, the SDK
  call (as a function from token to settled promise), the serializer
  `JSON.stringify(sheet, null, 2)` (which may throw, inside the same `try`)
  and the error stringifier
  `` `${error}` `` are parameters. The concrete lemmas replay the cases of
  the handler's unit tests.

Points where the code's behaviour is easy to misread, and how the model
follows it:

- The client is built (src/tools/GetSheetByUrlTool.ts:23) before the URL
  is examined (src/tools/GetSheetByUrlTool.ts:27). A
  failure while building it therefore yields the bare error string even for
  a URL without a token; the "invalid URL" envelope requires that the client
  was built.
- The token test is `!directIdToken`, which would also reject an empty
  string. The pattern's `+` makes an empty token impossible, so the two
  readings agree (`EmptyTokenNeverRejected`).
- The match is a plain substring search, not URL path parsing: `/sheets/`
  in a query string or fragment matches as well.

## Model

| member | source | states |
|---|---|---|
| DirectIdToken.Run | src/tools/GetSheetByUrlTool.ts:27 | the greedy `[^?\/]` run: a prefix of the input with no `/` or `?`, ending at a delimiter or at the end |
| DirectIdToken.FindMatch | src/tools/GetSheetByUrlTool.ts:27 | the scan returns the least index at or after its start where `/sheets/` is followed by a non-delimiter, and None only if there is no such index |
| DirectIdToken.ExtractToken | src/tools/GetSheetByUrlTool.ts:27-28 | a token exists exactly when some `/sheets/` is followed by a non-delimiter; the token is non-empty, holds no `/` or `?`, and is the maximal run after the leftmost match |
| DirectIdToken.MaximalRunUnique | src/tools/GetSheetByUrlTool.ts:27 | the greedy run starting at a given index is unique |
| DirectIdToken.ExtractTokenCharacterized | src/tools/GetSheetByUrlTool.ts:27-28 | `ExtractToken(url) == Some(t)` if and only if `t` is the maximal run after the leftmost match |
| DirectIdToken.TokenFollowsMarker | src/tools/GetSheetByUrlTool.ts:27 | `"/sheets/" + t` occurs contiguously in the URL at the leftmost match |
| DirectIdToken.ExtractTokenSkipsPrefix | src/tools/GetSheetByUrlTool.ts:27 | a prefix in which no match starts does not change the extracted token |
| DirectIdToken.ExtractTokenAfterMarker | src/tools/GetSheetByUrlTool.ts:27 | `"/sheets/" + t + rest` yields exactly `t` when `rest` is empty or starts with `/` or `?` (e.g. `/sheets/abc?x=1` yields `abc`) |
| DirectIdToken.ExtractTokenSkipsEmptyMarker | src/tools/GetSheetByUrlTool.ts:27 | a `/sheets/` followed by `/` or `?` is passed over and the search resumes at that delimiter |
| DirectIdToken.ExtractTokenOfBareMarker | src/tools/GetSheetByUrlTool.ts:27 | a `/sheets/` with nothing after it yields no token |
| GetSheetByUrl.Execute | src/tools/GetSheetByUrlTool.ts:21-59 | at most one SDK call, made exactly when the client was built and the URL has a match, with the token and four `undefined`s; the invalid-URL envelope exactly when the client was built and there is no match, with no call; a failure to build the client, a rejected SDK call or a throwing serializer gives exactly the bare string `Failed to get sheet: ` + the stringified error, and only these do; a serialized sheet gives one text block with that text and no `isError` |
| GetSheetByUrl.EmptyTokenNeverRejected | src/tools/GetSheetByUrlTool.ts:29 | the `!directIdToken` test is true exactly when no token was found |
| GetSheetByUrl.ServiceSheetUrlToken | src/tools/GetSheetByUrlTool.ts:27-28 | for every token `t` without delimiters, `https://app.smartsheet.com/sheets/` + `t` yields `t` |
| GetSheetByUrl.SheetUrlToken | src/__tests__/tools/GetSheetByUrlTool.test.ts:61-73 | `https://app.smartsheet.com/sheets/abc123def456` yields `abc123def456` |
| GetSheetByUrl.InvalidUrlNoToken | src/__tests__/tools/GetSheetByUrlTool.test.ts:84-101 | `https://app.smartsheet.com/invalid-url` yields no token |
| GetSheetByUrl.ExecuteSheetUrl | src/tools/GetSheetByUrlTool.ts:40-58 | for that sheet URL: one call `(abc123def456, undefined ×4)`; a resolved and serialized sheet gives the success envelope, a rejection the bare `Failed to get sheet: ` + stringified error |
| GetSheetByUrl.ExecuteInvalidUrl | src/tools/GetSheetByUrlTool.ts:29-39 | for the URL without `/sheets/`: `{content: [{type: "text", text: "Failed to get sheet: Invalid URL format"}], isError: true}` and no call |

## Left out

- The six other handlers (add-sheet-rows, create-sheet, delete-rows, get-sheet-by-id, get-sheet-rows, update-sheet-rows): each forwards its input unchanged to one SDK method and has no logic beyond a `try/catch` that stringifies errors.
- The `SmartsheetAPI` SDK and its HTTP calls: not part of this model; the client's construction and the SDK call appear only as abstract outcomes passed to `Execute`.
- Reading `SMARTSHEET_API_KEY` and `SMARTSHEET_ENDPOINT` from the environment: I/O, folded into the construction outcome.
- `JSON.stringify(…, null, 2)` and the template-literal stringification of errors: library formatting, passed to `Execute` as functions; the serializer returns either text or a thrown error, which `Execute` routes to the bare error string as the `catch` does.
- GetSheetByUrl.Execute: does not model `JSON.stringify` returning `undefined` (for an `undefined` sheet), which would give a text block whose `text` is `undefined`; the serializer here always yields a string or throws.
- The zod input schema, the tool's name and description, and the `MCPTool` base class: validation and dispatch done by an external framework.
- `async`/`await`: the single awaited call is modelled as an already settled outcome; there is no concurrency.
- The type declarations under `src/types/` and the build configuration: no behaviour.
- GetSheetByUrl.Execute: an envelope without the `isError` property is represented by `isError == false`; the model does not distinguish a missing property from one set to `false`.

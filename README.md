# Wikipedia MCP server and its example client, in Dafny

This project models two programs.

- **The server** (`src/index.ts`) is a Model Context Protocol server with four tools: `onThisDay`, `findPage`, `getPage` and `getImagesForPage`.
  - It advertises the four tools in its ListTools answer.
  - Its CallTool handler routes a tool name to its handler. An unknown name gets a MethodNotFound error.
  - Each handler first validates its arguments with a type guard. A rejected call is an InvalidParams error.
  - Each handler then calls the Wikipedia library. A failure of the library becomes an `isError` result whose text names the handler.
  - `getImagesForPage` collects images in batches of at most 50. It keeps records whose url is new and ends in an image extension, and it stops when the quota is met or the source dries up.
- **The example client** (`example-client.js`) sends `tools/list`. It then answers each reply line of the server by storing the reply's payload and sending the next call of a fixed chain: onThisDay(today), findPage, getPage and getImagesForPage, the last three for "Albert Einstein".

The modules:

| file | module | contents |
|---|---|---|
| `js.dfy` | `Js` | The JavaScript built-ins the code relies on, over JSON values plus `undefined`: truthiness, property reads, `String(v)` (which can throw), `trim`, `parseInt` (hexadecimal prefix when the radix is omitted), `split`, `padStart`, `toLowerCase`, `endsWith`, and reading `.message` of a caught value. |
| `validation.dfy` | `Validation` | The four type guards, and the date regular expression as a fixed-count pattern. |
| `collector.dfy` | `ImageCollector` | The batch loop of `getImagesForPage`: the specification function `Collect`, the imperative `CollectImages` proved equal to it, and the properties of a run. |
| `server.dfy` | `ToolServer` | The tool list, the handlers with their error envelopes, the CallTool dispatcher, the date split of onThisDay, and the image quota. |
| `client.dfy` | `ExampleClient` | The line handler: the specification function `React` over a client state, and the class `Client` whose fields are the `results` object and the requests written so far. |

The Wikipedia library is a parameter. A `Wiki` value gives what each call settles to, including what it throws, and what each `images()` call of a run returns. `JSON.parse` is a parameter of the client. The current date is an input of the client's line handler.

The code behaves in these ways, which are easy to miss:

- **A numeric limit of 0.** `getImagesForPage` with the number 0 is falsy, so the default quota of 50 applies, not an empty collection.
- **An unparseable limit.** A limit that `parseInt` cannot read (`"abc"`) gives NaN. The loop then makes no call and returns no image; it does not fall back to 50. The text `"0"` also gives an empty collection.
- **A limit that cannot be converted.** `String(args.limit)` throws a TypeError for an object with its own `toString` key. The catch block answers "Error fetching images: Cannot convert object to primitive value" as an `isError` result.
- **When the page is fetched.** The page is fetched before the limit is read, so a zero quota still makes the `page()` call.
- **Duplicates.** The duplicate filter compares a batch only with the images collected before it. Two records of one batch with the same url both survive.
- **A batch that throws null or undefined.** A batch that throws an ordinary error is skipped. A batch that throws null or undefined makes the inner catch raise a TypeError when it reads `.message`. That ends the whole collection with an `isError` result, and earlier batches are lost.
- **Nullish throws outside the batch loop.** Elsewhere, a library call that throws null or undefined lets a TypeError escape the handler. The dispatcher turns it into an InternalError.
- **The onThisDay date.** Month and day are not range-checked: `2024-99-00` asks for month 99, day 0. Leading zeros are dropped and the year is ignored.
- **The client chain.** It does not stall when the text of a content reply fails to parse; the next request is still sent.
  - It stalls when the line is not JSON, when the reply has no truthy `result.content` (or `result.tools`), or when the tool names cannot be read.
  - In that last case the tool list is stored anyway.
  - A repeated reply sends its follow-up request again.

## Model

| member | source | states |
|---|---|---|
| Js.TrimNonEmpty | src/index.ts:41 | `s.trim() !== ""` holds exactly when `s` has a character that is not whitespace |
| Js.ParseDecimalString | src/index.ts:197-203 | `parseInt` reads back every integer that `String(n)` renders, with or without radix 10 |
| Js.ParseIntWithoutDigits | src/index.ts:319 | text that, after whitespace and an optional sign, does not start with a digit parses to NaN |
| Js.NumberString | src/index.ts:202-203 | `toString` of a parse result is "NaN" exactly for NaN |
| Js.PadStartZero | example-client.js:183-185 | `padStart(width, "0")` keeps the string as its suffix, fills the front with zeros, and has length max(width, length) |
| Js.Split | src/index.ts:196 | `split` always yields at least one part |
| Js.SplitAt | src/index.ts:196 | splitting `a + sep + b`, where `a` has no separator, yields `a` followed by the parts of `b` |
| Js.ToLower | src/index.ts:358 | `toLowerCase` keeps the length and lowers the ASCII letters A to Z, leaving every other character as it is |
| Js.ToString | src/index.ts:319 | `String(v)` succeeds exactly for the values `Convertible` describes: not an object with its own `toString` key, nor an array holding one; a string converts to itself |
| Js.JoinElements | example-client.js:177 | joining an array succeeds exactly when each element is null, undefined or convertible |
| Js.Member | example-client.js:168 | reading a property throws exactly on null or undefined |
| Js.Element0 | example-client.js:204 | reading `[0]` throws exactly on null or undefined |
| Js.ReadMessage | src/index.ts:219-221 | reading `.message` gives the text exactly for an ordinary error; for null or undefined it raises a TypeError |
| Validation.DatePatternMatches | src/index.ts:35 | `/^\d{4}-\d{2}-\d{2}$/` accepts exactly the ten-character strings of four digits, a dash, two digits, a dash and two digits |
| Validation.DatePatternSourceText | src/index.ts:95 | the advertised pattern string is the text of the validator's pattern |
| Validation.HasNonBlankStringExactly | src/index.ts:37-55 | the shared guard accepts exactly an object whose key holds a string with a non-whitespace character |
| Validation.OnThisDayArgsAccepted | src/index.ts:31-35 | `isValidOnThisDayArgs` accepts exactly the objects whose `date` is a date-shaped string |
| Validation.FindPageArgsAccepted | src/index.ts:37-41 | `isValidFindPageArgs` accepts exactly the objects whose `query` is a non-blank string |
| Validation.GetPageArgsAccepted | src/index.ts:43-47 | `isValidGetPageArgs` accepts exactly the objects whose `title` is a non-blank string |
| Validation.GetImagesForPageArgsAccepted | src/index.ts:49-55 | `isValidGetImagesForPageArgs` accepts exactly a non-blank `title`, whatever the `limit` is |
| ImageCollector.BatchCountIsCeiling | src/index.ts:325-326 | for a positive quota, the loop bound is the least number of 50-record batches covering it |
| ImageCollector.Survivors | src/index.ts:351-367 | the filter keeps exactly the batch records whose url is not yet collected and has an image extension, and never more records than the batch has |
| ImageCollector.SurvivorsInOrder | src/index.ts:351-367 | the records kept are a subsequence of the batch: the filter keeps batch order |
| ImageCollector.SurvivorsKeepCopies | src/index.ts:351-367 | each record that passes is kept as often as it occurs in the batch; a record that fails is not kept at all |
| ImageCollector.RunExplained | src/index.ts:322-387 | over a whole run: a positive quota makes at least one call; calls begin at 0 and in order; the collection only grows; the records call k added are exactly the survivors of its batch against what was collected before it, so a throwing call adds nothing; every call but the last let the loop go on (an ordinary throw or a full batch with survivors); a finite run whose last call would have gone on stopped at its bound or its quota |
| ImageCollector.TakeBatch | src/index.ts:340-386 | one iteration adds the batch's survivors; it goes on only after an ordinary throw or a full batch with survivors; a null or undefined throw aborts it |
| ImageCollector.CollectImages | src/index.ts:322-387 | the loop returns the collection, the limits asked for and the abort of `Collect`; there are at most ceil(quota/50) calls, each asking 1 to 50 |
| ImageCollector.NoCallsWithoutQuota | src/index.ts:326-328 | a NaN or non-positive quota makes no call and collects nothing |
| ImageCollector.RequestsAskForRemainder | src/index.ts:330-345 | each call asks for min(50, quota − collected so far), made while the collection was below the quota |
| ImageCollector.OnlyImagesCollected | src/index.ts:357-366 | every collected url ends in .svg, .gif, .jpg, .jpeg, .png or .webp, ignoring case |
| ImageCollector.NoDuplicatesAcrossBatches | src/index.ts:351-355 | when no batch repeats a url, no url is collected twice |
| ImageCollector.SameBatchDuplicateSurvives | src/index.ts:351-355 | for any record that passes the filter and any positive quota, a provider returning that record twice in one batch gets both copies collected: one call asking min(50, quota), begun at 0, no abort; at quota 1 the collection exceeds the quota |
| ImageCollector.SameBatchDuplicateExample | src/index.ts:351-355 | for instance, a batch holding "a.png" twice at quota 50 is collected whole after one call asking for 50 |
| ImageCollector.WithinQuota | src/index.ts:330-334 | a provider that never returns more than asked never makes the collection exceed a non-negative quota |
| ImageCollector.AbortsOnlyOnNullishThrow | src/index.ts:381-385 | a run fails exactly when its last call threw null or undefined, with the TypeError of reading its `.message`; no earlier call threw null or undefined |
| ImageCollector.FirstCallAborts | src/index.ts:381-385 | a first call that throws null or undefined ends the run with nothing collected |
| ToolServer.ObjectSchema | src/index.ts:89-99 | an input schema is an object with the given properties and exactly one required key |
| ToolServer.DescribedAt | src/index.ts:84-147 | the i-th advertised tool has the i-th tool's name, and its schema requires and describes the key that tool's validator checks |
| ToolServer.ToolListMatchesDispatcher | src/index.ts:84-165 | the tool list names, in order, the four tools the `switch` routes, each with a schema for its validator's key |
| ToolServer.DateSchemaPatternIsValidatorPattern | src/index.ts:92-96 | the `date` property of the onThisDay schema advertises the validator's own pattern |
| ToolServer.Failed | src/index.ts:214-226 | a catch block answers an `isError` result with the prefix and message exactly for an ordinary error; otherwise a TypeError escapes |
| ToolServer.HandleOnThisDay | src/index.ts:186-227 | an InvalidParams fault, with its usage message, exactly when the guard rejects; otherwise the events the library gives for `DateQuery(date)`, or the catch block's report of what it threw; `isError` exactly on error text; nothing escapes from a library that throws ordinary errors |
| ToolServer.HandleFindPage | src/index.ts:229-260 | the same envelope for findPage; an accepted query answers the library's search results for it, or the report of what the search threw |
| ToolServer.HandleGetPage | src/index.ts:262-304 | the same envelope for getPage; when `page`, `summary()` and `content()` all succeed the answer is the document of title, summary, content and url, otherwise the first one to throw is reported |
| ToolServer.GetImagesForPageOutcome | src/index.ts:306-410 | the same envelope for getImagesForPage; once the page is fetched, an unconvertible limit is reported as "Cannot convert object to primitive value", an aborted run as its TypeError, and otherwise the answer is the images `Collect` gathers for the quota `MaxImages(limit)` |
| ToolServer.HandleGetImagesForPage | src/index.ts:306-410 | the handler running the collection loop answers `GetImagesForPageOutcome` |
| ToolServer.ImagesAnswerIsCollection | src/index.ts:319-396 | a successful getImagesForPage answer holds only image urls, and no more images than a non-negative quota when the library never returns more than asked |
| ToolServer.ToolNamed | src/index.ts:155-165 | a name selects a tool exactly when it is in the tool list, and the tool selected has that name |
| ToolServer.ToolNamedRoundTrip | src/index.ts:155-165 | each tool is selected by its own name |
| ToolServer.Handle | src/index.ts:155-165 | the only fault a handler raises is InvalidParams |
| ToolServer.CallTool | src/index.ts:151-183 | nothing escapes the dispatcher; `isError` holds exactly on error text; an InternalError only comes from a null or undefined throw, with its TypeError text |
| ToolServer.CallToolPassesThrough | src/index.ts:154-175 | a handler outcome that does not escape reaches the caller unchanged |
| ToolServer.EscapeBecomesInternalError | src/index.ts:172-180 | whatever escapes a handler becomes InternalError "Internal error: " + its message |
| ToolServer.UnknownToolsOnly | src/index.ts:166-170 | a MethodNotFound "Unknown tool: " + name is answered exactly for names outside the tool list |
| ToolServer.InvalidParamsExactlyOnRejection | src/index.ts:186-192 | each listed tool answers InvalidParams exactly when its validator rejects; then it gives its own usage message whatever the library does |
| ToolServer.OnThisDayErrorReported | src/index.ts:214-226 | an error thrown by `wiki.onThisDay` becomes "Error fetching on this day data: " + message, with `isError` |
| ToolServer.FindPageErrorReported | src/index.ts:249-259 | an error thrown by `wiki.search` becomes "Error searching for pages: " + message, with `isError` |
| ToolServer.GetPageErrorReported | src/index.ts:270-303 | the first of `page`, `summary()` and `content()` to throw is reported as "Error fetching page: " + message |
| ToolServer.GetImagesForPageErrorReported | src/index.ts:399-409 | an error thrown by `wiki.page` becomes "Error fetching images: " + message, with `isError` |
| ToolServer.NullishPageThrowIsInternalError | src/index.ts:293-303 | a page lookup that throws null or undefined lets the TypeError escape getPage |
| ToolServer.NullishBatchThrowReported | src/index.ts:381-409 | any images() call of a run that throws null or undefined is the run's last, and the handler answers an `isError` result carrying its TypeError, not an InternalError |
| ToolServer.UnconvertibleLimitReported | src/index.ts:319 | a truthy limit that `String` cannot convert is answered with "Error fetching images: " and the conversion's TypeError message, as an `isError` result |
| ToolServer.SplitShapedDate | src/index.ts:196 | a date-shaped string splits into year, month and day |
| ToolServer.TwoDigitText | src/index.ts:197-203 | `parseInt(s, 10).toString()` of two digits is the decimal text of their value |
| ToolServer.DateQueryOfShaped | src/index.ts:195-204 | the library is asked for the month and the day read from positions 5-6 and 8-9 as plain decimals |
| ToolServer.YearIgnored | src/index.ts:196-204 | dates that differ only in the year make the same query |
| ToolServer.DateQueryDropsLeadingZeros | src/index.ts:197-203 | "2024-07-04" asks for month "7", day "4" |
| ToolServer.DateQueryNotRangeChecked | src/index.ts:186-204 | "2024-99-00" passes validation and asks for month "99", day "0" |
| ToolServer.MaxImages | src/index.ts:319 | a falsy limit is the default 50, a string limit is `parseInt` of it without a radix, and `String` throws its TypeError exactly for a truthy limit it cannot convert |
| ToolServer.MaxImagesDefault | src/index.ts:319 | undefined, null, false, 0 and "" give the default quota 50 |
| ToolServer.MaxImagesOfNumber | src/index.ts:319 | a non-zero number is the quota as it is, negative numbers included |
| ToolServer.MaxImagesOfZeroText | src/index.ts:319 | the text "0" is a quota of 0 |
| ToolServer.MaxImagesOfWords | src/index.ts:319 | any non-empty text that, after whitespace and an optional sign, does not start with a digit is NaN |
| ToolServer.MaxImagesOfHexText | src/index.ts:319 | "0x10" is read as hexadecimal, 16 |
| ToolServer.MaxImagesOfTrailingText | src/index.ts:319 | "7px" is 7 |
| ToolServer.TextualZeroLimitCollectsNothing | src/index.ts:316-328 | a limit of "0" or "abc" answers an empty image list |
| ExampleClient.NextRequest | example-client.js:187-269 | the call sent after reply k has id k + 1 and is a `tools/call` |
| ExampleClient.Client.constructor | example-client.js:302-307 | the client starts with the empty `results` object and the `tools/list` request (id 1) sent |
| ExampleClient.Client.OnLine | example-client.js:161-292 | handling a line leaves the client in the state `React` gives |
| ExampleClient.Client.AnswerReply | example-client.js:171-288 | the `switch (response.id)` leaves the client in the state `Answer` gives |
| ExampleClient.Client.StoreField | example-client.js:201-287 | the reply with id k fills its own field of `results` and nothing else |
| ExampleClient.AtMostOneRequestPerLine | example-client.js:161-292 | a line sends at most one request, and what was sent stays sent |
| ExampleClient.RequestAnswersReply | example-client.js:171-288 | a request is sent only for a reply whose id k is 1 to 4, and it is the call that follows k |
| ExampleClient.IgnoredLines | example-client.js:161-288 | blank or unparsable lines, null replies, unknown ids, falsy results, and results without a truthy `tools` (id 1) or `content` (ids 2 to 5) change nothing |
| ExampleClient.UnparsableContentStillAdvances | example-client.js:201-247 | content whose text does not parse leaves `results` alone, yet the next call is sent |
| ExampleClient.UnreadableToolsStall | example-client.js:172-198 | a tool list whose names cannot be read or joined is stored, and no call is sent |
| ExampleClient.UnconvertibleToolNameUnreadable | example-client.js:174-178 | a tool named by an object with its own `toString` key makes the list unreadable |
| ExampleClient.AnswerTools | example-client.js:172-198 | a readable tool list is stored and the onThisDay call sent |
| ExampleClient.AnswerContent | example-client.js:201-287 | parsed content fills the field of reply k, and the next call is sent for k < 5 |
| ExampleClient.ToolsReplyStep | example-client.js:172-198 | the reply `{"id":1,"result":{"tools":ts}}` stores ts and sends onThisDay |
| ExampleClient.ContentReplyStep | example-client.js:201-287 | the content reply of id k whose text parses to v stores v and sends the next call |
| ExampleClient.ChainStep | example-client.js:171-288 | the (j+1)-th reply of a successful run takes the run from its state after j replies to the next |
| ExampleClient.ChainReplays | example-client.js:161-292 | the five replies of a successful run take the client from its start to the state with all fields filled |
| ExampleClient.ChainIds | example-client.js:187-269 | the requests of a full run carry the ids 1 to 5 in order |
| ExampleClient.FullChain | example-client.js:161-307 | five well-formed replies fill every field of `results` and send the five requests with ids 1 to 5, in order |
| ExampleClient.DuplicateReplyResends | example-client.js:201-223 | a repeated onThisDay reply (id 2) sends the findPage request twice |
| ExampleClient.PaddedTwoDigits | example-client.js:183-185 | a padded month or day below 100 is two digits worth its value |
| ExampleClient.YearText | example-client.js:183 | the year renders as four digits exactly for years 1000 to 9999 |
| ExampleClient.FormattedDateShaped | example-client.js:182-185 | the formatted date matches the server's date pattern exactly when the year has four digits |
| ExampleClient.FormattedDateQuery | example-client.js:182-185 | for a four-digit year, the server asks the library for the client's month (1-based) and day as plain decimals |
| ExampleClient.FormattedDateAccepted | example-client.js:182-197 | the onThisDay call passes the server's validator exactly when the year has four digits |
| ExampleClient.EinsteinAccepted | example-client.js:211-269 | the findPage, getPage and getImagesForPage calls pass their validators |
| ExampleClient.NextRequestAccepted | example-client.js:187-269 | every call of the chain is accepted, the onThisDay call exactly when the year has four digits |
| ExampleClient.SentStaysAccepted | example-client.js:171-288 | when every chain call is accepted, a line keeps all sent requests accepted |
| ExampleClient.RequestsStayAccepted | example-client.js:171-288 | with a four-digit year, every request the client has sent stays accepted by the server |

## Left out

- JSON rendering: the text of a successful result is `JSON.stringify` of a value. The model carries the value (`Serialized`, `Images`), not its rendering.
- The MCP SDK, the stdio transport, `run`, the server's constructor and its SIGINT handler are not modelled: they are the SDK's code or process I/O.
- Logging (`console.log`, `console.error`) is not modelled. It does not affect any result.
- Floating point: numbers are integers. `Math.ceil(maxImages / 50)` is computed exactly, and fractions, `-0`, Infinity and precision above 2^53 are not modelled.
- The Wikipedia library is a parameter. Its HTTP requests, language setting and result shapes are not modelled.
- Example client: the HTTP preview server, `updateResultsHtml`, the child process, the exit and SIGINT handlers, and the JSON text of the requests are not modelled. A request is modelled by its id, tool and argument, and `sent` stands for the lines written.
- `JSON.parse` is a parameter of the client. The current date is an input (`Today`) whose month index and day are taken as `Date` gives them.
- Js.ToLower: lowers only the ASCII letters A to Z. JavaScript's `toLowerCase` lowers every cased character, and can change the length ('İ' becomes "i̇"). The six-extension test of the image filter compares ASCII text only, so it gives the same answer either way.
- Js.ToString: `String(v)` is modelled for the values JSON can carry. The objects it cannot convert are those with their own `toString` key. Objects with a callable `toString` or a `Symbol.toPrimitive` cannot come from JSON.
- ExampleClient.Client.OnLine: `results.tools.map(...)` is modelled only by whether it throws. The names it joins are logged and not kept.
- `client.js` is not part of this model. It is a second, stand-alone client.
- ImageCollector.NoDuplicatesAcrossBatches: holds only for providers whose batches repeat no url, because the filter does not compare records of one batch with each other (see ImageCollector.SameBatchDuplicateSurvives).
- ImageCollector.WithinQuota: holds only for providers that never return more records than asked for; the loop itself does not truncate a batch.
- A returned batch that makes the filter throw (a record whose url is not a string) is given as a batch that threw an ordinary error. That is how the loop treats it.

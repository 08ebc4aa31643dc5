/** The Wikipedia MCP server of src/index.ts: the tool list it advertises, the CallTool
    dispatcher, and the four tool handlers with their error envelopes. The Wikipedia
    client library is a parameter (`Wiki`): every value it answers with and every exception
    it throws is given, and only what the server does with them is modelled. */
module ToolServer {
  import opened Js
  import opened Validation
  import opened ImageCollector

  // ---------------------------------------------------------------------------
  // Outcomes of a tool call

  /** The MCP error codes the server raises. */
  datatype ErrorCode = InvalidParams | MethodNotFound | InternalError

  /** The text of the one `content` item of a result: a value given to `JSON.stringify`
      (whose rendering is not modelled), the collected images, or an error message. */
  datatype Body = Serialized(value: JsValue) | Images(images: seq<ImageRecord>) | ErrorText(text: string)

  /** How a call ends: a CallTool result carrying `isError` or not, a thrown McpError, or,
      inside a handler only, an exception that escapes the handler's catch block (the
      TypeError of reading `.message` of a thrown null or undefined). */
  datatype Outcome = Result(body: Body, isError: bool) | Fault(code: ErrorCode, message: string) | Escaped(message: string)

  // ---------------------------------------------------------------------------
  // The Wikipedia client library as seen by the server

  /** A settled call: its value, or the value it threw (a rejected promise). */
  datatype Attempt<T> = Ok(value: T) | Fail(e: Exception)

  /** A page object: its `title` and `fullurl` properties, what `summary()` and `content()`
      settle to, and what each `images({limit})` call of a run gives. */
  datatype WikiPage = WikiPage(title: JsValue, fullurl: JsValue, summary: Attempt<JsValue>,
                               content: Attempt<JsValue>, images: ImagesProvider)

  /** `wiki.onThisDay({month, day})`, `wiki.search(query)` and `wiki.page(title)`. */
  datatype Wiki = Wiki(onThisDay: (string, string) -> Attempt<JsValue>,
                       search: string -> Attempt<JsValue>,
                       page: string -> Attempt<WikiPage>)

  // ---------------------------------------------------------------------------
  // The advertised tools

  const ToolNames: seq<string> := ["onThisDay", "findPage", "getPage", "getImagesForPage"]

  datatype ToolDescriptor = ToolDescriptor(name: string, description: string, inputSchema: JsValue)

  function StringProperty(description: string): JsValue {
    JObject(map["type" := JString("string"), "description" := JString(description)])
  }

  function ObjectSchema(properties: map<string, JsValue>, required: string): (schema: JsValue)
    ensures schema.JObject? && "properties" in schema.fields && "required" in schema.fields
    ensures schema.fields["properties"] == JObject(properties)
    ensures schema.fields["required"] == JArray([JString(required)])
  {
    assert "properties"[0] != "type"[0] && "required"[0] != "type"[0] && "required"[0] != "properties"[0];
    JObject(map["type" := JString("object"), "properties" := JObject(properties),
                "required" := JArray([JString(required)])])
  }

  /** The answer to ListTools. */
  function ListTools(): seq<ToolDescriptor> {
    [ ToolDescriptor("onThisDay", "Get historical events that occurred on a specific date",
        ObjectSchema(map["date" := JObject(map["type" := JString("string"),
                                               "description" := JString("ISO8601 date portion (YYYY-MM-DD)"),
                                               "pattern" := JString(DatePatternSource)])],
                     "date")),
      ToolDescriptor("findPage", "Search for Wikipedia pages matching a query",
        ObjectSchema(map["query" := StringProperty("Search query")], "query")),
      ToolDescriptor("getPage", "Get content of a Wikipedia page by title",
        ObjectSchema(map["title" := StringProperty("Page title")], "title")),
      ToolDescriptor("getImagesForPage", "Get images from a Wikipedia page by title",
        ObjectSchema(map["title" := StringProperty("Page title"),
                         "limit" := JObject(map["type" := JArray([JString("string"), JString("number")]),
                                                "description" := JString("Maximum number of images to retrieve (default: 50)")])],
                     "title")) ]
  }

  /** The argument key each tool's validator insists on. */
  function RequiredKey(t: Tool): string {
    match t
    case OnThisDay => "date"
    case FindPage => "query"
    case GetPage => "title"
    case GetImagesForPage => "title"
  }

  const Tools: seq<Tool> := [OnThisDay, FindPage, GetPage, GetImagesForPage]

  /** A descriptor advertises tool `t`: its name, and an object schema that requires
      the key the tool's validator checks and describes that key. */
  ghost predicate Describes(d: ToolDescriptor, t: Tool) {
    && d.name == ToolName(t)
    && d.inputSchema.JObject?
    && "required" in d.inputSchema.fields
    && "properties" in d.inputSchema.fields
    && d.inputSchema.fields["required"] == JArray([JString(RequiredKey(t))])
    && d.inputSchema.fields["properties"].JObject?
    && RequiredKey(t) in d.inputSchema.fields["properties"].fields
  }

  lemma DescribedAt(i: nat)
    requires i < |Tools|
    ensures |ListTools()| == |Tools| && Describes(ListTools()[i], Tools[i])
    ensures ToolNames[i] == ToolName(Tools[i])
  {
    var tools := ListTools();
    if i == 0 {
      assert Describes(tools[0], OnThisDay);
    } else if i == 1 {
      assert Describes(tools[1], FindPage);
    } else if i == 2 {
      assert Describes(tools[2], GetPage);
    } else {
      assert Describes(tools[3], GetImagesForPage);
    }
  }

  /** The tool list names, in order, the four tools the dispatcher routes, and each
      schema requires the key that tool's validator checks. */
  lemma ToolListMatchesDispatcher()
    ensures |ListTools()| == |Tools| == |ToolNames|
    ensures forall i :: 0 <= i < |Tools| ==> ToolNames[i] == ToolName(Tools[i]) && Describes(ListTools()[i], Tools[i])
  {
    forall i | 0 <= i < |Tools|
      ensures ToolNames[i] == ToolName(Tools[i]) && Describes(ListTools()[i], Tools[i])
    {
      DescribedAt(i);
    }
    DescribedAt(0);
  }

  /** The date schema advertises the pattern the onThisDay validator tests. */
  lemma DateSchemaPatternIsValidatorPattern()
    ensures var schema := ListTools()[0].inputSchema;
      && schema.JObject? && "properties" in schema.fields && schema.fields["properties"].JObject?
      && "date" in schema.fields["properties"].fields
      && schema.fields["properties"].fields["date"].JObject?
      && "pattern" in schema.fields["properties"].fields["date"].fields
      && schema.fields["properties"].fields["date"].fields["pattern"] == JString(PatternSource(DatePattern))
  {
    DatePatternSourceText();
  }

  // ---------------------------------------------------------------------------
  // The handlers

  const OnThisDayUsage := "Invalid onThisDay arguments. Expected { date: \"YYYY-MM-DD\" }"
  const FindPageUsage := "Invalid findPage arguments. Expected { query: string }"
  const GetPageUsage := "Invalid getPage arguments. Expected { title: string }"
  const GetImagesForPageUsage := "Invalid getImagesForPage arguments. Expected { title: string }"

  const OnThisDayFailure := "Error fetching on this day data: "
  const FindPageFailure := "Error searching for pages: "
  const GetPageFailure := "Error fetching page: "
  const GetImagesForPageFailure := "Error fetching images: "

  /** A handler's catch block: an error result carrying `prefix` and the message, unless
      reading the message of a thrown null or undefined raises a TypeError. */
  function Failed(prefix: string, e: Exception): (r: Outcome)
    ensures e.Thrown? <==> r.Result?
    ensures r.Result? ==> r == Result(ErrorText(prefix + e.message), true)
    ensures r.Escaped? ==> r.message == ReadMessage(e).typeError
    ensures r.Escaped? ==> r.message == NullMessageError || r.message == UndefinedMessageError
  {
    match ReadMessage(e)
    case Text(t) => Result(ErrorText(prefix + t), true)
    case Raises(typeError) => Escaped(typeError)
  }

  /** The `month` and `day` strings handed to `wiki.onThisDay`. */
  datatype DayQuery = DayQuery(month: string, day: string)

  /** `dateParts[i]`, read by parseInt as `String(undefined)` when missing. */
  function Part(parts: seq<string>, i: nat): string {
    if i < |parts| then parts[i] else "undefined"
  }

  /** `args.date.split("-")`, then `parseInt(dateParts[1], 10).toString()` and
      `parseInt(dateParts[2], 10).toString()`. */
  function DateQuery(date: string): DayQuery {
    var parts := Split(date, '-');
    DayQuery(NumberString(ParseInt(Part(parts, 1), Ten)), NumberString(ParseInt(Part(parts, 2), Ten)))
  }

  /** onThisDay answers the events the library gives for the month and the day of the
      date, or reports what the library threw. */
  function HandleOnThisDay(args: JsValue, wiki: Wiki): (r: Outcome)
    ensures ThrowsOnlyErrors(wiki) ==> !r.Escaped?
    ensures r.Escaped? ==> r.message == NullMessageError || r.message == UndefinedMessageError
    ensures r.Fault? <==> !IsValidOnThisDayArgs(args)
    ensures r.Fault? ==> r == Fault(InvalidParams, OnThisDayUsage)
    ensures r.Result? ==> (r.isError <==> r.body.ErrorText?)
    ensures IsValidOnThisDayArgs(args) ==>
      var q := DateQuery(Prop(args, "date").s);
      r == match wiki.onThisDay(q.month, q.day)
           case Ok(events) => Result(Serialized(events), false)
           case Fail(e) => Failed(OnThisDayFailure, e)
  {
    if !IsValidOnThisDayArgs(args) then Fault(InvalidParams, OnThisDayUsage)
    else
      var q := DateQuery(Prop(args, "date").s);
      match wiki.onThisDay(q.month, q.day)
      case Ok(events) => Result(Serialized(events), false)
      case Fail(e) => Failed(OnThisDayFailure, e)
  }

  /** findPage answers the library's search results for the query, or reports what the
      library threw. */
  function HandleFindPage(args: JsValue, wiki: Wiki): (r: Outcome)
    ensures ThrowsOnlyErrors(wiki) ==> !r.Escaped?
    ensures r.Escaped? ==> r.message == NullMessageError || r.message == UndefinedMessageError
    ensures r.Fault? <==> !IsValidFindPageArgs(args)
    ensures r.Fault? ==> r == Fault(InvalidParams, FindPageUsage)
    ensures r.Result? ==> (r.isError <==> r.body.ErrorText?)
    ensures IsValidFindPageArgs(args) ==>
      r == match wiki.search(Prop(args, "query").s)
           case Ok(results) => Result(Serialized(results), false)
           case Fail(e) => Failed(FindPageFailure, e)
  {
    if !IsValidFindPageArgs(args) then Fault(InvalidParams, FindPageUsage)
    else
      match wiki.search(Prop(args, "query").s)
      case Ok(results) => Result(Serialized(results), false)
      case Fail(e) => Failed(FindPageFailure, e)
  }

  /** The object serialized by getPage. */
  function PageDocument(page: WikiPage, summary: JsValue, content: JsValue): JsValue {
    JObject(map["title" := page.title, "summary" := summary, "content" := content, "url" := page.fullurl])
  }

  /** `wiki.page`, then `summary()`, then `content()`; the first that throws decides. When
      none throws, the answer is the page's title, summary, content and url. */
  function HandleGetPage(args: JsValue, wiki: Wiki): (r: Outcome)
    ensures ThrowsOnlyErrors(wiki) ==> !r.Escaped?
    ensures r.Escaped? ==> r.message == NullMessageError || r.message == UndefinedMessageError
    ensures r.Fault? <==> !IsValidGetPageArgs(args)
    ensures r.Fault? ==> r == Fault(InvalidParams, GetPageUsage)
    ensures r.Result? ==> (r.isError <==> r.body.ErrorText?)
    ensures IsValidGetPageArgs(args) ==>
      var p := wiki.page(Prop(args, "title").s);
      && (p.Ok? && p.value.summary.Ok? && p.value.content.Ok? ==>
            r == Result(Serialized(PageDocument(p.value, p.value.summary.value, p.value.content.value)), false))
      && (p.Fail? ==> r == Failed(GetPageFailure, p.e))
      && (p.Ok? && p.value.summary.Fail? ==> r == Failed(GetPageFailure, p.value.summary.e))
      && (p.Ok? && p.value.summary.Ok? && p.value.content.Fail? ==> r == Failed(GetPageFailure, p.value.content.e))
  {
    if !IsValidGetPageArgs(args) then Fault(InvalidParams, GetPageUsage)
    else
      match wiki.page(Prop(args, "title").s)
      case Fail(e) => Failed(GetPageFailure, e)
      case Ok(page) =>
        match page.summary
        case Fail(e) => Failed(GetPageFailure, e)
        case Ok(summary) =>
          match page.content
          case Fail(e) => Failed(GetPageFailure, e)
          case Ok(content) => Result(Serialized(PageDocument(page, summary, content)), false)
  }

  const DefaultImageLimit := 50

  /** `args.limit ? parseInt(String(args.limit)) : 50`; `String` throws a TypeError for a
      limit it cannot convert. */
  function MaxImages(limit: JsValue): (q: Attempt<Numeric>)
    ensures q.Fail? <==> Truthy(limit) && !Convertible(limit)
    ensures q.Fail? ==> q.e == Thrown(ConvertError)
    ensures !Truthy(limit) ==> q == Ok(Num(DefaultImageLimit))
    ensures limit.JString? && Truthy(limit) ==> q == Ok(ParseInt(limit.s, Unspecified))
  {
    if Truthy(limit) then
      match ToString(limit)
      case None => Fail(Thrown(ConvertError))
      case Some(text) => Ok(ParseInt(text, Unspecified))
    else Ok(Num(DefaultImageLimit))
  }

  /** What getImagesForPage answers: the page is fetched first, then the limit is read,
      then the images are collected for the quota `MaxImages(args.limit)`. A successful
      answer is the collection of the run, and a run that aborts is reported as an error. */
  function GetImagesForPageOutcome(args: JsValue, wiki: Wiki): (r: Outcome)
    ensures ThrowsOnlyErrors(wiki) ==> !r.Escaped?
    ensures r.Escaped? ==> r.message == NullMessageError || r.message == UndefinedMessageError
    ensures r.Fault? <==> !IsValidGetImagesForPageArgs(args)
    ensures r.Fault? ==> r == Fault(InvalidParams, GetImagesForPageUsage)
    ensures r.Result? ==> (r.isError <==> r.body.ErrorText?)
    ensures IsValidGetImagesForPageArgs(args) ==>
      var p := wiki.page(Prop(args, "title").s);
      var quota := MaxImages(Prop(args, "limit"));
      && (p.Fail? ==> r == Failed(GetImagesForPageFailure, p.e))
      && (p.Ok? && quota.Fail? ==> r == Result(ErrorText(GetImagesForPageFailure + ConvertError), true))
      && (p.Ok? && quota.Ok? ==>
            var run := Collect(quota.value, p.value.images);
            r == if run.failure.Some? then Result(ErrorText(GetImagesForPageFailure + run.failure.value), true)
                 else Result(Images(run.images), false))
  {
    if !IsValidGetImagesForPageArgs(args) then Fault(InvalidParams, GetImagesForPageUsage)
    else
      match wiki.page(Prop(args, "title").s)
      case Fail(e) => Failed(GetImagesForPageFailure, e)
      case Ok(page) =>
        match MaxImages(Prop(args, "limit"))
        case Fail(e) => Failed(GetImagesForPageFailure, e)
        case Ok(maxImages) =>
          var run := Collect(maxImages, page.images);
          match run.failure
          case Some(typeError) => Result(ErrorText(GetImagesForPageFailure + typeError), true)
          case None => Result(Images(run.images), false)
  }

  /** `handleGetImagesForPage`, running the collection loop. */
  method HandleGetImagesForPage(args: JsValue, wiki: Wiki) returns (out: Outcome)
    ensures out == GetImagesForPageOutcome(args, wiki)
  {
    if !IsValidGetImagesForPageArgs(args) {
      return Fault(InvalidParams, GetImagesForPageUsage);
    }
    match wiki.page(Prop(args, "title").s) {
      case Fail(e) =>
        out := Failed(GetImagesForPageFailure, e);
      case Ok(page) =>
        match MaxImages(Prop(args, "limit")) {
          case Fail(e) =>
            out := Failed(GetImagesForPageFailure, e);
          case Ok(maxImages) =>
            var images, requests, failure := CollectImages(maxImages, page.images);
            if failure.Some? {
              out := Result(ErrorText(GetImagesForPageFailure + failure.value), true);
            } else {
              out := Result(Images(images), false);
            }
        }
    }
  }

  // ---------------------------------------------------------------------------
  // The CallTool dispatcher

  /** The four tools the `switch` of the CallTool handler knows. */
  datatype Tool = OnThisDay | FindPage | GetPage | GetImagesForPage

  function ToolName(t: Tool): string {
    match t
    case OnThisDay => "onThisDay"
    case FindPage => "findPage"
    case GetPage => "getPage"
    case GetImagesForPage => "getImagesForPage"
  }

  /** The `case` label a tool name matches, if any. */
  function ToolNamed(name: string): (t: Option<Tool>)
    ensures t.Some? <==> name in ToolNames
    ensures t.Some? ==> ToolName(t.value) == name
  {
    if name == "onThisDay" then Some(OnThisDay)
    else if name == "findPage" then Some(FindPage)
    else if name == "getPage" then Some(GetPage)
    else if name == "getImagesForPage" then Some(GetImagesForPage)
    else None
  }

  /** Each tool is selected by its own name. */
  lemma ToolNamedRoundTrip(t: Tool)
    ensures ToolNamed(ToolName(t)) == Some(t)
  {
    assert "findPage"[0] != "onThisDay"[0];
    assert "getPage"[0] != "onThisDay"[0] && "getPage"[0] != "findPage"[0];
    assert "getImagesForPage"[0] != "onThisDay"[0] && "getImagesForPage"[0] != "findPage"[0];
    assert "getImagesForPage"[3] != "getPage"[3];
  }

  /** The handler of a tool. */
  function Handle(t: Tool, args: JsValue, wiki: Wiki): (r: Outcome)
    ensures r.Fault? ==> r.code == InvalidParams
  {
    match t
    case OnThisDay => HandleOnThisDay(args, wiki)
    case FindPage => HandleFindPage(args, wiki)
    case GetPage => HandleGetPage(args, wiki)
    case GetImagesForPage => GetImagesForPageOutcome(args, wiki)
  }

  /** The CallTool request handler: an unknown name is a MethodNotFound error, McpErrors
      pass through, anything else a handler lets escape becomes an InternalError. A
      result is flagged `isError` exactly when it carries an error message. */
  function CallTool(name: string, args: JsValue, wiki: Wiki): (r: Outcome)
    ensures !r.Escaped?
    ensures r.Result? ==> (r.isError <==> r.body.ErrorText?)
    ensures r.Fault? && r.code == InternalError ==>
      && !ThrowsOnlyErrors(wiki)
      && (r.message == "Internal error: " + NullMessageError || r.message == "Internal error: " + UndefinedMessageError)
  {
    match ToolNamed(name)
    case None => Fault(MethodNotFound, "Unknown tool: " + name)
    case Some(t) =>
      match Handle(t, args, wiki)
      case Escaped(message) => Fault(InternalError, "Internal error: " + message)
      case handled => handled
  }

  /** A tool's outcome reaches the client unchanged unless its handler lets a value escape. */
  lemma CallToolPassesThrough(t: Tool, args: JsValue, wiki: Wiki)
    requires !Handle(t, args, wiki).Escaped?
    ensures CallTool(ToolName(t), args, wiki) == Handle(t, args, wiki)
  {
    ToolNamedRoundTrip(t);
  }

  /** Whatever a handler lets escape becomes an InternalError carrying its message. */
  lemma EscapeBecomesInternalError(t: Tool, args: JsValue, wiki: Wiki)
    requires Handle(t, args, wiki).Escaped?
    ensures CallTool(ToolName(t), args, wiki) == Fault(InternalError, "Internal error: " + Handle(t, args, wiki).message)
  {
    ToolNamedRoundTrip(t);
  }

  /** Whether the validator of tool `t` accepts `args`. */
  predicate Accepts(t: Tool, args: JsValue) {
    match t
    case OnThisDay => IsValidOnThisDayArgs(args)
    case FindPage => IsValidFindPageArgs(args)
    case GetPage => IsValidGetPageArgs(args)
    case GetImagesForPage => IsValidGetImagesForPageArgs(args)
  }

  function Usage(t: Tool): string {
    match t
    case OnThisDay => OnThisDayUsage
    case FindPage => FindPageUsage
    case GetPage => GetPageUsage
    case GetImagesForPage => GetImagesForPageUsage
  }

  /** A name outside the tool list, and only such a name, is answered with MethodNotFound
      and "Unknown tool: " followed by the name. */
  lemma UnknownToolsOnly(name: string, args: JsValue, wiki: Wiki)
    ensures CallTool(name, args, wiki) == Fault(MethodNotFound, "Unknown tool: " + name) <==> name !in ToolNames
    ensures CallTool(name, args, wiki).Fault? && CallTool(name, args, wiki).code == MethodNotFound <==> name !in ToolNames
  {
  }

  /** A listed tool answers InvalidParams exactly when its validator rejects the
      arguments, with the tool's own usage message and without consulting Wikipedia. */
  lemma InvalidParamsExactlyOnRejection(t: Tool, args: JsValue, wiki: Wiki, other: Wiki)
    ensures (CallTool(ToolName(t), args, wiki).Fault? && CallTool(ToolName(t), args, wiki).code == InvalidParams)
            <==> !Accepts(t, args)
    ensures !Accepts(t, args) ==>
      CallTool(ToolName(t), args, wiki) == Fault(InvalidParams, Usage(t)) == CallTool(ToolName(t), args, other)
  {
    ToolNamedRoundTrip(t);
  }

  // ---------------------------------------------------------------------------
  // Failures of the Wikipedia library

  /** Every value the library throws, outside the image batches, is an ordinary error
      whose message can be read. */
  ghost predicate ThrowsOnlyErrors(wiki: Wiki) {
    && (forall month, day :: wiki.onThisDay(month, day).Fail? ==> wiki.onThisDay(month, day).e.Thrown?)
    && (forall query :: wiki.search(query).Fail? ==> wiki.search(query).e.Thrown?)
    && (forall title :: wiki.page(title).Fail? ==> wiki.page(title).e.Thrown?)
    && (forall title :: wiki.page(title).Ok? ==>
          (wiki.page(title).value.summary.Fail? ==> wiki.page(title).value.summary.e.Thrown?)
          && (wiki.page(title).value.content.Fail? ==> wiki.page(title).value.content.e.Thrown?))
  }

  /** A library call that throws an ordinary error is reported as an `isError` result
      carrying the handler's prefix and the error's message. */
  lemma OnThisDayErrorReported(args: JsValue, wiki: Wiki, message: string)
    requires IsValidOnThisDayArgs(args)
    requires var q := DateQuery(args.fields["date"].s); wiki.onThisDay(q.month, q.day) == Fail(Thrown(message))
    ensures HandleOnThisDay(args, wiki) == Result(ErrorText("Error fetching on this day data: " + message), true)
  {
  }

  lemma FindPageErrorReported(args: JsValue, wiki: Wiki, message: string)
    requires IsValidFindPageArgs(args) && wiki.search(args.fields["query"].s) == Fail(Thrown(message))
    ensures HandleFindPage(args, wiki) == Result(ErrorText("Error searching for pages: " + message), true)
  {
  }

  /** Whichever of `wiki.page`, `summary()` and `content()` throws first is reported. */
  lemma GetPageErrorReported(args: JsValue, wiki: Wiki, message: string)
    requires IsValidGetPageArgs(args)
    requires var p := wiki.page(args.fields["title"].s);
      || p == Fail(Thrown(message))
      || (p.Ok? && p.value.summary == Fail(Thrown(message)))
      || (p.Ok? && p.value.summary.Ok? && p.value.content == Fail(Thrown(message)))
    ensures HandleGetPage(args, wiki) == Result(ErrorText("Error fetching page: " + message), true)
  {
  }

  lemma GetImagesForPageErrorReported(args: JsValue, wiki: Wiki, message: string)
    requires IsValidGetImagesForPageArgs(args) && wiki.page(args.fields["title"].s) == Fail(Thrown(message))
    ensures GetImagesForPageOutcome(args, wiki) == Result(ErrorText("Error fetching images: " + message), true)
  {
  }

  /** A page lookup that throws null or undefined makes the dispatcher raise an
      InternalError carrying the TypeError of reading its `.message`. */
  lemma NullishPageThrowIsInternalError(args: JsValue, wiki: Wiki, e: Exception)
    requires IsValidGetPageArgs(args) && wiki.page(args.fields["title"].s) == Fail(e) && !e.Thrown?
    ensures HandleGetPage(args, wiki) == Escaped(ReadMessage(e).typeError)
  {
  }

  /** Any images() call of a run that throws null or undefined is the run's last, and the
      handler answers it with an error result carrying the TypeError of reading its
      `.message`, not with an InternalError; the images of earlier batches are lost. */
  lemma NullishBatchThrowReported(args: JsValue, wiki: Wiki, page: WikiPage, m: Numeric, k: nat)
    requires IsValidGetImagesForPageArgs(args) && wiki.page(Prop(args, "title").s) == Ok(page)
    requires MaxImages(Prop(args, "limit")) == Ok(m)
    requires var requests := Collect(m, page.images).requests;
      k < |requests| && ThrewNullish(page.images(k, requests[k]))
    ensures k == |Collect(m, page.images).requests| - 1
    ensures var requests := Collect(m, page.images).requests;
      GetImagesForPageOutcome(args, wiki)
        == Result(ErrorText("Error fetching images: " + ReadMessage(page.images(k, requests[k]).e).typeError), true)
  {
    AbortsOnlyOnNullishThrow(m, page.images);
  }

  /** A successful getImagesForPage answer holds only urls with an image extension, and no
      more images than the quota when the library never returns more than it is asked for. */
  lemma ImagesAnswerIsCollection(args: JsValue, wiki: Wiki, images: seq<ImageRecord>)
    requires GetImagesForPageOutcome(args, wiki) == Result(Images(images), false)
    ensures IsValidGetImagesForPageArgs(args) && wiki.page(Prop(args, "title").s).Ok?
    ensures forall r :: r in images ==> HasImageExtension(r.url)
    ensures var page := wiki.page(Prop(args, "title").s).value;
      && MaxImages(Prop(args, "limit")).Ok?
      && (NeverOversupplies(page.images) ==>
            var m := MaxImages(Prop(args, "limit")).value;
            m.Num? && m.n >= 0 ==> |images| <= m.n)
  {
    var page := wiki.page(Prop(args, "title").s).value;
    var m := MaxImages(Prop(args, "limit")).value;
    OnlyImagesCollected(m, page.images);
    if NeverOversupplies(page.images) {
      WithinQuota(m, page.images);
    }
  }

  /** A truthy limit that `String` cannot convert (an object with its own `toString` key)
      is reported as an error result, once the page has been fetched. */
  lemma UnconvertibleLimitReported(args: JsValue, wiki: Wiki, page: WikiPage)
    requires IsValidGetImagesForPageArgs(args) && wiki.page(Prop(args, "title").s) == Ok(page)
    requires Truthy(Prop(args, "limit")) && !Convertible(Prop(args, "limit"))
    ensures GetImagesForPageOutcome(args, wiki)
      == Result(ErrorText(GetImagesForPageFailure + ConvertError), true)
  {
    assert MaxImages(Prop(args, "limit")) == Fail(Thrown(ConvertError));
  }

  // ---------------------------------------------------------------------------
  // The onThisDay date split

  function TwoDigitValue(tens: char, units: char): nat {
    10 * DigitValue(tens) + DigitValue(units)
  }

  /** A date-shaped string splits at its two dashes into year, month and day. */
  lemma SplitShapedDate(date: string)
    requires DateShaped(date)
    ensures Split(date, '-') == [date[..4], date[5..7], date[8..]]
  {
    var year, month, day := date[..4], date[5..7], date[8..];
    assert date == year + ['-'] + (month + ['-'] + day);
    assert '-' !in year && '-' !in month && '-' !in day;
    SplitNoSeparator(day, '-');
    SplitAt(month, '-', day);
    SplitAt(year, '-', month + ['-'] + day);
  }

  /** `parseInt(s, 10).toString()` of two decimal digits. */
  lemma TwoDigitText(s: string)
    requires |s| == 2 && IsDecimalDigit(s[0]) && IsDecimalDigit(s[1])
    ensures NumberString(ParseInt(s, Ten)) == DecimalString(TwoDigitValue(s[0], s[1]))
  {
    ParseDecimalDigits(s);
    assert s[..|s| - 1] == [s[0]] && [s[0]][..0] == [];
    assert DigitsValue([s[0]], 10) == DigitValue(s[0]);
    assert DigitsValue(s, 10) == DigitsValue([s[0]], 10) * 10 + DigitValue(s[1]);
  }

  /** For a date-shaped string the library is asked for the month and the day as plain
      decimal numbers read from positions 5-6 and 8-9: leading zeros are dropped, the
      year is not used, and the values are not range-checked. */
  lemma DateQueryOfShaped(date: string)
    requires DateShaped(date)
    ensures DateQuery(date)
      == DayQuery(DecimalString(TwoDigitValue(date[5], date[6])), DecimalString(TwoDigitValue(date[8], date[9])))
  {
    SplitShapedDate(date);
    var month, day := date[5..7], date[8..];
    TwoDigitText(month);
    TwoDigitText(day);
  }

  /** Dates differing only in the year make the same query. */
  lemma YearIgnored(date1: string, date2: string)
    requires DateShaped(date1) && DateShaped(date2) && date1[4..] == date2[4..]
    ensures DateQuery(date1) == DateQuery(date2)
  {
    DateQueryOfShaped(date1);
    DateQueryOfShaped(date2);
    assert date1[5] == date1[4..][1] == date2[5];
    assert date1[6] == date1[4..][2] == date2[6];
    assert date1[8] == date1[4..][4] == date2[8];
    assert date1[9] == date1[4..][5] == date2[9];
  }

  /** July the 4th is asked for as month "7", day "4". */
  lemma DateQueryDropsLeadingZeros()
    ensures DateQuery("2024-07-04") == DayQuery("7", "4")
  {
    var date := "2024-07-04";
    assert DateShaped(date);
    DateQueryOfShaped(date);
    assert TwoDigitValue(date[5], date[6]) == 7 && TwoDigitValue(date[8], date[9]) == 4;
    assert DecimalString(7) == "7" && DecimalString(4) == "4";
  }

  /** "2024-99-00" is date-shaped, so it passes validation, and month 99, day 0 are
      asked for as they are. */
  lemma DateQueryNotRangeChecked()
    ensures DateShaped("2024-99-00")
    ensures DateQuery("2024-99-00") == DayQuery("99", "0")
  {
    var date := "2024-99-00";
    assert DateShaped(date);
    DateQueryOfShaped(date);
    assert TwoDigitValue(date[5], date[6]) == 99 && TwoDigitValue(date[8], date[9]) == 0;
    assert DecimalString(99) == "99" && DecimalString(0) == "0";
  }

  // ---------------------------------------------------------------------------
  // The image quota

  /** An absent or falsy limit (undefined, null, false, 0, "") means 50. */
  lemma MaxImagesDefault(limit: JsValue)
    requires limit in {JUndefined, JNull, JBool(false), JNumber(0), JString("")}
    ensures MaxImages(limit) == Ok(Num(50))
  {
  }

  /** A non-zero number is taken as it is, negative ones included. */
  lemma MaxImagesOfNumber(n: int)
    requires n != 0
    ensures MaxImages(JNumber(n)) == Ok(Num(n))
  {
    ParseDecimalString(n, Unspecified);
  }

  // A string limit goes through parseInt without a radix.

  /** "0" is a quota of zero, not the default. */
  lemma MaxImagesOfZeroText()
    ensures MaxImages(JString("0")) == Ok(Num(0))
  {
    assert |JString("0").s| == 1 && Truthy(JString("0"));
    assert ParseInt("0", Unspecified) == Num(0) by {
      ParseDigitRun("0", Unspecified);
      assert "0"[..0] == [] && DigitsValue("0", 10) == 0;
    }
  }

  /** Text that, after leading whitespace and an optional sign, does not start with a
      digit is NaN. */
  lemma MaxImagesOfWords(s: string)
    requires s != ""
    requires var t := TrimStart(s);
      var u := if |t| > 0 && (t[0] == '+' || t[0] == '-') then t[1..] else t;
      u == [] || !IsDecimalDigit(u[0])
    ensures MaxImages(JString(s)) == Ok(NaN)
  {
    ParseIntWithoutDigits(s, Unspecified);
  }

  /** A "0x" prefix reads hexadecimal. */
  lemma MaxImagesOfHexText()
    ensures MaxImages(JString("0x10")) == Ok(Num(16))
  {
    HexSixteen();
  }

  lemma HexSixteen()
    ensures ParseInt("0x10", Unspecified) == Num(16)
  {
    assert !IsWhitespace('0') && TrimStart("0x10") == "0x10";
    assert HasHexPrefix("0x10") && "0x10"[2..] == "10";
    assert DigitPrefix("", 16) == "";
    assert DigitPrefix("0", 16) == "0";
    assert DigitPrefix("10", 16) == "10";
    assert DigitsValue("10", 16) == 16;
  }

  /** Text after the leading digits is ignored. */
  lemma MaxImagesOfTrailingText()
    ensures MaxImages(JString("7px")) == Ok(Num(7))
  {
    assert !IsWhitespace('7') && TrimStart("7px") == "7px";
    DigitPrefixStops("7", "px", 10);
    assert "7px" == "7" + "px";
    assert !HasHexPrefix("7px");
    assert DigitsValue("7", 10) == 7;
  }

  /** A limit of "0" or of text that is not a number collects nothing and makes no
      images() call, while the number 0 asks for the default 50. */
  lemma TextualZeroLimitCollectsNothing(args: JsValue, wiki: Wiki, page: WikiPage)
    requires IsValidGetImagesForPageArgs(args) && wiki.page(Prop(args, "title").s) == Ok(page)
    requires Prop(args, "limit") == JString("0") || Prop(args, "limit") == JString("abc")
    ensures GetImagesForPageOutcome(args, wiki) == Result(Images([]), false)
  {
    var limit := Prop(args, "limit");
    if limit == JString("0") {
      MaxImagesOfZeroText();
    } else {
      assert !IsWhitespace('a') && TrimStart("abc") == "abc";
      MaxImagesOfWords("abc");
    }
    NoCallsWithoutQuota(MaxImages(limit).value, page.images);
  }

}

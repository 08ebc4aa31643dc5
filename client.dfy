/** The example client: it sends `tools/list`, then answers each reply line of the server
    by storing the reply's payload in its `results` and sending the next tool call, in the
    fixed order onThisDay, findPage, getPage, getImagesForPage. JSON.parse is a parameter;
    "today" is an input. */
module ExampleClient {
  import opened Js
  import opened Validation
  import ToolServer

  // ---------------------------------------------------------------------------
  // Requests

  /** A JSON-RPC request the client writes to the server's standard input: `tools/list`
      with empty params, or `tools/call` of a tool with its one argument. */
  datatype Request =
    | ListToolsCall(id: nat)
    | ToolCallRequest(id: nat, tool: ToolServer.Tool, argument: string)

  /** The request's `params.arguments`: the argument under the key the tool reads. */
  function Arguments(q: Request): JsValue
    requires q.ToolCallRequest?
  {
    JObject(map[ToolServer.RequiredKey(q.tool) := JString(q.argument)])
  }

  const ListToolsRequest := ListToolsCall(1)

  const Einstein := "Albert Einstein"

  /** The parts of `new Date()` the client reads: `getFullYear()`, `getMonth()` (0-based)
      and `getDate()`. */
  datatype Today = Today(year: int, monthIndex: int, date: int)

  predicate ValidToday(d: Today) {
    0 <= d.monthIndex <= 11 && 1 <= d.date <= 31
  }

  /** `formattedDate`: the year, then the month and the day zero-padded to two digits. */
  function FormattedDate(d: Today): string {
    DecimalString(d.year) + "-" + PadStartZero(DecimalString(d.monthIndex + 1), 2)
      + "-" + PadStartZero(DecimalString(d.date), 2)
  }

  /** The request sent in answer to the reply with id `k`; `date` is the formatted date of
      the day on which the reply with id 1 arrives. */
  function NextRequest(k: int, date: string): (q: Request)
    requires 1 <= k <= 4
    ensures q.id == k + 1 && q.ToolCallRequest?
  {
    if k == 1 then ToolCallRequest(2, ToolServer.OnThisDay, date)
    else if k == 2 then ToolCallRequest(3, ToolServer.FindPage, Einstein)
    else if k == 3 then ToolCallRequest(4, ToolServer.GetPage, Einstein)
    else ToolCallRequest(5, ToolServer.GetImagesForPage, Einstein)
  }

  // ---------------------------------------------------------------------------
  // The reply handler as a function of the client's state

  /** The module-level `results` object. */
  datatype Results = Results(tools: JsValue, onThisDay: JsValue, findPage: JsValue,
                             getPage: JsValue, getImagesForPage: JsValue)

  const InitialResults := Results(JArray([]), JNull, JNull, JNull, JNull)

  /** What the client holds and what it has written so far. */
  datatype ClientState = ClientState(results: Results, sent: seq<Request>)

  /** The state once the script has started: nothing stored, `tools/list` sent. */
  const Started := ClientState(InitialResults, [ListToolsRequest])

  /** `results.tools.map((t) => t.name).join(", ")` succeeds: `tools` is an array none of
      whose elements is null or undefined, and every name is null, undefined or a value
      `String` can convert. */
  predicate ToolNamesReadable(tools: JsValue) {
    && tools.JArray?
    && forall i :: 0 <= i < |tools.elems| ==>
         && !IsNullish(tools.elems[i])
         && (IsNullish(Prop(tools.elems[i], "name")) || Convertible(Prop(tools.elems[i], "name")))
  }

  /** `JSON.parse(content[0].text)`; None when reading `[0]` or `.text` throws, when the
      text cannot be converted to a string, or when the parse throws. */
  function ParsedContent(content: JsValue, parse: string -> Option<JsValue>): Option<JsValue> {
    match Element0(content)
    case None => None
    case Some(first) =>
      match Member(first, "text")
      case None => None
      case Some(text) =>
        match ToString(text)
        case None => None
        case Some(source) => parse(source)
  }

  /** The field of `results` that the reply with id `k` fills. */
  function Store(r: Results, k: int, v: JsValue): Results
    requires 2 <= k <= 5
  {
    if k == 2 then r.(onThisDay := v)
    else if k == 3 then r.(findPage := v)
    else if k == 4 then r.(getPage := v)
    else r.(getImagesForPage := v)
  }

  /** The parsed reply on a line, when the line is not blank and parses. */
  function Reply(line: string, parse: string -> Option<JsValue>): Option<JsValue> {
    if Trim(line) == "" then None else parse(line)
  }

  /** The `switch (response.id)` of the line handler. */
  function Answer(s: ClientState, id: JsValue, result: JsValue, date: string,
                  parse: string -> Option<JsValue>): ClientState
  {
    if id == JNumber(1) then
      if Truthy(result) && Truthy(Prop(result, "tools")) then
        var tools := Prop(result, "tools");
        ClientState(s.results.(tools := tools),
                    if ToolNamesReadable(tools) then s.sent + [NextRequest(1, date)] else s.sent)
      else s
    else if id.JNumber? && 2 <= id.n <= 5 then
      if Truthy(result) && Truthy(Prop(result, "content")) then
        var stored := ParsedContent(Prop(result, "content"), parse);
        ClientState(if stored.Some? then Store(s.results, id.n, stored.value) else s.results,
                    if id.n < 5 then s.sent + [NextRequest(id.n, date)] else s.sent)
      else s
    else s
  }

  /** The `line` handler: a blank line, a line that is not JSON, and a reply that is null
      or undefined (reading its `id` throws) leave everything as it was. */
  function React(s: ClientState, line: string, date: string, parse: string -> Option<JsValue>): ClientState {
    match Reply(line, parse)
    case None => s
    case Some(response) =>
      match Member(response, "id")
      case None => s
      case Some(id) => Answer(s, id, Prop(response, "result"), date, parse)
  }

  /** The handler run on each line in turn. */
  function Replay(s: ClientState, lines: seq<string>, date: string, parse: string -> Option<JsValue>): ClientState
    decreases |lines|
  {
    if lines == [] then s else Replay(React(s, lines[0], date, parse), lines[1..], date, parse)
  }

  // ---------------------------------------------------------------------------
  // The client object

  class Client {
    var tools: JsValue
    var onThisDay: JsValue
    var findPage: JsValue
    var getPage: JsValue
    var getImagesForPage: JsValue
    /** The requests written to the server so far. */
    var sent: seq<Request>

    function State(): ClientState
      reads this
    {
      ClientState(Results(tools, onThisDay, findPage, getPage, getImagesForPage), sent)
    }

    /** Module start-up: empty results, and the `tools/list` request sent. */
    constructor()
      ensures State() == Started
    {
      tools := JArray([]);
      onThisDay := JNull;
      findPage := JNull;
      getPage := JNull;
      getImagesForPage := JNull;
      sent := [ListToolsRequest];
    }

    /** `rl.on("line", ...)`: handles one line the server wrote. */
    method OnLine(line: string, today: Today, parse: string -> Option<JsValue>)
      modifies this
      ensures State() == React(old(State()), line, FormattedDate(today), parse)
    {
      if Trim(line) == "" {
        return;
      }
      var parsed := parse(line);
      if parsed.None? {
        return;
      }
      var id := Member(parsed.value, "id");
      if id.None? {
        return;
      }
      ReactAnswers(State(), line, FormattedDate(today), parse, parsed.value);
      AnswerReply(id.value, Prop(parsed.value, "result"), today, parse);
    }

    /** The `switch (response.id)` of the line handler. */
    method AnswerReply(id: JsValue, result: JsValue, today: Today, parse: string -> Option<JsValue>)
      modifies this
      ensures State() == Answer(old(State()), id, result, FormattedDate(today), parse)
    {
      if id == JNumber(1) {
        if Truthy(result) && Truthy(Prop(result, "tools")) {
          tools := Prop(result, "tools");
          if ToolNamesReadable(tools) {
            var date := FormattedDate(today);
            sent := sent + [NextRequest(1, date)];
          }
        }
      } else if id.JNumber? && 2 <= id.n <= 5 {
        var k := id.n;
        if Truthy(result) && Truthy(Prop(result, "content")) {
          var stored := ParsedContent(Prop(result, "content"), parse);
          if stored.Some? {
            StoreField(k, stored.value);
          }
          if k < 5 {
            sent := sent + [NextRequest(k, FormattedDate(today))];
          }
        }
      }
    }

    /** `results.onThisDay = ...` and its siblings for the replies with ids 2 to 5. */
    method StoreField(k: int, v: JsValue)
      requires 2 <= k <= 5
      modifies this
      ensures State() == ClientState(Store(old(State()).results, k, v), old(sent))
    {
      if k == 2 {
        onThisDay := v;
      } else if k == 3 {
        findPage := v;
      } else if k == 4 {
        getPage := v;
      } else {
        getImagesForPage := v;
      }
    }
  }

  // ---------------------------------------------------------------------------
  // Properties of the reply handler

  /** A line sends at most one request, and what was sent stays sent. */
  lemma AtMostOneRequestPerLine(s: ClientState, line: string, date: string, parse: string -> Option<JsValue>)
    ensures var t := React(s, line, date, parse);
      |s.sent| <= |t.sent| <= |s.sent| + 1 && t.sent[..|s.sent|] == s.sent
  {
    var t := React(s, line, date, parse);
    RequestAnswersReply(s, line, date, parse);
    if |t.sent| > |s.sent| {
      SnocKeepsPrefix(s.sent, NextRequest(Prop(Reply(line, parse).value, "id").n, date));
    } else {
      assert t.sent == s.sent;
    }
  }

  lemma SnocKeepsPrefix<T>(xs: seq<T>, x: T)
    ensures (xs + [x])[..|xs|] == xs
  {
  }

  /** A request is sent only in answer to a reply with an id k in 1..4, and it is the
      request that follows k in the chain. */
  lemma RequestAnswersReply(s: ClientState, line: string, date: string, parse: string -> Option<JsValue>)
    ensures var t := React(s, line, date, parse);
      |t.sent| > |s.sent| ==>
        && Reply(line, parse).Some?
        && var id := Prop(Reply(line, parse).value, "id");
        && id.JNumber? && 1 <= id.n <= 4
        && t.sent == s.sent + [NextRequest(id.n, date)]
  {
  }

  /** Lines that change nothing: blank or unparsable lines, null or undefined replies,
      replies whose id is not one of 1..5, replies without a truthy `result`, and replies
      whose `result` has no truthy `tools` (id 1) or `content` (ids 2..5). */
  lemma IgnoredLines(s: ClientState, line: string, date: string, parse: string -> Option<JsValue>)
    ensures Reply(line, parse).None? ==> React(s, line, date, parse) == s
    ensures Reply(line, parse).Some? && IsNullish(Reply(line, parse).value) ==> React(s, line, date, parse) == s
    ensures Reply(line, parse).Some? &&
      (var id := Prop(Reply(line, parse).value, "id"); !(id.JNumber? && 1 <= id.n <= 5))
      ==> React(s, line, date, parse) == s
    ensures Reply(line, parse).Some? && !Truthy(Prop(Reply(line, parse).value, "result"))
      ==> React(s, line, date, parse) == s
    ensures Reply(line, parse).Some? &&
      (var response := Reply(line, parse).value;
       !Truthy(Prop(Prop(response, "result"), if Prop(response, "id") == JNumber(1) then "tools" else "content")))
      ==> React(s, line, date, parse) == s
  {
  }

  /** A content reply for ids 2..4 whose text cannot be parsed leaves `results` as it was,
      yet the next request is still sent. */
  lemma UnparsableContentStillAdvances(s: ClientState, line: string, date: string,
                                       parse: string -> Option<JsValue>, k: int)
    requires 2 <= k <= 4 && Reply(line, parse).Some?
    requires var response := Reply(line, parse).value;
      && Prop(response, "id") == JNumber(k)
      && Truthy(Prop(response, "result"))
      && Truthy(Prop(Prop(response, "result"), "content"))
      && ParsedContent(Prop(Prop(response, "result"), "content"), parse).None?
    ensures React(s, line, date, parse) == ClientState(s.results, s.sent + [NextRequest(k, date)])
  {
  }

  /** A tool list whose names cannot be read is stored, but the chain stops there. */
  lemma UnreadableToolsStall(s: ClientState, line: string, date: string, parse: string -> Option<JsValue>)
    requires Reply(line, parse).Some?
    requires var response := Reply(line, parse).value;
      && Prop(response, "id") == JNumber(1)
      && Truthy(Prop(response, "result"))
      && Truthy(Prop(Prop(response, "result"), "tools"))
      && !ToolNamesReadable(Prop(Prop(response, "result"), "tools"))
    ensures React(s, line, date, parse)
      == ClientState(s.results.(tools := Prop(Prop(Reply(line, parse).value, "result"), "tools")), s.sent)
  {
  }

  /** A tool whose name is an object with its own `toString` key makes `join` throw, so
      the list counts as unreadable and the chain stops after storing it. */
  lemma UnconvertibleToolNameUnreadable()
    ensures !ToolNamesReadable(JArray([JObject(map["name" := JObject(map["toString" := JNumber(1)])])]))
  {
    var name := JObject(map["toString" := JNumber(1)]);
    var tool := JObject(map["name" := name]);
    assert Prop(tool, "name") == name;
    assert !Convertible(name);
    assert JArray([tool]).elems[0] == tool;
  }

  // ---------------------------------------------------------------------------
  // The five replies of a successful run

  /** `{"id": 1, "result": {"tools": ts}}` */
  function ToolsReply(ts: seq<JsValue>): JsValue {
    JObject(map["id" := JNumber(1), "result" := JObject(map["tools" := JArray(ts)])])
  }

  /** `{"id": k, "result": {"content": [{"type": "text", "text": text}]}}` */
  function ContentReply(k: int, text: string): JsValue {
    JObject(map["id" := JNumber(k),
                "result" := JObject(map["content" := JArray([JObject(map["type" := JString("text"),
                                                                         "text" := JString(text)])])])])
  }

  lemma ReplyKeys()
    ensures "id" != "result" && "type" != "text"
  {
    assert "id"[0] != "result"[0];
    assert "type"[1] != "text"[1];
  }

  /** A reply that parses to a value other than null or undefined is answered by the
      `switch` on its id. */
  lemma ReactAnswers(s: ClientState, line: string, date: string, parse: string -> Option<JsValue>,
                     response: JsValue)
    requires Reply(line, parse) == Some(response) && !IsNullish(response)
    ensures React(s, line, date, parse)
      == Answer(s, Prop(response, "id"), Prop(response, "result"), date, parse)
  {
  }

  /** A truthy `result.tools` whose names can be read is stored, and the onThisDay call sent. */
  lemma AnswerTools(s: ClientState, result: JsValue, date: string, parse: string -> Option<JsValue>)
    requires Truthy(result) && Truthy(Prop(result, "tools")) && ToolNamesReadable(Prop(result, "tools"))
    ensures Answer(s, JNumber(1), result, date, parse)
      == ClientState(s.results.(tools := Prop(result, "tools")), s.sent + [NextRequest(1, date)])
  {
  }

  /** A truthy `result.content` whose text parses to v fills the field of reply k, and the
      next call is sent. */
  lemma AnswerContent(s: ClientState, k: int, result: JsValue, date: string, parse: string -> Option<JsValue>,
                      v: JsValue)
    requires 2 <= k <= 5
    requires Truthy(result) && Truthy(Prop(result, "content"))
    requires ParsedContent(Prop(result, "content"), parse) == Some(v)
    ensures Answer(s, JNumber(k), result, date, parse)
      == ClientState(Store(s.results, k, v), if k < 5 then s.sent + [NextRequest(k, date)] else s.sent)
  {
  }

  lemma ToolsReplyStep(s: ClientState, line: string, date: string, parse: string -> Option<JsValue>,
                       ts: seq<JsValue>)
    requires Reply(line, parse) == Some(ToolsReply(ts))
    requires ToolNamesReadable(JArray(ts))
    ensures React(s, line, date, parse)
      == ClientState(s.results.(tools := JArray(ts)), s.sent + [NextRequest(1, date)])
  {
    ReplyKeys();
    var response := ToolsReply(ts);
    var result := JObject(map["tools" := JArray(ts)]);
    assert Prop(response, "id") == JNumber(1);
    assert Prop(response, "result") == result;
    assert Prop(result, "tools") == JArray(ts);
    ReactAnswers(s, line, date, parse, response);
    AnswerTools(s, result, date, parse);
  }

  /** What the handler reads from a content reply: its id, a truthy `result.content`, and
      the text of the first content item. */
  lemma ContentReplyFields(k: int, text: string, parse: string -> Option<JsValue>)
    ensures var response := ContentReply(k, text);
      && Prop(response, "id") == JNumber(k)
      && Truthy(Prop(response, "result"))
      && Truthy(Prop(Prop(response, "result"), "content"))
      && ParsedContent(Prop(Prop(response, "result"), "content"), parse) == parse(text)
  {
    ReplyKeys();
    var first := JObject(map["type" := JString("text"), "text" := JString(text)]);
    var content := JArray([first]);
    var result := JObject(map["content" := content]);
    var response := ContentReply(k, text);
    assert Prop(response, "id") == JNumber(k);
    assert Prop(response, "result") == result;
    assert Prop(result, "content") == content;
    assert Prop(first, "text") == JString(text);
  }

  lemma ContentReplyStep(s: ClientState, line: string, date: string, parse: string -> Option<JsValue>,
                         k: int, text: string, v: JsValue)
    requires 2 <= k <= 5
    requires Reply(line, parse) == Some(ContentReply(k, text)) && parse(text) == Some(v)
    ensures React(s, line, date, parse)
      == ClientState(Store(s.results, k, v), if k < 5 then s.sent + [NextRequest(k, date)] else s.sent)
  {
    var response := ContentReply(k, text);
    ContentReplyFields(k, text, parse);
    ReactAnswers(s, line, date, parse, response);
    AnswerContent(s, k, Prop(response, "result"), date, parse, v);
  }

  /** Replaying lines is handling the first, then replaying the rest. */
  lemma ReplayStep(s: ClientState, lines: seq<string>, date: string, parse: string -> Option<JsValue>,
                   t: ClientState)
    requires |lines| > 0 && React(s, lines[0], date, parse) == t
    ensures Replay(s, lines, date, parse) == Replay(t, lines[1..], date, parse)
  {
  }

  /** Line k of a successful run: the tool list for k = 1, the content of reply k for
      k in 2..5, whose text parses. */
  ghost predicate ChainReply(line: string, k: nat, parse: string -> Option<JsValue>,
                             ts: seq<JsValue>, texts: seq<string>, values: seq<JsValue>)
    requires 1 <= k <= 5 && |texts| == 4 && |values| == 4
  {
    if k == 1 then Reply(line, parse) == Some(ToolsReply(ts))
    else Reply(line, parse) == Some(ContentReply(k, texts[k - 2])) && parse(texts[k - 2]) == Some(values[k - 2])
  }

  /** The tool calls of a successful run, with ids 2 to 5. */
  function ChainRequests(date: string): seq<Request> {
    [NextRequest(1, date), NextRequest(2, date), NextRequest(3, date), NextRequest(4, date)]
  }

  /** The state after the first j replies of a successful run: the fields of replies 1..j
      filled, and `tools/list` followed by the first j tool calls sent (four at most). */
  function ChainState(j: nat, date: string, ts: seq<JsValue>, values: seq<JsValue>): ClientState
    requires j <= 5 && |values| == 4
  {
    ClientState(Results(if j >= 1 then JArray(ts) else JArray([]),
                        if j >= 2 then values[0] else JNull,
                        if j >= 3 then values[1] else JNull,
                        if j >= 4 then values[2] else JNull,
                        if j >= 5 then values[3] else JNull),
                [ListToolsRequest] + ChainRequests(date)[..if j < 4 then j else 4])
  }

  lemma WholePrefix<T>(xs: seq<T>)
    ensures xs[..|xs|] == xs
  {
  }

  lemma SnocPrefix<T>(xs: seq<T>, first: T, j: nat)
    requires j < |xs|
    ensures [first] + xs[..j + 1] == ([first] + xs[..j]) + [xs[j]]
  {
    assert xs[..j + 1] == xs[..j] + [xs[j]];
  }

  /** The state after j + 1 replies is the state after j with reply j + 1 answered. */
  lemma ChainStateNext(j: nat, date: string, ts: seq<JsValue>, values: seq<JsValue>)
    requires j < 5 && |values| == 4
    ensures var s := ChainState(j, date, ts, values);
      ChainState(j + 1, date, ts, values)
        == if j == 0 then ClientState(s.results.(tools := JArray(ts)), s.sent + [NextRequest(1, date)])
           else ClientState(Store(s.results, j + 1, values[j - 1]),
                            if j + 1 < 5 then s.sent + [NextRequest(j + 1, date)] else s.sent)
  {
    if j < 4 {
      SnocPrefix(ChainRequests(date), ListToolsRequest, j);
    }
  }

  /** Reply j + 1 takes the run from its state after j replies to the next one. */
  lemma ChainStep(j: nat, line: string, date: string, parse: string -> Option<JsValue>,
                  ts: seq<JsValue>, texts: seq<string>, values: seq<JsValue>)
    requires j < 5 && |texts| == 4 && |values| == 4
    requires ToolNamesReadable(JArray(ts))
    requires ChainReply(line, j + 1, parse, ts, texts, values)
    ensures React(ChainState(j, date, ts, values), line, date, parse) == ChainState(j + 1, date, ts, values)
  {
    var s := ChainState(j, date, ts, values);
    ChainStateNext(j, date, ts, values);
    if j == 0 {
      ToolsReplyStep(s, line, date, parse, ts);
    } else {
      ContentReplyStep(s, line, date, parse, j + 1, texts[j - 1], values[j - 1]);
    }
  }

  /** Lines that take each state of a sequence to the next one replay from the first
      state to the last. */
  lemma {:induction false} ReplayThrough(states: seq<ClientState>, lines: seq<string>, date: string,
                                         parse: string -> Option<JsValue>)
    requires |states| == |lines| + 1
    requires forall i :: 0 <= i < |lines| ==> React(states[i], lines[i], date, parse) == states[i + 1]
    ensures Replay(states[0], lines, date, parse) == states[|lines|]
    decreases |lines|
  {
    if lines != [] {
      ReplayStep(states[0], lines, date, parse, states[1]);
      ReplayThrough(states[1..], lines[1..], date, parse);
    }
  }

  /** The five replies of a successful run take the client from its start to ChainState(5). */
  lemma ChainReplays(lines: seq<string>, date: string, parse: string -> Option<JsValue>,
                     ts: seq<JsValue>, texts: seq<string>, values: seq<JsValue>)
    requires |lines| == 5 && |texts| == 4 && |values| == 4
    requires ToolNamesReadable(JArray(ts))
    requires forall i :: 0 <= i < 5 ==> ChainReply(lines[i], i + 1, parse, ts, texts, values)
    ensures Replay(Started, lines, date, parse) == ChainState(5, date, ts, values)
  {
    var states := seq(6, j requires 0 <= j <= 5 => ChainState(j, date, ts, values));
    forall i | 0 <= i < 5
      ensures React(states[i], lines[i], date, parse) == states[i + 1]
    {
      ChainStep(i, lines[i], date, parse, ts, texts, values);
    }
    ReplayThrough(states, lines, date, parse);
    assert states[0] == Started;
  }

  lemma ChainEnd(date: string, ts: seq<JsValue>, values: seq<JsValue>)
    requires |values| == 4
    ensures var final := ChainState(5, date, ts, values);
      && final.results == Results(JArray(ts), values[0], values[1], values[2], values[3])
      && final.sent == [ListToolsRequest] + ChainRequests(date)
  {
    WholePrefix(ChainRequests(date));
  }

  lemma IdsAscend(first: Request, rs: seq<Request>)
    requires first.id == 1 && |rs| == 4
    requires rs[0].id == 2 && rs[1].id == 3 && rs[2].id == 4 && rs[3].id == 5
    ensures var sent := [first] + rs;
      |sent| == 5 && forall i :: 0 <= i < |sent| ==> sent[i].id == i + 1
  {
    var sent := [first] + rs;
    forall i | 0 <= i < |sent| ensures sent[i].id == i + 1 {
      if i > 0 { assert sent[i] == rs[i - 1]; }
    }
  }

  /** The requests of a full run carry the ids 1 to 5, in order. */
  lemma ChainIds(date: string)
    ensures var sent := [ListToolsRequest] + ChainRequests(date);
      |sent| == 5 && forall i :: 0 <= i < |sent| ==> sent[i].id == i + 1
  {
    IdsAscend(ListToolsRequest, ChainRequests(date));
  }

  /** Five well-formed replies in order fill every field of `results` and make the client
      send the requests with ids 1 to 5, in order. */
  lemma FullChain(lines: seq<string>, date: string, parse: string -> Option<JsValue>,
                  ts: seq<JsValue>, texts: seq<string>, values: seq<JsValue>)
    requires |lines| == 5 && |texts| == 4 && |values| == 4
    requires ToolNamesReadable(JArray(ts))
    requires forall i :: 0 <= i < 5 ==> ChainReply(lines[i], i + 1, parse, ts, texts, values)
    ensures var final := Replay(Started, lines, date, parse);
      && final.results == Results(JArray(ts), values[0], values[1], values[2], values[3])
      && final.sent == [ListToolsRequest] + ChainRequests(date)
      && forall i :: 0 <= i < |final.sent| ==> final.sent[i].id == i + 1
  {
    ChainReplays(lines, date, parse, ts, texts, values);
    ChainEnd(date, ts, values);
    ChainIds(date);
  }

  /** Two lines replay through the state the first one leads to. */
  lemma ReplayTwo(s: ClientState, first: string, second: string, date: string,
                  parse: string -> Option<JsValue>, s1: ClientState, s2: ClientState)
    requires React(s, first, date, parse) == s1 && React(s1, second, date, parse) == s2
    ensures Replay(s, [first, second], date, parse) == s2
  {
    ReplayStep(s, [first, second], date, parse, s1);
    assert [first, second][1..] == [second];
    ReplayStep(s1, [second], date, parse, s2);
    assert [second][1..] == [];
  }

  /** Nothing guards against a repeated reply: a repeated onThisDay reply sends the findPage
      request twice. */
  lemma DuplicateReplyResends(s: ClientState, line: string, date: string, parse: string -> Option<JsValue>,
                              text: string, v: JsValue)
    requires Reply(line, parse) == Some(ContentReply(2, text)) && parse(text) == Some(v)
    ensures Replay(s, [line, line], date, parse).sent == s.sent + [NextRequest(2, date), NextRequest(2, date)]
  {
    var q := NextRequest(2, date);
    var s1 := ClientState(Store(s.results, 2, v), s.sent + [q]);
    var s2 := ClientState(Store(s1.results, 2, v), s1.sent + [q]);
    ContentReplyStep(s, line, date, parse, 2, text, v);
    ContentReplyStep(s1, line, date, parse, 2, text, v);
    ReplayTwo(s, line, line, date, parse, s1, s2);
    assert s2.sent == s.sent + [q, q];
  }

  // ---------------------------------------------------------------------------
  // The formatted date and the server's date validator

  /** `String(n).padStart(2, "0")` of a number below 100: two digits worth n. */
  lemma PaddedTwoDigits(n: nat)
    requires n < 100
    ensures var p := PadStartZero(DecimalString(n), 2);
      |p| == 2 && IsDecimalDigit(p[0]) && IsDecimalDigit(p[1]) && ToolServer.TwoDigitValue(p[0], p[1]) == n
  {
    if n >= 10 {
      assert NatDigits(n) == NatDigits(n / 10) + [DigitChar(n % 10)];
    }
  }

  /** The year renders as four digits exactly for years 1000 to 9999. */
  lemma YearText(year: int)
    ensures var y := DecimalString(year);
      (|y| == 4 && forall i :: 0 <= i < 4 ==> IsDecimalDigit(y[i])) <==> 1000 <= year <= 9999
  {
    if year >= 0 {
      NatDigitsShape(year);
      NatDigitsLength(year);
    } else {
      assert DecimalString(year)[0] == '-';
    }
  }

  /** Joining y, m and day with dashes, where m and day are two digits, is date-shaped
      exactly when y is four digits. */
  lemma ShapedJoin(y: string, m: string, day: string)
    requires |m| == 2 && IsDecimalDigit(m[0]) && IsDecimalDigit(m[1])
    requires |day| == 2 && IsDecimalDigit(day[0]) && IsDecimalDigit(day[1])
    ensures DateShaped(y + "-" + m + "-" + day)
      <==> |y| == 4 && forall i :: 0 <= i < 4 ==> IsDecimalDigit(y[i])
  {
    var s := y + "-" + m + "-" + day;
    if |y| == 4 {
      assert s[..4] == y && s[4] == '-' && s[5] == m[0] && s[6] == m[1];
      assert s[7] == '-' && s[8] == day[0] && s[9] == day[1];
      assert forall i :: 0 <= i < 4 ==> s[i] == y[i];
    }
  }

  /** The client's date passes the onThisDay validator's pattern exactly when the year
      has four digits. */
  lemma FormattedDateShaped(d: Today)
    requires ValidToday(d)
    ensures DateShaped(FormattedDate(d)) <==> 1000 <= d.year <= 9999
  {
    PaddedTwoDigits(d.monthIndex + 1);
    PaddedTwoDigits(d.date);
    YearText(d.year);
    ShapedJoin(DecimalString(d.year), PadStartZero(DecimalString(d.monthIndex + 1), 2),
               PadStartZero(DecimalString(d.date), 2));
  }

  /** The server splits a date joined from four year digits and two two-digit fields back
      into the values of those fields. */
  lemma JoinedQuery(y: string, m: string, day: string)
    requires |y| == 4 && forall i :: 0 <= i < 4 ==> IsDecimalDigit(y[i])
    requires |m| == 2 && IsDecimalDigit(m[0]) && IsDecimalDigit(m[1])
    requires |day| == 2 && IsDecimalDigit(day[0]) && IsDecimalDigit(day[1])
    ensures ToolServer.DateQuery(y + "-" + m + "-" + day)
      == ToolServer.DayQuery(DecimalString(ToolServer.TwoDigitValue(m[0], m[1])),
                             DecimalString(ToolServer.TwoDigitValue(day[0], day[1])))
  {
    var s := y + "-" + m + "-" + day;
    ShapedJoin(y, m, day);
    assert s[5] == m[0] && s[6] == m[1] && s[8] == day[0] && s[9] == day[1];
    ToolServer.DateQueryOfShaped(s);
  }

  /** For a four-digit year the server reads back the month (1-based) and the day as
      plain decimals, the padding zeros gone. */
  lemma FormattedDateQuery(d: Today)
    requires ValidToday(d) && 1000 <= d.year <= 9999
    ensures ToolServer.DateQuery(FormattedDate(d))
      == ToolServer.DayQuery(DecimalString(d.monthIndex + 1), DecimalString(d.date))
  {
    PaddedTwoDigits(d.monthIndex + 1);
    PaddedTwoDigits(d.date);
    YearText(d.year);
    JoinedQuery(DecimalString(d.year), PadStartZero(DecimalString(d.monthIndex + 1), 2),
                PadStartZero(DecimalString(d.date), 2));
  }

  /** Whether the server's validator for the tool a request calls accepts its arguments. */
  predicate Accepted(q: Request) {
    q.ToolCallRequest? ==> ToolServer.Accepts(q.tool, Arguments(q))
  }

  lemma EinsteinNotBlank()
    ensures Trim(Einstein) != ""
  {
    TrimNonEmpty(Einstein);
    assert !IsWhitespace(Einstein[0]);
  }

  lemma FormattedDateAccepted(today: Today)
    requires ValidToday(today)
    ensures Accepted(NextRequest(1, FormattedDate(today))) <==> 1000 <= today.year <= 9999
  {
    var args := Arguments(NextRequest(1, FormattedDate(today)));
    assert args == JObject(map["date" := JString(FormattedDate(today))]);
    FormattedDateShaped(today);
    OnThisDayArgsAccepted(args);
  }

  lemma EinsteinArgsAccepted(key: string)
    ensures HasNonBlankString(JObject(map[key := JString(Einstein)]), key)
  {
    EinsteinNotBlank();
    var args := JObject(map[key := JString(Einstein)]);
    assert Prop(args, key) == JString(Einstein);
  }

  lemma EinsteinAccepted(k: int, date: string)
    requires 2 <= k <= 4
    ensures Accepted(NextRequest(k, date))
  {
    if k == 2 {
      EinsteinArgsAccepted("query");
      assert NextRequest(k, date) == ToolCallRequest(3, ToolServer.FindPage, Einstein);
    } else if k == 3 {
      EinsteinArgsAccepted("title");
      assert NextRequest(k, date) == ToolCallRequest(4, ToolServer.GetPage, Einstein);
    } else {
      EinsteinArgsAccepted("title");
      assert NextRequest(k, date) == ToolCallRequest(5, ToolServer.GetImagesForPage, Einstein);
    }
  }

  /** Every request of the chain names a listed tool whose validator accepts it, the
      onThisDay request exactly when the year has four digits. */
  lemma NextRequestAccepted(k: int, today: Today)
    requires 1 <= k <= 4 && ValidToday(today)
    ensures Accepted(NextRequest(k, FormattedDate(today))) <==> k > 1 || 1000 <= today.year <= 9999
  {
    if k == 1 {
      FormattedDateAccepted(today);
    } else {
      EinsteinAccepted(k, FormattedDate(today));
    }
  }

  /** When every request of the chain is accepted, a line keeps every request the client
      has sent accepted. */
  lemma SentStaysAccepted(s: ClientState, line: string, date: string, parse: string -> Option<JsValue>)
    requires forall k :: 1 <= k <= 4 ==> Accepted(NextRequest(k, date))
    requires forall i :: 0 <= i < |s.sent| ==> Accepted(s.sent[i])
    ensures var t := React(s, line, date, parse); forall i :: 0 <= i < |t.sent| ==> Accepted(t.sent[i])
  {
    var t := React(s, line, date, parse);
    RequestAnswersReply(s, line, date, parse);
    AtMostOneRequestPerLine(s, line, date, parse);
    if |t.sent| > |s.sent| {
      var id := Prop(Reply(line, parse).value, "id");
      assert t.sent[|s.sent|] == NextRequest(id.n, date);
    }
  }

  /** With a four-digit year, every request the client has sent is accepted by the server,
      and each line keeps it so. */
  lemma RequestsStayAccepted(s: ClientState, line: string, today: Today, parse: string -> Option<JsValue>)
    requires ValidToday(today) && 1000 <= today.year <= 9999
    requires forall i :: 0 <= i < |s.sent| ==> Accepted(s.sent[i])
    ensures var t := React(s, line, FormattedDate(today), parse); forall i :: 0 <= i < |t.sent| ==> Accepted(t.sent[i])
  {
    var date := FormattedDate(today);
    forall k | 1 <= k <= 4
      ensures Accepted(NextRequest(k, date))
    {
      NextRequestAccepted(k, today);
    }
    SentStaysAccepted(s, line, date, parse);
  }
}

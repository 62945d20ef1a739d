/** The JSON-RPC messages of the proxy, decoded field by field as the structures declare them. */
module Mcp {
  import opened Wrappers
  import opened Redaction

  const CODE_PARSE_ERROR := -32700
  const CODE_INVALID_PARAMS := -32602
  const CODE_INTERNAL_ERROR := -32603
  const CODE_UNAUTHORIZED := -32001
  const CODE_FORBIDDEN := -32002
  const CODE_RATE_LIMITED := -32003
  const CODE_UPSTREAM_ERROR := -32004

  datatype Request = Request(method_: string, params: Option<Json>)

  /** A field of type string: absent and null leave it empty, another type is an error. */
  function StringField(doc: Document, name: string): Option<string> {
    if name !in doc || doc[name].Null? then Some("")
    else if doc[name].Str? then Some(doc[name].s)
    else None
  }

  function DecodeRequest(j: Json): Option<Request> {
    match j
    case Null => Some(Request("", None))
    case Obj(doc) =>
      (match (StringField(doc, "jsonrpc"), StringField(doc, "method"))
       case (Some(_), Some(name)) => Some(Request(name, if "params" in doc then Some(doc["params"]) else None))
       case _ => None)
    case _ => None
  }

  /** The key is absent or null, or holds a string. */
  predicate Texty(doc: Document, name: string) {
    name in doc ==> doc[name].Null? || doc[name].Str?
  }

  /** The text under the key, empty when the key is absent or null. */
  predicate TextAt(doc: Document, name: string, text: string) {
    if name in doc && !doc[name].Null? then doc[name] == Str(text) else text == ""
  }

  /**
   A request object decodes exactly when its version and method, as far as present, are strings,
   whatever other keys it has.
   */
  lemma RequestDecodesIff(doc: Document)
    ensures DecodeRequest(Obj(doc)).Some? <==> Texty(doc, "jsonrpc") && Texty(doc, "method")
    ensures DecodeRequest(Obj(doc)).Some? ==>
      var request := DecodeRequest(Obj(doc)).value;
      && TextAt(doc, "method", request.method_)
      && request.params == if "params" in doc then Some(doc["params"]) else None
  {
  }

  /** The token of an Authorization header. */
  function Bearer(header: string): (r: Option<string>)
    ensures r.Some? ==> r.value != "" && header == "Bearer " + r.value
    ensures r.None? ==> forall token :: token != "" ==> header != "Bearer " + token
  {
    if "Bearer " <= header && header[7..] != "" then Some(header[7..]) else None
  }

  // ---------------------------------------------------------------- tool calls

  datatype ToolCall = ToolCall(server: string, name: string, arguments: Document)

  datatype CallError = WrongMethod | InvalidParams | MissingServer | MissingName

  function Arguments(doc: Document): Option<Document> {
    if "arguments" !in doc || doc["arguments"].Null? then Some(map[])
    else if doc["arguments"].Obj? then Some(doc["arguments"].fields)
    else None
  }

  function ParseToolCall(req: Request): (r: Result<ToolCall, CallError>)
    ensures r.Ok? ==> r.value.server != "" && r.value.name != "" && req.method_ == "tools/call"
  {
    if req.method_ != "tools/call" then Err(WrongMethod)
    else
      match req.params
      case None => Err(InvalidParams)
      case Some(Null) => Err(MissingServer)
      case Some(Obj(doc)) =>
        (match (StringField(doc, "server"), StringField(doc, "name"), Arguments(doc))
         case (Some(server), Some(name), Some(arguments)) =>
           if server == "" then Err(MissingServer)
           else if name == "" then Err(MissingName)
           else Ok(ToolCall(server, name, arguments))
         case _ => Err(InvalidParams))
      case Some(_) => Err(InvalidParams)
  }

  /** The parameters that ask for a call. */
  function CallParams(call: ToolCall): Document {
    map["server" := Str(call.server), "name" := Str(call.name), "arguments" := Obj(call.arguments)]
  }

  /** A call is read back from the parameters that ask for it, exactly when it names server and tool. */
  lemma CallRoundTrip(call: ToolCall, name: string)
    ensures ParseToolCall(Request(name, Some(Obj(CallParams(call))))) == Ok(call)
      <==> name == "tools/call" && call.server != "" && call.name != ""
  {
    var doc := CallParams(call);
    assert StringField(doc, "server") == Some(call.server);
    assert StringField(doc, "name") == Some(call.name);
    assert Arguments(doc) == Some(call.arguments);
  }

  /** The parameters name the call. */
  predicate Names(params: Document, call: ToolCall) {
    && "server" in params && params["server"] == Str(call.server) && call.server != ""
    && "name" in params && params["name"] == Str(call.name) && call.name != ""
    && (if "arguments" in params && !params["arguments"].Null? then params["arguments"] == Obj(call.arguments)
        else call.arguments == map[])
  }

  /** The body of a request that asks for the call, by its keys. */
  predicate AsksFor(body: Json, call: ToolCall) {
    && body.Obj? && Texty(body.fields, "jsonrpc")
    && "method" in body.fields && body.fields["method"] == Str("tools/call")
    && "params" in body.fields && body.fields["params"].Obj? && Names(body.fields["params"].fields, call)
  }

  lemma CallParsesIff(req: Request, call: ToolCall)
    ensures ParseToolCall(req) == Ok(call) <==>
      req.method_ == "tools/call" && req.params.Some? && req.params.value.Obj? && Names(req.params.value.fields, call)
  {
  }

  /** A body decodes to a request for the call exactly when its keys ask for it. */
  lemma AskedIff(body: Json, call: ToolCall)
    ensures DecodeRequest(body).Some? && ParseToolCall(DecodeRequest(body).value) == Ok(call) <==> AsksFor(body, call)
  {
    if body.Obj? {
      RequestDecodesIff(body.fields);
    }
    if DecodeRequest(body).Some? {
      CallParsesIff(DecodeRequest(body).value, call);
    }
  }

  /** The forwarded parameters: the server is stripped, empty arguments are omitted. */
  function CleanParams(call: ToolCall): (doc: Document)
    ensures "server" !in doc && "name" in doc && doc["name"] == Str(call.name)
  {
    if call.arguments == map[] then map["name" := Str(call.name)]
    else map["name" := Str(call.name), "arguments" := Obj(call.arguments)]
  }

  /** The downstream server reads the same call back from the forwarded parameters. */
  lemma CleanParamsKeepCall(call: ToolCall)
    requires call.name != ""
    ensures StringField(CleanParams(call), "name") == Some(call.name)
    ensures Arguments(CleanParams(call)) == Some(call.arguments)
  {
  }

  // ---------------------------------------------------------------- tool results

  function DecodeItem(j: Json): Option<ContentItem> {
    match j
    case Null => Some(ContentItem("", ""))
    case Obj(doc) =>
      (match (StringField(doc, "type"), StringField(doc, "text"))
       case (Some(kind), Some(text)) => Some(ContentItem(kind, text))
       case _ => None)
    case _ => None
  }

  function DecodeItems(items: seq<Json>): (r: Option<seq<ContentItem>>)
    ensures r.Some? ==> |r.value| == |items|
  {
    if items == [] then Some([])
    else
      match (DecodeItem(items[0]), DecodeItems(items[1..]))
      case (Some(first), Some(rest)) => Some([first] + rest)
      case _ => None
  }

  function DecodeToolResult(j: Json): Option<ToolResult> {
    match j
    case Null => Some(ToolResult([], false))
    case Obj(doc) =>
      var content :=
        if "content" !in doc || doc["content"].Null? then Some([])
        else if doc["content"].Arr? then DecodeItems(doc["content"].items)
        else None;
      var isError :=
        if "isError" !in doc || doc["isError"].Null? then Some(false)
        else if doc["isError"].Bool? then Some(doc["isError"].b)
        else None;
      (match (content, isError)
       case (Some(items), Some(flag)) => Some(ToolResult(items, flag))
       case _ => None)
    case _ => None
  }

  /** The document describes the item: type and text, each empty when absent or null. */
  predicate DescribesItem(j: Json, item: ContentItem) {
    match j
    case Null => item == ContentItem("", "")
    case Obj(doc) => TextAt(doc, "type", item.kind) && TextAt(doc, "text", item.text)
    case _ => false
  }

  ghost predicate DescribesItems(items: seq<Json>, content: seq<ContentItem>) {
    |items| == |content| && forall i :: 0 <= i < |items| ==> DescribesItem(items[i], content[i])
  }

  predicate DescribesFlag(doc: Document, isError: bool) {
    if "isError" in doc && !doc["isError"].Null? then doc["isError"] == Bool(isError) else !isError
  }

  /** The document describes the tool result, whatever other keys it has. */
  ghost predicate Describes(j: Json, r: ToolResult) {
    match j
    case Null => r == ToolResult([], false)
    case Obj(doc) =>
      && (if "content" in doc && !doc["content"].Null?
          then doc["content"].Arr? && DescribesItems(doc["content"].items, r.content) else r.content == [])
      && DescribesFlag(doc, r.isError)
    case _ => false
  }

  lemma ItemDecodesIff(j: Json, item: ContentItem)
    ensures DecodeItem(j) == Some(item) <==> DescribesItem(j, item)
  {
  }

  lemma {:induction false} ItemsDecodeIff(items: seq<Json>, content: seq<ContentItem>)
    ensures DecodeItems(items) == Some(content) <==> DescribesItems(items, content)
  {
    if items != [] && content != [] {
      ItemDecodesIff(items[0], content[0]);
      ItemsDecodeIff(items[1..], content[1..]);
      assert content == [content[0]] + content[1..];
      if DecodeItems(items) == Some(content) {
        assert DecodeItems(items[1..]).Some? && content[1..] == DecodeItems(items[1..]).value;
        forall i | 0 <= i < |items| ensures DescribesItem(items[i], content[i]) {
          assert i > 0 ==> items[i] == items[1..][i - 1] && content[i] == content[1..][i - 1];
        }
      }
    }
  }

  /** A document decodes to a tool result exactly when it describes it, and to nothing otherwise. */
  lemma ResultDecodesIff(j: Json, r: ToolResult)
    ensures DecodeToolResult(j) == Some(r) <==> Describes(j, r)
  {
    if j.Obj? && "content" in j.fields && j.fields["content"].Arr? {
      ItemsDecodeIff(j.fields["content"].items, r.content);
    }
  }

  /** An empty text and a false error flag are omitted. */
  function EncodeItem(item: ContentItem): (j: Json)
    ensures j.Obj? && j.fields.Keys == if item.text == "" then {"type"} else {"type", "text"}
  {
    if item.text == "" then Obj(map["type" := Str(item.kind)])
    else Obj(map["type" := Str(item.kind), "text" := Str(item.text)])
  }

  function EncodeItems(items: seq<ContentItem>): (r: seq<Json>)
    ensures |r| == |items|
  {
    if items == [] then [] else [EncodeItem(items[0])] + EncodeItems(items[1..])
  }

  function EncodeToolResult(r: ToolResult): (j: Json)
    ensures j.Obj? && j.fields.Keys == if r.isError then {"content", "isError"} else {"content"}
  {
    if r.isError then Obj(map["content" := Arr(EncodeItems(r.content)), "isError" := Bool(true)])
    else Obj(map["content" := Arr(EncodeItems(r.content))])
  }

  lemma {:induction false} ItemsRoundTrip(items: seq<ContentItem>)
    ensures DecodeItems(EncodeItems(items)) == Some(items)
  {
    if items != [] {
      var encoded := EncodeItems(items);
      assert encoded[0] == EncodeItem(items[0]) && encoded[1..] == EncodeItems(items[1..]);
      ItemsRoundTrip(items[1..]);
      assert DecodeItem(EncodeItem(items[0])) == Some(items[0]);
      assert [items[0]] + items[1..] == items;
    }
  }

  /** Encoding a tool result and decoding it gives the result. */
  lemma ToolResultRoundTrip(r: ToolResult)
    ensures DecodeToolResult(EncodeToolResult(r)) == Some(r)
  {
    ItemsRoundTrip(r.content);
  }

  function ToolResultOf(c: Codec, raw: string): Option<ToolResult> {
    match c.parse(raw)
    case Some(j) => DecodeToolResult(j)
    case None => None
  }

  /** A present result that decodes is redacted and encoded again; anything else passes through. */
  function Filtered(c: Codec, result: Option<string>, fields: seq<string>): Option<string> {
    if result.None? || fields == [] then result
    else
      match ToolResultOf(c, result.value)
      case Some(r) => Some(c.print_(EncodeToolResult(Redacted(c, r, fields))))
      case None => result
  }

  /**
   Two downstream results that decode to tool results differing only in redacted fields leave the
   proxy as the same text, even when they differ in fields a tool result does not have.
   */
  lemma FilteredNoninterference(c: Codec, a: string, b: string, fields: seq<string>)
    requires fields != [] && ToolResultOf(c, a).Some? && ToolResultOf(c, b).Some?
    requires AgreeResult(c, ToolResultOf(c, a).value, ToolResultOf(c, b).value, Fields(fields))
    ensures Filtered(c, Some(a), fields) == Filtered(c, Some(b), fields)
  {
    RedactionNoninterference(c, ToolResultOf(c, a).value, ToolResultOf(c, b).value, fields);
  }

  /**
   What a filtered result does not tell apart: the same texts, or texts that decode to tool results
   that agree outside the fields.
   */
  ghost predicate Indistinct(c: Codec, a: string, b: string, fields: seq<string>) {
    || a == b
    || (&& fields != [] && ToolResultOf(c, a).Some? && ToolResultOf(c, b).Some?
        && AgreeResult(c, ToolResultOf(c, a).value, ToolResultOf(c, b).value, Fields(fields)))
  }

  /** A filtered result that decodes came from one that decodes, and decodes to it redacted. */
  lemma FilteredDecodes(c: Codec, a: string, fields: seq<string>)
    requires RoundTrips(c) && fields != []
    ensures ToolResultOf(c, a).Some? ==>
      ToolResultOf(c, Filtered(c, Some(a), fields).value) == Some(Redacted(c, ToolResultOf(c, a).value, fields))
    ensures ToolResultOf(c, a).None? ==> Filtered(c, Some(a), fields) == Some(a)
  {
    if ToolResultOf(c, a).Some? {
      var r := Redacted(c, ToolResultOf(c, a).value, fields);
      var encoded := EncodeToolResult(r);
      ToolResultRoundTrip(r);
      assert encoded == Obj(encoded.fields);
      assert c.parse(c.print_(Obj(encoded.fields))) == Some(Obj(encoded.fields));
    }
  }

  /**
   What redaction makes of an item, by its text: of an object, the keys stay, those listed hold the
   placeholder, the others their values; null stays null; any other item stays as it is.
   */
  ghost predicate RedactsTo(c: Codec, a: ContentItem, b: ContentItem, fields: seq<string>) {
    if a.kind == "text" && a.text != "" && c.parse(a.text).Some? && c.parse(a.text).value.Obj? then
      var x, y := c.parse(a.text).value.fields, c.parse(b.text);
      && b.kind == "text" && y.Some? && y.value.Obj? && y.value.fields.Keys == x.Keys
      && forall k :: k in x ==> y.value.fields[k] == if k in fields then Str("[REDACTED]") else x[k]
    else if ReadsNull(c, a) then ReadsNull(c, b)
    else b == a
  }

  lemma MaskedItemRedacts(c: Codec, a: ContentItem, fields: seq<string>)
    requires RoundTrips(c)
    ensures RedactsTo(c, a, MaskedItem(c, a, Fields(fields)), fields)
  {
    if a.kind == "text" && a.text != "" && c.parse(a.text).Some? && c.parse(a.text).value.Obj? {
      ReadMasked(c, a, c.parse(a.text).value.fields, Fields(fields));
    } else if ReadsNull(c, a) {
      NullMasked(c, a, Fields(fields));
    } else {
      UnreadUnmasked(c, a, Fields(fields));
    }
  }

  /**
   The result the agent gets, on the parsed documents: when the downstream result describes a tool
   result, the filtered one describes the same with every item redacted.
   */
  lemma FilteredDescribes(c: Codec, raw: string, j: Json, r: ToolResult, fields: seq<string>)
    returns (filtered: Json, redacted: ToolResult)
    requires RoundTrips(c) && fields != [] && c.parse(raw) == Some(j) && Describes(j, r)
    ensures Filtered(c, Some(raw), fields).Some?
    ensures c.parse(Filtered(c, Some(raw), fields).value) == Some(filtered) && Describes(filtered, redacted)
    ensures redacted.isError == r.isError && |redacted.content| == |r.content|
    ensures forall i :: 0 <= i < |r.content| ==> RedactsTo(c, r.content[i], redacted.content[i], fields)
  {
    ResultDecodesIff(j, r);
    FilteredDecodes(c, raw, fields);
    redacted := Redacted(c, r, fields);
    filtered := c.parse(Filtered(c, Some(raw), fields).value).value;
    ResultDecodesIff(filtered, redacted);
    forall i | 0 <= i < |r.content| ensures RedactsTo(c, r.content[i], redacted.content[i], fields) {
      MaskedItemRedacts(c, r.content[i], fields);
    }
  }

  /**
   The agent tells two downstream results apart exactly when they are not indistinct: redaction hides
   the values of the fields in the objects it reads, and nothing else. Results that do not decode are
   told apart whenever they differ.
   */
  lemma FilteredEqualIff(c: Codec, a: string, b: string, fields: seq<string>)
    requires RoundTrips(c)
    ensures Filtered(c, Some(a), fields) == Filtered(c, Some(b), fields) <==> Indistinct(c, a, b, fields)
  {
    if fields != [] && a != b {
      FilteredDecodes(c, a, fields);
      FilteredDecodes(c, b, fields);
      if ToolResultOf(c, a).Some? && ToolResultOf(c, b).Some? {
        MaskedResultsEqualIff(c, ToolResultOf(c, a).value, ToolResultOf(c, b).value, Fields(fields));
      }
    }
  }

  /**
   The audited parameters hold the tool arguments one level down, where redaction does not reach:
   they are unchanged exactly when the list names neither the tool name nor present arguments,
   unless the name already is the placeholder.
   */
  lemma AuditParamsUnchangedIff(call: ToolCall, fields: set<string>)
    ensures Masked(CleanParams(call), fields) == CleanParams(call) <==>
      && ("name" in fields ==> Str(call.name) == PLACEHOLDER)
      && ("arguments" in fields ==> call.arguments == map[])
  {
    var doc := CleanParams(call);
    var masked := Masked(doc, fields);
    assert masked.Keys == doc.Keys;
    if masked == doc {
      assert masked["name"] == doc["name"];
      if call.arguments != map[] {
        assert "arguments" in doc;
        assert masked["arguments"] == doc["arguments"];
      }
    }
  }
}

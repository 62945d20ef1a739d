/**
 JSON documents at the decoded level, the tool result of an MCP response, and the redaction of its
 fields. Text is converted by a codec, a parameter: parse decodes text that is JSON, print encodes
 with the keys of objects in sorted order, so that it is a function of the document.
 */
module Redaction {
  import opened Wrappers

  /** A number is the float64 it decodes to, given by its bits. */
  datatype Json =
    | Null
    | Bool(b: bool)
    | Num(bits: nat)
    | Str(s: string)
    | Arr(items: seq<Json>)
    | Obj(fields: map<string, Json>)

  datatype Codec = Codec(parse: string -> Option<Json>, print_: Json -> string)

  const PLACEHOLDER := Str("[REDACTED]")

  datatype ContentItem = ContentItem(kind: string, text: string)

  datatype ToolResult = ToolResult(content: seq<ContentItem>, isError: bool)

  type Document = map<string, Json>

  // ---------------------------------------------------------------- the specification

  function Fields(fields: seq<string>): set<string> {
    set f | f in fields
  }

  /** Named keys that are present get the placeholder; other keys keep their values. */
  function Masked(doc: Document, fields: set<string>): Document {
    map k | k in doc :: if k in fields then PLACEHOLDER else doc[k]
  }

  /**
   Text that decodes to an object is masked and printed, null decodes to no object and prints as
   null, anything else is not redacted.
   */
  function MaskedText(c: Codec, text: string, fields: set<string>): Option<string> {
    match c.parse(text)
    case Some(Obj(doc)) => Some(c.print_(Obj(Masked(doc, fields))))
    case Some(Null) => Some(c.print_(Null))
    case _ => None
  }

  function MaskedItem(c: Codec, item: ContentItem, fields: set<string>): ContentItem {
    if item.kind != "text" || item.text == "" then item
    else
      match MaskedText(c, item.text, fields)
      case Some(text) => ContentItem("text", text)
      case None => item
  }

  function MaskedResult(c: Codec, r: ToolResult, fields: set<string>): (m: ToolResult)
    ensures |m.content| == |r.content| && m.isError == r.isError
    ensures forall i :: 0 <= i < |r.content| ==> m.content[i].kind == r.content[i].kind
    ensures forall i :: 0 <= i < |r.content| ==> m.content[i] == MaskedItem(c, r.content[i], fields)
  {
    ToolResult(seq(|r.content|, i requires 0 <= i < |r.content| => MaskedItem(c, r.content[i], fields)), r.isError)
  }

  /** Nothing is redacted when the list is empty. */
  function Redacted(c: Codec, r: ToolResult, fields: seq<string>): ToolResult {
    if fields == [] then r else MaskedResult(c, r, Fields(fields))
  }

  function RedactedBytes(c: Codec, data: string, fields: seq<string>): string {
    if data == "" || fields == [] then data
    else
      match MaskedText(c, data, Fields(fields))
      case Some(text) => text
      case None => data
  }

  // ---------------------------------------------------------------- the algorithm

  method FieldSet(fields: seq<string>) returns (fieldSet: set<string>)
    ensures fieldSet == Fields(fields)
  {
    fieldSet := {};
    var i := 0;
    while i < |fields|
      invariant i <= |fields|
      invariant fieldSet == Fields(fields[..i])
    {
      assert fields[..i + 1] == fields[..i] + [fields[i]];
      fieldSet := fieldSet + {fields[i]};
      i := i + 1;
    }
    assert fields[..i] == fields;
  }

  /** The loop visits the fields in any order and overwrites those present. */
  method RedactJson(c: Codec, data: string, fields: set<string>) returns (r: Option<string>)
    ensures r == MaskedText(c, data, fields)
  {
    var parsed := c.parse(data);
    if parsed.None? {
      return None;
    }
    if parsed.value.Null? {
      return Some(c.print_(Null));
    }
    if !parsed.value.Obj? {
      return None;
    }
    var original := parsed.value.fields;
    var doc := original;
    var rest := fields;
    while rest != {}
      invariant rest <= fields
      invariant doc == Masked(original, fields - rest)
      decreases rest
    {
      var f :| f in rest;
      if f in doc {
        doc := doc[f := PLACEHOLDER];
      }
      rest := rest - {f};
    }
    assert fields - rest == fields;
    r := Some(c.print_(Obj(doc)));
  }

  method RedactFields(c: Codec, r: ToolResult, fields: seq<string>) returns (m: ToolResult)
    ensures m == Redacted(c, r, fields)
  {
    if |fields| == 0 {
      return r;
    }
    var fieldSet := FieldSet(fields);
    var out := new ContentItem[|r.content|](_ => ContentItem("", ""));
    var i := 0;
    while i < |r.content|
      invariant i <= |r.content| && out.Length == |r.content|
      invariant forall k :: 0 <= k < i ==> out[k] == MaskedItem(c, r.content[k], fieldSet)
    {
      var item := r.content[i];
      if item.kind != "text" || item.text == "" {
        out[i] := item;
      } else {
        var text := RedactJson(c, item.text, fieldSet);
        out[i] := if text.None? then item else ContentItem("text", text.value);
      }
      i := i + 1;
    }
    m := ToolResult(out[..], r.isError);
    assert m.content == MaskedResult(c, r, fieldSet).content;
  }

  method RedactJsonBytes(c: Codec, data: string, fields: seq<string>) returns (r: string)
    ensures r == RedactedBytes(c, data, fields)
  {
    if |data| == 0 || |fields| == 0 {
      return data;
    }
    var fieldSet := FieldSet(fields);
    var text := RedactJson(c, data, fieldSet);
    r := if text.None? then data else text.value;
  }

  /**
   What is left of audited data, by what it parses to: an object keeps its keys and the values under
   those not listed, null stays null, and anything else, undecodable data included, stays as it is.
   */
  lemma BytesRedacted(c: Codec, data: string, fields: seq<string>)
    requires RoundTrips(c)
    ensures var r, parsed := RedactedBytes(c, data, fields), c.parse(data);
      if data == "" || fields == [] || parsed.None? then r == data
      else
        match parsed.value
        case Obj(doc) =>
          var redacted := c.parse(r);
          && redacted.Some? && redacted.value.Obj? && redacted.value.fields.Keys == doc.Keys
          && forall k :: k in doc ==> redacted.value.fields[k] == if k in fields then Str("[REDACTED]") else doc[k]
        case Null => c.parse(r) == Some(Null)
        case _ => r == data
  {
    if data != "" && fields != [] && c.parse(data).Some? && c.parse(data).value.Obj? {
      var masked := Masked(c.parse(data).value.fields, Fields(fields));
      assert c.parse(c.print_(Obj(masked))) == Some(Obj(masked));
    }
  }

  // ---------------------------------------------------------------- noninterference

  /** The documents have the same keys and agree outside the fields. */
  ghost predicate Agree(a: Document, b: Document, fields: set<string>) {
    a.Keys == b.Keys && forall k :: k in a && k !in fields ==> a[k] == b[k]
  }

  /** Masking hides the values of the fields, and nothing else. */
  lemma MaskedEqualIffAgree(a: Document, b: Document, fields: set<string>)
    ensures Masked(a, fields) == Masked(b, fields) <==> Agree(a, b, fields)
  {
    if Masked(a, fields) == Masked(b, fields) {
      assert Masked(a, fields).Keys == a.Keys && Masked(b, fields).Keys == b.Keys;
      forall k | k in a && k !in fields ensures a[k] == b[k] {
        assert Masked(a, fields)[k] == a[k] && Masked(b, fields)[k] == b[k];
      }
    }
  }

  /** Text that redaction reads: of a text item, not empty, and decoding to the document. */
  predicate Reads(c: Codec, item: ContentItem, doc: Document) {
    item.kind == "text" && item.text != "" && c.parse(item.text) == Some(Obj(doc))
  }

  predicate ReadsNull(c: Codec, item: ContentItem) {
    item.kind == "text" && item.text != "" && c.parse(item.text) == Some(Null)
  }

  /** The same item, or objects that agree outside the fields, or null in both. */
  ghost predicate AgreeItem(c: Codec, a: ContentItem, b: ContentItem, fields: set<string>) {
    || a == b
    || (exists x, y :: Reads(c, a, x) && Reads(c, b, y) && Agree(x, y, fields))
    || (ReadsNull(c, a) && ReadsNull(c, b))
  }

  ghost predicate AgreeResult(c: Codec, a: ToolResult, b: ToolResult, fields: set<string>) {
    && a.isError == b.isError && |a.content| == |b.content|
    && forall i :: 0 <= i < |a.content| ==> AgreeItem(c, a.content[i], b.content[i], fields)
  }

  lemma MaskedItemAgrees(c: Codec, a: ContentItem, b: ContentItem, fields: set<string>)
    requires AgreeItem(c, a, b, fields)
    ensures MaskedItem(c, a, fields) == MaskedItem(c, b, fields)
  {
    if x, y :| Reads(c, a, x) && Reads(c, b, y) && Agree(x, y, fields) {
      MaskedEqualIffAgree(x, y, fields);
    }
  }

  /**
   Two results that differ only in the values of redacted fields become the same result, text by
   text, whatever the codec.
   */
  lemma RedactionNoninterference(c: Codec, a: ToolResult, b: ToolResult, fields: seq<string>)
    requires fields != [] && AgreeResult(c, a, b, Fields(fields))
    ensures Redacted(c, a, fields) == Redacted(c, b, fields)
  {
    forall i | 0 <= i < |a.content|
      ensures MaskedItem(c, a.content[i], Fields(fields)) == MaskedItem(c, b.content[i], Fields(fields))
    {
      MaskedItemAgrees(c, a.content[i], b.content[i], Fields(fields));
    }
    assert MaskedResult(c, a, Fields(fields)).content == MaskedResult(c, b, Fields(fields)).content;
  }

  // ---------------------------------------------------------------- algebra

  /** Printing a document and parsing it back gives the document. */
  ghost predicate RoundTrips(c: Codec) {
    && (forall doc :: c.parse(c.print_(Obj(doc))) == Some(Obj(doc)))
    && c.parse(c.print_(Null)) == Some(Null)
    && (forall j :: c.print_(j) != "")
  }

  lemma ReadMasked(c: Codec, item: ContentItem, doc: Document, fields: set<string>)
    requires RoundTrips(c) && Reads(c, item, doc)
    ensures Reads(c, MaskedItem(c, item, fields), Masked(doc, fields))
  {
    var masked := Masked(doc, fields);
    assert c.parse(c.print_(Obj(masked))) == Some(Obj(masked)) && c.print_(Obj(masked)) != "";
  }

  lemma NullMasked(c: Codec, item: ContentItem, fields: set<string>)
    requires RoundTrips(c) && ReadsNull(c, item)
    ensures ReadsNull(c, MaskedItem(c, item, fields))
  {
    assert c.print_(Null) != "";
  }

  /** Redaction leaves alone what it does not read. */
  lemma UnreadUnmasked(c: Codec, item: ContentItem, fields: set<string>)
    requires !ReadsNull(c, item) && forall doc :: !Reads(c, item, doc)
    ensures MaskedItem(c, item, fields) == item
  {
    if item.kind == "text" && item.text != "" && c.parse(item.text).Some? && c.parse(item.text).value.Obj? {
      assert Reads(c, item, c.parse(item.text).value.fields);
    }
  }

  /** Redacted items are equal exactly when the items agree: nothing else is hidden, and nothing less. */
  lemma MaskedItemsEqualIff(c: Codec, a: ContentItem, b: ContentItem, fields: set<string>)
    requires RoundTrips(c)
    ensures MaskedItem(c, a, fields) == MaskedItem(c, b, fields) <==> AgreeItem(c, a, b, fields)
  {
    if AgreeItem(c, a, b, fields) {
      MaskedItemAgrees(c, a, b, fields);
    } else if MaskedItem(c, a, fields) == MaskedItem(c, b, fields) {
      EqualMasksAgree(c, a, b, fields);
    }
  }

  lemma EqualMasksAgree(c: Codec, a: ContentItem, b: ContentItem, fields: set<string>)
    requires RoundTrips(c) && MaskedItem(c, a, fields) == MaskedItem(c, b, fields)
    ensures AgreeItem(c, a, b, fields)
  {
    if x :| Reads(c, a, x) {
      ReadMasked(c, a, x, fields);
      if y :| Reads(c, b, y) {
        ReadMasked(c, b, y, fields);
        MaskedEqualIffAgree(x, y, fields);
        assert Agree(x, y, fields);
      } else {
        OnlyReadsMaskToRead(c, b, Masked(x, fields), fields);
      }
    } else if y :| Reads(c, b, y) {
      ReadMasked(c, b, y, fields);
      OnlyReadsMaskToRead(c, a, Masked(y, fields), fields);
    } else if ReadsNull(c, a) || ReadsNull(c, b) {
      OnlyNullMasksToNull(c, a, b, fields);
    } else {
      UnreadUnmasked(c, a, fields);
      UnreadUnmasked(c, b, fields);
    }
  }

  lemma OnlyReadsMaskToRead(c: Codec, item: ContentItem, doc: Document, fields: set<string>)
    requires RoundTrips(c) && Reads(c, MaskedItem(c, item, fields), doc)
    ensures exists x :: Reads(c, item, x)
  {
    if forall x :: !Reads(c, item, x) {
      if ReadsNull(c, item) {
        NullMasked(c, item, fields);
      } else {
        UnreadUnmasked(c, item, fields);
      }
    }
  }

  lemma OnlyNullMasksToNull(c: Codec, a: ContentItem, b: ContentItem, fields: set<string>)
    requires RoundTrips(c) && MaskedItem(c, a, fields) == MaskedItem(c, b, fields)
    requires ReadsNull(c, a) || ReadsNull(c, b)
    requires forall doc :: !Reads(c, a, doc) && !Reads(c, b, doc)
    ensures ReadsNull(c, a) && ReadsNull(c, b)
  {
    if !ReadsNull(c, a) {
      NullMasked(c, b, fields);
      UnreadUnmasked(c, a, fields);
    }
    if !ReadsNull(c, b) {
      NullMasked(c, a, fields);
      UnreadUnmasked(c, b, fields);
    }
  }

  /** The same for whole results. */
  lemma MaskedResultsEqualIff(c: Codec, a: ToolResult, b: ToolResult, fields: set<string>)
    requires RoundTrips(c)
    ensures MaskedResult(c, a, fields) == MaskedResult(c, b, fields) <==> AgreeResult(c, a, b, fields)
  {
    var x, y := MaskedResult(c, a, fields), MaskedResult(c, b, fields);
    if |a.content| == |b.content| {
      forall i | 0 <= i < |a.content|
        ensures x.content[i] == y.content[i] <==> AgreeItem(c, a.content[i], b.content[i], fields)
      {
        MaskedItemsEqualIff(c, a.content[i], b.content[i], fields);
      }
      if AgreeResult(c, a, b, fields) {
        assert x.content == y.content;
      }
    }
  }

  lemma MaskedTwice(doc: Document, f: set<string>, g: set<string>)
    ensures Masked(Masked(doc, f), g) == Masked(doc, f + g)
  {
  }

  lemma MaskedItemTwice(c: Codec, item: ContentItem, f: set<string>, g: set<string>)
    requires RoundTrips(c)
    ensures MaskedItem(c, MaskedItem(c, item, f), g) == MaskedItem(c, item, f + g)
  {
    if item.kind == "text" && item.text != "" && c.parse(item.text).Some? && c.parse(item.text).value.Obj? {
      var doc := c.parse(item.text).value.fields;
      MaskedTwice(doc, f, g);
      assert c.parse(c.print_(Obj(Masked(doc, f)))) == Some(Obj(Masked(doc, f)));
      assert c.print_(Obj(Masked(doc, f))) != "";
    } else if item.kind == "text" && item.text != "" && c.parse(item.text) == Some(Null) {
      assert c.print_(Null) != "";
    }
  }

  /** Redacting by one list and then by another is redacting by both, in either order. */
  lemma RedactedTwice(c: Codec, r: ToolResult, f: seq<string>, g: seq<string>)
    requires RoundTrips(c)
    ensures Redacted(c, Redacted(c, r, f), g) == Redacted(c, r, f + g)
    ensures Redacted(c, r, f + g) == Redacted(c, r, g + f)
  {
    assert Fields(f + g) == Fields(f) + Fields(g) == Fields(g + f);
    if f == [] {
      assert f + g == g;
    } else if g == [] {
      assert f + g == f;
    } else {
      var twice, both := MaskedResult(c, MaskedResult(c, r, Fields(f)), Fields(g)), MaskedResult(c, r, Fields(f + g));
      forall i | 0 <= i < |r.content| ensures twice.content[i] == both.content[i] {
        MaskedItemTwice(c, r.content[i], Fields(f), Fields(g));
      }
      assert twice.content == both.content;
    }
  }

  lemma RedactedIdempotent(c: Codec, r: ToolResult, f: seq<string>)
    requires RoundTrips(c)
    ensures Redacted(c, Redacted(c, r, f), f) == Redacted(c, r, f)
  {
    RedactedTwice(c, r, f, f);
    assert Fields(f + f) == Fields(f);
  }
}

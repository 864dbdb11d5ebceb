/**
 * The `<shinychat-tool-result>` element of tool-display.ts: a collapsible
 * summary of a tool call's outcome, its result as an escaped code block,
 * its input parameters one labelled block per argument, and, when it is
 * connected, the hiding of the matching `<shinychat-tool-request>`.
 */
module ToolDisplay {
  import opened Common
  import MarkdownRenderer

  /** A value `JSON.parse` can produce; numbers are integers here. */
  datatype Json =
    | JNull
    | JBool(b: bool)
    | JNumber(n: int)
    | JString(s: string)
    | JArray(items: seq<Json>)
    | JObject(entries: seq<(string, Json)>)

  /**
   * `parseAttrToObject`: the parsed attribute, or an empty object when it
   * is not valid JSON.  `parse` is `JSON.parse`, failing with `Err`.
   */
  function ParseAttrToObject(x: string, parse: string -> Result<Json, string>): (r: Json)
    ensures parse(x).Ok? ==> r == parse(x).value
    ensures parse(x).Err? ==> r == JObject([])
  {
    match parse(x)
      case Ok(v) => v
      case Err(_) => JObject([])
  }

  /** Decimal digits of a natural number. */
  function NatToString(n: nat): (r: string)
    ensures r != []
    ensures forall i :: 0 <= i < |r| ==> '0' <= r[i] <= '9'
  {
    if n < 10 then [(n + 48) as char] else NatToString(n / 10) + [(n % 10 + 48) as char]
  }

  function IntToString(n: int): (r: string)
    ensures n >= 0 ==> r == NatToString(n)
    ensures n < 0 ==> r == "-" + NatToString(-n)
  {
    if n >= 0 then NatToString(n) else "-" + NatToString(-n)
  }

  /** JavaScript's `String(value)`: arrays join their items with commas, `null` items as empty. */
  function StringOf(j: Json): string
    decreases j, 1
  {
    match j
      case JNull => "null"
      case JBool(b) => if b then "true" else "false"
      case JNumber(n) => IntToString(n)
      case JString(s) => s
      case JArray(items) => JoinItems(j, items)
      case JObject(_) => "[object Object]"
  }

  function JoinItems(parent: Json, items: seq<Json>): string
    requires forall i :: 0 <= i < |items| ==> items[i] < parent
    decreases parent, 0, |items|
  {
    if items == [] then ""
    else
      var first := if items[0].JNull? then "" else StringOf(items[0]);
      if |items| == 1 then first else first + "," + JoinItems(parent, items[1..])
  }

  /** `!value`: the falsy values a parse can give. */
  predicate Falsy(j: Json)
  {
    j == JNull || j == JBool(false) || j == JNumber(0) || j == JString("")
  }

  /** `Object.entries(value)`: an object's own entries, an array's or string's indexed items, otherwise none. */
  function Entries(j: Json): (r: seq<(string, Json)>)
    ensures j.JObject? ==> r == j.entries
    ensures j.JArray? ==> |r| == |j.items| && forall i :: 0 <= i < |r| ==> r[i].1 == j.items[i]
    ensures j.JString? ==> |r| == |j.s| && forall i :: 0 <= i < |r| ==> r[i].1 == JString([j.s[i]])
    ensures j.JNull? || j.JBool? || j.JNumber? ==> r == []
  {
    match j
      case JObject(entries) => entries
      case JArray(items) => seq(|items|, i requires 0 <= i < |items| => (NatToString(i), items[i]))
      case JString(s) => seq(|s|, i requires 0 <= i < |s| => (NatToString(i), JString([s[i]])))
      case _ => []
  }

  /** `hasProperty(value, key)` and the property: the value of the last entry of an object with that key. */
  function Property(j: Json, key: string): (r: Option<Json>)
    ensures r.Some? <==> j.JObject? && exists i :: 0 <= i < |j.entries| && j.entries[i].0 == key
  {
    if !j.JObject? then None else Lookup(j.entries, key)
  }

  /** The value a parsed object holds for `key`: a later duplicate key overrides an earlier one. */
  function Lookup(entries: seq<(string, Json)>, key: string): (r: Option<Json>)
    ensures r.Some? <==> exists i :: 0 <= i < |entries| && entries[i].0 == key
    ensures r.Some? ==> exists i :: && 0 <= i < |entries| && entries[i] == (key, r.value)
                                    && forall j :: i < j < |entries| ==> entries[j].0 != key
  {
    if entries == [] then None
    else
      var n := |entries| - 1;
      if entries[n].0 == key then Some(entries[n].1)
      else
        var r := Lookup(entries[..n], key);
        assert forall i :: 0 <= i < n ==> entries[i] == entries[..n][i];
        if r.Some? then
          var i :| && 0 <= i < n && entries[..n][i] == (key, r.value)
                   && forall j :: i < j < n ==> entries[..n][j].0 != key;
          assert entries[i] == (key, r.value) && forall j :: i < j < |entries| ==> entries[j].0 != key;
          r
        else r
  }

  // ---------------------------------------------------------------
  // Rendering

  /** `this.error || this.value || "No result"` */
  function ResultText(error: string, value: string): (r: string)
    ensures r != ""
    ensures error != "" ==> r == error
    ensures error == "" && value != "" ==> r == value
    ensures error == "" && value == "" ==> r == "No result"
  {
    if error != "" then error else if value != "" then value else "No result"
  }

  const LabelOpen: string := "<span class='input-parameter-label'>"
  const LabelClose: string := "</span>"

  /**
   * `renderCodeBlock` as written: the code is escaped but a label is
   * inserted as it is.
   */
  function RenderCodeBlockAsWritten(code: string, caption: Option<string>): string
  {
    var labelSpan := if caption.Some? && caption.value != "" then LabelOpen + caption.value + LabelClose else "";
    "<pre>" + labelSpan + "<code>" + MarkdownRenderer.EscapeHtml(code) + "</code></pre>"
  }

  /** The label span of a block: present for a non-empty caption, its text escaped. */
  function LabelSpan(caption: Option<string>): string
  {
    if caption.Some? && caption.value != "" then LabelOpen + MarkdownRenderer.EscapeHtml(caption.value) + LabelClose else ""
  }

  /** `renderCodeBlock` with both the code and the label escaped. */
  function RenderCodeBlock(code: string, caption: Option<string>): (r: string)
  {
    "<pre>" + LabelSpan(caption) + "<code>" + MarkdownRenderer.EscapeHtml(code) + "</code></pre>"
  }

  /** The escaped code of a block has no markup and decodes back to the code. */
  lemma RenderCodeBlockCode(code: string, caption: Option<string>)
    ensures var escCode := MarkdownRenderer.EscapeHtml(code);
            && '<' !in escCode && '>' !in escCode
            && MarkdownRenderer.UnescapeHtml(escCode) == code
            && Contains(RenderCodeBlock(code, caption), "<code>" + escCode + "</code></pre>")
  {
    var escCode := MarkdownRenderer.EscapeHtml(code);
    MarkdownRenderer.EscapeHtmlNoMarkup(code);
    MarkdownRenderer.UnescapeEscape(code);
    var tail := "<code>" + escCode + "</code></pre>";
    assert RenderCodeBlock(code, caption) == ("<pre>" + LabelSpan(caption)) + tail + "";
    ContainsMiddle("<pre>" + LabelSpan(caption), tail, "");
  }

  /**
   * A block has a label span exactly when a non-empty caption is given;
   * the caption's text in it has no markup and decodes back to the caption.
   */
  lemma RenderCodeBlockLabel(code: string, caption: Option<string>)
    ensures caption.None? || caption.value == "" ==>
              RenderCodeBlock(code, caption) == "<pre><code>" + MarkdownRenderer.EscapeHtml(code) + "</code></pre>"
    ensures caption.Some? && caption.value != "" ==>
              var escLabel := MarkdownRenderer.EscapeHtml(caption.value);
              && '<' !in escLabel && '>' !in escLabel
              && MarkdownRenderer.UnescapeHtml(escLabel) == caption.value
              && Contains(RenderCodeBlock(code, caption), LabelOpen + escLabel + LabelClose)
  {
    var tail := "<code>" + MarkdownRenderer.EscapeHtml(code) + "</code></pre>";
    if caption.Some? && caption.value != "" {
      var escLabel := MarkdownRenderer.EscapeHtml(caption.value);
      MarkdownRenderer.EscapeHtmlNoMarkup(caption.value);
      MarkdownRenderer.UnescapeEscape(caption.value);
      assert RenderCodeBlock(code, caption) == "<pre>" + (LabelOpen + escLabel + LabelClose) + tail;
      ContainsMiddle("<pre>", LabelOpen + escLabel + LabelClose, tail);
    } else {
      assert "<pre>" + "" + "<code>" == "<pre><code>";
    }
  }

  /** An argument named `<b>` puts a `<b>` tag into the markup as written. */
  lemma LabelMarkupNotEscaped(code: string, caption: string)
    requires caption == "<b>"
    ensures Contains(RenderCodeBlockAsWritten(code, Some(caption)), caption)
    ensures !Contains(MarkdownRenderer.EscapeHtml(caption), caption)
  {
    var rest := "<code>" + MarkdownRenderer.EscapeHtml(code) + "</code></pre>";
    assert RenderCodeBlockAsWritten(code, Some(caption)) == ("<pre>" + LabelOpen) + caption + (LabelClose + rest);
    ContainsMiddle("<pre>" + LabelOpen, caption, LabelClose + rest);
    MarkdownRenderer.EscapeHtmlNoMarkup(caption);
    ContainsNoChar(MarkdownRenderer.EscapeHtml(caption), caption, '<');
  }

  /** A string without some character cannot contain a piece that has it. */
  lemma {:induction false} ContainsNoChar(s: string, sub: string, c: char)
    requires c !in s && c in sub
    ensures !Contains(s, sub)
    decreases |s|
  {
    if s != [] {
      ContainsNoChar(s[1..], sub, c);
    }
  }

  /** One labelled block per argument entry, in entry order, with the corrected (escaped) label. */
  function ParameterBlocks(entries: seq<(string, Json)>): (r: seq<string>)
    ensures |r| == |entries|
    ensures forall i :: 0 <= i < |r| ==> r[i] == RenderCodeBlock(StringOf(entries[i].1), Some(entries[i].0))
  {
    if entries == [] then []
    else [RenderCodeBlock(StringOf(entries[0].1), Some(entries[0].0))] + ParameterBlocks(entries[1..])
  }

  function Join(pieces: seq<string>): string
  {
    if pieces == [] then "" else pieces[0] + Join(pieces[1..])
  }

  /** Every piece is found in the joined text. */
  lemma {:induction false} JoinContains(pieces: seq<string>, i: nat)
    requires i < |pieces|
    ensures Contains(Join(pieces), pieces[i])
  {
    if i == 0 {
      ContainsMiddle([], pieces[0], Join(pieces[1..]));
      assert [] + pieces[0] + Join(pieces[1..]) == Join(pieces);
    } else {
      JoinContains(pieces[1..], i - 1);
      ContainsAfter(pieces[0], Join(pieces[1..]), pieces[i]);
    }
  }

  lemma {:induction false} ContainsAfter(pre: string, s: string, sub: string)
    requires Contains(s, sub)
    ensures Contains(pre + s, sub)
    decreases |pre|
  {
    if pre != [] {
      ContainsAfter(pre[1..], s, sub);
      assert (pre + s)[1..] == pre[1..] + s;
    } else {
      assert pre + s == s;
    }
  }

  const ParamsOpen: string := "\n      <details open>\n        <summary><strong>Input parameters:</strong></summary>\n        "
  const ParamsClose: string := "\n      </details>"

  /** `renderParameters`: nothing for falsy arguments, otherwise the corrected blocks inside an open `<details>`. */
  function RenderParameters(args: Json): (r: string)
    ensures Falsy(args) ==> r == ""
    ensures !Falsy(args) ==> r == ParamsOpen + Join(ParameterBlocks(Entries(args))) + ParamsClose
  {
    if Falsy(args) then "" else ParamsOpen + Join(ParameterBlocks(Entries(args))) + ParamsClose
  }

  /** Each argument of an object shows as its own block, with the corrected, escaped caption. */
  lemma ParameterShown(entries: seq<(string, Json)>, i: nat)
    requires i < |entries|
    ensures Contains(RenderParameters(JObject(entries)), RenderCodeBlock(StringOf(entries[i].1), Some(entries[i].0)))
  {
    var blocks := ParameterBlocks(entries);
    JoinContains(blocks, i);
    ContainsAfter(ParamsOpen, Join(blocks), blocks[i]);
    assert RenderParameters(JObject(entries)) == (ParamsOpen + Join(blocks)) + ParamsClose;
    ContainsBefore(ParamsOpen + Join(blocks), ParamsClose, blocks[i]);
  }

  lemma {:induction false} ContainsBefore(s: string, post: string, sub: string)
    requires Contains(s, sub)
    ensures Contains(s + post, sub)
    decreases |s|
  {
    if sub <= s {
      assert sub <= s + post;
    } else {
      ContainsBefore(s[1..], post, sub);
      assert (s + post)[1..] == s[1..] + post;
    }
  }

  /** The top-level summary: its class and its inner markup. */
  datatype Summary = Summary(cssClass: string, content: string)

  /**
   * `renderMainSummary`: an error gives "Tool <name> failed" and the
   * `failed` class; otherwise an annotation title replaces the default
   * "Tool <name> result".  The name is escaped; the title is not.
   */
  function RenderMainSummary(name: string, annotations: Json, error: string): (r: Summary)
    ensures error != "" ==> r == Summary("result-summary failed", "Tool <code>" + MarkdownRenderer.EscapeHtml(name) + "</code> failed")
    ensures error == "" ==> r.cssClass == "result-summary"
    ensures error == "" && Property(annotations, "title").Some? ==> r.content == StringOf(Property(annotations, "title").value)
    ensures error == "" && Property(annotations, "title").None? ==>
              r.content == "Tool <code>" + MarkdownRenderer.EscapeHtml(name) + "</code> result"
  {
    var escName := MarkdownRenderer.EscapeHtml(name);
    var content := "Tool <code>" + escName + "</code> result";
    var content := if Property(annotations, "title").Some? then StringOf(Property(annotations, "title").value) else content;
    var content := if error != "" then "Tool <code>" + escName + "</code> failed" else content;
    Summary(if error != "" then "result-summary failed" else "result-summary", content)
  }

  function SummaryHtml(s: Summary): string
  {
    "<summary class=\"" + s.cssClass + "\">" + s.content + "</summary>"
  }

  /** What `render` shows: the summary, the result block and the parameters. */
  datatype ResultView = ResultView(summary: string, result: string, parameters: string)

  /** `render`, with the corrected parameter blocks whose labels are escaped. */
  function Render(name: string, arguments: string, value: string, error: string, annotations: string,
                  parse: string -> Result<Json, string>): (r: ResultView)
    ensures r.result == RenderCodeBlock(ResultText(error, value), None)
    ensures r.summary == SummaryHtml(RenderMainSummary(name, ParseAttrToObject(annotations, parse), error))
    ensures r.parameters == RenderParameters(ParseAttrToObject(arguments, parse))
  {
    ResultView(SummaryHtml(RenderMainSummary(name, ParseAttrToObject(annotations, parse), error)),
               RenderCodeBlock(ResultText(error, value), None),
               RenderParameters(ParseAttrToObject(arguments, parse)))
  }

  /** Malformed arguments show an empty parameter section, not nothing. */
  lemma MalformedArgumentsShowEmpty(arguments: string, parse: string -> Result<Json, string>)
    requires parse(arguments).Err?
    ensures RenderParameters(ParseAttrToObject(arguments, parse)) == ParamsOpen + ParamsClose
  {
    assert ParameterBlocks([]) == [];
  }

  // ---------------------------------------------------------------
  // The request element

  const RequestOpen: string := "Running tool: <code>"
  const RequestClose: string := "</code>"

  /**
   * `<shinychat-tool-request>`'s markup: the tool name goes in as text,
   * which lit escapes, so it adds no markup and reads back as the name.
   */
  function RenderRequest(name: string): (r: string)
    ensures |r| >= |RequestOpen| + |RequestClose|
    ensures r[..|RequestOpen|] == RequestOpen && r[|r| - |RequestClose|..] == RequestClose
    ensures var shown := r[|RequestOpen|..|r| - |RequestClose|];
            && '<' !in shown && '>' !in shown
            && MarkdownRenderer.UnescapeHtml(shown) == name
  {
    MarkdownRenderer.EscapeHtmlNoMarkup(name);
    MarkdownRenderer.UnescapeEscape(name);
    var r := RequestOpen + MarkdownRenderer.EscapeHtml(name) + RequestClose;
    assert r[|RequestOpen|..|r| - |RequestClose|] == MarkdownRenderer.EscapeHtml(name);
    r
  }

  // ---------------------------------------------------------------
  // Hiding the request

  /** A `<shinychat-tool-request>` in the document. */
  class RequestElement {
    const toolCallId: string
    var displayNone: bool

    constructor (toolCallId: string)
      ensures this.toolCallId == toolCallId && !displayNone
    {
      this.toolCallId := toolCallId;
      displayNone := false;
    }
  }

  /** The index `querySelector` picks: the first request, in document order, with the id. */
  function FirstWithId(ids: seq<string>, id: string): (r: Option<nat>)
    ensures r.Some? ==> r.value < |ids| && ids[r.value] == id && forall j :: 0 <= j < r.value ==> ids[j] != id
    ensures r.None? ==> id !in ids
  {
    if ids == [] then None
    else if ids[0] == id then Some(0)
    else match FirstWithId(ids[1..], id)
      case None => None
      case Some(k) => Some(k + 1)
  }

  function Ids(doc: seq<RequestElement>): (r: seq<string>)
    ensures |r| == |doc| && forall i :: 0 <= i < |doc| ==> r[i] == doc[i].toolCallId
  {
    seq(|doc|, i requires 0 <= i < |doc| => doc[i].toolCallId)
  }

  /**
   * `hideCorrespondingRequest`: the first request element whose
   * `data-tool-call-id` equals the result's gets `display: none`; no
   * other element changes, and nothing does when there is none.
   */
  method HideCorrespondingRequest(doc: seq<RequestElement>, toolCallId: string)
    modifies set e | e in doc
    ensures match FirstWithId(Ids(doc), toolCallId)
              case Some(i) => doc[i].displayNone
                              && forall e :: e in doc && e != doc[i] ==> e.displayNone == old(e.displayNone)
              case None => forall e :: e in doc ==> e.displayNone == old(e.displayNone)
  {
    match FirstWithId(Ids(doc), toolCallId)
    case Some(i) =>
      doc[i].displayNone := true;
    case None =>
  }
}

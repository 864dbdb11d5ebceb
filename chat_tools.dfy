/**
 * The tool cards of chat-tools.ts: `<shiny-tool-request>` and
 * `<shiny-tool-result>`.  Both share a collapsible card with a header
 * (icon, title, intent) and a body; a request hides itself when a result
 * for the same request id announces itself, and a result shows the call
 * and its value according to the value's type.
 */
module ChatTools {
  import opened Common

  // ---------------------------------------------------------------
  // Markdown code blocks

  /** Eight backticks open and close every generated code block. */
  const Fence: string := "````````"

  /** The fence's info string: the given language, `"markdown"` when none is passed. */
  function LanguageOrDefault(language: Option<string>): (r: string)
    ensures language.None? ==> r == "markdown"
    ensures language.Some? ==> r == language.value
  {
    if language.Some? then language.value else "markdown"
  }

  /** `markdownCodeBlock(content, language)`; `None` is an omitted language argument. */
  function MarkdownCodeBlock(content: string, language: Option<string>): (r: string)
    ensures |r| == |content| + |LanguageOrDefault(language)| + 2 * |Fence| + 2
    ensures CodeBlockContent(r, LanguageOrDefault(language)) == Some(content)
  {
    var head := Fence + LanguageOrDefault(language) + "\n";
    var r := head + content + "\n" + Fence;
    assert r[..|head|] == head;
    assert r[|r| - |"\n" + Fence|..] == "\n" + Fence;
    assert r[|head|..|r| - |"\n" + Fence|] == content;
    r
  }

  /** Reads back what a code block with the given info string holds, if it is one. */
  function CodeBlockContent(block: string, language: string): (r: Option<string>)
  {
    var head := Fence + language + "\n";
    var tail := "\n" + Fence;
    if |block| >= |head| + |tail| && block[..|head|] == head && block[|block| - |tail|..] == tail
    then Some(block[|head|..|block| - |tail|])
    else None
  }

  /** Different contents give different blocks, whatever the language. */
  lemma CodeBlockInjective(a: string, b: string, language: Option<string>)
    requires MarkdownCodeBlock(a, language) == MarkdownCodeBlock(b, language)
    ensures a == b
  {
    assert CodeBlockContent(MarkdownCodeBlock(a, language), LanguageOrDefault(language)) == Some(a);
    assert CodeBlockContent(MarkdownCodeBlock(b, language), LanguageOrDefault(language)) == Some(b);
  }

  // ---------------------------------------------------------------
  // JavaScript's `String.prototype.replace` with a string pattern

  /** The index at which `pat` first occurs in `s`. */
  function IndexOf(s: string, pat: string): (r: Option<nat>)
    requires pat != []
    ensures r.Some? ==> r.value + |pat| <= |s| && s[r.value..r.value + |pat|] == pat
    decreases |s|
  {
    if pat <= s then Some(0)
    else if s == [] then None
    else match IndexOf(s[1..], pat)
      case None => None
      case Some(k) =>
        assert s[k + 1..k + 1 + |pat|] == s[1..][k..k + |pat|];
        Some(k + 1)
  }

  /** `IndexOf` finds the first occurrence, and finds none only when there is none. */
  lemma {:induction false} IndexOfFirst(s: string, pat: string)
    requires pat != []
    ensures IndexOf(s, pat).Some? ==> forall j :: 0 <= j < IndexOf(s, pat).value ==> !(pat <= s[j..])
    ensures IndexOf(s, pat).None? ==> forall j :: 0 <= j <= |s| ==> !(pat <= s[j..])
    decreases |s|
  {
    if !(pat <= s) && s != [] {
      IndexOfFirst(s[1..], pat);
      assert forall j :: 1 <= j <= |s| ==> s[j..] == s[1..][j - 1..];
    }
  }

  /**
   * The replacement string's `$` patterns, as a string pattern (no capture
   * groups) expands them: `$$` is a dollar sign, `$&` the match, `` $` ``
   * the text before it and `$'` the text after it; any other `$` is kept.
   */
  function Substitution(rep: string, matched: string, before: string, after: string): (r: string)
    decreases |rep|
  {
    if rep == [] then []
    else if rep[0] == '$' && |rep| >= 2 && rep[1] == '$' then "$" + Substitution(rep[2..], matched, before, after)
    else if rep[0] == '$' && |rep| >= 2 && rep[1] == '&' then matched + Substitution(rep[2..], matched, before, after)
    else if rep[0] == '$' && |rep| >= 2 && rep[1] == '`' then before + Substitution(rep[2..], matched, before, after)
    else if rep[0] == '$' && |rep| >= 2 && rep[1] == '\'' then after + Substitution(rep[2..], matched, before, after)
    else [rep[0]] + Substitution(rep[1..], matched, before, after)
  }

  /** `s.replace(pat, rep)`: the first occurrence only, with `rep`'s `$` patterns expanded. */
  function ReplaceJs(s: string, pat: string, rep: string): (r: string)
    requires pat != []
  {
    match IndexOf(s, pat)
      case None => s
      case Some(i) => s[..i] + Substitution(rep, pat, s[..i], s[i + |pat|..]) + s[i + |pat|..]
  }

  /** A replacement without `$` is inserted as it is. */
  lemma {:induction false} SubstitutionDollarFree(rep: string, matched: string, before: string, after: string)
    requires '$' !in rep
    ensures Substitution(rep, matched, before, after) == rep
    decreases |rep|
  {
    if rep != [] {
      SubstitutionDollarFree(rep[1..], matched, before, after);
    }
  }

  /** Text before the first `$` of a replacement is copied unchanged. */
  lemma {:induction false} SubstitutionPrefix(a: string, b: string, matched: string, before: string, after: string)
    requires '$' !in a
    ensures Substitution(a + b, matched, before, after) == a + Substitution(b, matched, before, after)
    decreases |a|
  {
    if a != [] {
      assert a == [a[0]] + a[1..];
      assert a[0] in a;
      assert (a + b)[0] == a[0] != '$';
      assert (a + b)[1..] == a[1..] + b;
      SubstitutionPrefix(a[1..], b, matched, before, after);
      calc {
        Substitution(a + b, matched, before, after);
        [a[0]] + Substitution(a[1..] + b, matched, before, after);
        [a[0]] + (a[1..] + Substitution(b, matched, before, after));
        a + Substitution(b, matched, before, after);
      }
    } else {
      assert a + b == b;
    }
  }

  /** With no `$` in the replacement, the first occurrence is replaced by `rep` itself. */
  lemma ReplaceJsAt(s: string, pat: string, rep: string)
    requires pat != [] && '$' !in rep
    ensures IndexOf(s, pat).Some? ==>
              var i := IndexOf(s, pat).value;
              ReplaceJs(s, pat, rep) == s[..i] + rep + s[i + |pat|..]
    ensures IndexOf(s, pat).None? ==> ReplaceJs(s, pat, rep) == s
  {
    if IndexOf(s, pat).Some? {
      var i := IndexOf(s, pat).value;
      SubstitutionDollarFree(rep, pat, s[..i], s[i + |pat|..]);
    }
  }

  /** The literal replacement, read through the first index of the pattern. */
  lemma ReplaceFirstAt(s: string, pat: string, rep: string)
    requires pat != []
    ensures IndexOf(s, pat).Some? ==>
              var i := IndexOf(s, pat).value;
              ReplaceFirst(s, pat, rep) == s[..i] + rep + s[i + |pat|..]
    ensures IndexOf(s, pat).None? ==> ReplaceFirst(s, pat, rep) == s
  {
    if IndexOf(s, pat).Some? {
      ReplaceFirstFound(s, pat, rep);
    } else {
      ReplaceFirstNotFound(s, pat, rep);
    }
  }

  /** Where the pattern occurs, its first occurrence is cut out and the replacement put in its place. */
  lemma {:induction false} ReplaceFirstFound(s: string, pat: string, rep: string)
    requires pat != [] && IndexOf(s, pat).Some?
    ensures var i := IndexOf(s, pat).value;
            ReplaceFirst(s, pat, rep) == s[..i] + rep + s[i + |pat|..]
    decreases |s|
  {
    if pat <= s {
      assert IndexOf(s, pat) == Some(0);
      assert s[..0] + rep + s[|pat|..] == rep + s[|pat|..];
    } else {
      ReplaceFirstFound(s[1..], pat, rep);
      ReplaceFirstFoundLater(s, pat, rep);
    }
  }

  /** An occurrence past the start of `s` is replaced as it is in the tail of `s`. */
  lemma ReplaceFirstFoundLater(s: string, pat: string, rep: string)
    requires pat != [] && !(pat <= s) && s != [] && IndexOf(s[1..], pat).Some?
    requires var k := IndexOf(s[1..], pat).value;
             ReplaceFirst(s[1..], pat, rep) == s[1..][..k] + rep + s[1..][k + |pat|..]
    ensures IndexOf(s, pat).Some?
    ensures var i := IndexOf(s, pat).value;
            ReplaceFirst(s, pat, rep) == s[..i] + rep + s[i + |pat|..]
  {
    var k := IndexOf(s[1..], pat).value;
    assert IndexOf(s, pat) == Some(k + 1);
    assert ReplaceFirst(s, pat, rep) == [s[0]] + ReplaceFirst(s[1..], pat, rep);
    SpliceCons(s, k, |pat|, rep);
  }

  /** Where the pattern does not occur, nothing is replaced. */
  lemma {:induction false} ReplaceFirstNotFound(s: string, pat: string, rep: string)
    requires pat != [] && IndexOf(s, pat).None?
    ensures ReplaceFirst(s, pat, rep) == s
    decreases |s|
  {
    if s != [] {
      var t := s[1..];
      assert IndexOf(t, pat).None?;
      ReplaceFirstNotFound(t, pat, rep);
      assert s == [s[0]] + t;
    }
  }

  /** Splicing into the tail of `s` is splicing into `s` one position later. */
  lemma SpliceCons(s: string, k: nat, n: nat, rep: string)
    requires 0 < |s| && k + 1 + n <= |s|
    ensures [s[0]] + (s[1..][..k] + rep + s[1..][k + n..]) == s[..k + 1] + rep + s[k + 1 + n..]
  {
    assert s[..k + 1] == [s[0]] + s[1..][..k];
    assert s[k + 1 + n..] == s[1..][k + n..];
  }

  /** With no `$` in the replacement, `replace` is a literal first-occurrence replacement. */
  lemma ReplaceJsDollarFree(s: string, pat: string, rep: string)
    requires pat != [] && '$' !in rep
    ensures ReplaceJs(s, pat, rep) == ReplaceFirst(s, pat, rep)
  {
    ReplaceJsAt(s, pat, rep);
    ReplaceFirstAt(s, pat, rep);
  }

  // ---------------------------------------------------------------
  // Titles

  const TitleOpen: string := "<span class=\"tool-title-name\">"
  const TitleClose: string := "</span>"
  const TitleSlot: string := "{title}"

  /** `this.title || \`${this.name}()\`` */
  function DisplayTitle(title: string, name: string): (r: string)
    ensures title != "" ==> r == title
    ensures title == "" ==> r == name + "()"
  {
    if title != "" then title else name + "()"
  }

  /**
   * `formatTitle` as written: the wrapped title goes through `replace`
   * as its replacement string, so `$` patterns in a title are expanded.
   */
  function FormatTitleAsWritten(template: string, title: string, name: string): string
  {
    ReplaceJs(template, TitleSlot, TitleOpen + DisplayTitle(title, name) + TitleClose)
  }

  /** `formatTitle`, the title inserted literally in place of the first `{title}`. */
  function FormatTitle(template: string, title: string, name: string): string
  {
    ReplaceFirst(template, TitleSlot, TitleOpen + DisplayTitle(title, name) + TitleClose)
  }

  /**
   * The wrapped title replaces the first `{title}` of the template (one
   * whose text before it has no `{`); the rest of the template is kept.
   */
  lemma FormatTitleFillsSlot(pre: string, post: string, title: string, name: string)
    requires '{' !in pre
    ensures FormatTitle(pre + TitleSlot + post, title, name) == pre + TitleOpen + DisplayTitle(title, name) + TitleClose + post
  {
    ReplaceFirstSplits(pre, TitleSlot, TitleOpen + DisplayTitle(title, name) + TitleClose, post);
  }

  /** A template without `{title}` is shown as it is. */
  lemma FormatTitleNoSlot(template: string, title: string, name: string)
    requires !Contains(template, TitleSlot)
    ensures FormatTitle(template, title, name) == template
  {
    ReplaceFirstAbsent(template, TitleSlot, TitleOpen + DisplayTitle(title, name) + TitleClose);
  }

  /** When neither the title nor the name holds `$`, the code as written agrees with the literal insertion. */
  lemma FormatTitleAgreesWithoutDollar(template: string, title: string, name: string)
    requires '$' !in title && '$' !in name
    ensures FormatTitleAsWritten(template, title, name) == FormatTitle(template, title, name)
  {
    var shown := TitleOpen + DisplayTitle(title, name) + TitleClose;
    assert '$' !in TitleOpen && '$' !in TitleClose && '$' !in "()";
    assert '$' !in shown;
    ReplaceJsDollarFree(template, TitleSlot, shown);
  }

  /** `$$` in a replacement is one `$`. */
  lemma SubstitutionDoubleDollar(b: string, matched: string, before: string, after: string)
    ensures Substitution("$$" + b, matched, before, after) == "$" + Substitution(b, matched, before, after)
  {
    assert ("$$" + b)[2..] == b;
  }

  /** Replacing the whole of a string whose only text is the pattern, with `open + "$$" + close`. */
  lemma ReplaceSlotWithDollars(open: string, close: string)
    requires '$' !in open && '$' !in close
    ensures ReplaceJs(TitleSlot, TitleSlot, open + "$$" + close) == open + "$" + close
  {
    assert IndexOf(TitleSlot, TitleSlot) == Some(0);
    assert TitleSlot[..0] == [] && TitleSlot[|TitleSlot|..] == [];
    assert open + "$$" + close == open + ("$$" + close);
    SubstitutionPrefix(open, "$$" + close, TitleSlot, [], []);
    SubstitutionDoubleDollar(close, TitleSlot, [], []);
    SubstitutionDollarFree(close, TitleSlot, [], []);
  }

  /** A title `$$` on the result card's template shows as a single `$`. */
  lemma DollarTitleCollapses(title: string, name: string)
    requires title == "$$"
    ensures FormatTitleAsWritten(TitleSlot, title, name) == TitleOpen + "$" + TitleClose
    ensures FormatTitle(TitleSlot, title, name) == TitleOpen + "$$" + TitleClose
    ensures FormatTitleAsWritten(TitleSlot, title, name) != FormatTitle(TitleSlot, title, name)
  {
    assert '$' !in TitleOpen && '$' !in TitleClose;
    ReplaceSlotWithDollars(TitleOpen, TitleClose);
    FormatTitleFillsSlot([], [], title, name);
    assert [] + TitleSlot + [] == TitleSlot;
    assert |TitleOpen + "$" + TitleClose| != |TitleOpen + "$$" + TitleClose|;
  }

  // ---------------------------------------------------------------
  // The rendered card

  /** `<shiny-markdown-stream content=… content-type="markdown">`, never streaming. */
  datatype MarkdownBlock = MarkdownBlock(content: string)

  /** The request section of a result card: folded into `<details>`, or inline after "Tool call". */
  datatype RequestSection = Folded(call: MarkdownBlock) | Inline(call: MarkdownBlock)

  /** The value section of a result card. */
  datatype ResultValue = RawHtml(html: string) | Paragraph(text: string) | Markdown(block: MarkdownBlock)

  datatype Body =
    | Arguments(block: MarkdownBlock)
    | Outcome(request: Option<RequestSection>, resultHeader: bool, result: ResultValue)

  /**
   * What `renderCard` produces: ids, the expanded state on the header
   * button, the icon and title with the status class, the intent, and the
   * body with its classes and `inert` flag.
   */
  datatype Card = Card(
    headerId: string,
    contentId: string,
    ariaExpanded: bool,
    statusClass: string,
    iconHtml: string,
    titleHtml: string,
    intent: Option<string>,
    bodyClasses: set<string>,
    inert: bool,
    body: Body)

  const BodyClasses: set<string> := {"card-body", "bslib-gap-spacing", "html-fill-item", "html-fill-container"}

  /** The markup of the icons the cards show. */
  datatype CardIcons = CardIcons(exclamationCircleFill: string, wrenchAdjustable: string)

  const SpinnerIcon: string := "<div class=\"spinner-border\" role=\"status\"></div>"

  /** The card state shared by requests and results. */
  class ToolCard {
    const requestId: string
    const name: string
    const title: string
    const intent: Option<string>
    var expanded: bool
    var classStatus: string
    var icon: string
    var titleTemplate: string

    constructor (requestId: string, name: string, title: string, intent: Option<string>,
                 titleTemplate: string, icon: string)
      ensures this.requestId == requestId && this.name == name && this.title == title && this.intent == intent
      ensures !expanded && classStatus == "" && this.icon == icon && this.titleTemplate == titleTemplate
    {
      this.requestId := requestId;
      this.name := name;
      this.title := title;
      this.intent := intent;
      expanded := false;
      classStatus := "";
      this.icon := icon;
      this.titleTemplate := titleTemplate;
    }

    /** A click on the header flips `expanded`. */
    method ToggleCollapse()
      modifies this
      ensures expanded == !old(expanded)
      ensures classStatus == old(classStatus) && icon == old(icon) && titleTemplate == old(titleTemplate)
    {
      expanded := !expanded;
    }

    /** The card's markup; the title is the corrected `formatTitle`, which inserts the title literally. */
    function RenderCard(body: Body): (c: Card)
      reads this
      ensures c.ariaExpanded == expanded && c.body == body
      ensures ("collapsed" in c.bodyClasses <==> !expanded) && (c.inert <==> !expanded)
      ensures c.intent.Some? <==> intent.Some? && intent.value != ""
      ensures c.titleHtml == FormatTitle(titleTemplate, title, name)
    {
      Card("tool-header-" + requestId, "tool-content-" + requestId, expanded, classStatus, icon,
           FormatTitle(titleTemplate, title, name),
           if intent.Some? && intent.value != "" then intent else None,
           if expanded then BodyClasses else BodyClasses + {"collapsed"},
           !expanded, body)
    }
  }

  /** Two clicks leave a card as it was, expanded or collapsed. */
  method ToggleTwice(card: ToolCard)
    modifies card
    ensures card.expanded == old(card.expanded)
  {
    card.ToggleCollapse();
    card.ToggleCollapse();
  }

  // ---------------------------------------------------------------
  // Requests

  class ToolRequest {
    const card: ToolCard
    const arguments: string
    var hidden: bool

    constructor (requestId: string, name: string, title: string, intent: Option<string>, arguments: string)
      ensures fresh(card) && !hidden && this.arguments == arguments
      ensures card.requestId == requestId && card.name == name && card.title == title && card.intent == intent
      ensures !card.expanded && card.titleTemplate == "Running {title}" && card.icon == SpinnerIcon
    {
      card := new ToolCard(requestId, name, title, intent, "Running {title}", SpinnerIcon);
      this.arguments := arguments;
      hidden := false;
    }

    /** The window-level `shiny-tool-request-hide` listener. */
    method OnToolRequestHide(requestId: string)
      modifies this
      ensures hidden == (old(hidden) || requestId == card.requestId)
    {
      if requestId == card.requestId {
        hidden := true;
      }
    }

    /** Nothing once hidden; otherwise a card whose body shows the arguments as a JSON code block (corrected title). */
    function Render(): (r: Option<Card>)
      reads this, card
      ensures hidden <==> r.None?
      ensures r.Some? ==> r.value.body.Arguments? &&
                          CodeBlockContent(r.value.body.block.content, "json") == Some(arguments)
    {
      if hidden then None
      else Some(card.RenderCard(Arguments(MarkdownBlock(MarkdownCodeBlock(arguments, Some("json"))))))
    }
  }

  /** The hidden flag after a run of hide events, each carrying a request id. */
  function HiddenAfter(hidden: bool, requestId: string, events: seq<string>): bool
    decreases |events|
  {
    if events == [] then hidden
    else HiddenAfter(hidden || events[0] == requestId, requestId, events[1..])
  }

  /** A request ends hidden exactly when it was already, or some event named its id. */
  lemma {:induction false} HiddenAfterIff(hidden: bool, requestId: string, events: seq<string>)
    ensures HiddenAfter(hidden, requestId, events) <==> hidden || requestId in events
    decreases |events|
  {
    if events != [] {
      HiddenAfterIff(hidden || events[0] == requestId, requestId, events[1..]);
      assert events == [events[0]] + events[1..];
    }
  }

  // ---------------------------------------------------------------
  // Results

  /** `#renderResult`'s choice by value type. */
  function RenderResultValue(valueType: string, value: string): (r: ResultValue)
    ensures valueType == "html" ==> r == RawHtml(value)
    ensures valueType == "text" ==> r == Paragraph(value)
    ensures valueType == "markdown" ==> r == Markdown(MarkdownBlock(value))
    ensures valueType !in {"html", "text", "markdown"} ==>
              r.Markdown? && CodeBlockContent(r.block.content, "markdown") == Some(value)
  {
    if valueType == "html" then RawHtml(value)
    else if valueType == "text" then Paragraph(value)
    else
      var block := if valueType != "markdown" then MarkdownCodeBlock(value, None) else "";
      Markdown(MarkdownBlock(if block != "" then block else value))
  }

  /**
   * `#renderRequest`: nothing unless the request is to be shown and there
   * is a call; a call of more than two lines is folded.
   */
  function RenderRequest(showRequest: bool, requestCall: Option<string>): (r: Option<RequestSection>)
    ensures r.None? <==> !showRequest || requestCall.None? || requestCall.value == ""
    ensures r.Some? ==> (r.value.Folded? <==> SplitCount(requestCall.value, '\n') > 2)
    ensures r.Some? ==> CodeBlockContent(r.value.call.content, "") == Some(requestCall.value)
  {
    if !showRequest || requestCall.None? || requestCall.value == "" then None
    else
      var call := MarkdownBlock(MarkdownCodeBlock(requestCall.value, Some("")));
      if SplitCount(requestCall.value, '\n') > 2 then Some(Folded(call)) else Some(Inline(call))
  }

  /** A one- or two-line call is shown inline, never folded. */
  lemma ShortCallInline(call: string)
    requires call != "" && CountChar(call, '\n') <= 1
    ensures RenderRequest(true, Some(call)).Some? && RenderRequest(true, Some(call)).value.Inline?
  {
  }

  class ToolResult {
    const card: ToolCard
    const requestCall: Option<string>
    const status: string
    const showRequest: bool
    const value: string
    const valueType: string

    constructor (requestId: string, name: string, title: string, intent: Option<string>,
                 requestCall: Option<string>, status: string, showRequest: bool, value: string, valueType: string)
      ensures fresh(card)
      ensures card.requestId == requestId && card.name == name && card.title == title && card.intent == intent
      ensures !card.expanded && card.titleTemplate == "{title}" && card.icon == "" && card.classStatus == ""
      ensures this.requestCall == requestCall && this.status == status && this.showRequest == showRequest
      ensures this.value == value && this.valueType == valueType
    {
      card := new ToolCard(requestId, name, title, intent, "{title}", "");
      this.requestCall := requestCall;
      this.status := status;
      this.showRequest := showRequest;
      this.value := value;
      this.valueType := valueType;
    }

    /**
     * `connectedCallback`: an error status marks the card as failed
     * (danger class, error icon, "… failed" title), any other status only
     * sets the wrench icon.  Returns the request id the hide event carries.
     */
    method ConnectedCallback(icons: CardIcons) returns (hideRequestId: string)
      modifies card
      ensures hideRequestId == card.requestId
      ensures status == "error" ==>
                card.classStatus == "text-danger" && card.icon == icons.exclamationCircleFill
                && card.titleTemplate == "{title} failed"
      ensures status != "error" ==>
                card.classStatus == old(card.classStatus) && card.icon == icons.wrenchAdjustable
                && card.titleTemplate == old(card.titleTemplate)
      ensures card.expanded == old(card.expanded)
    {
      if status == "error" {
        card.classStatus := "text-danger";
        card.icon := icons.exclamationCircleFill;
        card.titleTemplate := "{title} failed";
      } else {
        card.icon := icons.wrenchAdjustable;
      }
      hideRequestId := card.requestId;
    }

    /** The result card, with the corrected title: the request section, then the value. */
    function Render(): (c: Card)
      reads this, card
      ensures c.body == Outcome(RenderRequest(showRequest, requestCall), showRequest, RenderResultValue(valueType, value))
    {
      card.RenderCard(Outcome(RenderRequest(showRequest, requestCall), showRequest, RenderResultValue(valueType, value)))
    }
  }

  /** The titles the corrected `formatTitle` gives: "Running …" for requests and "… failed" for failed results. */
  lemma TemplateTitles(title: string, name: string)
    ensures FormatTitle("Running {title}", title, name) == "Running " + TitleOpen + DisplayTitle(title, name) + TitleClose
    ensures FormatTitle("{title} failed", title, name) == TitleOpen + DisplayTitle(title, name) + TitleClose + " failed"
    ensures FormatTitle("{title}", title, name) == TitleOpen + DisplayTitle(title, name) + TitleClose
  {
    FormatTitleFillsSlot("Running ", [], title, name);
    assert "Running " + TitleSlot + [] == "Running {title}";
    FormatTitleFillsSlot([], " failed", title, name);
    assert [] + TitleSlot + " failed" == "{title} failed";
    FormatTitleFillsSlot([], [], title, name);
    assert [] + TitleSlot + [] == "{title}";
  }

  /**
   * Connecting a result hides a request exactly when their request ids
   * are equal; a failed result then renders the "… failed" title, by the
   * corrected `formatTitle`.
   */
  method ConnectResult(result: ToolResult, request: ToolRequest, icons: CardIcons)
    modifies result.card, request
    ensures request.hidden == (old(request.hidden) || request.card.requestId == result.card.requestId)
    ensures result.status == "error" ==>
              result.Render().titleHtml
                == TitleOpen + DisplayTitle(result.card.title, result.card.name) + TitleClose + " failed"
  {
    var id := result.ConnectedCallback(icons);
    request.OnToolRequestHide(id);
    TemplateTitles(result.card.title, result.card.name);
  }
}

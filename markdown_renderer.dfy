/**
 * The shared renderer of the Lit streaming element: HTML escaping, the two
 * `marked` renderers with their hooks, and the content-type dispatch of
 * `renderToHTML`.
 */
module MarkdownRenderer {
  import opened Common
  import opened Host
  import Utils

  // ---------------------------------------------------------------
  // escapeHTML

  /**
   * `escapeHTML`: `&` first, then `<`, `>`, `"` and `'`, each replaced
   * everywhere by its entity.
   */
  function EscapeHtml(s: string): string
  {
    var s1 := ReplaceAllChar(s, '&', "&amp;");
    var s2 := ReplaceAllChar(s1, '<', "&lt;");
    var s3 := ReplaceAllChar(s2, '>', "&gt;");
    var s4 := ReplaceAllChar(s3, '"', "&quot;");
    ReplaceAllChar(s4, '\'', "&#039;")
  }

  /** The entity one character becomes. */
  function EscapeChar(c: char): string
  {
    if c == '&' then "&amp;"
    else if c == '<' then "&lt;"
    else if c == '>' then "&gt;"
    else if c == '"' then "&quot;"
    else if c == '\'' then "&#039;"
    else [c]
  }

  lemma EscapeHtmlConcat(a: string, b: string)
    ensures EscapeHtml(a + b) == EscapeHtml(a) + EscapeHtml(b)
  {
    var a1, b1 := ReplaceAllChar(a, '&', "&amp;"), ReplaceAllChar(b, '&', "&amp;");
    ReplaceAllCharConcat(a, b, '&', "&amp;");
    var a2, b2 := ReplaceAllChar(a1, '<', "&lt;"), ReplaceAllChar(b1, '<', "&lt;");
    ReplaceAllCharConcat(a1, b1, '<', "&lt;");
    var a3, b3 := ReplaceAllChar(a2, '>', "&gt;"), ReplaceAllChar(b2, '>', "&gt;");
    ReplaceAllCharConcat(a2, b2, '>', "&gt;");
    var a4, b4 := ReplaceAllChar(a3, '"', "&quot;"), ReplaceAllChar(b3, '"', "&quot;");
    ReplaceAllCharConcat(a3, b3, '"', "&quot;");
    ReplaceAllCharConcat(a4, b4, '\'', "&#039;");
  }

  /** The chained replacements escape a single character to its entity: no later step touches an earlier entity. */
  lemma EscapeHtmlChar(c: char)
    ensures EscapeHtml([c]) == EscapeChar(c)
  {
    if c == '&' { EscapeAmp(c); }
    else if c == '<' { EscapeLt(c); }
    else if c == '>' { EscapeGt(c); }
    else if c == '"' { EscapeQuot(c); }
    else if c == '\'' { EscapeApos(c); }
    else { EscapePlain(c); }
  }

  lemma EscapeAmp(c: char)
    requires c == '&'
    ensures EscapeHtml([c]) == EscapeChar(c)
  {
    var s1 := ReplaceAllChar([c], '&', "&amp;");
    ReplaceAllCharSingle(c, '&', "&amp;");
    EntityPassesRest(s1);
  }

  /** The last four steps leave alone a string without their pattern characters. */
  lemma EntityPassesRest(e: string)
    requires '<' !in e && '>' !in e && '"' !in e && '\'' !in e
    ensures ReplaceAllChar(ReplaceAllChar(ReplaceAllChar(ReplaceAllChar(e, '<', "&lt;"), '>', "&gt;"), '"', "&quot;"), '\'', "&#039;") == e
  {
    ReplaceAllCharAbsent(e, '<', "&lt;");
    ReplaceAllCharAbsent(e, '>', "&gt;");
    ReplaceAllCharAbsent(e, '"', "&quot;");
    ReplaceAllCharAbsent(e, '\'', "&#039;");
  }

  lemma EscapeLt(c: char)
    requires c == '<'
    ensures EscapeHtml([c]) == EscapeChar(c)
  {
    ReplaceAllCharSingle(c, '&', "&amp;");
    ReplaceAllCharSingle(c, '<', "&lt;");
    EntityPassesLastThree("&lt;");
  }

  /** The last three steps leave alone a string without their pattern characters. */
  lemma EntityPassesLastThree(e: string)
    requires '>' !in e && '"' !in e && '\'' !in e
    ensures ReplaceAllChar(ReplaceAllChar(ReplaceAllChar(e, '>', "&gt;"), '"', "&quot;"), '\'', "&#039;") == e
  {
    ReplaceAllCharAbsent(e, '>', "&gt;");
    ReplaceAllCharAbsent(e, '"', "&quot;");
    ReplaceAllCharAbsent(e, '\'', "&#039;");
  }

  /** The first `k` replacement steps leave a character none of them matches as it is. */
  lemma PassesFirstSteps(c: char, k: nat)
    requires k <= 5
    requires k >= 1 ==> c != '&'
    requires k >= 2 ==> c != '<'
    requires k >= 3 ==> c != '>'
    requires k >= 4 ==> c != '"'
    requires k >= 5 ==> c != '\''
    ensures k >= 1 ==> ReplaceAllChar([c], '&', "&amp;") == [c]
    ensures k >= 2 ==> ReplaceAllChar([c], '<', "&lt;") == [c]
    ensures k >= 3 ==> ReplaceAllChar([c], '>', "&gt;") == [c]
    ensures k >= 4 ==> ReplaceAllChar([c], '"', "&quot;") == [c]
    ensures k >= 5 ==> ReplaceAllChar([c], '\'', "&#039;") == [c]
  {
    ReplaceAllCharSingle(c, '&', "&amp;");
    ReplaceAllCharSingle(c, '<', "&lt;");
    ReplaceAllCharSingle(c, '>', "&gt;");
    ReplaceAllCharSingle(c, '"', "&quot;");
    ReplaceAllCharSingle(c, '\'', "&#039;");
  }

  lemma EscapeGt(c: char)
    requires c == '>'
    ensures EscapeHtml([c]) == EscapeChar(c)
  {
    PassesFirstSteps(c, 2);
    ReplaceAllCharSingle(c, '>', "&gt;");
    ReplaceAllCharAbsent("&gt;", '"', "&quot;");
    ReplaceAllCharAbsent("&gt;", '\'', "&#039;");
  }

  lemma EscapeQuot(c: char)
    requires c == '"'
    ensures EscapeHtml([c]) == EscapeChar(c)
  {
    PassesFirstSteps(c, 3);
    ReplaceAllCharSingle(c, '"', "&quot;");
    ReplaceAllCharAbsent("&quot;", '\'', "&#039;");
  }

  lemma EscapeApos(c: char)
    requires c == '\''
    ensures EscapeHtml([c]) == EscapeChar(c)
  {
    PassesFirstSteps(c, 4);
    ReplaceAllCharSingle(c, '\'', "&#039;");
  }

  lemma EscapePlain(c: char)
    requires c != '&' && c != '<' && c != '>' && c != '"' && c != '\''
    ensures EscapeHtml([c]) == [c]
  {
    PassesFirstSteps(c, 5);
  }

  /** Escaping works character by character. */
  lemma EscapeHtmlCons(c: char, rest: string)
    ensures EscapeHtml([c] + rest) == EscapeChar(c) + EscapeHtml(rest)
  {
    EscapeHtmlConcat([c], rest);
    EscapeHtmlChar(c);
  }

  /** Escaping as a character-by-character map. */
  function EscapeEach(s: string): string
  {
    if s == [] then [] else EscapeChar(s[0]) + EscapeEach(s[1..])
  }

  /** The chain of five `replaceAll` calls is the character-by-character escape. */
  lemma {:induction false} EscapeHtmlIsEscapeEach(s: string)
    ensures EscapeHtml(s) == EscapeEach(s)
  {
    if s == [] {
      assert ReplaceAllChar([], '&', "&amp;") == [];
    } else {
      assert s == [s[0]] + s[1..];
      EscapeHtmlCons(s[0], s[1..]);
      EscapeHtmlIsEscapeEach(s[1..]);
    }
  }

  /** One character's escape holds no markup character and no quote. */
  lemma EscapeCharNoMarkup(c: char)
    ensures var e := EscapeChar(c); '<' !in e && '>' !in e && '"' !in e && '\'' !in e
  {
  }

  lemma {:induction false} EscapeEachNoMarkup(s: string)
    ensures var r := EscapeEach(s); '<' !in r && '>' !in r && '"' !in r && '\'' !in r
  {
    if s != [] {
      EscapeCharNoMarkup(s[0]);
      EscapeEachNoMarkup(s[1..]);
      var e, r := EscapeChar(s[0]), EscapeEach(s[1..]);
      assert EscapeEach(s) == e + r;
      assert forall x :: x in e + r ==> x in e || x in r;
    }
  }

  /** Escaped text holds no markup character and no quote. */
  lemma EscapeHtmlNoMarkup(s: string)
    ensures var r := EscapeHtml(s); '<' !in r && '>' !in r && '"' !in r && '\'' !in r
  {
    EscapeHtmlIsEscapeEach(s);
    EscapeEachNoMarkup(s);
  }

  /**
   * Reading entities back: `&amp;`, `&lt;`, `&gt;`, `&quot;` and `&#039;`
   * become the character they stand for; every other character is kept.
   */
  function UnescapeHtml(t: string): string
    decreases |t|
  {
    if t == [] then []
    else if "&amp;" <= t then "&" + UnescapeHtml(t[5..])
    else if "&lt;" <= t then "<" + UnescapeHtml(t[4..])
    else if "&gt;" <= t then ">" + UnescapeHtml(t[4..])
    else if "&quot;" <= t then "\"" + UnescapeHtml(t[6..])
    else if "&#039;" <= t then "'" + UnescapeHtml(t[6..])
    else [t[0]] + UnescapeHtml(t[1..])
  }

  /** Reading back one entity, followed by anything. */
  lemma UnescapeEntity(c: char, t: string)
    ensures UnescapeHtml(EscapeChar(c) + t) == [c] + UnescapeHtml(t)
  {
    var e := EscapeChar(c);
    var u := e + t;
    assert u[|e|..] == t;
    if c == '&' {
      assert "&amp;" <= u;
    } else if c == '<' {
      assert u[..4] == "&lt;";
      assert !("&amp;" <= u) by { assert u[1] == 'l'; }
    } else if c == '>' {
      assert u[..4] == "&gt;";
      assert !("&amp;" <= u) && !("&lt;" <= u) by { assert u[1] == 'g'; }
    } else if c == '"' {
      assert u[..6] == "&quot;";
      assert !("&amp;" <= u) && !("&lt;" <= u) && !("&gt;" <= u) by { assert u[1] == 'q'; }
    } else if c == '\'' {
      assert u[..6] == "&#039;";
      assert !("&amp;" <= u) && !("&lt;" <= u) && !("&gt;" <= u) && !("&quot;" <= u) by { assert u[1] == '#'; }
    } else {
      assert u[0] == c != '&';
      assert u[1..] == t;
    }
  }

  lemma {:induction false} UnescapeEscapeEach(s: string)
    ensures UnescapeHtml(EscapeEach(s)) == s
  {
    if s != [] {
      UnescapeEntity(s[0], EscapeEach(s[1..]));
      UnescapeEscapeEach(s[1..]);
      assert s == [s[0]] + s[1..];
    }
  }

  /** Escaping is reversible: reading the entities back restores the input. */
  lemma UnescapeEscape(s: string)
    ensures UnescapeHtml(EscapeHtml(s)) == s
  {
    EscapeHtmlIsEscapeEach(s);
    UnescapeEscapeEach(s);
  }

  /** Distinct inputs never escape to the same string. */
  lemma EscapeHtmlInjective(a: string, b: string)
    requires EscapeHtml(a) == EscapeHtml(b)
    ensures a == b
  {
    UnescapeEscape(a);
    UnescapeEscape(b);
  }

  lemma {:induction false} EscapeEachKeepsNewlines(s: string)
    ensures CountChar(EscapeEach(s), '\n') == CountChar(s, '\n')
  {
    if s != [] {
      var e := EscapeChar(s[0]);
      CountCharConcat(e, EscapeEach(s[1..]), '\n');
      EscapeEachKeepsNewlines(s[1..]);
      EscapeCharNewlines(s[0]);
      assert CountChar(s, '\n') == (if s[0] == '\n' then 1 else 0) + CountChar(s[1..], '\n');
    }
  }

  /** One character's escape holds a newline exactly when the character is one. */
  lemma EscapeCharNewlines(c: char)
    ensures CountChar(EscapeChar(c), '\n') == if c == '\n' then 1 else 0
  {
    var e := EscapeChar(c);
    if e == [c] {
      assert e[1..] == [];
    } else {
      assert '\n' !in e;
    }
  }

  /** Newlines pass through escaping untouched: the same number, and no `<br>` is added. */
  lemma EscapeKeepsNewlines(s: string)
    ensures CountChar(EscapeHtml(s), '\n') == CountChar(s, '\n')
  {
    EscapeHtmlIsEscapeEach(s);
    EscapeEachKeepsNewlines(s);
  }

  lemma {:induction false} CountCharConcat(a: string, b: string, c: char)
    ensures CountChar(a + b, c) == CountChar(a, c) + CountChar(b, c)
  {
    if a == [] {
      assert a + b == b;
    } else {
      assert (a + b)[1..] == a[1..] + b;
      CountCharConcat(a[1..], b, c);
    }
  }

  // ---------------------------------------------------------------
  // The two renderers and their hooks

  /** The full renderer, for assistant messages: Bootstrap tables and raw `{=html}` blocks. */
  const MarkdownRendererHooks: Renderer := Renderer(true, true, false)

  /** The semi-markdown renderer, for user messages: raw HTML is escaped. */
  const SemiMarkdownRendererHooks: Renderer := Renderer(false, false, true)

  const TableOpen: string := "<table class=\"table table-striped table-bordered\">"
  const Indent: string := "\n      "
  const TheadOpen: string := "<thead>"
  const TheadClose: string := "</thead>"
  const TbodyOpen: string := "<tbody>"
  const TbodyClose: string := "</tbody>"
  const TableClose: string := "\n    </table>"

  /** The table hook of both renderers that style tables. */
  function TableHook(header: string, body: string): string
  {
    TableOpen + Indent + (TheadOpen + header + TheadClose) + Indent + (TbodyOpen + body + TbodyClose) + TableClose
  }

  /**
   * A table is emitted with the Bootstrap striped, bordered classes, its
   * header inside `<thead>` and its body inside `<tbody>`.
   */
  lemma TableHookStructure(header: string, body: string)
    ensures TableOpen <= TableHook(header, body)
    ensures Contains(TableHook(header, body), TheadOpen + header + TheadClose)
    ensures Contains(TableHook(header, body), TbodyOpen + body + TbodyClose)
  {
    TwoPieces(TableOpen, Indent, TheadOpen + header + TheadClose, Indent, TbodyOpen + body + TbodyClose, TableClose);
  }

  /** A string laid out as `open`, two pieces and separators starts with `open` and contains both pieces. */
  lemma TwoPieces(open: string, a: string, x: string, b: string, y: string, close: string)
    ensures open <= open + a + x + b + y + close
    ensures Contains(open + a + x + b + y + close, x)
    ensures Contains(open + a + x + b + y + close, y)
  {
    var s := open + a + x + b + y + close;
    assert s == open + (a + x + b + y + close);
    assert s == (open + a) + x + (b + y + close);
    ContainsMiddle(open + a, x, b + y + close);
    assert s == (open + a + x + b) + y + close;
    ContainsMiddle(open + a + x + b, y, close);
  }

  /**
   * The code hook of the full renderer: a block whose info string is
   * exactly `{=html}` is emitted as its raw text; any other block goes to
   * the default code renderer.
   */
  function CodeHook(code: string, infostring: Option<string>, escaped: bool,
                    default: (string, Option<string>, bool) -> string): (r: string)
    ensures infostring == Some("{=html}") ==> r == code
    ensures infostring != Some("{=html}") ==> r == default(code, infostring, escaped)
  {
    if infostring == Some("{=html}") then code else default(code, infostring, escaped)
  }

  /** The `html` hook of the semi-markdown renderer: raw HTML is shown as text. */
  function SemiHtmlHook(html: string): (r: string)
    ensures '<' !in r && '>' !in r
    ensures UnescapeHtml(r) == html
  {
    UnescapeEscape(html);
    EscapeHtmlNoMarkup(html);
    EscapeHtml(html)
  }

  // ---------------------------------------------------------------
  // renderToHTML

  /**
   * `renderToHTML(content, contentType)`: `html` unchanged, `text`
   * escaped, any type mentioning `markdown` parsed then sanitized, any
   * other type an error.
   */
  function RenderToHtml(env: Env, content: string, contentType: string): (r: Result<string, string>)
    ensures contentType == "html" ==> r == Ok(content)
    ensures contentType == "text" ==> r == Ok(EscapeHtml(content))
    ensures contentType != "html" && contentType != "text" && Contains(contentType, "markdown") ==>
              r == Ok(Utils.SanitizeHtml(env, env.parse(content,
                     if contentType == "semi-markdown" then SemiMarkdownRendererHooks else MarkdownRendererHooks)))
    ensures r.Err? <==> contentType != "html" && contentType != "text" && !Contains(contentType, "markdown")
    ensures r.Err? ==> r.error == "Unknown content type: " + contentType
  {
    if contentType == "html" then Ok(content)
    else if contentType == "text" then Ok(EscapeHtml(content))
    else if Contains(contentType, "markdown") then
      var renderer := if contentType == "semi-markdown" then SemiMarkdownRendererHooks else MarkdownRendererHooks;
      Ok(Utils.SanitizeHtml(env, env.parse(content, renderer)))
    else Err("Unknown content type: " + contentType)
  }

  /** Text content comes back as escaped text, reversible, with its newlines and without markup. */
  lemma RenderTextIsEscapedText(env: Env, content: string)
    ensures RenderToHtml(env, content, "text").Ok?
    ensures var html := RenderToHtml(env, content, "text").value;
            '<' !in html && UnescapeHtml(html) == content
            && CountChar(html, '\n') == CountChar(content, '\n')
  {
    UnescapeEscape(content);
    EscapeKeepsNewlines(content);
    EscapeHtmlNoMarkup(content);
  }

  /** Only the exact type `semi-markdown` selects the escaping renderer; every other markdown type uses the full one. */
  lemma MarkdownTypesRenderer(env: Env, content: string, contentType: string)
    requires Contains(contentType, "markdown")
    ensures contentType != "semi-markdown" ==>
              RenderToHtml(env, content, contentType) == Ok(env.purify(env.parse(content, MarkdownRendererHooks)))
    ensures contentType == "semi-markdown" ==>
              RenderToHtml(env, content, contentType) == Ok(env.purify(env.parse(content, SemiMarkdownRendererHooks)))
  {
    assert contentType != "html" && contentType != "text" by {
      if contentType == "html" || contentType == "text" {
        assert |contentType| < |"markdown"|;
        NotContainsLonger(contentType, "markdown");
        assert false;
      }
    }
  }
}

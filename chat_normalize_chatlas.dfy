/**
 * How chatlas tool requests and results become tool cards
 * (_chat_normalize_chatlas.py): the `SHINYCHAT_TOOL_DISPLAY` override,
 * the choice of the displayed value, the per-result display options, and
 * the attributes of the `<shiny-tool-request>` / `<shiny-tool-result>`
 * tags.  The environment variable, `json.dumps` and `str` of a JSON value
 * are parameters; a warning is returned as a flag.
 */
module ChatNormalizeChatlas {
  import opened Common
  import opened ToolDisplay

  // ---------------------------------------------------------------
  // The override

  datatype Override = DisplayNone | DisplayBasic | DisplayRich

  const OverrideError: string :=
    "The `SHINYCHAT_TOOL_DISPLAY` env var must be one of: \"none\", \"basic\", or \"rich\""

  function OverrideName(o: Override): string
  {
    match o
      case DisplayNone => "none"
      case DisplayBasic => "basic"
      case DisplayRich => "rich"
  }

  /** `tool_display_override`: `env` is the variable's value, `None` when unset. */
  function ToolDisplayOverride(env: Option<string>): (r: Result<Override, string>)
    ensures env.None? ==> r == Ok(DisplayRich)
    ensures env.Some? ==> (r.Ok? <==> env.value == "none" || env.value == "basic" || env.value == "rich")
    ensures env.Some? && r.Ok? ==> OverrideName(r.value) == env.value
    ensures r.Err? ==> r.error == OverrideError
  {
    var v := if env.Some? then env.value else "rich";
    if v == "rich" then Ok(DisplayRich)
    else if v == "basic" then Ok(DisplayBasic)
    else if v == "none" then Ok(DisplayNone)
    else Err(OverrideError)
  }

  // ---------------------------------------------------------------
  // UI values

  /** A UI value: `None`, a plain string, an `HTML` string, or a tag with its dependencies. */
  datatype TagChild = TNone | TText(s: string) | THtml(s: string) | TTag(html: string, deps: seq<string>)

  /** Python truthiness of a UI value. */
  predicate Truthy(t: TagChild)
  {
    match t
      case TNone => false
      case TText(s) => s != ""
      case THtml(s) => s != ""
      case TTag(_, _) => true
  }

  /** `str(value)` */
  function PyStr(t: TagChild): string
  {
    match t
      case TNone => "None"
      case TText(s) => s
      case THtml(s) => s
      case TTag(html, _) => html
  }

  /** The escaping applied to plain strings in a tag list: `&`, `<` and `>`. */
  function EscapeText(s: string): (r: string)
    ensures '<' !in r && '>' !in r
  {
    if s == [] then []
    else
      var c := s[0];
      (if c == '&' then "&amp;" else if c == '<' then "&lt;" else if c == '>' then "&gt;" else [c]) + EscapeText(s[1..])
  }

  /** `TagList(value).render()`: its HTML and dependencies. */
  function RenderTagList(t: TagChild): (r: (string, seq<string>))
    ensures t.TNone? ==> r == ("", [])
    ensures t.TText? ==> r.0 == EscapeText(t.s) && r.1 == []
    ensures t.THtml? ==> r == (t.s, [])
    ensures t.TTag? ==> r == (t.html, t.deps)
  {
    match t
      case TNone => ("", [])
      case TText(s) => (EscapeText(s), [])
      case THtml(s) => (s, [])
      case TTag(html, deps) => (html, deps)
  }

  // ---------------------------------------------------------------
  // Display options

  /** `ToolResultDisplay` */
  datatype ToolResultDisplay = ToolResultDisplay(
    html: TagChild,
    markdown: Option<string>,
    text: Option<string>,
    showRequest: bool,
    open: bool,
    title: Option<string>,
    icon: TagChild,
    expanded: Option<bool>)

  const DefaultDisplay: ToolResultDisplay := ToolResultDisplay(TNone, None, None, true, false, None, TNone, None)

  const DisplayFields: set<string> := {"html", "markdown", "text", "show_request", "open", "title", "icon", "expanded"}

  /**
   * The `display` entry of a result's `extra`: a `ToolResultDisplay`, a
   * dict (its keys, and the values under them), or anything else.
   */
  datatype DisplayValue =
    | DisplayObject(d: ToolResultDisplay)
    | DisplayMapping(keys: set<string>, given: ToolResultDisplay)
    | DisplayInvalid

  /** A result's `extra`: not a dict, or a dict whose `display` key may be missing. */
  datatype Extra = ExtraNotDict | ExtraDict(display: Option<DisplayValue>)

  /** `ToolResultDisplay(**d)`: given keys take the dict's values, the others their defaults. */
  function FromMapping(keys: set<string>, given: ToolResultDisplay): (r: Result<ToolResultDisplay, string>)
    ensures r.Err? <==> !(keys <= DisplayFields)
    ensures r.Ok? && "html" in keys ==> r.value.html == given.html
    ensures r.Ok? && "html" !in keys ==> r.value.html == TNone
    ensures r.Ok? && "title" in keys ==> r.value.title == given.title
    ensures r.Ok? && "title" !in keys ==> r.value.title.None?
  {
    if !(keys <= DisplayFields) then Err("ToolResultDisplay() got an unexpected keyword argument")
    else Ok(ToolResultDisplay(
      if "html" in keys then given.html else DefaultDisplay.html,
      if "markdown" in keys then given.markdown else DefaultDisplay.markdown,
      if "text" in keys then given.text else DefaultDisplay.text,
      if "show_request" in keys then given.showRequest else DefaultDisplay.showRequest,
      if "open" in keys then given.open else DefaultDisplay.open,
      if "title" in keys then given.title else DefaultDisplay.title,
      if "icon" in keys then given.icon else DefaultDisplay.icon,
      if "expanded" in keys then given.expanded else DefaultDisplay.expanded))
  }

  /** A tool definition's annotations, as strings; empty when there are none. */
  datatype ToolDef = ToolDef(annotations: map<string, string>)

  datatype ContentToolRequest = ContentToolRequest(id: string, name: string, arguments: Json, tool: Option<ToolDef>)

  /** A tool result: `error` is `str(x.error)` when there is one, `modelValue` is `str(x.get_model_value())`. */
  datatype ContentToolResult = ContentToolResult(
    id: string,
    error: Option<string>,
    extra: Extra,
    request: Option<ContentToolRequest>,
    arguments: Json,
    modelValue: string)

  /**
   * `get_tool_result_display`: the default unless `extra` is a dict and
   * the override is not `"basic"`; otherwise the `display` entry as it is,
   * expanded from a dict, or, for anything else, the default with a
   * warning (the second component).
   */
  function GetToolResultDisplay(x: ContentToolResult, env: Option<string>): (r: Result<(ToolResultDisplay, bool), string>)
    ensures x.extra.ExtraNotDict? ==> r == Ok((DefaultDisplay, false))
    ensures x.extra.ExtraDict? && ToolDisplayOverride(env).Err? ==> r.Err?
    ensures x.extra.ExtraDict? && ToolDisplayOverride(env) == Ok(DisplayBasic) ==> r == Ok((DefaultDisplay, false))
    ensures r.Ok? && r.value.1 ==> r.value.0 == DefaultDisplay
    ensures x.extra.ExtraDict? && ToolDisplayOverride(env).Ok? && ToolDisplayOverride(env) != Ok(DisplayBasic) ==>
              match x.extra.display
                case None => r == Ok((DefaultDisplay, false))
                case Some(DisplayObject(d)) => r == Ok((d, false))
                case Some(DisplayMapping(keys, given)) =>
                  (r.Ok? <==> keys <= DisplayFields) && (r.Ok? ==> r.value == (FromMapping(keys, given).value, false))
                case Some(DisplayInvalid) => r == Ok((DefaultDisplay, true))
  {
    if x.extra.ExtraNotDict? then Ok((DefaultDisplay, false))
    else match ToolDisplayOverride(env)
      case Err(e) => Err(e)
      case Ok(o) =>
        if o == DisplayBasic then Ok((DefaultDisplay, false))
        else match x.extra.display
          case None => Ok((DefaultDisplay, false))
          case Some(DisplayObject(d)) => Ok((d, false))
          case Some(DisplayMapping(keys, given)) =>
            (match FromMapping(keys, given)
              case Ok(d) => Ok((d, false))
              case Err(e) => Err(e))
          case Some(DisplayInvalid) => Ok((DefaultDisplay, true))
  }

  /**
   * `tool_result_display`: an error always shows as code; under
   * `"basic"` the model value shows as code; otherwise html beats markdown
   * beats text, and the model value as code is the fallback.
   */
  function ToolResultDisplayValue(x: ContentToolResult, display: ToolResultDisplay, env: Option<string>)
    : (r: Result<(TagChild, string), string>)
    ensures x.error.Some? ==> r == Ok((TText(x.error.value), "code"))
    ensures x.error.None? && ToolDisplayOverride(env).Err? ==> r.Err?
    ensures x.error.None? && ToolDisplayOverride(env) == Ok(DisplayBasic) ==> r == Ok((TText(x.modelValue), "code"))
    ensures x.error.None? && ToolDisplayOverride(env).Ok? && ToolDisplayOverride(env) != Ok(DisplayBasic) ==>
              && r.Ok?
              && (display.html != TNone ==> r.value == (display.html, "html"))
              && (display.html == TNone && display.markdown.Some? ==> r.value == (TText(display.markdown.value), "markdown"))
              && (display.html == TNone && display.markdown.None? && display.text.Some? ==>
                    r.value == (TText(display.text.value), "text"))
              && (display.html == TNone && display.markdown.None? && display.text.None? ==>
                    r.value == (TText(x.modelValue), "code"))
  {
    if x.error.Some? then Ok((TText(x.error.value), "code"))
    else match ToolDisplayOverride(env)
      case Err(e) => Err(e)
      case Ok(o) =>
        if o == DisplayBasic then Ok((TText(x.modelValue), "code"))
        else if display.html != TNone then Ok((display.html, "html"))
        else if display.markdown.Some? then Ok((TText(display.markdown.value), "markdown"))
        else if display.text.Some? then Ok((TText(display.text.value), "text"))
        else Ok((TText(x.modelValue), "code"))
  }

  /** Under `"basic"` a result's own display options never reach the card's value. */
  lemma BasicIgnoresDisplay(x: ContentToolResult, d1: ToolResultDisplay, d2: ToolResultDisplay)
    requires x.error.None?
    ensures ToolResultDisplayValue(x, d1, Some("basic")) == ToolResultDisplayValue(x, d2, Some("basic"))
  {
    assert ToolDisplayOverride(Some("basic")) == Ok(DisplayBasic);
  }

  // ---------------------------------------------------------------
  // Components

  /** `ToolCardComponent` */
  datatype Card = Card(
    requestId: string,
    toolName: string,
    toolTitle: Option<string>,
    icon: TagChild,
    intent: Option<Json>,
    expanded: bool)

  datatype ToolRequestComponent = ToolRequestComponent(card: Card, arguments: string)

  datatype ToolResultComponent = ToolResultComponent(
    card: Card,
    requestCall: string,
    status: string,
    showRequest: bool,
    value: TagChild,
    valueType: string)

  /** What the contents functions return: an empty tag list, the content itself (old chatlas), or a card. */
  datatype Contents =
    | EmptyTagList
    | LegacyRequest(request: ContentToolRequest)
    | LegacyResult(result: ContentToolResult)
    | RequestCard(requestCard: ToolRequestComponent)
    | ResultCard(resultCard: ToolResultComponent)

  /** `arguments.get("_intent")` when the arguments are a dict. */
  function Intent(arguments: Json): (r: Option<Json>)
    ensures !arguments.JObject? ==> r.None?
    ensures arguments.JObject? ==> r == Lookup(arguments.entries, "_intent")
  {
    if arguments.JObject? then Lookup(arguments.entries, "_intent") else None
  }

  /** The tool definition's `title` annotation, when there are annotations. */
  function AnnotationTitle(tool: Option<ToolDef>): (r: Option<string>)
    ensures r.Some? <==> tool.Some? && "title" in tool.value.annotations
    ensures r.Some? ==> r.value == tool.value.annotations["title"]
  {
    if tool.Some? && |tool.value.annotations| > 0 && "title" in tool.value.annotations
    then Some(tool.value.annotations["title"]) else None
  }

  /** `a or b` on optional strings. */
  function OrTitle(a: Option<string>, b: Option<string>): (r: Option<string>)
    ensures a.Some? && a.value != "" ==> r == a
    ensures a.None? || a.value == "" ==> r == b
  {
    if a.Some? && a.value != "" then a else b
  }

  /** `tool_request_contents`; `legacy` is chatlas older than 0.11.1, `dumps` is `json.dumps`. */
  function ToolRequestContents(x: ContentToolRequest, env: Option<string>, legacy: bool, dumps: Json -> string)
    : (r: Result<Contents, string>)
    ensures ToolDisplayOverride(env).Err? ==> r.Err?
    ensures ToolDisplayOverride(env) == Ok(DisplayNone) ==> r == Ok(EmptyTagList)
    ensures ToolDisplayOverride(env).Ok? && ToolDisplayOverride(env) != Ok(DisplayNone) && legacy ==> r == Ok(LegacyRequest(x))
    ensures ToolDisplayOverride(env).Ok? && ToolDisplayOverride(env) != Ok(DisplayNone) && !legacy ==>
              && r.Ok? && r.value.RequestCard?
              && r.value.requestCard.card == Card(x.id, x.name, AnnotationTitle(x.tool), TNone, Intent(x.arguments), false)
              && r.value.requestCard.arguments == dumps(x.arguments)
  {
    match ToolDisplayOverride(env)
      case Err(e) => Err(e)
      case Ok(o) =>
        if o == DisplayNone then Ok(EmptyTagList)
        else if legacy then Ok(LegacyRequest(x))
        else Ok(RequestCard(ToolRequestComponent(
          Card(x.id, x.name, AnnotationTitle(x.tool), TNone, Intent(x.arguments), false), dumps(x.arguments))))
  }

  const NoRequestError: string := "`ContentToolResult` objects must have an associated `.request` attribute."

  /** The call a result card shows: id, name and arguments, dumped with an indent of two. */
  function RequestCall(x: ContentToolResult, request: ContentToolRequest, dumpsIndented: Json -> string): string
  {
    dumpsIndented(JObject([("id", JString(x.id)), ("name", JString(request.name)), ("arguments", request.arguments)]))
  }

  /**
   * `tool_result_contents`; the second component is whether a warning
   * about an invalid `display` was issued.
   */
  function ToolResultContents(x: ContentToolResult, env: Option<string>, legacy: bool, dumpsIndented: Json -> string)
    : (r: Result<(Contents, bool), string>)
    ensures ToolDisplayOverride(env).Err? ==> r.Err?
    ensures ToolDisplayOverride(env) == Ok(DisplayNone) ==> r == Ok((EmptyTagList, false))
    ensures ToolDisplayOverride(env).Ok? && ToolDisplayOverride(env) != Ok(DisplayNone) && legacy ==> r == Ok((LegacyResult(x), false))
    ensures ToolDisplayOverride(env).Ok? && ToolDisplayOverride(env) != Ok(DisplayNone) && !legacy && x.request.None? ==>
              r == Err(NoRequestError)
    ensures r.Ok? && r.value.0.ResultCard? ==>
              var c := r.value.0.resultCard;
              && x.request.Some?
              && (c.status == "error" <==> x.error.Some?)
              && (c.status == "success" <==> x.error.None?)
              && c.card.requestId == x.id && c.card.toolName == x.request.value.name
              && c.requestCall == RequestCall(x, x.request.value, dumpsIndented)
              && c.card.intent == Intent(x.arguments)
  {
    match ToolDisplayOverride(env)
      case Err(e) => Err(e)
      case Ok(o) =>
        if o == DisplayNone then Ok((EmptyTagList, false))
        else if legacy then Ok((LegacyResult(x), false))
        else if x.request.None? then Err(NoRequestError)
        else
          var request := x.request.value;
          match GetToolResultDisplay(x, env)
            case Err(e) => Err(e)
            case Ok((display, warned)) =>
              match ToolResultDisplayValue(x, display, env)
                case Err(e) => Err(e)
                case Ok((value, valueType)) =>
                  var title := OrTitle(display.title, AnnotationTitle(request.tool));
                  Ok((ResultCard(ToolResultComponent(
                    Card(x.id, request.name, title, display.icon, Intent(x.arguments), display.open),
                    RequestCall(x, request, dumpsIndented),
                    if x.error.None? then "success" else "error",
                    display.showRequest, value, valueType)), warned))
  }

  /**
   * With a valid non-`"none"` override a result's card takes its title from
   * the display options when they give a non-empty one, and from the tool's
   * annotation otherwise; `show_request` and `open` come from the display.
   */
  lemma ResultCardDisplay(x: ContentToolResult, env: Option<string>, dumpsIndented: Json -> string)
    requires ToolDisplayOverride(env).Ok? && ToolDisplayOverride(env) != Ok(DisplayNone)
    requires x.request.Some?
    requires GetToolResultDisplay(x, env).Ok?
    ensures var r := ToolResultContents(x, env, false, dumpsIndented);
            var display := GetToolResultDisplay(x, env).value.0;
            && r.Ok? && r.value.0.ResultCard?
            && r.value.0.resultCard.card.toolTitle == OrTitle(display.title, AnnotationTitle(x.request.value.tool))
            && r.value.0.resultCard.showRequest == display.showRequest
            && r.value.0.resultCard.card.expanded == display.open
            && r.value.1 == GetToolResultDisplay(x, env).value.1
  {
    var display := GetToolResultDisplay(x, env).value.0;
    assert ToolResultDisplayValue(x, display, env).Ok?;
  }

  // ---------------------------------------------------------------
  // Tags

  /** A tag: its name, its attributes in order (those whose value is `None` dropped), and its dependencies. */
  datatype TagOut = TagOut(name: string, attrs: seq<(string, string)>, deps: seq<string>)

  /** An attribute with value `None` is dropped. */
  function Attr(name: string, value: Option<string>): (r: seq<(string, string)>)
    ensures value.None? ==> r == []
    ensures value.Some? ==> r == [(name, value.value)]
  {
    if value.Some? then [(name, value.value)] else []
  }

  /** A boolean flag: an empty-valued attribute when true, none when false. */
  function Flag(name: string, b: bool): (r: seq<(string, string)>)
    ensures b ==> r == [(name, "")]
    ensures !b ==> r == []
  {
    Attr(name, if b then Some("") else None)
  }

  /** The icon's rendered HTML, when the icon is truthy. */
  function IconAttr(icon: TagChild): (r: seq<(string, string)>)
    ensures Truthy(icon) ==> r == [("icon", RenderTagList(icon).0)]
    ensures !Truthy(icon) ==> r == []
  {
    Attr("icon", if Truthy(icon) then Some(RenderTagList(icon).0) else None)
  }

  /**
   * The value a tag attribute is given: `None` and `False` drop it, `True`
   * gives an empty value, and anything else is written as its `str`.
   */
  function IntentValue(intent: Option<Json>, pyStr: Json -> string): (r: Option<string>)
    ensures intent.None? || intent == Some(JNull) || intent == Some(JBool(false)) ==> r.None?
    ensures intent == Some(JBool(true)) ==> r == Some("")
    ensures intent.Some? && !intent.value.JNull? && !intent.value.JBool? ==> r == Some(pyStr(intent.value))
  {
    match intent
      case None => None
      case Some(JNull) => None
      case Some(JBool(b)) => if b then Some("") else None
      case Some(v) => Some(pyStr(v))
  }

  /** Whether the intent gives the tag an `intent` attribute. */
  predicate IntentShown(intent: Option<Json>)
  {
    intent.Some? && intent.value != JNull && intent.value != JBool(false)
  }

  function IntentAttr(intent: Option<Json>, pyStr: Json -> string): (r: seq<(string, string)>)
    ensures IntentShown(intent) ==> r == [("intent", IntentValue(intent, pyStr).value)]
    ensures !IntentShown(intent) ==> r == []
  {
    Attr("intent", IntentValue(intent, pyStr))
  }

  /** The card attributes both tags may leave out: `tool-title`, `icon` and `intent`. */
  function OptionalAttrs(card: Card, pyStr: Json -> string): seq<(string, string)>
  {
    Attr("tool-title", card.toolTitle) + IconAttr(card.icon) + IntentAttr(card.intent, pyStr)
  }

  /** The names among `OptionalAttrs` a card gives. */
  function OptionalNames(card: Card): set<string>
  {
    (if card.toolTitle.Some? then {"tool-title"} else {})
    + (if Truthy(card.icon) then {"icon"} else {})
    + (if IntentShown(card.intent) then {"intent"} else {})
  }

  /** `ToolRequestComponent.tagify`; `pyStr` is `str` of a JSON value. */
  function TagifyRequest(c: ToolRequestComponent, pyStr: Json -> string): (t: TagOut)
    ensures t.name == "shiny-tool-request"
    ensures t.deps == RenderTagList(c.card.icon).1
  {
    TagOut("shiny-tool-request",
      [("request-id", c.card.requestId), ("tool-name", c.card.toolName)]
      + OptionalAttrs(c.card, pyStr)
      + Flag("expanded", c.card.expanded)
      + [("arguments", c.arguments)],
      RenderTagList(c.card.icon).1)
  }

  /** The value attribute of a result: rendered for `"html"`, `str` otherwise, with the rendering's dependencies. */
  function ValueUi(value: TagChild, valueType: string): (r: (string, seq<string>))
    ensures valueType == "html" ==> r == RenderTagList(value)
    ensures valueType != "html" ==> r == (PyStr(value), [])
  {
    if valueType == "html" then RenderTagList(value) else (PyStr(value), [])
  }

  /** `ToolResultComponent.tagify` */
  function TagifyResult(c: ToolResultComponent, pyStr: Json -> string): (t: TagOut)
    ensures t.name == "shiny-tool-result"
    ensures t.deps == RenderTagList(c.card.icon).1 + ValueUi(c.value, c.valueType).1
  {
    var valueUi := ValueUi(c.value, c.valueType);
    TagOut("shiny-tool-result",
      [("request-id", c.card.requestId), ("tool-name", c.card.toolName)]
      + OptionalAttrs(c.card, pyStr)
      + [("request-call", c.requestCall), ("status", c.status), ("value", valueUi.0), ("value-type", c.valueType)]
      + Flag("show-request", c.showRequest)
      + Flag("expanded", c.card.expanded),
      RenderTagList(c.card.icon).1 + valueUi.1)
  }

  /** The names of a tag's attributes. */
  function Names(attrs: seq<(string, string)>): set<string>
  {
    set i | 0 <= i < |attrs| :: attrs[i].0
  }

  lemma NamesAttr(name: string, value: Option<string>)
    ensures Names(Attr(name, value)) == if value.Some? then {name} else {}
  {
    if value.Some? {
      assert Attr(name, value)[0].0 == name;
    }
  }

  lemma NamesFlag(name: string, b: bool)
    ensures Names(Flag(name, b)) == if b then {name} else {}
  {
    NamesAttr(name, if b then Some("") else None);
  }

  lemma NamesConcat(a: seq<(string, string)>, b: seq<(string, string)>)
    ensures Names(a + b) == Names(a) + Names(b)
  {
    forall n | n in Names(a + b) ensures n in Names(a) + Names(b)
    {
      var i :| 0 <= i < |a + b| && (a + b)[i].0 == n;
      if i < |a| { assert a[i].0 == n; } else { assert b[i - |a|].0 == n; }
    }
    forall n | n in Names(a) + Names(b) ensures n in Names(a + b)
    {
      if n in Names(a) {
        var i :| 0 <= i < |a| && a[i].0 == n;
        assert (a + b)[i].0 == n;
      } else {
        var i :| 0 <= i < |b| && b[i].0 == n;
        assert (a + b)[|a| + i].0 == n;
      }
    }
  }

  lemma NamesOne(x: (string, string))
    ensures Names([x]) == {x.0}
  {
    assert [x][0].0 == x.0;
  }

  lemma NamesPair(x: (string, string), y: (string, string))
    ensures Names([x, y]) == {x.0, y.0}
  {
    assert [x, y][0].0 == x.0;
    assert [x, y][1].0 == y.0;
  }

  lemma NamesFour(w: (string, string), x: (string, string), y: (string, string), z: (string, string))
    ensures Names([w, x, y, z]) == {w.0, x.0, y.0, z.0}
  {
    assert [w, x, y, z][0].0 == w.0;
    assert [w, x, y, z][1].0 == x.0;
    assert [w, x, y, z][2].0 == y.0;
    assert [w, x, y, z][3].0 == z.0;
  }

  /** A card names `tool-title`, `icon` and `intent` exactly when it has a title, a truthy icon and a shown intent. */
  lemma OptionalAttrNames(card: Card, pyStr: Json -> string)
    ensures Names(OptionalAttrs(card, pyStr)) == OptionalNames(card)
  {
    var title := Attr("tool-title", card.toolTitle);
    var icon := IconAttr(card.icon);
    var intent := IntentAttr(card.intent, pyStr);
    NamesAttr("tool-title", card.toolTitle);
    NamesAttr("icon", if Truthy(card.icon) then Some(RenderTagList(card.icon).0) else None);
    NamesAttr("intent", IntentValue(card.intent, pyStr));
    NamesConcat(title, icon);
    NamesConcat(title + icon, intent);
  }

  /** The attribute names of a request tag: the fixed ones, the card's optional ones, and `expanded` when set. */
  lemma RequestNames(c: ToolRequestComponent, pyStr: Json -> string)
    ensures Names(TagifyRequest(c, pyStr).attrs)
            == {"request-id", "tool-name"} + OptionalNames(c.card)
               + (if c.card.expanded then {"expanded"} else {}) + {"arguments"}
  {
    var fixed := [("request-id", c.card.requestId), ("tool-name", c.card.toolName)];
    var opt := OptionalAttrs(c.card, pyStr);
    var exp := Flag("expanded", c.card.expanded);
    var args := [("arguments", c.arguments)];
    NamesPair(("request-id", c.card.requestId), ("tool-name", c.card.toolName));
    OptionalAttrNames(c.card, pyStr);
    NamesFlag("expanded", c.card.expanded);
    NamesOne(("arguments", c.arguments));
    NamesConcat(fixed, opt);
    NamesConcat(fixed + opt, exp);
    NamesConcat(fixed + opt + exp, args);
  }

  /** What a request tag's attribute names say about its card. */
  lemma RequestNameFacts(names: set<string>, card: Card)
    requires names == {"request-id", "tool-name"} + OptionalNames(card)
                      + (if card.expanded then {"expanded"} else {}) + {"arguments"}
    ensures "expanded" in names <==> card.expanded
    ensures "tool-title" in names <==> card.toolTitle.Some?
    ensures "icon" in names <==> Truthy(card.icon)
    ensures "intent" in names <==> IntentShown(card.intent)
  {
  }

  /** What a result tag's attribute names say about `show_request` and `expanded`. */
  lemma ResultFlagNameFacts(names: set<string>, card: Card, showRequest: bool)
    requires names == {"request-id", "tool-name"} + OptionalNames(card) + {"request-call", "status", "value", "value-type"}
                      + (if showRequest then {"show-request"} else {})
                      + (if card.expanded then {"expanded"} else {})
    ensures "show-request" in names <==> showRequest
    ensures "expanded" in names <==> card.expanded
  {
  }

  /** What a result tag's attribute names say about the card's optional attributes. */
  lemma ResultOptionalNameFacts(names: set<string>, card: Card, showRequest: bool)
    requires names == {"request-id", "tool-name"} + OptionalNames(card) + {"request-call", "status", "value", "value-type"}
                      + (if showRequest then {"show-request"} else {})
                      + (if card.expanded then {"expanded"} else {})
    ensures "tool-title" in names <==> card.toolTitle.Some?
    ensures "icon" in names <==> Truthy(card.icon)
    ensures "intent" in names <==> IntentShown(card.intent)
  {
    var others := {"request-id", "tool-name", "request-call", "status", "value", "value-type", "show-request", "expanded"};
    assert names - OptionalNames(card) <= others;
    assert "tool-title" !in others && "icon" !in others && "intent" !in others;
  }

  /** The optional attributes carry the title, the rendered icon and the intent's value when present. */
  lemma OptionalAttrValues(card: Card, pyStr: Json -> string)
    ensures card.toolTitle.Some? ==> ("tool-title", card.toolTitle.value) in OptionalAttrs(card, pyStr)
    ensures Truthy(card.icon) ==> ("icon", RenderTagList(card.icon).0) in OptionalAttrs(card, pyStr)
    ensures IntentShown(card.intent) ==> ("intent", IntentValue(card.intent, pyStr).value) in OptionalAttrs(card, pyStr)
  {
  }

  /** On a request tag, `expanded` is present exactly when the card is expanded, and then with an empty value. */
  lemma RequestFlags(c: ToolRequestComponent, pyStr: Json -> string)
    ensures var t := TagifyRequest(c, pyStr);
            && ("expanded" in Names(t.attrs) <==> c.card.expanded)
            && (c.card.expanded ==> ("expanded", "") in t.attrs)
  {
    var t := TagifyRequest(c, pyStr);
    RequestNames(c, pyStr);
    RequestNameFacts(Names(t.attrs), c.card);
    var front := [("request-id", c.card.requestId), ("tool-name", c.card.toolName)] + OptionalAttrs(c.card, pyStr);
    assert t.attrs == front + Flag("expanded", c.card.expanded) + [("arguments", c.arguments)];
  }

  /**
   * On a request tag, a missing title, a falsy icon and an intent of
   * `None`, `null` or `false` leave out their attributes; otherwise the
   * attribute carries the title, the rendered icon or the intent's value.
   */
  lemma RequestOptionalAttrs(c: ToolRequestComponent, pyStr: Json -> string)
    ensures var t := TagifyRequest(c, pyStr);
            && ("tool-title" in Names(t.attrs) <==> c.card.toolTitle.Some?)
            && ("icon" in Names(t.attrs) <==> Truthy(c.card.icon))
            && ("intent" in Names(t.attrs) <==> IntentShown(c.card.intent))
            && (c.card.toolTitle.Some? ==> ("tool-title", c.card.toolTitle.value) in t.attrs)
            && (Truthy(c.card.icon) ==> ("icon", RenderTagList(c.card.icon).0) in t.attrs)
            && (IntentShown(c.card.intent) ==> ("intent", IntentValue(c.card.intent, pyStr).value) in t.attrs)
  {
    var t := TagifyRequest(c, pyStr);
    RequestNames(c, pyStr);
    RequestNameFacts(Names(t.attrs), c.card);
    OptionalAttrValues(c.card, pyStr);
    var fixed := [("request-id", c.card.requestId), ("tool-name", c.card.toolName)];
    assert t.attrs == fixed + OptionalAttrs(c.card, pyStr) + Flag("expanded", c.card.expanded) + [("arguments", c.arguments)];
  }

  /** The attribute names of a result tag: the fixed ones, the card's optional ones, and each flag when set. */
  lemma ResultNames(c: ToolResultComponent, pyStr: Json -> string)
    ensures Names(TagifyResult(c, pyStr).attrs)
            == {"request-id", "tool-name"} + OptionalNames(c.card) + {"request-call", "status", "value", "value-type"}
               + (if c.showRequest then {"show-request"} else {})
               + (if c.card.expanded then {"expanded"} else {})
  {
    var valueUi := ValueUi(c.value, c.valueType);
    var fixed := [("request-id", c.card.requestId), ("tool-name", c.card.toolName)];
    var opt := OptionalAttrs(c.card, pyStr);
    var rest := [("request-call", c.requestCall), ("status", c.status), ("value", valueUi.0), ("value-type", c.valueType)];
    var show := Flag("show-request", c.showRequest);
    var exp := Flag("expanded", c.card.expanded);
    assert TagifyResult(c, pyStr).attrs == fixed + opt + rest + show + exp;
    NamesPair(("request-id", c.card.requestId), ("tool-name", c.card.toolName));
    OptionalAttrNames(c.card, pyStr);
    NamesFour(("request-call", c.requestCall), ("status", c.status), ("value", valueUi.0), ("value-type", c.valueType));
    NamesFlag("show-request", c.showRequest);
    NamesFlag("expanded", c.card.expanded);
    NamesConcat(fixed, opt);
    NamesConcat(fixed + opt, rest);
    NamesConcat(fixed + opt + rest, show);
    NamesConcat(fixed + opt + rest + show, exp);
  }

  /**
   * On a result tag, `show-request` and `expanded` are present exactly
   * when the flags are true, and then with an empty value.
   */
  lemma ResultFlags(c: ToolResultComponent, pyStr: Json -> string)
    ensures var t := TagifyResult(c, pyStr);
            && ("show-request" in Names(t.attrs) <==> c.showRequest)
            && ("expanded" in Names(t.attrs) <==> c.card.expanded)
            && (c.showRequest ==> ("show-request", "") in t.attrs)
            && (c.card.expanded ==> ("expanded", "") in t.attrs)
  {
    var t := TagifyResult(c, pyStr);
    ResultNames(c, pyStr);
    ResultFlagNameFacts(Names(t.attrs), c.card, c.showRequest);
    var valueUi := ValueUi(c.value, c.valueType);
    var front := [("request-id", c.card.requestId), ("tool-name", c.card.toolName)] + OptionalAttrs(c.card, pyStr)
      + [("request-call", c.requestCall), ("status", c.status), ("value", valueUi.0), ("value-type", c.valueType)];
    assert t.attrs == front + Flag("show-request", c.showRequest) + Flag("expanded", c.card.expanded);
  }

  /** On a result tag, the optional card attributes behave as on a request tag. */
  lemma ResultOptionalAttrs(c: ToolResultComponent, pyStr: Json -> string)
    ensures var t := TagifyResult(c, pyStr);
            && ("tool-title" in Names(t.attrs) <==> c.card.toolTitle.Some?)
            && ("icon" in Names(t.attrs) <==> Truthy(c.card.icon))
            && ("intent" in Names(t.attrs) <==> IntentShown(c.card.intent))
            && (c.card.toolTitle.Some? ==> ("tool-title", c.card.toolTitle.value) in t.attrs)
            && (Truthy(c.card.icon) ==> ("icon", RenderTagList(c.card.icon).0) in t.attrs)
            && (IntentShown(c.card.intent) ==> ("intent", IntentValue(c.card.intent, pyStr).value) in t.attrs)
  {
    var t := TagifyResult(c, pyStr);
    ResultNames(c, pyStr);
    ResultOptionalNameFacts(Names(t.attrs), c.card, c.showRequest);
    OptionalAttrValues(c.card, pyStr);
    var valueUi := ValueUi(c.value, c.valueType);
    var fixed := [("request-id", c.card.requestId), ("tool-name", c.card.toolName)];
    var rest := [("request-call", c.requestCall), ("status", c.status), ("value", valueUi.0), ("value-type", c.valueType)];
    assert t.attrs == fixed + OptionalAttrs(c.card, pyStr) + rest + Flag("show-request", c.showRequest)
                      + Flag("expanded", c.card.expanded);
  }

  // ---------------------------------------------------------------
  // Hiding the request, and the chatlas version

  /**
   * `hide_corresponding_request`: the custom message sent to the browser,
   * if any; `hasSession` is whether a current session could be found.
   */
  function HideCorrespondingRequest(x: ContentToolResult, hasSession: bool): (r: Option<(string, string)>)
    ensures r.Some? <==> x.request.Some? && hasSession
    ensures r.Some? ==> r.value == ("shiny-tool-request-hide", x.request.value.id)
  {
    if x.request.None? || !hasSession then None
    else Some(("shiny-tool-request-hide", x.request.value.id))
  }

  /** Lexicographic order on (major, minor, patch). */
  predicate VersionLess(a: (nat, nat, nat), b: (nat, nat, nat))
  {
    a.0 < b.0 || (a.0 == b.0 && (a.1 < b.1 || (a.1 == b.1 && a.2 < b.2)))
  }

  /** `is_legacy`: chatlas before 0.11.1 gives the content objects their own `tagify`. */
  function IsLegacy(major: nat, minor: nat, patch: nat): (r: bool)
    ensures r <==> major == 0 && (minor < 11 || (minor == 11 && patch == 0))
  {
    VersionLess((major, minor, patch), (0, 11, 1))
  }
}

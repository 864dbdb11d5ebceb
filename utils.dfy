/**
 * Helpers shared by the client components: element creation, the Shiny
 * client-message and dependency helpers, the sanitizer's policy, random
 * ids and the trailing-edge throttle.
 */
module Utils {
  import opened Common
  import opened Dom
  import opened Host

  // ---------------------------------------------------------------
  // createElement

  /** An attribute key with every `_` turned into `-`. */
  function AttrName(key: string): (r: string)
    ensures |r| == |key|
    ensures '_' !in r
    ensures forall i :: 0 <= i < |key| ==> r[i] == (if key[i] == '_' then '-' else key[i])
  {
    if key == [] then [] else [if key[0] == '_' then '-' else key[0]] + AttrName(key[1..])
  }

  /** The attributes set by `createElement` after the first `|entries|` entries, later entries overriding earlier ones. */
  function AttrsOf(entries: seq<(string, Option<string>)>): map<string, string>
  {
    if entries == [] then map[]
    else
      var m := AttrsOf(entries[..|entries| - 1]);
      var (k, v) := entries[|entries| - 1];
      if v.Some? then m[AttrName(k) := v.value] else m
  }

  /**
   * An attribute is present exactly when some entry with a non-null value
   * maps to its name, and it holds the value of the last such entry.
   */
  lemma {:induction false} AttrsOfMeaning(entries: seq<(string, Option<string>)>, name: string)
    ensures name in AttrsOf(entries) <==>
      exists i :: 0 <= i < |entries| && AttrName(entries[i].0) == name && entries[i].1.Some?
    ensures name in AttrsOf(entries) ==>
      exists i :: 0 <= i < |entries| && AttrName(entries[i].0) == name && entries[i].1 == Some(AttrsOf(entries)[name])
        && forall j :: i < j < |entries| ==> !(AttrName(entries[j].0) == name && entries[j].1.Some?)
  {
    if entries != [] {
      var n := |entries| - 1;
      var front := entries[..n];
      AttrsOfMeaning(front, name);
      assert forall i :: 0 <= i < n ==> entries[i] == front[i];
      if AttrName(entries[n].0) == name && entries[n].1.Some? {
        assert AttrsOf(entries)[name] == entries[n].1.value;
      } else {
        assert name in AttrsOf(entries) <==> name in AttrsOf(front);
        if name in AttrsOf(entries) {
          assert AttrsOf(entries)[name] == AttrsOf(front)[name];
        }
      }
    }
  }

  /** No attribute name produced by `createElement` contains `_`. */
  lemma {:induction false} AttrsOfNoUnderscore(entries: seq<(string, Option<string>)>)
    ensures forall name :: name in AttrsOf(entries) ==> '_' !in name
  {
    if entries != [] {
      AttrsOfNoUnderscore(entries[..|entries| - 1]);
    }
  }

  /**
   * `createElement(tag, attrs)`: a new element whose attributes are set
   * entry by entry, in the order of `Object.entries`.
   */
  method CreateElement(tag: string, entries: seq<(string, Option<string>)>) returns (el: Node)
    ensures el.Element? && el.tag == tag && el.children == []
    ensures el.attrs == AttrsOf(entries)
  {
    var attrs: map<string, string> := map[];
    for i := 0 to |entries|
      invariant attrs == AttrsOf(entries[..i])
    {
      var (key, value) := entries[i];
      assert entries[..i + 1][..i] == entries[..i];
      if value.Some? {
        attrs := attrs[AttrName(key) := value.value];
      }
    }
    assert entries[..|entries|] == entries;
    el := Element(tag, {}, attrs, []);
  }

  // ---------------------------------------------------------------
  // Shiny helpers

  datatype Status = Error | Info | Warning

  /** The detail of a `shiny:client-message` event. */
  datatype ClientMessage = ClientMessage(headline: string, message: string, status: Status)

  /** `showShinyClientMessage`: the headline defaults to empty and the status to a warning. */
  function ShowShinyClientMessage(message: string, headline: Option<string>, status: Option<Status>): (r: ClientMessage)
    ensures r.message == message
    ensures r.headline == (if headline.Some? then headline.value else "")
    ensures r.status == (if status.Some? then status.value else Warning)
  {
    ClientMessage(
      match headline case Some(h) => h case None => "",
      message,
      match status case Some(s) => s case None => Warning)
  }

  /** What `renderDependencies` did. */
  datatype DepsOutcome = Skipped | Rendered | Reported(msg: ClientMessage)

  /**
   * `renderDependencies(deps)`: nothing without Shiny or without deps;
   * otherwise the dependencies are rendered, and a rendering failure
   * (`renderError`) becomes an error client message instead of an
   * exception.
   */
  function RenderDependencies<D>(shinyPresent: bool, deps: Option<seq<D>>, renderError: Option<string>): (r: DepsOutcome)
    ensures r == Skipped <==> !shinyPresent || deps.None?
    ensures r.Reported? <==> shinyPresent && deps.Some? && renderError.Some?
    ensures r.Reported? ==>
              r.msg.status == Error && r.msg.headline == ""
              && r.msg.message == "Failed to render HTML dependencies: " + renderError.value
  {
    if !shinyPresent then Skipped
    else if deps.None? then Skipped
    else if renderError.Some? then
      Reported(ShowShinyClientMessage("Failed to render HTML dependencies: " + renderError.value, None, Some(Error)))
    else Rendered
  }

  /** The client messages `renderDependencies` shows: one error message for a rendering failure, else none. */
  function DepsNotices<D>(shinyPresent: bool, deps: Option<seq<D>>, renderError: Option<string>): (r: seq<ClientMessage>)
    ensures |r| <= 1
    ensures r != [] <==> shinyPresent && deps.Some? && renderError.Some?
  {
    var outcome := RenderDependencies(shinyPresent, deps, renderError);
    if outcome.Reported? then [outcome.msg] else []
  }

  // ---------------------------------------------------------------
  // sanitizeHTML

  /** `sanitizeHTML(html)`: DOMPurify with the policy below. */
  function SanitizeHtml(env: Env, html: string): string
  {
    env.purify(html)
  }

  /** A `script` element passes iff its type is exactly `application/json` and it has a `data-for` attribute. */
  predicate ScriptAllowed(attrs: map<string, string>)
  {
    "type" in attrs && attrs["type"] == "application/json" && "data-for" in attrs
  }

  /**
   * The `uponSanitizeElement` hook: for a `SCRIPT` node it records in the
   * allowed-tag table whether `script` may pass; other nodes leave the
   * table as it is.
   */
  function UponSanitizeElement(nodeName: string, attrs: map<string, string>, allowedTags: map<string, bool>): (r: map<string, bool>)
    ensures nodeName == "SCRIPT" ==> "script" in r && (r["script"] <==> ScriptAllowed(attrs))
    ensures nodeName == "SCRIPT" ==> forall t :: t in allowedTags && t != "script" ==> t in r && r[t] == allowedTags[t]
    ensures nodeName != "SCRIPT" ==> r == allowedTags
  {
    if nodeName == "SCRIPT" then allowedTags["script" := ScriptAllowed(attrs)] else allowedTags
  }

  /** What the custom-element handling does with one custom element. */
  datatype CustomVerdict = Keep(attrNames: set<string>) | Drop

  /**
   * `CUSTOM_ELEMENT_HANDLING`: a custom element passes iff its tag is
   * registered (`customElements.get(tag) !== undefined`), and then every
   * attribute name passes.
   */
  function CustomElement(registry: set<string>, tag: string, attrNames: set<string>): (r: CustomVerdict)
    ensures r.Keep? <==> tag in registry
    ensures r.Keep? ==> r.attrNames == attrNames
  {
    if tag in registry then Keep(set a | a in attrNames && AttributeNameCheck(a)) else Drop
  }

  /** `attributeNameCheck: (attr) => true` */
  predicate AttributeNameCheck(attr: string)
  {
    true
  }

  // ---------------------------------------------------------------
  // generateRandomId

  const IdAlphabet: string := "0123456789abcdefghijklmnopqrstuvwxyzABCDEFGHIJKLMNOPQRSTUVWXYZ"
  const DefaultIdSize: nat := 12

  /**
   * The randomness `generateRandomId` draws: the bytes of
   * `crypto.getRandomValues` or, without it, the `Math.random()` samples.
   */
  datatype Randomness = Crypto(bytes: seq<bv8>) | MathRandom(samples: seq<real>)

  function Draws(rnd: Randomness): nat
  {
    match rnd
    case Crypto(bytes) => |bytes|
    case MathRandom(samples) => |samples|
  }

  predicate WellFormedRandomness(rnd: Randomness)
  {
    rnd.MathRandom? ==> forall i :: 0 <= i < |rnd.samples| ==> 0.0 <= rnd.samples[i] < 1.0
  }

  /** The alphabet index of draw `i`: `bytes[i] % 62` or `floor(sample * 62)`. */
  function DrawIndex(rnd: Randomness, i: nat): (k: nat)
    requires WellFormedRandomness(rnd) && i < Draws(rnd)
    ensures k < |IdAlphabet|
  {
    match rnd
    case Crypto(bytes) => (bytes[i] as nat) % |IdAlphabet|
    case MathRandom(samples) => (samples[i] * (|IdAlphabet| as real)).Floor
  }

  /** The random part of an id after `n` draws: one alphabet character per draw. */
  function RandomPart(rnd: Randomness, n: nat): (r: string)
    requires WellFormedRandomness(rnd) && n <= Draws(rnd)
    ensures |r| == n
    ensures forall i :: 0 <= i < n ==> r[i] in IdAlphabet
  {
    if n == 0 then [] else RandomPart(rnd, n - 1) + [IdAlphabet[DrawIndex(rnd, n - 1)]]
  }

  /**
   * `generateRandomId(prefix, size)`: the prefix, a dash, and `size`
   * characters of the 62-character alphanumeric alphabet, one per draw
   * (`DrawIndex` holds the choice between the two sources of randomness).
   */
  method GenerateRandomId(prefix: string, size: nat, rnd: Randomness) returns (id: string)
    requires WellFormedRandomness(rnd) && Draws(rnd) == size
    ensures |id| == |prefix| + 1 + size
    ensures id[..|prefix| + 1] == prefix + "-"
    ensures forall i :: |prefix| + 1 <= i < |id| ==> id[i] in IdAlphabet
    ensures id == prefix + "-" + RandomPart(rnd, size)
  {
    var part := "";
    for i := 0 to size
      invariant part == RandomPart(rnd, i)
    {
      part := part + [IdAlphabet[DrawIndex(rnd, i)]];
    }
    id := prefix + "-" + part;
    assert id[..|prefix| + 1] == prefix + "-";
    assert forall i :: |prefix| + 1 <= i < |id| ==> id[i] == part[i - |prefix| - 1];
  }

  // ---------------------------------------------------------------
  // throttle (and its React twin useThrottle)

  /**
   * A trailing-edge throttle: the single timer slot holds the arguments of
   * the pending call; `fired` logs the calls of the wrapped function.
   */
  class Throttle<A> {
    var pending: Option<A>
    var fired: seq<A>

    constructor ()
      ensures pending == None && fired == []
    {
      pending := None;
      fired := [];
    }

    /** A call cancels the pending timer and schedules the wrapped function with these arguments. */
    method Call(args: A)
      modifies this
      ensures pending == ThrottleStep(old(pending), Called(args)).0
      ensures fired == old(fired)
    {
      pending := Some(args);
    }

    /** The timer elapses: the wrapped function runs with the scheduled arguments and the slot is cleared. */
    method Elapse()
      modifies this
      ensures pending == ThrottleStep(old(pending), Elapsed).0
      ensures fired == old(fired) + ThrottleStep(old(pending), Elapsed).1
    {
      if pending.Some? {
        fired := fired + [pending.value];
      }
      pending := None;
    }
  }

  datatype ThrottleEvent<A> = Called(args: A) | Elapsed

  /** One event on the slot: the new slot and the calls of the wrapped function it causes. */
  function ThrottleStep<A>(pending: Option<A>, e: ThrottleEvent<A>): (Option<A>, seq<A>)
  {
    match e
    case Called(args) => (Some(args), [])
    case Elapsed => (None, if pending.Some? then [pending.value] else [])
  }

  /** A run of events from a slot: the final slot and every call of the wrapped function, in order. */
  function ThrottleRun<A>(pending: Option<A>, es: seq<ThrottleEvent<A>>): (Option<A>, seq<A>)
    decreases es
  {
    if es == [] then (pending, [])
    else
      var (p, out) := ThrottleStep(pending, es[0]);
      var (p', out') := ThrottleRun(p, es[1..]);
      (p', out + out')
  }

  function Calls<A>(xs: seq<A>): (r: seq<ThrottleEvent<A>>)
    ensures |r| == |xs|
    ensures forall i :: 0 <= i < |xs| ==> r[i] == Called(xs[i])
  {
    if xs == [] then [] else [Called(xs[0])] + Calls(xs[1..])
  }

  /**
   * A burst of calls followed by the timer elapsing runs the wrapped
   * function exactly once, with the arguments of the last call, and
   * leaves the slot empty.
   */
  lemma {:induction false} BurstRunsOnceWithLast<A>(pending: Option<A>, xs: seq<A>)
    requires xs != []
    ensures ThrottleRun(pending, Calls(xs) + [Elapsed]) == (None, [xs[|xs| - 1]])
    decreases xs
  {
    var es := Calls(xs) + [Elapsed];
    assert es[0] == Called(xs[0]);
    var tail := es[1..];
    assert tail == Calls(xs[1..]) + [Elapsed];
    assert ThrottleStep(pending, es[0]) == (Some(xs[0]), []);
    var run := ThrottleRun(Some(xs[0]), tail);
    assert ThrottleRun(pending, es) == (run.0, [] + run.1);
    if |xs| == 1 {
      assert tail == [Elapsed];
      assert tail[1..] == [];
      assert ThrottleStep(Some(xs[0]), tail[0]) == (None, [xs[0]]);
      assert ThrottleRun(Some(xs[0]), tail) == (None, [xs[0]] + []);
      assert [xs[0]] + [] == [xs[0]];
      assert run == (None, [xs[0]]);
      assert [] + run.1 == run.1;
    } else {
      BurstRunsOnceWithLast(Some(xs[0]), xs[1..]);
      assert xs[1..][|xs[1..]| - 1] == xs[|xs| - 1];
      assert run == (None, [xs[|xs| - 1]]);
      assert [] + run.1 == run.1;
    }
  }
}

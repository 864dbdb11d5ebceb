/**
 * The auto-scroll controller shared by the Lit element of
 * markdown-stream.ts and the Preact component of MarkdownStream.tsx:
 * the near-bottom test, the walk up the ancestors for a scrollable
 * element, the scroll command and the user-scrolled flag.  Elements are
 * named by an id; their scroll metrics at the time of a call are given
 * by a layout function.
 */
module Scroll {
  import opened Common

  /** `scrollHeight`, `scrollTop` and `clientHeight` of one element. */
  datatype Metrics = Metrics(scrollHeight: int, scrollTop: int, clientHeight: int)

  /** An element on the ancestor chain: its identity and its tag name. */
  datatype Elem = Elem(id: nat, tag: string)

  type Layout = nat -> Metrics

  const NearBottomThreshold: int := 50

  datatype Behavior = Instant | Smooth

  /** One call of `el.scroll({ top, behavior })`. */
  datatype ScrollCommand = ScrollTo(id: nat, top: int, behavior: Behavior)

  /** The scroll listener being removed from or added to an element. */
  datatype ListenerEvent = Detach(id: nat) | Attach(id: nat)

  /** The element can scroll: its content is taller than its box. */
  predicate Scrollable(m: Metrics)
  {
    m.scrollHeight > m.clientHeight
  }

  /** `isNearBottom`: false without a scrollable element, else less than 50 pixels from the bottom. */
  predicate IsNearBottom(scrollable: Option<nat>, layout: Layout)
  {
    scrollable.Some? &&
    var m := layout(scrollable.value);
    m.scrollHeight - (m.scrollTop + m.clientHeight) < NearBottomThreshold
  }

  /**
   * Index of the first element, after the start, whose lower-cased tag is
   * the stop tag; the length of the chain when there is none.
   */
  function StopIndex(chain: seq<Elem>, stop: string): (k: nat)
    ensures 1 <= k <= |chain| || (chain == [] && k == 0)
    ensures forall j :: 1 <= j < k ==> Lower(chain[j].tag) != stop
    ensures k < |chain| ==> Lower(chain[k].tag) == stop
    decreases |chain|
  {
    if |chain| <= 1 then |chain|
    else if Lower(chain[1].tag) == stop then 1
    else 1 + StopIndex(chain[1..], stop)
  }

  /**
   * The walk of `findScrollableParent` over `chain` (the start element,
   * then its parent, and so on): the index of the first scrollable
   * element; moving to an element whose tag is the stop tag ends the walk
   * before that element is checked.
   */
  function FirstScrollable(chain: seq<Elem>, stop: string, layout: Layout): (r: Option<nat>)
    ensures r.Some? ==> r.value < StopIndex(chain, stop) && Scrollable(layout(chain[r.value].id))
    ensures r.Some? ==> forall j :: 0 <= j < r.value ==> !Scrollable(layout(chain[j].id))
    ensures r.None? ==> forall j :: 0 <= j < StopIndex(chain, stop) ==> !Scrollable(layout(chain[j].id))
    decreases |chain|
  {
    if chain == [] then None
    else if Scrollable(layout(chain[0].id)) then Some(0)
    else if |chain| > 1 && Lower(chain[1].tag) == stop then None
    else
      var rest := FirstScrollable(chain[1..], stop, layout);
      if rest.None? then None else Some(rest.value + 1)
  }

  /** The element `findScrollableParent` returns: none with auto-scroll off. */
  function ScrollableParent(autoScroll: bool, chain: seq<Elem>, stop: string, layout: Layout): (r: Option<nat>)
  {
    if !autoScroll then None
    else
      var i := FirstScrollable(chain, stop, layout);
      if i.None? then None else Some(chain[i.value].id)
  }

  /** An index found in a suffix that starts `k` elements in, as an index of the whole chain. */
  function Shift(o: Option<nat>, k: nat): Option<nat>
  {
    if o.None? then None else Some(o.value + k)
  }

  /** Moving on from an element that is not scrollable, onto a parent without the stop tag. */
  lemma FirstScrollableMovesOn(chain: seq<Elem>, stop: string, layout: Layout, i: nat)
    requires i < |chain| && !Scrollable(layout(chain[i].id))
    requires !(i + 1 < |chain| && Lower(chain[i + 1].tag) == stop)
    ensures Shift(FirstScrollable(chain[i..], stop, layout), i) == Shift(FirstScrollable(chain[i + 1..], stop, layout), i + 1)
  {
    assert chain[i..][1..] == chain[i + 1..];
    assert chain[i..][0] == chain[i];
    assert |chain[i..]| > 1 ==> chain[i..][1] == chain[i + 1];
  }

  /** Moving on from an element that is not scrollable, onto a parent with the stop tag. */
  lemma FirstScrollableStops(chain: seq<Elem>, stop: string, layout: Layout, i: nat)
    requires i + 1 < |chain| && !Scrollable(layout(chain[i].id)) && Lower(chain[i + 1].tag) == stop
    ensures FirstScrollable(chain[i..], stop, layout) == None
  {
    assert chain[i..][0] == chain[i] && chain[i..][1] == chain[i + 1];
  }

  /**
   * The loop of `findScrollableParent`: test the element, move to its
   * parent, stop when the parent has the stop tag.
   */
  method FindScrollableParent(autoScroll: bool, chain: seq<Elem>, stop: string, layout: Layout)
    returns (r: Option<nat>)
    ensures r == ScrollableParent(autoScroll, chain, stop, layout)
  {
    if !autoScroll {
      return None;
    }
    var i := 0;
    assert chain[0..] == chain;
    while i < |chain|
      invariant 0 <= i <= |chain|
      invariant FirstScrollable(chain, stop, layout) == Shift(FirstScrollable(chain[i..], stop, layout), i)
      decreases |chain| - i
    {
      if Scrollable(layout(chain[i].id)) {
        assert chain[i..][0] == chain[i];
        return Some(chain[i].id);
      }
      if i + 1 < |chain| && Lower(chain[i + 1].tag) == stop {
        FirstScrollableStops(chain, stop, layout, i);
        return None;
      }
      FirstScrollableMovesOn(chain, stop, layout, i);
      i := i + 1;
    }
    assert chain[i..] == [];
    return None;
  }

  /**
   * The element the walk returns is never one reached by moving onto the
   * stop tag: even a scrollable chat container is not chosen unless the
   * walk starts at it.
   */
  lemma StopTagNeverChosen(chain: seq<Elem>, stop: string, layout: Layout)
    requires FirstScrollable(chain, stop, layout).Some?
    ensures var i := FirstScrollable(chain, stop, layout).value;
            i == 0 || Lower(chain[i].tag) != stop
  {
  }

  /** The scroll controller's fields. */
  datatype ScrollState = ScrollState(
    scrollable: Option<nat>,
    isContentBeingAdded: bool,
    isUserScrolled: bool,
    listeners: seq<ListenerEvent>,
    scrolls: seq<ScrollCommand>)

  const InitialScrollState: ScrollState := ScrollState(None, false, false, [], [])

  /** `onScroll`: while no content is being added, remember whether the user left the bottom. */
  function OnScrollStep(s: ScrollState, layout: Layout): ScrollState
  {
    if s.isContentBeingAdded then s else s.(isUserScrolled := !IsNearBottom(s.scrollable, layout))
  }

  function DetachFrom(el: Option<nat>): seq<ListenerEvent>
  {
    if el.Some? then [Detach(el.value)] else []
  }

  function AttachTo(el: Option<nat>): seq<ListenerEvent>
  {
    if el.Some? then [Attach(el.value)] else []
  }

  /**
   * `updateScrollableElement` once the walk found `found`: the listener
   * moves only when the element changes.
   */
  function SwapScrollable(s: ScrollState, found: Option<nat>): ScrollState
  {
    if found == s.scrollable then s
    else s.(scrollable := found, listeners := s.listeners + DetachFrom(s.scrollable) + AttachTo(found))
  }

  /**
   * A scroll event changes only the user-scrolled flag, and only while no
   * content is being added: the flag then says the element is not near
   * its bottom.
   */
  lemma OnScrollRule(s: ScrollState, layout: Layout)
    ensures s.isContentBeingAdded ==> OnScrollStep(s, layout) == s
    ensures !s.isContentBeingAdded ==>
              (OnScrollStep(s, layout).isUserScrolled <==> !IsNearBottom(s.scrollable, layout))
              && OnScrollStep(s, layout).(isUserScrolled := s.isUserScrolled) == s
  {
  }

  /**
   * After the swap the found element is the scrollable one; the listener
   * log grows exactly when it differs from the previous element, by a
   * detach from the old one and an attach to the new one.
   */
  lemma SwapScrollableRule(s: ScrollState, found: Option<nat>)
    ensures SwapScrollable(s, found).scrollable == found
    ensures SwapScrollable(s, found).listeners == s.listeners <==> found == s.scrollable
    ensures SwapScrollable(s, found).listeners == s.listeners + DetachFrom(s.scrollable) + AttachTo(found)
              || found == s.scrollable
    ensures SwapScrollable(s, found).(scrollable := s.scrollable, listeners := s.listeners) == s
  {
    if found != s.scrollable {
      assert |DetachFrom(s.scrollable) + AttachTo(found)| > 0;
    }
  }

  /** The target of a scroll to the bottom. */
  function BottomTop(m: Metrics): int
  {
    m.scrollHeight - m.clientHeight
  }

  /** `maybeScrollToBottom`: instant while streaming, smooth otherwise. */
  function MaybeScrollStep(s: ScrollState, layout: Layout, streaming: bool): ScrollState
  {
    if s.scrollable.None? || s.isUserScrolled then s
    else
      var id := s.scrollable.value;
      s.(scrolls := s.scrolls + [ScrollTo(id, BottomTop(layout(id)), if streaming then Instant else Smooth)])
  }

  /** `cleanup`: detach the listener, forget the element, clear the user-scrolled flag. */
  function CleanupStep(s: ScrollState): ScrollState
  {
    s.(scrollable := None, isUserScrolled := false, listeners := s.listeners + DetachFrom(s.scrollable))
  }

  /**
   * A scroll to the bottom happens exactly when there is a scrollable
   * element and the user has not scrolled away; it goes to
   * `scrollHeight - clientHeight`, instant while streaming.
   */
  lemma MaybeScrollRule(s: ScrollState, layout: Layout, streaming: bool)
    ensures var s' := MaybeScrollStep(s, layout, streaming);
            (s.scrollable.None? || s.isUserScrolled ==> s' == s)
            && (s.scrollable.Some? && !s.isUserScrolled ==>
                  |s'.scrolls| == |s.scrolls| + 1 && s'.scrolls[..|s.scrolls|] == s.scrolls
                  && s'.scrolls[|s.scrolls|].id == s.scrollable.value
                  && s'.scrolls[|s.scrolls|].top == layout(s.scrollable.value).scrollHeight - layout(s.scrollable.value).clientHeight
                  && (s'.scrolls[|s.scrolls|].behavior == Instant <==> streaming)
                  && s'.(scrolls := s.scrolls) == s)
  {
  }

  /** After cleanup no element is watched and the user-scrolled flag is down, so nothing scrolls until an element is found again. */
  lemma CleanupStopsScrolling(s: ScrollState, layout: Layout, streaming: bool)
    ensures CleanupStep(s).scrollable.None? && !CleanupStep(s).isUserScrolled
    ensures MaybeScrollStep(CleanupStep(s), layout, streaming) == CleanupStep(s)
    ensures !IsNearBottom(CleanupStep(s).scrollable, layout)
  {
  }
}

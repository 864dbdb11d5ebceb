/**
 * Where the streaming dot goes: starting at the content container, the
 * search follows the last meaningful child down through block containers
 * (at most five levels) and stops at the element the text is being
 * appended to.  An element is named by its path of child indices from
 * the container; the empty path is the container itself.
 */
module StreamingLocator {
  import opened Common
  import opened Dom

  /** The search descends at most this many levels. */
  const MaxDepth: nat := 5

  /** Containers the search goes into. */
  const RecurseTags: set<string> := {"p", "div", "pre", "ul", "ol"}

  /** Containers the dot may be put into. */
  const InlineTags: set<string> := {"p", "h1", "h2", "h3", "h4", "h5", "h6", "li", "code"}

  /** `hasText`: a text node counts when it has a character that is not white space. */
  predicate HasText(text: string)
  {
    HasNonWhitespace(text)
  }

  /** Index of the last element child or non-blank text child, if any. */
  function LastMeaningful(cs: seq<Node>): (r: Option<nat>)
    ensures r.Some? ==> r.value < |cs| && Meaningful(cs[r.value])
    ensures r.Some? ==> forall j :: r.value < j < |cs| ==> !Meaningful(cs[j])
    ensures r.None? <==> forall j :: 0 <= j < |cs| ==> !Meaningful(cs[j])
  {
    if cs == [] then None
    else if Meaningful(cs[|cs| - 1]) then Some(|cs| - 1)
    else LastMeaningful(cs[..|cs| - 1])
  }

  /** Each index of `path` is that of the last meaningful child, an element, at its level. */
  predicate FollowsLastMeaningful(cs: seq<Node>, path: seq<nat>)
    decreases path
  {
    path == [] ||
    (LastMeaningful(cs) == Some(path[0]) && cs[path[0]].Element?
     && FollowsLastMeaningful(cs[path[0]].children, path[1..]))
  }

  /** A block or inline container's tag. */
  predicate ContainerTag(tag: string)
  {
    Lower(tag) in RecurseTags + InlineTags
  }

  /** The path ends at an element whose tag is a block or inline container. */
  predicate EndsAtContainer(cs: seq<Node>, path: seq<nat>)
    decreases path
  {
    path != [] && path[0] < |cs| && cs[path[0]].Element?
    && if |path| == 1 then ContainerTag(cs[path[0]].tag)
       else EndsAtContainer(cs[path[0]].children, path[1..])
  }

  /**
   * The path the search returns, from the children `cs` of the element it
   * is looking at, with `fuel` levels left.  Each step is the last
   * meaningful child, and a non-empty path ends at a block or inline
   * container.
   */
  function Locate(cs: seq<Node>, fuel: nat): (r: seq<nat>)
    ensures |r| <= fuel
    ensures PathIn(cs, r)
    ensures FollowsLastMeaningful(cs, r)
    ensures r != [] ==> EndsAtContainer(cs, r)
    decreases fuel
  {
    if fuel == 0 then []
    else
      match LastMeaningful(cs)
      case None => []
      case Some(i) =>
        if !cs[i].Element? then []
        else if Lower(cs[i].tag) in RecurseTags then
          var rest := Locate(cs[i].children, fuel - 1);
          assert ([i] + rest)[1..] == rest;
          [i] + rest
        else if Lower(cs[i].tag) in InlineTags then
          assert [i][1..] == [];
          [i]
        else []
  }

  /** The children of the element `path` leads to. */
  function ChildrenAlong(cs: seq<Node>, path: seq<nat>): seq<Node>
    requires PathIn(cs, path)
    decreases path
  {
    if path == [] then cs else ChildrenAlong(cs[path[0]].children, path[1..])
  }

  /** The element `path` leads to (the path is not empty). */
  function NodeAt(cs: seq<Node>, path: seq<nat>): (n: Node)
    requires PathIn(cs, path) && path != []
    ensures n.Element? && !IsDot(n)
    decreases path
  {
    if |path| == 1 then cs[path[0]] else NodeAt(cs[path[0]].children, path[1..])
  }

  /** The backward scan over the children for the last meaningful one. */
  method FindLastMeaningful(children: seq<Node>) returns (last: Option<nat>)
    ensures last == LastMeaningful(children)
  {
    last := None;
    var i := |children|;
    while i > 0
      invariant 0 <= i <= |children|
      invariant last.None? ==> forall j :: i <= j < |children| ==> !Meaningful(children[j])
      invariant last.Some? ==> last == LastMeaningful(children)
      decreases i
    {
      i := i - 1;
      if children[i].Element? || (children[i].Text? && HasText(children[i].text)) {
        last := Some(i);
        break;
      }
    }
  }

  /** With no meaningful child, or a text child last, the search stops where it is. */
  lemma LocateStops(cs: seq<Node>, fuel: nat)
    requires fuel > 0
    requires LastMeaningful(cs).None? || !cs[LastMeaningful(cs).value].Element?
    ensures Locate(cs, fuel) == []
  {
  }

  /** An element child last whose tag is a block container: the search goes into it. */
  lemma LocateInto(cs: seq<Node>, fuel: nat, i: nat)
    requires fuel > 0 && LastMeaningful(cs) == Some(i) && cs[i].Element? && Lower(cs[i].tag) in RecurseTags
    ensures Locate(cs, fuel) == [i] + Locate(cs[i].children, fuel - 1)
  {
  }

  /** An element child last that is no block container: that child when it is an inline container, else nothing. */
  lemma LocateAt(cs: seq<Node>, fuel: nat, i: nat)
    requires fuel > 0 && LastMeaningful(cs) == Some(i) && cs[i].Element? && Lower(cs[i].tag) !in RecurseTags
    ensures Lower(cs[i].tag) in InlineTags ==> Locate(cs, fuel) == [i]
    ensures Lower(cs[i].tag) !in InlineTags ==> Locate(cs, fuel) == []
  {
  }

  /** The loop's step into a block container keeps the path found so far a prefix of the answer. */
  lemma IntoKeepsPrefix(path: seq<nat>, cs: seq<Node>, fuel: nat, i: nat, answer: seq<nat>)
    requires fuel > 0 && LastMeaningful(cs) == Some(i) && cs[i].Element? && Lower(cs[i].tag) in RecurseTags
    requires path + Locate(cs, fuel) == answer
    ensures (path + [i]) + Locate(cs[i].children, fuel - 1) == answer
  {
    LocateInto(cs, fuel, i);
    assert path + ([i] + Locate(cs[i].children, fuel - 1)) == (path + [i]) + Locate(cs[i].children, fuel - 1);
  }

  /**
   * `findInnermostStreamingElement(element)`: a loop of at most five
   * levels; at each level a backward scan finds the last meaningful child.
   * No meaningful child, or a text child last: the current element.  A
   * block container: go into it.  Otherwise the child itself when it is
   * an inline container, else the current element.
   */
  method FindInnermostStreamingElement(element: Node) returns (path: seq<nat>)
    requires element.Element?
    ensures path == Locate(element.children, MaxDepth)
  {
    ghost var answer := Locate(element.children, MaxDepth);
    var current := element;
    var depth := 0;
    path := [];
    assert path + answer == answer;
    while depth < MaxDepth
      invariant 0 <= depth <= MaxDepth
      invariant current.Element?
      invariant path + Locate(current.children, MaxDepth - depth) == answer
      decreases MaxDepth - depth
    {
      var fuel := MaxDepth - depth;
      depth := depth + 1;
      var children := current.children;
      var last := FindLastMeaningful(children);
      if last.None? || !children[last.value].Element? {
        LocateStops(children, fuel);
        assert path + [] == path;
        return;
      }
      var child := children[last.value];
      var tagName := Lower(child.tag);
      if tagName in RecurseTags {
        IntoKeepsPrefix(path, children, fuel, last.value, answer);
        current := child;
        path := path + [last.value];
        continue;
      }
      LocateAt(children, fuel, last.value);
      if tagName in InlineTags {
        path := path + [last.value];
      } else {
        assert path + [] == path;
      }
      return;
    }
    assert Locate(current.children, 0) == [];
    assert path + [] == path;
  }

  /** Along such a path the `k`-th index is the last meaningful child of the element the first `k` lead to. */
  lemma {:induction false} FollowsAt(cs: seq<Node>, path: seq<nat>, k: nat)
    requires PathIn(cs, path) && FollowsLastMeaningful(cs, path) && k < |path|
    ensures PathIn(cs, path[..k]) && LastMeaningful(ChildrenAlong(cs, path[..k])) == Some(path[k])
    decreases k
  {
    assert path[..0] == [];
    if k > 0 {
      var rest := path[1..];
      FollowsAt(cs[path[0]].children, rest, k - 1);
      assert path[..k][0] == path[0] && path[..k][1..] == rest[..k - 1];
    }
  }

  /** Every step of the path picks the last meaningful child of the element it is in. */
  lemma LocateFollowsLastMeaningful(cs: seq<Node>, fuel: nat, k: nat)
    requires k < |Locate(cs, fuel)|
    ensures var r := Locate(cs, fuel);
            PathIn(cs, r[..k]) && LastMeaningful(ChildrenAlong(cs, r[..k])) == Some(r[k])
  {
    FollowsAt(cs, Locate(cs, fuel), k);
  }

  /** `NodeAt` reaches the element such a path ends at. */
  lemma {:induction false} NodeAtContainer(cs: seq<Node>, path: seq<nat>)
    requires PathIn(cs, path) && EndsAtContainer(cs, path)
    ensures ContainerTag(NodeAt(cs, path).tag)
    decreases path
  {
    if |path| > 1 {
      NodeAtContainer(cs[path[0]].children, path[1..]);
    }
  }

  /**
   * The element found is a block container that was descended into or an
   * inline container; the dot is never put into any other element, and
   * never into a dot.
   */
  lemma LocateTargetTag(cs: seq<Node>, fuel: nat)
    requires Locate(cs, fuel) != []
    ensures var n := NodeAt(cs, Locate(cs, fuel));
            Lower(n.tag) in RecurseTags + InlineTags
  {
    NodeAtContainer(cs, Locate(cs, fuel));
  }
}

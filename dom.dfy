/**
 * A document fragment as a value: elements with a tag, a class list,
 * attributes and children, text nodes and comments.  The streaming
 * indicator ("the dot") is an `svg` element of class
 * `markdown-stream-dot`; this module counts, removes, moves and appends it.
 */
module Dom {
  import opened Common

  datatype Node =
    | Element(tag: string, classes: set<string>, attrs: map<string, string>, children: seq<Node>)
    | Text(text: string)
    | Comment(text: string)

  /** The nodes the streaming-element search stops at: elements, and text nodes with visible text. */
  predicate Meaningful(n: Node)
  {
    n.Element? || (n.Text? && HasNonWhitespace(n.text))
  }

  /** `element.children`: the element children, in order. */
  function ElementChildren(cs: seq<Node>): (r: seq<Node>)
    ensures |r| <= |cs|
    ensures forall n :: n in r ==> n in cs && n.Element?
    ensures r == [] <==> forall i :: 0 <= i < |cs| ==> !cs[i].Element?
  {
    if cs == [] then []
    else (if cs[0].Element? then [cs[0]] else []) + ElementChildren(cs[1..])
  }

  /** `element.lastElementChild` */
  function LastElementChild(cs: seq<Node>): (r: Option<Node>)
    ensures r.None? <==> ElementChildren(cs) == []
    ensures r.Some? ==> r.value.Element? && r.value in cs
  {
    var es := ElementChildren(cs);
    if es == [] then None else Some(es[|es| - 1])
  }

  const DotClass: string := "markdown-stream-dot"

  /** The streaming indicator as it is inserted into the document. */
  const Dot: Node := Element("svg", {DotClass}, map["width" := "12", "height" := "12"], [])

  /** Matches the selector `svg.markdown-stream-dot`. */
  predicate IsDot(n: Node)
  {
    n.Element? && Lower(n.tag) == "svg" && DotClass in n.classes
  }

  /** Number of dots among `cs` and their descendants (a dot's own subtree is not searched). */
  function DotsIn(cs: seq<Node>): nat
    decreases cs
  {
    if cs == [] then 0
    else (if IsDot(cs[0]) then 1 else DotsBelow(cs[0])) + DotsIn(cs[1..])
  }

  /** Number of dots strictly inside `n`. */
  function DotsBelow(n: Node): nat
    decreases n
  {
    if n.Element? then DotsIn(n.children) else 0
  }

  lemma {:induction false} DotsInConcat(a: seq<Node>, b: seq<Node>)
    ensures DotsIn(a + b) == DotsIn(a) + DotsIn(b)
  {
    if a == [] {
      assert a + b == b;
    } else {
      assert (a + b)[0] == a[0];
      assert (a + b)[1..] == a[1..] + b;
      DotsInConcat(a[1..], b);
    }
  }

  /**
   * `container.querySelector("svg.markdown-stream-dot")?.remove()` on the
   * children `cs` of a container: the first dot in document order is
   * removed; the flag says whether one was found.
   */
  function RemoveFirstDotIn(cs: seq<Node>): (r: (seq<Node>, bool))
    ensures r.1 <==> DotsIn(cs) > 0
    ensures DotsIn(r.0) + (if r.1 then 1 else 0) == DotsIn(cs)
    decreases cs
  {
    if cs == [] then ([], false)
    else if IsDot(cs[0]) then (cs[1..], true)
    else
      var (c, found) := RemoveFirstDotBelow(cs[0]);
      if found then
        assert DotsIn([c] + cs[1..]) == DotsBelow(c) + DotsIn(cs[1..]) by {
          assert ([c] + cs[1..])[0] == c;
          assert ([c] + cs[1..])[1..] == cs[1..];
        }
        ([c] + cs[1..], true)
      else
        var (rest, f) := RemoveFirstDotIn(cs[1..]);
        assert DotsIn([cs[0]] + rest) == DotsBelow(cs[0]) + DotsIn(rest) by {
          assert ([cs[0]] + rest)[0] == cs[0];
          assert ([cs[0]] + rest)[1..] == rest;
        }
        ([cs[0]] + rest, f)
  }

  /** The removal of the first dot inside one node. */
  function RemoveFirstDotBelow(n: Node): (r: (Node, bool))
    ensures r.1 <==> DotsBelow(n) > 0
    ensures DotsBelow(r.0) + (if r.1 then 1 else 0) == DotsBelow(n)
    ensures !IsDot(n) ==> !IsDot(r.0)
    ensures r.0.Element? == n.Element?
    decreases n
  {
    if n.Element? then
      var (cs, f) := RemoveFirstDotIn(n.children);
      (n.(children := cs), f)
    else (n, false)
  }

  /** Every dot removed, at any depth. */
  function StripDotsIn(cs: seq<Node>): (r: seq<Node>)
    ensures DotsIn(r) == 0
    decreases cs
  {
    if cs == [] then []
    else
      var rest := StripDotsIn(cs[1..]);
      if IsDot(cs[0]) then rest
      else
        var c := StripDotsBelow(cs[0]);
        assert ([c] + rest)[0] == c && ([c] + rest)[1..] == rest;
        [c] + rest
  }

  function StripDotsBelow(n: Node): (r: Node)
    ensures DotsBelow(r) == 0
    ensures !IsDot(n) ==> !IsDot(r)
    ensures r.Element? == n.Element?
    decreases n
  {
    if n.Element? then n.(children := StripDotsIn(n.children)) else n
  }

  /** A tree without dots is left unchanged by stripping. */
  lemma {:induction false} StripDotsInNone(cs: seq<Node>)
    requires DotsIn(cs) == 0
    ensures StripDotsIn(cs) == cs
    decreases cs
  {
    if cs != [] {
      StripDotsBelowNone(cs[0]);
      StripDotsInNone(cs[1..]);
    }
  }

  lemma {:induction false} StripDotsBelowNone(n: Node)
    requires DotsBelow(n) == 0
    ensures StripDotsBelow(n) == n
    decreases n
  {
    if n.Element? {
      StripDotsInNone(n.children);
    }
  }

  /**
   * While at most one dot exists, removing the first one leaves the same
   * tree as removing every dot.
   */
  lemma {:induction false} RemoveFirstIsStrip(cs: seq<Node>)
    requires DotsIn(cs) <= 1
    ensures RemoveFirstDotIn(cs).0 == StripDotsIn(cs)
    decreases cs
  {
    if cs != [] {
      if IsDot(cs[0]) {
        StripDotsInNone(cs[1..]);
      } else {
        RemoveFirstIsStripBelow(cs[0]);
        if DotsBelow(cs[0]) == 1 {
          StripDotsInNone(cs[1..]);
        } else {
          StripDotsBelowNone(cs[0]);
          RemoveFirstIsStrip(cs[1..]);
        }
      }
    }
  }

  lemma {:induction false} RemoveFirstIsStripBelow(n: Node)
    requires DotsBelow(n) <= 1
    ensures RemoveFirstDotBelow(n).0 == StripDotsBelow(n)
    decreases n
  {
    if n.Element? {
      RemoveFirstIsStrip(n.children);
    }
  }

  /**
   * `path` leads from a list of children through element children that
   * are not dots: `path[0]` picks a child of `cs`, `path[1]` a child of
   * that child, and so on.
   */
  predicate PathIn(cs: seq<Node>, path: seq<nat>)
    decreases path
  {
    path == [] ||
    (path[0] < |cs| && cs[path[0]].Element? && !IsDot(cs[path[0]])
     && PathIn(cs[path[0]].children, path[1..]))
  }

  /**
   * `target.appendChild(x)` where `target` is reached by `path` from the
   * children `cs` and `x` is not yet in the document (a fresh clone).
   */
  function AppendAt(cs: seq<Node>, path: seq<nat>, x: Node): (r: seq<Node>)
    requires PathIn(cs, path)
    ensures |r| == |cs| + (if path == [] then 1 else 0)
    decreases path
  {
    if path == [] then cs + [x]
    else
      var i := path[0];
      var c := cs[i];
      cs[i := c.(children := AppendAt(c.children, path[1..], x))]
  }

  /** Appending a fresh dot adds exactly one dot. */
  lemma {:induction false} AppendDotAddsOne(cs: seq<Node>, path: seq<nat>)
    requires PathIn(cs, path)
    ensures DotsIn(AppendAt(cs, path, Dot)) == DotsIn(cs) + 1
    decreases path
  {
    if path == [] {
      DotsInConcat(cs, [Dot]);
      assert DotsIn([Dot]) == 1 by {
        assert [Dot][1..] == [];
      }
    } else {
      var i := path[0];
      var c := cs[i];
      var c' := c.(children := AppendAt(c.children, path[1..], Dot));
      AppendDotAddsOne(c.children, path[1..]);
      assert !IsDot(c');
      assert cs == cs[..i] + [c] + cs[i + 1..];
      assert AppendAt(cs, path, Dot) == cs[..i] + [c'] + cs[i + 1..];
      DotsInConcat(cs[..i] + [c], cs[i + 1..]);
      DotsInConcat(cs[..i], [c]);
      DotsInConcat(cs[..i] + [c'], cs[i + 1..]);
      DotsInConcat(cs[..i], [c']);
      assert [c][1..] == [] && [c'][1..] == [];
    }
  }

  /** Appending a fresh dot leaves the rest of the tree as it was. */
  lemma {:induction false} AppendDotStrips(cs: seq<Node>, path: seq<nat>)
    requires PathIn(cs, path)
    ensures StripDotsIn(AppendAt(cs, path, Dot)) == StripDotsIn(cs)
    decreases path
  {
    if path == [] {
      StripDotsInConcat(cs, [Dot]);
      assert StripDotsIn([Dot]) == [] by {
        assert IsDot(Dot) && [Dot][1..] == [];
      }
      assert StripDotsIn(cs) + [] == StripDotsIn(cs);
    } else {
      var i := path[0];
      var c := cs[i];
      var c' := c.(children := AppendAt(c.children, path[1..], Dot));
      AppendDotStrips(c.children, path[1..]);
      assert StripDotsBelow(c') == StripDotsBelow(c);
      assert !IsDot(c');
      assert cs == cs[..i] + [c] + cs[i + 1..];
      assert AppendAt(cs, path, Dot) == cs[..i] + [c'] + cs[i + 1..];
      StripDotsInConcat(cs[..i] + [c], cs[i + 1..]);
      StripDotsInConcat(cs[..i], [c]);
      StripDotsInConcat(cs[..i] + [c'], cs[i + 1..]);
      StripDotsInConcat(cs[..i], [c']);
      assert [c][1..] == [] && [c'][1..] == [];
    }
  }

  /**
   * `target.appendChild(dot)` for the one dot node of a document: the dot
   * leaves the place where it was (every dot is stripped) and becomes the
   * last child of the element `path` reaches in the ORIGINAL children `cs`.
   */
  function MoveDotIn(cs: seq<Node>, path: seq<nat>): seq<Node>
    decreases cs, 1
  {
    if path == [] then StripDotsIn(cs) + [Dot]
    else WalkTo(cs, path[0], path[1..])
  }

  /** `cs` is a suffix of the children; `k` is the index of the target among it (negative once passed). */
  function WalkTo(cs: seq<Node>, k: int, rest: seq<nat>): seq<Node>
    decreases cs, 0
  {
    if cs == [] then []
    else
      var head :=
        if IsDot(cs[0]) then []
        else if k == 0 then [MoveDotBelow(cs[0], rest)]
        else [StripDotsBelow(cs[0])];
      head + WalkTo(cs[1..], k - 1, rest)
  }

  function MoveDotBelow(n: Node, rest: seq<nat>): Node
    decreases n
  {
    if n.Element? then n.(children := MoveDotIn(n.children, rest)) else n
  }

  /** After the move exactly one dot exists, wherever the dots were before. */
  lemma {:induction false} MoveDotLeavesOne(cs: seq<Node>, path: seq<nat>)
    requires PathIn(cs, path)
    ensures DotsIn(MoveDotIn(cs, path)) == 1
    decreases cs, 1
  {
    if path == [] {
      DotsInConcat(StripDotsIn(cs), [Dot]);
      assert DotsIn([Dot]) == 1 by {
        assert [Dot][1..] == [];
      }
    } else {
      WalkToLeavesOne(cs, path[0], path[1..]);
    }
  }

  lemma {:induction false} WalkToLeavesOne(cs: seq<Node>, k: int, rest: seq<nat>)
    requires 0 <= k < |cs| ==> cs[k].Element? && !IsDot(cs[k]) && PathIn(cs[k].children, rest)
    ensures DotsIn(WalkTo(cs, k, rest)) == if 0 <= k < |cs| then 1 else 0
    decreases cs, 0
  {
    if cs != [] {
      var head :=
        if IsDot(cs[0]) then []
        else if k == 0 then [MoveDotBelow(cs[0], rest)]
        else [StripDotsBelow(cs[0])];
      WalkToLeavesOne(cs[1..], k - 1, rest);
      DotsInConcat(head, WalkTo(cs[1..], k - 1, rest));
      if !IsDot(cs[0]) {
        assert head[1..] == [];
        if k == 0 {
          MoveDotLeavesOne(cs[0].children, rest);
          assert DotsIn(head) == 1;
        } else {
          assert DotsIn(head) == 0;
        }
      } else {
        assert k != 0;
      }
    }
  }

  /** Apart from the dot, the move changes nothing. */
  lemma {:induction false} MoveDotKeepsContent(cs: seq<Node>, path: seq<nat>)
    ensures StripDotsIn(MoveDotIn(cs, path)) == StripDotsIn(cs)
    decreases cs, 1
  {
    if path == [] {
      StripDotsInConcat(StripDotsIn(cs), [Dot]);
      StripDotsInNone(StripDotsIn(cs));
      assert StripDotsIn([Dot]) == [] by {
        assert [Dot][1..] == [];
      }
    } else {
      WalkToKeepsContent(cs, path[0], path[1..]);
    }
  }

  lemma {:induction false} WalkToKeepsContent(cs: seq<Node>, k: int, rest: seq<nat>)
    ensures StripDotsIn(WalkTo(cs, k, rest)) == StripDotsIn(cs)
    decreases cs, 0
  {
    if cs != [] {
      var head :=
        if IsDot(cs[0]) then []
        else if k == 0 then [MoveDotBelow(cs[0], rest)]
        else [StripDotsBelow(cs[0])];
      WalkToKeepsContent(cs[1..], k - 1, rest);
      StripDotsInConcat(head, WalkTo(cs[1..], k - 1, rest));
      if !IsDot(cs[0]) {
        assert head[1..] == [];
        if k == 0 {
          MoveDotBelowKeepsContent(cs[0], rest);
        } else {
          StripDotsBelowTwice(cs[0]);
        }
        assert StripDotsIn(head) == [StripDotsBelow(cs[0])];
      }
    }
  }

  lemma {:induction false} MoveDotBelowKeepsContent(n: Node, rest: seq<nat>)
    ensures StripDotsBelow(MoveDotBelow(n, rest)) == StripDotsBelow(n)
    ensures IsDot(MoveDotBelow(n, rest)) == IsDot(n)
    decreases n
  {
    if n.Element? {
      MoveDotKeepsContent(n.children, rest);
    }
  }

  lemma {:induction false} StripDotsInConcat(a: seq<Node>, b: seq<Node>)
    ensures StripDotsIn(a + b) == StripDotsIn(a) + StripDotsIn(b)
  {
    if a == [] {
      assert a + b == b;
    } else {
      assert (a + b)[0] == a[0];
      assert (a + b)[1..] == a[1..] + b;
      StripDotsInConcat(a[1..], b);
    }
  }

  lemma {:induction false} StripDotsBelowTwice(n: Node)
    ensures StripDotsBelow(StripDotsBelow(n)) == StripDotsBelow(n)
  {
    StripDotsBelowNone(StripDotsBelow(n));
  }

  // ---------------------------------------------------------------
  // The page: one dot node shared by every streaming container

  /** The dots on a page, each element of `page` being one container's children. */
  function DotsOnPage(page: seq<seq<Node>>): nat
  {
    if page == [] then 0 else DotsIn(page[0]) + DotsOnPage(page[1..])
  }

  /**
   * `innerEl.appendChild(SVG_DOT)` seen from the whole page: the dot node
   * is one module-level constant, so moving it into container `k` (at
   * `path`) takes it out of whichever container held it.
   */
  function MoveSharedDot(page: seq<seq<Node>>, k: nat, path: seq<nat>): seq<seq<Node>>
    requires k < |page| && PathIn(page[k], path)
  {
    seq(|page|, j requires 0 <= j < |page| => if j == k then MoveDotIn(page[k], path) else StripDotsIn(page[j]))
  }

  /** A page whose containers other than `k` hold no dot has the dots of container `k`. */
  lemma {:induction false} DotsOnPageOnly(page: seq<seq<Node>>, k: int)
    requires forall j :: 0 <= j < |page| && j != k ==> DotsIn(page[j]) == 0
    ensures DotsOnPage(page) == if 0 <= k < |page| then DotsIn(page[k]) else 0
  {
    if page != [] {
      DotsOnPageOnly(page[1..], k - 1);
    }
  }

  /**
   * After the dot moves, the whole page holds exactly one dot, in
   * container `k`, and no container changes in anything but dots.
   */
  lemma MoveSharedDotLeavesOne(page: seq<seq<Node>>, k: nat, path: seq<nat>)
    requires k < |page| && PathIn(page[k], path)
    ensures var r := MoveSharedDot(page, k, path);
            && |r| == |page|
            && DotsOnPage(r) == 1
            && DotsIn(r[k]) == 1
            && forall j :: 0 <= j < |page| ==> StripDotsIn(r[j]) == StripDotsIn(page[j])
  {
    var r := MoveSharedDot(page, k, path);
    MoveDotLeavesOne(page[k], path);
    MoveDotKeepsContent(page[k], path);
    DotsOnPageOnly(r, k);
    forall j | 0 <= j < |page| && j != k
      ensures StripDotsIn(r[j]) == StripDotsIn(page[j])
    {
      StripDotsInNone(StripDotsIn(page[j]));
    }
  }
}

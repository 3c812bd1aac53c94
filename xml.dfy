/** The element tree every JSS object wraps, and the parts of ElementTree's
    path language the library uses: `find`, `findall` and `findtext` on a
    path of plain tag steps such as "general/category". */
module Xml {
  import opened Wrappers

  /** An element: its tag, its text (`None` when absent) and its ordered
      children. Attributes and tails are not part of the model. */
  datatype Element = Element(tag: string, text: Option<string>, children: seq<Element>)

  /** A path of tag steps: "scope/computers" is ["scope", "computers"]. */
  type Path = seq<string>

  /** A position in a tree: the child index taken at each level. */
  type Pos = seq<nat>

  predicate ValidPos(e: Element, p: Pos)
    decreases |p|
  {
    p == [] || (p[0] < |e.children| && ValidPos(e.children[p[0]], p[1..]))
  }

  /** The element at position `p`. */
  function At(e: Element, p: Pos): Element
    requires ValidPos(e, p)
    decreases |p|
  {
    if p == [] then e else At(e.children[p[0]], p[1..])
  }

  /** The tree with the element at `p` replaced by `x`: an in-place edit of
      that element, seen from the root. */
  function ReplaceAt(e: Element, p: Pos, x: Element): (r: Element)
    requires ValidPos(e, p)
    ensures ValidPos(r, p) && At(r, p) == x
    ensures p != [] ==> r.tag == e.tag && r.text == e.text && |r.children| == |e.children|
    ensures p != [] ==> forall j :: 0 <= j < |e.children| && j != p[0] ==> r.children[j] == e.children[j]
    decreases |p|
  {
    if p == [] then x
    else e.(children := e.children[p[0] := ReplaceAt(e.children[p[0]], p[1..], x)])
  }

  /** Putting back what is already there changes nothing. */
  lemma {:induction false} ReplaceAtSame(e: Element, p: Pos)
    requires ValidPos(e, p)
    ensures ReplaceAt(e, p, At(e, p)) == e
    decreases |p|
  {
    if p != [] {
      ReplaceAtSame(e.children[p[0]], p[1..]);
      assert e.children[p[0] := e.children[p[0]]] == e.children;
    }
  }

  /** A second replacement at the same position overrides the first. */
  lemma {:induction false} ReplaceAtTwice(e: Element, p: Pos, x: Element, y: Element)
    requires ValidPos(e, p)
    ensures ValidPos(ReplaceAt(e, p, x), p)
    ensures ReplaceAt(ReplaceAt(e, p, x), p, y) == ReplaceAt(e, p, y)
    decreases |p|
  {
    if p != [] {
      ReplaceAtTwice(e.children[p[0]], p[1..], x, y);
    }
  }

  /** `b` differs from `a` at most in the element at `p`: putting `a`'s
      element back at `p` gives `a` again. */
  predicate SameOutside(a: Element, b: Element, p: Pos) {
    ValidPos(a, p) && ValidPos(b, p) && ReplaceAt(b, p, At(a, p)) == a
  }

  /** A replacement changes nothing outside the position it replaces. */
  lemma ReplaceAtOutside(e: Element, p: Pos, x: Element)
    requires ValidPos(e, p)
    ensures SameOutside(e, ReplaceAt(e, p, x), p)
  {
    ReplaceAtTwice(e, p, x, At(e, p));
    ReplaceAtSame(e, p);
  }

  /** Two trees that agree with `a` outside `p` and with each other at `p`
      are the same tree. */
  lemma SameOutsideUnique(a: Element, b: Element, c: Element, p: Pos)
    requires SameOutside(a, b, p) && SameOutside(a, c, p) && At(b, p) == At(c, p)
    ensures b == c
  {
    ReplaceAtTwice(b, p, At(a, p), At(b, p));
    ReplaceAtSame(b, p);
    ReplaceAtTwice(c, p, At(a, p), At(c, p));
    ReplaceAtSame(c, p);
  }

  /** `p` leads from `e` through elements whose tags spell `path`. */
  predicate RouteMatches(e: Element, p: Pos, path: Path)
    decreases |p|
  {
    |p| == |path| &&
    (p == [] ||
      (p[0] < |e.children| && e.children[p[0]].tag == path[0] &&
       RouteMatches(e.children[p[0]], p[1..], path[1..])))
  }

  lemma {:induction false} RouteIsValid(e: Element, p: Pos, path: Path)
    requires RouteMatches(e, p, path)
    ensures ValidPos(e, p)
    ensures path != [] ==> At(e, p).tag == path[|path| - 1]
    decreases |p|
  {
    if p != [] {
      RouteIsValid(e.children[p[0]], p[1..], path[1..]);
    }
  }

  /** One step further down a matching route matches the longer path. */
  lemma {:induction false} RouteExtend(e: Element, p: Pos, path: Path, k: nat)
    requires RouteMatches(e, p, path)
    requires ValidPos(e, p) && k < |At(e, p).children|
    ensures ValidPos(e, p + [k]) && At(e, p + [k]) == At(e, p).children[k]
    ensures RouteMatches(e, p + [k], path + [At(e, p).children[k].tag])
    decreases |p|
  {
    if p != [] {
      assert (p + [k])[1..] == p[1..] + [k];
      assert (path + [At(e, p).children[k].tag])[1..] == path[1..] + [At(e, p).children[k].tag];
      RouteExtend(e.children[p[0]], p[1..], path[1..], k);
    }
  }

  function Prefixed(i: nat, ps: seq<Pos>): (r: seq<Pos>)
    ensures |r| == |ps|
    ensures forall k :: 0 <= k < |r| ==> r[k] == [i] + ps[k]
  {
    seq(|ps|, k requires 0 <= k < |ps| => [i] + ps[k])
  }

  /** Every position `findall(path)` yields, in ElementTree's order: for each
      child whose tag is the first step, in order, the matches of the rest
      of the path below it. */
  function MatchPositions(e: Element, path: Path): seq<Pos>
    decreases |path|, 1, 0
  {
    if path == [] then [[]] else MatchesFrom(e.children, path, 0)
  }

  function MatchesFrom(cs: seq<Element>, path: Path, i: nat): seq<Pos>
    requires path != [] && i <= |cs|
    decreases |path|, 0, |cs| - i
  {
    if i == |cs| then []
    else
      (if cs[i].tag == path[0] then Prefixed(i, MatchPositions(cs[i], path[1..])) else [])
      + MatchesFrom(cs, path, i + 1)
  }

  /** Everything `findall` yields is a route that spells the path. */
  lemma {:induction false} MatchSound(e: Element, path: Path)
    ensures forall k :: 0 <= k < |MatchPositions(e, path)| ==> RouteMatches(e, MatchPositions(e, path)[k], path)
    decreases |path|, 1, 0
  {
    if path != [] {
      MatchesFromSound(e.children, path, 0);
    }
  }

  lemma {:induction false} MatchesFromSound(cs: seq<Element>, path: Path, i: nat)
    requires path != [] && i <= |cs|
    ensures forall k :: 0 <= k < |MatchesFrom(cs, path, i)| ==>
              var q := MatchesFrom(cs, path, i)[k];
              |q| >= 1 && i <= q[0] < |cs| && cs[q[0]].tag == path[0] &&
              RouteMatches(cs[q[0]], q[1..], path[1..])
    decreases |path|, 0, |cs| - i
  {
    if i < |cs| {
      MatchesFromSound(cs, path, i + 1);
      if cs[i].tag == path[0] {
        MatchSound(cs[i], path[1..]);
        var here := Prefixed(i, MatchPositions(cs[i], path[1..]));
        forall k | 0 <= k < |here|
          ensures here[k][0] == i && RouteMatches(cs[i], here[k][1..], path[1..])
        {
          assert here[k][1..] == MatchPositions(cs[i], path[1..])[k];
        }
      }
    }
  }

  /** Every route that spells the path is found by `findall`. */
  lemma {:induction false} MatchComplete(e: Element, p: Pos, path: Path)
    requires RouteMatches(e, p, path)
    ensures p in MatchPositions(e, path)
    decreases |path|
  {
    if path != [] {
      MatchComplete(e.children[p[0]], p[1..], path[1..]);
      MatchesFromComplete(e.children, p, path, 0);
    }
  }

  lemma {:induction false} MatchesFromComplete(cs: seq<Element>, p: Pos, path: Path, i: nat)
    requires path != [] && |p| >= 1 && i <= p[0] < |cs| && cs[p[0]].tag == path[0]
    requires p[1..] in MatchPositions(cs[p[0]], path[1..])
    ensures p in MatchesFrom(cs, path, i)
    decreases p[0] - i
  {
    if i < p[0] {
      MatchesFromComplete(cs, p, path, i + 1);
    } else {
      var m := MatchPositions(cs[i], path[1..]);
      var k :| 0 <= k < |m| && m[k] == p[1..];
      assert Prefixed(i, m)[k] == p;
    }
  }

  /** Replacing an element by one with the same tag leaves every `findall`
      whose path does not reach below it unchanged. */
  lemma {:induction false} MatchesAfterReplace(e: Element, p: Pos, x: Element, path: Path)
    requires ValidPos(e, p) && |path| <= |p| && x.tag == At(e, p).tag
    ensures MatchPositions(ReplaceAt(e, p, x), path) == MatchPositions(e, path)
    decreases |path|, 1, 0
  {
    if path != [] {
      MatchesFromAfterReplace(e.children, ReplaceAt(e, p, x).children, p, x, path, 0);
    }
  }

  lemma {:induction false} MatchesFromAfterReplace(cs: seq<Element>, cs': seq<Element>, p: Pos, x: Element,
                                                    path: Path, i: nat)
    requires p != [] && p[0] < |cs| && ValidPos(cs[p[0]], p[1..])
    requires cs' == cs[p[0] := ReplaceAt(cs[p[0]], p[1..], x)]
    requires path != [] && |path| <= |p| && x.tag == At(cs[p[0]], p[1..]).tag && i <= |cs|
    ensures MatchesFrom(cs', path, i) == MatchesFrom(cs, path, i)
    decreases |path|, 0, |cs| - i
  {
    if i < |cs| {
      MatchesFromAfterReplace(cs, cs', p, x, path, i + 1);
      if i == p[0] {
        assert cs'[i].tag == cs[i].tag;
        MatchesAfterReplace(cs[i], p[1..], x, path[1..]);
      }
    }
  }

  /** The position `find(path)` returns: the first `findall` match. */
  function FindPos(e: Element, path: Path): (r: Option<Pos>)
    ensures r.Some? ==> ValidPos(e, r.value) && RouteMatches(e, r.value, path)
    ensures r.None? <==> MatchPositions(e, path) == []
  {
    var ms := MatchPositions(e, path);
    if ms == [] then None
    else
      MatchSound(e, path);
      RouteIsValid(e, ms[0], path);
      Some(ms[0])
  }

  /** ElementTree's `find(path)`. */
  function Find(e: Element, path: Path): Option<Element> {
    match FindPos(e, path)
    case None => None
    case Some(p) => Some(At(e, p))
  }

  /** ElementTree's `findall(path)`. */
  function FindAll(e: Element, path: Path): (r: seq<Element>)
    ensures |r| == |MatchPositions(e, path)|
  {
    var ms := MatchPositions(e, path);
    MatchSound(e, path);
    seq(|ms|, k requires 0 <= k < |ms| => (RouteIsValid(e, ms[k], path); At(e, ms[k])))
  }

  /** An element's text as `findtext` reports it: "" when the element has none. */
  function TextOf(e: Element): string {
    e.text.GetOr("")
  }

  /** ElementTree's `findtext(path)`: `None` when nothing matches, otherwise
      the first match's text, "" if it has none. */
  function FindText(e: Element, path: Path): Option<string> {
    match Find(e, path)
    case None => None
    case Some(x) => Some(TextOf(x))
  }

  /** `find(tag)` on a direct child: the first child carrying the tag. */
  lemma {:induction false} FindFirstChild(e: Element, tag: string, k: nat)
    requires k < |e.children| && e.children[k].tag == tag
    requires forall j :: 0 <= j < k ==> e.children[j].tag != tag
    ensures FindPos(e, [tag]) == Some([k])
  {
    FirstMatchFrom(e.children, tag, k, 0);
  }

  lemma MatchesFromSkip(cs: seq<Element>, tag: string, i: nat)
    requires i < |cs| && cs[i].tag != tag
    ensures MatchesFrom(cs, [tag], i) == MatchesFrom(cs, [tag], i + 1)
  {
  }

  lemma MatchesFromHit(cs: seq<Element>, tag: string, i: nat)
    requires i < |cs| && cs[i].tag == tag
    ensures MatchesFrom(cs, [tag], i) == [[i]] + MatchesFrom(cs, [tag], i + 1)
  {
    assert [tag][1..] == [];
    assert MatchPositions(cs[i], []) == [[]];
    var here := Prefixed(i, MatchPositions(cs[i], []));
    assert |here| == 1 && here[0] == [i] + [];
    assert [i] + [] == [i];
    assert here == [[i]];
  }

  lemma {:induction false} FirstMatchFrom(cs: seq<Element>, tag: string, k: nat, i: nat)
    requires i <= k < |cs| && cs[k].tag == tag
    requires forall j :: i <= j < k ==> cs[j].tag != tag
    ensures MatchesFrom(cs, [tag], i) != [] && MatchesFrom(cs, [tag], i)[0] == [k]
    decreases k - i
  {
    if i < k {
      FirstMatchFrom(cs, tag, k, i + 1);
      MatchesFromSkip(cs, tag, i);
    } else {
      MatchesFromHit(cs, tag, i);
      var rest := MatchesFrom(cs, [tag], i + 1);
      assert ([[i]] + rest)[0] == [i];
    }
  }

  /** `find(tag)` on a direct child gives the first child carrying the tag. */
  lemma FoundChildIsFirst(e: Element, tag: string)
    requires FindPos(e, [tag]).Some?
    ensures var p := FindPos(e, [tag]).value;
      |p| == 1 && p[0] < |e.children| && e.children[p[0]].tag == tag &&
      forall j :: 0 <= j < p[0] ==> e.children[j].tag != tag
  {
    var p := FindPos(e, [tag]).value;
    assert p[0] < |e.children| && e.children[p[0]].tag == tag;
    FirstChildFrom(e, tag, 0, p[0]);
  }

  /** A direct child carrying the tag makes `find(tag)` give the first such
      child. */
  lemma {:induction false} FirstChildFrom(e: Element, tag: string, i: nat, m: nat)
    requires i <= m < |e.children| && e.children[m].tag == tag
    requires forall j :: 0 <= j < i ==> e.children[j].tag != tag
    ensures exists k :: (i <= k <= m && e.children[k].tag == tag &&
                         (forall j :: 0 <= j < k ==> e.children[j].tag != tag) && FindPos(e, [tag]) == Some([k]))
    decreases m - i
  {
    if e.children[i].tag == tag {
      FindFirstChild(e, tag, i);
    } else {
      FirstChildFrom(e, tag, i + 1, m);
    }
  }

  /** `find(tag)` finds nothing when no direct child carries the tag. */
  lemma {:induction false} FindNoChild(e: Element, tag: string)
    requires forall j :: 0 <= j < |e.children| ==> e.children[j].tag != tag
    ensures FindPos(e, [tag]) == None
  {
    NoMatchFrom(e.children, tag, 0);
  }

  lemma {:induction false} NoMatchFrom(cs: seq<Element>, tag: string, i: nat)
    requires i <= |cs|
    requires forall j :: i <= j < |cs| ==> cs[j].tag != tag
    ensures MatchesFrom(cs, [tag], i) == []
    decreases |cs| - i
  {
    if i < |cs| {
      NoMatchFrom(cs, tag, i + 1);
      MatchesFromSkip(cs, tag, i);
    }
  }

  /** The matches of a path start with those below the first child that
      carries its first step. */
  lemma {:induction false} MatchesFromFirst(cs: seq<Element>, path: Path, g: nat, i: nat)
    requires path != [] && i <= g < |cs| && cs[g].tag == path[0]
    requires forall j :: i <= j < g ==> cs[j].tag != path[0]
    ensures MatchesFrom(cs, path, i) ==
            Prefixed(g, MatchPositions(cs[g], path[1..])) + MatchesFrom(cs, path, g + 1)
    decreases g - i
  {
    if i < g {
      MatchesFromFirst(cs, path, g, i + 1);
    }
  }

  /** `find(tag + "/" + rest)` looks below the first child carrying `tag`
      when that child has a match for `rest`. */
  lemma {:induction false} FindBelowFirst(e: Element, tag: string, rest: Path, g: nat)
    requires g < |e.children| && e.children[g].tag == tag
    requires forall j :: 0 <= j < g ==> e.children[j].tag != tag
    requires MatchPositions(e.children[g], rest) != []
    ensures Find(e, [tag] + rest) == Find(e.children[g], rest)
  {
    var path := [tag] + rest;
    assert path[0] == tag && path[1..] == rest;
    MatchesFromFirst(e.children, path, g, 0);
    var ms := MatchPositions(e.children[g], rest);
    var all := MatchPositions(e, path);
    assert all[0] == [g] + ms[0];
    MatchSound(e.children[g], rest);
    RouteIsValid(e.children[g], ms[0], rest);
    assert FindPos(e, path) == Some([g] + ms[0]);
    assert FindPos(e.children[g], rest) == Some(ms[0]);
    assert ([g] + ms[0])[1..] == ms[0];
  }

  /** `find(tag)` is the first child carrying `tag`. */
  lemma FindChild(e: Element, tag: string, k: nat)
    requires k < |e.children| && e.children[k].tag == tag
    requires forall j :: 0 <= j < k ==> e.children[j].tag != tag
    ensures Find(e, [tag]) == Some(e.children[k])
    ensures FindText(e, [tag]) == Some(TextOf(e.children[k]))
  {
    assert MatchPositions(e.children[k], []) == [[]];
    FindBelowFirst(e, tag, [], k);
    assert [tag] + [] == [tag];
  }

  /** Editing the element `find(path)` returns, keeping its tag, leaves
      `find(path)` pointing at the edited element. */
  lemma EditKeepsFind(e: Element, path: Path, p: Pos, x: Element)
    requires FindPos(e, path) == Some(p) && x.tag == At(e, p).tag
    ensures FindPos(ReplaceAt(e, p, x), path) == Some(p)
    ensures Find(ReplaceAt(e, p, x), path) == Some(x)
  {
    MatchesAfterReplace(e, p, x, path);
  }

  /** Every route that spells the path shows up in `findall`. */
  lemma FindAllContains(e: Element, q: Pos, path: Path)
    requires RouteMatches(e, q, path)
    ensures ValidPos(e, q)
    ensures exists i :: 0 <= i < |FindAll(e, path)| && FindAll(e, path)[i] == At(e, q)
  {
    RouteIsValid(e, q, path);
    MatchComplete(e, q, path);
    var ms := MatchPositions(e, path);
    var i :| 0 <= i < |ms| && ms[i] == q;
    assert FindAll(e, path)[i] == At(e, q);
  }

  /** A child appended to the element a path finds is found by `findall`
      on the path one tag longer. */
  lemma AppendedInFindAll(e: Element, path: Path, p: Pos, x: Element, c: Element)
    requires FindPos(e, path) == Some(p)
    requires x == At(e, p).(children := At(e, p).children + [c])
    ensures exists i :: 0 <= i < |FindAll(ReplaceAt(e, p, x), path + [c.tag])| &&
                        FindAll(ReplaceAt(e, p, x), path + [c.tag])[i] == c
  {
    var n := |At(e, p).children|;
    var t := ReplaceAt(e, p, x);
    EditKeepsFind(e, path, p, x);
    assert RouteMatches(t, p, path) && ValidPos(t, p) && At(t, p) == x;
    assert x.children[n] == c;
    RouteExtend(t, p, path, n);
    FindAllContains(t, p + [n], path + [c.tag]);
  }

  /** Appending a child with another tag does not change what a path
      starting with `path[0]` finds. */
  lemma {:induction false} MatchesFromAppend(cs: seq<Element>, x: Element, path: Path, i: nat)
    requires path != [] && x.tag != path[0] && i <= |cs|
    ensures MatchesFrom(cs + [x], path, i) == MatchesFrom(cs, path, i)
    decreases |cs| - i
  {
    if i < |cs| {
      assert (cs + [x])[i] == cs[i];
      MatchesFromAppend(cs, x, path, i + 1);
    }
  }

  lemma FindAfterAppend(e: Element, x: Element, path: Path)
    requires path != [] && x.tag != path[0]
    ensures FindPos(e.(children := e.children + [x]), path) == FindPos(e, path)
    ensures Find(e.(children := e.children + [x]), path) == Find(e, path)
  {
    var e' := e.(children := e.children + [x]);
    MatchesFromAppend(e.children, x, path, 0);
    match FindPos(e, path)
    case None =>
    case Some(p) =>
      assert p[0] < |e.children| && ValidPos(e.children[p[0]], p[1..]);
      assert e'.children[p[0]] == e.children[p[0]];
      assert At(e', p) == At(e, p);
  }

  /** When `find(tag)` finds nothing, no direct child carries the tag. */
  lemma NoChildWhenNotFound(e: Element, tag: string)
    requires FindPos(e, [tag]) == None
    ensures forall j :: 0 <= j < |e.children| ==> e.children[j].tag != tag
  {
    forall j | 0 <= j < |e.children|
      ensures e.children[j].tag != tag
    {
      if e.children[j].tag == tag {
        assert [j][1..] == [] && [tag][1..] == [];
        assert RouteMatches(e, [j], [tag]);
        MatchComplete(e, [j], [tag]);
      }
    }
  }
}

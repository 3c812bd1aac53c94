/** The ordering `JSSObjectList.sort` and `sort_by_name` put a list in:
    Python's stable sort by a key computed once per item, with Python 2's
    comparison of the keys (numbers numerically, strings code point by
    code point, `None` below everything). The sort is written out as a
    stable insertion sort and proved sorted, a permutation, and stable. */
module Sorting {
  import opened Wrappers
  import opened Errors
  import opened Listing

  /** A sort key: an id (`int(self["id"])`) or a name (`self["name"]`,
      possibly `None`). */
  datatype SortKey = Number(n: int) | Label(s: Option<string>)

  /** Python 2's `<=` on two byte strings. */
  predicate StrLe(a: string, b: string)
    decreases |a|
  {
    a == [] || (b != [] && (a[0] < b[0] || (a[0] == b[0] && StrLe(a[1..], b[1..]))))
  }

  /** Python 2 puts `None` below numbers and numbers below strings. */
  function Rank(k: SortKey): nat {
    match k
    case Label(None) => 0
    case Number(_) => 1
    case Label(Some(_)) => 2
  }

  predicate KeyLe(a: SortKey, b: SortKey) {
    if Rank(a) != Rank(b) then Rank(a) < Rank(b)
    else if a.Number? && b.Number? then a.n <= b.n
    else if a.Label? && b.Label? && a.s.Some? && b.s.Some? then StrLe(a.s.value, b.s.value)
    else true
  }

  lemma {:induction false} StrLeRefl(a: string)
    ensures StrLe(a, a)
    decreases |a|
  {
    if a != [] {
      StrLeRefl(a[1..]);
    }
  }

  lemma {:induction false} StrLeTotal(a: string, b: string)
    ensures StrLe(a, b) || StrLe(b, a)
    decreases |a|
  {
    if a != [] && b != [] && a[0] == b[0] {
      StrLeTotal(a[1..], b[1..]);
    }
  }

  lemma {:induction false} StrLeTrans(a: string, b: string, c: string)
    requires StrLe(a, b) && StrLe(b, c)
    ensures StrLe(a, c)
    decreases |a|
  {
    if a != [] && a[0] == b[0] && b[0] == c[0] {
      StrLeTrans(a[1..], b[1..], c[1..]);
    }
  }

  lemma {:induction false} StrLeAntisym(a: string, b: string)
    requires StrLe(a, b) && StrLe(b, a)
    ensures a == b
    decreases |a|
  {
    if a != [] {
      StrLeAntisym(a[1..], b[1..]);
      assert a == [a[0]] + a[1..] && b == [b[0]] + b[1..];
    }
  }

  /** Any two keys compare one way or the other. */
  lemma KeyLeTotal(a: SortKey, b: SortKey)
    ensures KeyLe(a, b) || KeyLe(b, a)
  {
    if a.Label? && b.Label? && a.s.Some? && b.s.Some? {
      StrLeTotal(a.s.value, b.s.value);
    }
  }

  lemma KeyLeRefl(a: SortKey)
    ensures KeyLe(a, a)
  {
    if a.Label? && a.s.Some? {
      StrLeRefl(a.s.value);
    }
  }

  lemma KeyLeTrans(a: SortKey, b: SortKey, c: SortKey)
    requires KeyLe(a, b) && KeyLe(b, c)
    ensures KeyLe(a, c)
  {
    if a.Label? && b.Label? && c.Label? && a.s.Some? && b.s.Some? && c.s.Some? {
      StrLeTrans(a.s.value, b.s.value, c.s.value);
    }
  }

  /** Keys that compare both ways are the same key. */
  lemma KeyLeAntisym(a: SortKey, b: SortKey)
    requires KeyLe(a, b) && KeyLe(b, a)
    ensures a == b
  {
    if a.Label? && b.Label? && a.s.Some? && b.s.Some? {
      StrLeAntisym(a.s.value, b.s.value);
    }
  }

  /** An item with the key the sort computed for it. */
  datatype Keyed = Keyed(item: ListData, key: SortKey)

  predicate SortedByKey(s: seq<Keyed>) {
    forall i, j :: 0 <= i < j < |s| ==> KeyLe(s[i].key, s[j].key)
  }

  /** `x` placed after every item of `t` whose key is not above its own. */
  function Insert(t: seq<Keyed>, x: Keyed): (r: seq<Keyed>)
    ensures multiset(r) == multiset(t) + multiset{x}
    ensures |r| == |t| + 1
  {
    if t == [] || KeyLe(t[|t| - 1].key, x.key) then t + [x]
    else
      var n := |t| - 1;
      assert t == t[..n] + [t[n]];
      Insert(t[..n], x) + [t[n]]
  }

  /** The items in key order, items with equal keys in their old order. */
  function InsertionSort(s: seq<Keyed>): (r: seq<Keyed>)
    ensures multiset(r) == multiset(s)
    ensures |r| == |s|
  {
    if s == [] then []
    else
      var n := |s| - 1;
      assert s == s[..n] + [s[n]];
      Insert(InsertionSort(s[..n]), s[n])
  }

  lemma {:induction false} InsertSorted(t: seq<Keyed>, x: Keyed)
    requires SortedByKey(t)
    ensures SortedByKey(Insert(t, x))
    decreases |t|
  {
    if t == [] {
    } else if KeyLe(t[|t| - 1].key, x.key) {
      var r := t + [x];
      forall i, j | 0 <= i < j < |r|
        ensures KeyLe(r[i].key, r[j].key)
      {
        if j == |t| && i < |t| - 1 {
          KeyLeTrans(t[i].key, t[|t| - 1].key, x.key);
        }
      }
    } else {
      var n := |t| - 1;
      var y := t[n];
      var init := t[..n];
      assert SortedByKey(init);
      InsertSorted(init, x);
      KeyLeTotal(y.key, x.key);
      var m := Insert(init, x);
      forall e | e in m
        ensures KeyLe(e.key, y.key)
      {
        assert e in multiset(m);
        if e != x {
          assert e in init;
          var i :| 0 <= i < n && init[i] == e;
          assert t[i] == e;
        }
      }
      var r := m + [y];
      forall i, j | 0 <= i < j < |r|
        ensures KeyLe(r[i].key, r[j].key)
      {
        if j == |m| {
          assert r[i] in m;
        }
      }
    }
  }

  /** The sort puts the items in key order. */
  lemma {:induction false} SortIsSorted(s: seq<Keyed>)
    ensures SortedByKey(InsertionSort(s))
    decreases |s|
  {
    if s != [] {
      SortIsSorted(s[..|s| - 1]);
      InsertSorted(InsertionSort(s[..|s| - 1]), s[|s| - 1]);
    }
  }

  /** The items carrying one key, in order. */
  function WithKey(s: seq<Keyed>, k: SortKey): (r: seq<Keyed>)
    ensures forall i :: 0 <= i < |r| ==> r[i].key == k
  {
    if s == [] then []
    else WithKey(s[..|s| - 1], k) + (if s[|s| - 1].key == k then [s[|s| - 1]] else [])
  }

  lemma {:induction false} WithKeyAppend(s: seq<Keyed>, y: Keyed, k: SortKey)
    ensures WithKey(s + [y], k) == WithKey(s, k) + (if y.key == k then [y] else [])
  {
    assert (s + [y])[..|s|] == s;
  }

  lemma {:induction false} WithKeyInsert(t: seq<Keyed>, x: Keyed, k: SortKey)
    ensures WithKey(Insert(t, x), k) == WithKey(t, k) + (if x.key == k then [x] else [])
    decreases |t|
  {
    if t == [] || KeyLe(t[|t| - 1].key, x.key) {
      WithKeyAppend(t, x, k);
    } else {
      var n := |t| - 1;
      var y := t[n];
      assert t == t[..n] + [y];
      WithKeyInsert(t[..n], x, k);
      WithKeyAppend(Insert(t[..n], x), y, k);
      WithKeyAppend(t[..n], y, k);
      KeyLeRefl(x.key);
      assert y.key == k ==> x.key != k;
    }
  }

  /** The sort is stable: the items with any one key keep their order. */
  lemma {:induction false} SortIsStable(s: seq<Keyed>, k: SortKey)
    ensures WithKey(InsertionSort(s), k) == WithKey(s, k)
    decreases |s|
  {
    if s != [] {
      var n := |s| - 1;
      SortIsStable(s[..n], k);
      WithKeyInsert(InsertionSort(s[..n]), s[n], k);
      assert s == s[..n] + [s[n]];
      WithKeyAppend(s[..n], s[n], k);
    }
  }

  /** The key `sort` uses: `lambda k: k.id`. */
  function IdKey(d: ListData): Result<SortKey> {
    match ListId(d)
    case Failure(e) => Failure(e)
    case Success(n) => Success(Number(n))
  }

  /** The key `sort_by_name` uses: `lambda k: k.name`. */
  function NameKey(d: ListData): Result<SortKey> {
    match ListName(d)
    case Failure(e) => Failure(e)
    case Success(s) => Success(Label(s))
  }

  function KeyOf(d: ListData, byName: bool): Result<SortKey> {
    if byName then NameKey(d) else IdKey(d)
  }

  /** The keys, computed item by item before anything moves; an item
      whose key raises stops the sort. */
  function KeyEach(items: seq<ListData>, byName: bool): (r: Result<seq<Keyed>>)
    ensures r.Success? ==> |r.value| == |items|
  {
    if items == [] then Success([])
    else
      match KeyOf(items[0], byName)
      case Failure(e) => Failure(e)
      case Success(k) =>
        match KeyEach(items[1..], byName)
        case Failure(e) => Failure(e)
        case Success(ks) => Success([Keyed(items[0], k)] + ks)
  }

  /** Every item gets the key `KeyOf` gives it, and the keys fail exactly
      when some item's key fails, with that item's error. */
  lemma KeyEachSpec(items: seq<ListData>, byName: bool)
    ensures var r := KeyEach(items, byName);
      (r.Success? ==> forall i :: 0 <= i < |items| ==>
         r.value[i].item == items[i] && KeyOf(items[i], byName) == Success(r.value[i].key)) &&
      (r.Failure? ==> exists i :: 0 <= i < |items| && KeyOf(items[i], byName) == Failure(r.error)) &&
      (r.Success? <==> forall i :: 0 <= i < |items| ==> KeyOf(items[i], byName).Success?)
  {
    KeyEachKeys(items, byName);
    KeyEachFails(items, byName);
    KeyEachTotal(items, byName);
  }

  lemma {:induction false} KeyEachKeys(items: seq<ListData>, byName: bool)
    ensures var r := KeyEach(items, byName);
      r.Success? ==> forall i :: 0 <= i < |items| ==>
        r.value[i].item == items[i] && KeyOf(items[i], byName) == Success(r.value[i].key)
    decreases |items|
  {
    var r := KeyEach(items, byName);
    if items != [] && r.Success? {
      var tail := items[1..];
      KeyEachKeys(tail, byName);
      var head := Keyed(items[0], KeyOf(items[0], byName).value);
      var ks := KeyEach(tail, byName).value;
      assert r.value == [head] + ks;
      forall i | 0 <= i < |items|
        ensures r.value[i].item == items[i] && KeyOf(items[i], byName) == Success(r.value[i].key)
      {
        if i > 0 {
          assert r.value[i] == ks[i - 1] && items[i] == tail[i - 1];
        }
      }
    }
  }

  lemma {:induction false} KeyEachFails(items: seq<ListData>, byName: bool)
    ensures var r := KeyEach(items, byName);
      r.Failure? ==> exists i :: 0 <= i < |items| && KeyOf(items[i], byName) == Failure(r.error)
    decreases |items|
  {
    if items != [] && KeyOf(items[0], byName).Success? {
      var tail := items[1..];
      KeyEachFails(tail, byName);
      var rest := KeyEach(tail, byName);
      if rest.Failure? {
        var j :| 0 <= j < |tail| && KeyOf(tail[j], byName) == Failure(rest.error);
        assert items[j + 1] == tail[j];
      }
    }
  }

  lemma {:induction false} KeyEachTotal(items: seq<ListData>, byName: bool)
    ensures KeyEach(items, byName).Success? <==> forall i :: 0 <= i < |items| ==> KeyOf(items[i], byName).Success?
    decreases |items|
  {
    if items != [] {
      var tail := items[1..];
      KeyEachTotal(tail, byName);
      assert forall i :: 1 <= i < |items| ==> items[i] == tail[i - 1];
    }
  }

  function Unkeyed(s: seq<Keyed>): (r: seq<ListData>)
    ensures |r| == |s| && forall i :: 0 <= i < |s| ==> r[i] == s[i].item
  {
    seq(|s|, i requires 0 <= i < |s| => s[i].item)
  }

  /** The list `sort()` (by id) or `sort_by_name()` leaves. */
  function SortedList(items: seq<ListData>, byName: bool): Result<seq<ListData>> {
    var keyed :- KeyEach(items, byName);
    Success(Unkeyed(InsertionSort(keyed)))
  }

  /** A sort fails exactly when some item's key raises. */
  lemma SortFailsOnBadKey(items: seq<ListData>, byName: bool)
    ensures SortedList(items, byName).Success? <==> forall i :: 0 <= i < |items| ==> KeyOf(items[i], byName).Success?
  {
    KeyEachSpec(items, byName);
  }

  /** A sort that succeeds only rearranges the list. */
  lemma SortedListPermutes(items: seq<ListData>, byName: bool)
    requires SortedList(items, byName).Success?
    ensures multiset(SortedList(items, byName).value) == multiset(items)
  {
    var keyed := KeyEach(items, byName).value;
    KeyEachSpec(items, byName);
    UnkeyedSort(keyed);
    assert Unkeyed(keyed) == items;
  }

  /** Every item of a list sorted by key has its key, in key order. */
  lemma SortedListOrdered(items: seq<ListData>, byName: bool)
    requires SortedList(items, byName).Success?
    ensures var r := SortedList(items, byName).value;
      forall i, j :: 0 <= i < j < |r| ==>
        KeyOf(r[i], byName).Success? && KeyOf(r[j], byName).Success? &&
        KeyLe(KeyOf(r[i], byName).value, KeyOf(r[j], byName).value)
  {
    var keyed := KeyEach(items, byName).value;
    KeyEachSpec(items, byName);
    var sorted := InsertionSort(keyed);
    SortIsSorted(keyed);
    KeysCarried(keyed, sorted, byName);
    OrderedByKeys(sorted, byName);
    assert SortedList(items, byName).value == Unkeyed(sorted);
  }

  lemma OrderedByKeys(sorted: seq<Keyed>, byName: bool)
    requires SortedByKey(sorted)
    requires forall i :: 0 <= i < |sorted| ==> KeyOf(sorted[i].item, byName) == Success(sorted[i].key)
    ensures var r := Unkeyed(sorted);
      forall i, j :: 0 <= i < j < |r| ==>
        KeyOf(r[i], byName).Success? && KeyOf(r[j], byName).Success? &&
        KeyLe(KeyOf(r[i], byName).value, KeyOf(r[j], byName).value)
  {
    var r := Unkeyed(sorted);
    forall i, j | 0 <= i < j < |r|
      ensures KeyOf(r[i], byName).Success? && KeyOf(r[j], byName).Success? &&
              KeyLe(KeyOf(r[i], byName).value, KeyOf(r[j], byName).value)
    {
      assert KeyOf(r[i], byName) == Success(sorted[i].key);
      assert KeyOf(r[j], byName) == Success(sorted[j].key);
      assert KeyLe(sorted[i].key, sorted[j].key);
    }
  }

  /** Items that carry the keys computed for them still do after any
      rearrangement. */
  lemma KeysCarried(keyed: seq<Keyed>, sorted: seq<Keyed>, byName: bool)
    requires multiset(sorted) == multiset(keyed)
    requires forall i :: 0 <= i < |keyed| ==> KeyOf(keyed[i].item, byName) == Success(keyed[i].key)
    ensures forall i :: 0 <= i < |sorted| ==> KeyOf(sorted[i].item, byName) == Success(sorted[i].key)
  {
    forall i | 0 <= i < |sorted|
      ensures KeyOf(sorted[i].item, byName) == Success(sorted[i].key)
    {
      assert sorted[i] in multiset(keyed);
      var m :| 0 <= m < |keyed| && keyed[m] == sorted[i];
    }
  }

  /** Sorting is stable: the items whose key is `k` come out in the order
      they went in. */
  lemma SortedListStable(items: seq<ListData>, byName: bool, k: SortKey)
    requires SortedList(items, byName).Success?
    ensures var keyed := KeyEach(items, byName).value;
      Unkeyed(WithKey(InsertionSort(keyed), k)) == Unkeyed(WithKey(keyed, k))
  {
    SortIsStable(KeyEach(items, byName).value, k);
  }

  lemma UnkeyedAppend(a: seq<Keyed>, b: seq<Keyed>)
    ensures Unkeyed(a + b) == Unkeyed(a) + Unkeyed(b)
  {
  }

  lemma {:induction false} UnkeyedInsert(t: seq<Keyed>, x: Keyed)
    ensures multiset(Unkeyed(Insert(t, x))) == multiset(Unkeyed(t)) + multiset{x.item}
    decreases |t|
  {
    if t == [] || KeyLe(t[|t| - 1].key, x.key) {
      UnkeyedSnoc(t, x);
    } else {
      var n := |t| - 1;
      var m := Insert(t[..n], x);
      assert Insert(t, x) == m + [t[n]];
      UnkeyedInsert(t[..n], x);
      UnkeyedSnoc(m, t[n]);
      UnkeyedLast(t);
    }
  }

  /** Sorting keyed items permutes the items. */
  lemma {:induction false} UnkeyedSort(s: seq<Keyed>)
    ensures multiset(Unkeyed(InsertionSort(s))) == multiset(Unkeyed(s))
    decreases |s|
  {
    if s != [] {
      var n := |s| - 1;
      var p, x := s[..n], s[n];
      assert InsertionSort(s) == Insert(InsertionSort(p), x);
      UnkeyedSort(p);
      UnkeyedInsert(InsertionSort(p), x);
      UnkeyedLast(s);
    }
  }

  lemma UnkeyedSnoc(p: seq<Keyed>, x: Keyed)
    ensures multiset(Unkeyed(p + [x])) == multiset(Unkeyed(p)) + multiset{x.item}
  {
    UnkeyedAppend(p, [x]);
    assert Unkeyed(p + [x]) == Unkeyed(p) + [x.item];
  }

  lemma UnkeyedLast(s: seq<Keyed>)
    requires s != []
    ensures multiset(Unkeyed(s)) == multiset(Unkeyed(s[..|s| - 1])) + multiset{s[|s| - 1].item}
  {
    var n := |s| - 1;
    assert s == s[..n] + [s[n]];
    UnkeyedAppend(s[..n], [s[n]]);
    assert Unkeyed(s) == Unkeyed(s[..n]) + [s[n].item];
  }
}

/** `JSSObjectList`: the records a list request returned, sorted in place
    by id or by name, and turned into full objects one at a time or all
    together through `get_object`. */
module Lists {
  import opened Wrappers
  import opened Errors
  import opened Resources
  import opened Listing
  import opened Transport
  import opened Factory
  import opened Sorting

  /** Python's `self[index]`: a negative index counts from the end. */
  function PyIndex(n: nat, index: int): (r: Result<nat>)
    ensures r.Success? <==> -(n as int) <= index < n
    ensures r.Success? ==> r.value < n && (if index >= 0 then r.value == index else r.value == n + index)
    ensures r.Failure? ==> r.error == IndexError
  {
    if 0 <= index < n then Success(index)
    else if -(n as int) <= index < 0 then Success(n + index)
    else Failure(IndexError)
  }

  /** The positions whose id key is `id`. */
  function IdMatches(keyed: seq<Keyed>, id: int): (r: seq<nat>)
    ensures forall j :: j in r <==> 0 <= j < |keyed| && keyed[j].key == Number(id)
    ensures (forall j :: 0 <= j < |keyed| ==> keyed[j].key != Number(id)) ==> r == []
  {
    if keyed == [] then []
    else
      var n := |keyed| - 1;
      var init := IdMatches(keyed[..n], id);
      assert forall j :: 0 <= j < n ==> keyed[..n][j] == keyed[j];
      init + (if keyed[n].key == Number(id) then [n] else [])
  }

  /** The list `retrieve_all` builds so far, in front of what the rest of
      the run gives. */
  datatype Batch = Batch(result: Result<seq<Fetched>>, sent: seq<Request>, subset: SubsetValue)

  function Prepend(done: seq<Fetched>, b: Batch): Batch {
    match b.result
    case Failure(_) => b
    case Success(fs) => Batch(Success(done + fs), b.sent, b.subset)
  }

  /** One `get_object` by id as a step of `retrieve_all`: the id, the
      caller's subset and the log before the call give the exchange. */
  type Step = (int, SubsetValue, seq<Request>) -> Exchange

  function GetStep(k: Kind, server: (seq<Request>, Request) -> Reply): Step {
    (n, w, l) => Fetch(k, IntData(n), w, server, l)
  }

  /** `retrieve_all(subset)`: one step per record, in order, with the
      caller's subset passed along each time; the first error stops it. */
  function FetchEach(step: Step, items: seq<ListData>, v: SubsetValue, log: seq<Request>): Batch
    decreases |items|
  {
    if items == [] then Batch(Success([]), log, v)
    else
      match ListId(items[0])
      case Failure(e) => Batch(Failure(e), log, v)
      case Success(n) =>
        var x := step(n, v, log);
        match x.result
        case Failure(e) => Batch(Failure(e), x.sent, x.subset)
        case Success(f) => Prepend([f], FetchEach(step, items[1..], x.subset, x.sent))
  }

  /** A step that only appends to the log, at most one request. */
  ghost predicate SendsAtMostOne(step: Step) {
    forall n, w, l :: l <= step(n, w, l).sent && |step(n, w, l).sent| <= |l| + 1
  }

  /** A step that leaves the subset alone or appends "general" to a list
      without it. */
  ghost predicate AddsGeneralIfMissing(step: Step) {
    forall n, w, l :: GainsGeneral(w, step(n, w, l).subset)
  }

  /** The caller's subset `w` after a call is `v`, or `v` is a list without
      "general" and `w` is that list with "general" appended. */
  predicate GainsGeneral(v: SubsetValue, w: SubsetValue) {
    w == v || (v.TagListValue? && "general" !in v.items && w == TagListValue(v.items + ["general"]))
  }

  /** Gaining "general" twice in a row is gaining it once. */
  lemma GainsGeneralTwice(u: SubsetValue, v: SubsetValue, w: SubsetValue)
    requires GainsGeneral(u, v) && GainsGeneral(v, w)
    ensures GainsGeneral(u, w)
  {
    if v != u {
      assert v.items[|u.items|] == "general";
    }
  }

  /** `get_object` by id is such a step. */
  lemma GetStepBehaves(k: Kind, server: (seq<Request>, Request) -> Reply)
    ensures SendsAtMostOne(GetStep(k, server)) && AddsGeneralIfMissing(GetStep(k, server))
  {
    forall n, w, l ensures l <= GetStep(k, server)(n, w, l).sent && |GetStep(k, server)(n, w, l).sent| <= |l| + 1 {
      FetchSendsAtMostOne(k, IntData(n), w, server, l);
    }
    forall n, w, l ensures GainsGeneral(w, GetStep(k, server)(n, w, l).subset) {
      FetchSubset(k, IntData(n), w, server, l);
    }
  }

  /** A list of records of one type. */
  class JssObjectList {
    const kind: Kind
    var items: seq<ListData>

    constructor (kind: Kind, items: seq<ListData>)
      ensures this.kind == kind && this.items == items
    {
      this.kind := kind;
      this.items := items;
    }

    /** `sort()` by id, or `sort_by_name()`: on success the list is in key
        order; a key that raises leaves the list as it was. */
    method SortBy(byName: bool) returns (o: Outcome)
      modifies this
      ensures match SortedList(old(items), byName)
        case Failure(e) => o == Fail(e) && items == old(items)
        case Success(s) => o == Pass && items == s
    {
      var sorted := SortedList(items, byName);
      if sorted.Failure? {
        return Fail(sorted.error);
      }
      items := sorted.value;
      o := Pass;
    }

    /** `retrieve(index)`: the full object behind one record. */
    method Retrieve(jss: Jss, index: int) returns (r: Result<Fetched>)
      modifies jss
      ensures jss.baseUrl == old(jss.baseUrl)
      ensures match PyIndex(|items|, index)
        case Failure(e) => r == Failure(e) && jss.sent == old(jss.sent)
        case Success(j) =>
          match ListId(items[j])
          case Failure(e) => r == Failure(e) && jss.sent == old(jss.sent)
          case Success(n) => Exchange(r, jss.sent, NoTags) == Fetch(kind, IntData(n), NoTags, jss.server, old(jss.sent))
    {
      var j := PyIndex(|items|, index);
      if j.Failure? {
        return Failure(j.error);
      }
      var n := ListId(items[j.value]);
      if n.Failure? {
        return Failure(n.error);
      }
      r := GetObject(jss, kind, IntData(n.value), NoSubset);
    }

    /** `retrieve_by_id(id_)`: every record's id is read first; the object
        is fetched only when exactly one record has the id, and `None` is
        returned otherwise. */
    method RetrieveById(jss: Jss, id: int) returns (r: Result<Fetched>)
      modifies jss
      ensures jss.baseUrl == old(jss.baseUrl)
      ensures match KeyEach(items, false)
        case Failure(e) => r == Failure(e) && jss.sent == old(jss.sent)
        case Success(keyed) =>
          if |IdMatches(keyed, id)| == 1 then
            Exchange(r, jss.sent, NoTags) == Fetch(kind, IntData(id), NoTags, jss.server, old(jss.sent))
          else r == Success(Nothing) && jss.sent == old(jss.sent)
    {
      var keyed := KeyEach(items, false);
      if keyed.Failure? {
        return Failure(keyed.error);
      }
      var hits := IdMatches(keyed.value, id);
      if |hits| != 1 {
        return Success(Nothing);
      }
      r := GetObject(jss, kind, IntData(id), NoSubset);
    }

    /** `retrieve_all(subset)`. */
    method RetrieveAll(jss: Jss, subset: SubsetArg) returns (r: Result<seq<Fetched>>)
      modifies jss, Footprint(subset)
      ensures jss.baseUrl == old(jss.baseUrl)
      ensures Batch(r, jss.sent, ValueOf(subset)) == FetchEach(GetStep(kind, jss.server), items, old(ValueOf(subset)), old(jss.sent))
    {
      var done: seq<Fetched> := [];
      var i := 0;
      assert items[0..] == items;
      ghost var step := GetStep(kind, jss.server);
      PrependNothing(FetchEach(step, items, ValueOf(subset), jss.sent));
      while i < |items|
        invariant 0 <= i <= |items|
        invariant jss.baseUrl == old(jss.baseUrl)
        invariant step == GetStep(kind, jss.server)
        invariant FetchEach(step, items, old(ValueOf(subset)), old(jss.sent)) ==
                  Prepend(done, FetchEach(step, items[i..], ValueOf(subset), jss.sent))
      {
        ghost var pre := FetchEach(step, items[i..], ValueOf(subset), jss.sent);
        var fetched := FetchAt(jss, i, subset);
        if fetched.Failure? {
          PrependFailure(done, pre);
          return Failure(fetched.error);
        }
        ghost var next := FetchEach(step, items[i + 1..], ValueOf(subset), jss.sent);
        assert pre == Prepend([fetched.value], next);
        PrependTwice(done, fetched.value, next);
        done := done + [fetched.value];
        i := i + 1;
      }
      assert items[i..] == [];
      assert done + [] == done;
      r := Success(done);
    }

    /** One pass of the loop in `retrieve_all`: the record at `i` read for
        its id and fetched. */
    method FetchAt(jss: Jss, i: nat, subset: SubsetArg) returns (r: Result<Fetched>)
      requires i < |items|
      modifies jss, Footprint(subset)
      ensures jss.baseUrl == old(jss.baseUrl)
      ensures var b := FetchEach(GetStep(kind, jss.server), items[i..], old(ValueOf(subset)), old(jss.sent));
        match r
        case Failure(e) => b == Batch(Failure(e), jss.sent, ValueOf(subset))
        case Success(f) => b == Prepend([f], FetchEach(GetStep(kind, jss.server), items[i + 1..], ValueOf(subset), jss.sent))
    {
      ghost var step, v, log := GetStep(kind, jss.server), ValueOf(subset), jss.sent;
      EachFrom(step, items, i, v, log);
      var n := ListId(items[i]);
      if n.Failure? {
        return Failure(n.error);
      }
      r := FetchId(jss, n.value, subset);
    }

    /** `get_object(self.obj_class, id, subset)`, seen as a step of
        `retrieve_all`. */
    method FetchId(jss: Jss, n: int, subset: SubsetArg) returns (r: Result<Fetched>)
      modifies jss, Footprint(subset)
      ensures jss.baseUrl == old(jss.baseUrl)
      ensures GetStep(kind, jss.server)(n, old(ValueOf(subset)), old(jss.sent)) == Exchange(r, jss.sent, ValueOf(subset))
    {
      r := GetObject(jss, kind, IntData(n), subset);
    }
  }

  /** One step of `retrieve_all` from the record at `i`. */
  lemma EachFrom(step: Step, items: seq<ListData>, i: nat, v: SubsetValue, log: seq<Request>)
    requires i < |items|
    ensures var b := FetchEach(step, items[i..], v, log);
      if ListId(items[i]).Failure? then b == Batch(Failure(ListId(items[i]).error), log, v)
      else
        var x := step(ListId(items[i]).value, v, log);
        if x.result.Failure? then b == Batch(Failure(x.result.error), x.sent, x.subset)
        else b == Prepend([x.result.value], FetchEach(step, items[i + 1..], x.subset, x.sent))
  {
    assert items[i..][0] == items[i] && items[i..][1..] == items[i + 1..];
  }

  lemma PrependFailure(done: seq<Fetched>, b: Batch)
    requires b.result.Failure?
    ensures Prepend(done, b) == b
  {
  }

  lemma PrependNothing(b: Batch)
    ensures Prepend([], b) == b
  {
    if b.result.Success? {
      assert [] + b.result.value == b.result.value;
    }
  }

  lemma PrependTwice(done: seq<Fetched>, f: Fetched, b: Batch)
    ensures Prepend(done, Prepend([f], b)) == Prepend(done + [f], b)
  {
    if b.result.Success? {
      assert done + ([f] + b.result.value) == (done + [f]) + b.result.value;
    }
  }

  /** `retrieve(index)` and `retrieve(index - len)` name the same record. */
  lemma NegativeIndexWraps(n: nat, index: int)
    requires 0 <= index < n
    ensures PyIndex(n, index - n) == PyIndex(n, index)
  {
  }

  /** `retrieve_by_id` fetches by the id it was given exactly when one
      record carries that id. */
  lemma {:induction false} RetrieveByIdNeedsUniqueId(keyed: seq<Keyed>, id: int, j: nat)
    requires j < |keyed| && keyed[j].key == Number(id)
    requires forall i :: 0 <= i < |keyed| && i != j ==> keyed[i].key != Number(id)
    ensures IdMatches(keyed, id) == [j]
    decreases |keyed|
  {
    var n := |keyed| - 1;
    var init := keyed[..n];
    assert IdMatches(keyed, id) == IdMatches(init, id) + (if keyed[n].key == Number(id) then [n] else []);
    if j < n {
      assert forall i :: 0 <= i < n && i != j ==> init[i].key != Number(id) by {
        forall i | 0 <= i < n && i != j ensures init[i].key != Number(id) {
          assert init[i] == keyed[i];
        }
      }
      RetrieveByIdNeedsUniqueId(init, id, j);
    } else {
      assert forall i :: 0 <= i < n ==> init[i].key != Number(id) by {
        forall i | 0 <= i < n ensures init[i].key != Number(id) {
          assert init[i] == keyed[i];
        }
      }
    }
  }

  /** `retrieve_all` only appends to the log, at most one request per record. */
  lemma {:induction false} FetchEachSends(step: Step, items: seq<ListData>, v: SubsetValue, log: seq<Request>)
    requires SendsAtMostOne(step)
    ensures var b := FetchEach(step, items, v, log);
      log <= b.sent && |b.sent| <= |log| + |items|
    decreases |items|
  {
    var b := FetchEach(step, items, v, log);
    if items == [] || ListId(items[0]).Failure? {
      assert b.sent == log;
    } else {
      var x := step(ListId(items[0]).value, v, log);
      assert log <= x.sent && |x.sent| <= |log| + 1;
      if x.result.Failure? {
        assert b.sent == x.sent;
      } else {
        var rest := FetchEach(step, items[1..], x.subset, x.sent);
        assert b.sent == rest.sent;
        FetchEachSends(step, items[1..], x.subset, x.sent);
        PrefixTrans(log, x.sent, rest.sent);
      }
    }
  }

  lemma PrefixTrans(a: seq<Request>, b: seq<Request>, c: seq<Request>)
    requires a <= b && b <= c
    ensures a <= c
  {
    assert c[..|b|][..|a|] == c[..|a|];
  }

  /** A successful `retrieve_all` returns one result per record. */
  lemma {:induction false} FetchEachCounts(step: Step, items: seq<ListData>, v: SubsetValue, log: seq<Request>)
    ensures var b := FetchEach(step, items, v, log);
      b.result.Success? ==> |b.result.value| == |items|
    decreases |items|
  {
    if items != [] && ListId(items[0]).Success? {
      var x := step(ListId(items[0]).value, v, log);
      if x.result.Success? {
        var rest := FetchEach(step, items[1..], x.subset, x.sent);
        assert FetchEach(step, items, v, log) == Prepend([x.result.value], rest);
        FetchEachCounts(step, items[1..], x.subset, x.sent);
      }
    }
  }

  /** However many records there are, the caller's subset list gains
      "general" at most once: the first call appends it, and later calls
      find it there. */
  lemma {:induction false} GeneralAppendedOnce(step: Step, items: seq<ListData>, v: SubsetValue, log: seq<Request>)
    requires AddsGeneralIfMissing(step)
    ensures GainsGeneral(v, FetchEach(step, items, v, log).subset)
    decreases |items|
  {
    var b := FetchEach(step, items, v, log);
    if items == [] || ListId(items[0]).Failure? {
      assert b.subset == v;
    } else {
      var x := step(ListId(items[0]).value, v, log);
      assert GainsGeneral(v, x.subset);
      if x.result.Failure? {
        assert b.subset == x.subset;
      } else {
        var rest := FetchEach(step, items[1..], x.subset, x.sent);
        assert b.subset == rest.subset;
        GeneralAppendedOnce(step, items[1..], x.subset, x.sent);
        GainsGeneralTwice(v, x.subset, rest.subset);
      }
    }
  }


}

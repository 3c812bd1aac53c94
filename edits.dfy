/** The editing helpers every JSS object offers on its own element tree
    (`set_bool`, `add_object_to_path`, `remove_object_from_list`,
    `clear_list`), the group helpers built on them, and the category
    fix-ups `Policy.save` and `Package.save` apply before saving. Each edit
    is a function from the old tree to the new one. */
module Edits {
  import opened Wrappers
  import opened Errors
  import opened Text
  import opened Xml
  import opened Resources
  import opened Fields
  import opened Routing

  /** `_handle_location(location)` for a path: the element `find` gives,
      ValueError when there is none. */
  function Locate(tree: Element, loc: Path): (r: Result<Pos>)
    ensures r.Success? <==> Find(tree, loc).Some?
    ensures r.Success? ==> FindPos(tree, loc) == Some(r.value) && ValidPos(tree, r.value)
    ensures r.Failure? ==> r.error == ValueError
  {
    match FindPos(tree, loc)
    case None => Failure(ValueError)
    case Some(p) => Success(p)
  }

  function BoolText(b: bool): string {
    if b then "true" else "false"
  }

  /** `set_bool(location, value)`: the located element's text becomes
      "true" or "false". */
  function SetBool(tree: Element, loc: Path, value: bool): (r: Result<Element>)
    ensures r.Failure? <==> Find(tree, loc).None?
    ensures r.Failure? ==> r.error == ValueError
    ensures r.Success? ==> Find(r.value, loc) == Some(Find(tree, loc).value.(text := Some(BoolText(value))))
    ensures r.Success? ==> FindText(r.value, loc) == Some(BoolText(value))
    ensures r.Success? ==> FindPos(r.value, loc) == FindPos(tree, loc)
    ensures r.Success? ==> SameOutside(tree, r.value, FindPos(tree, loc).value)
  {
    var p :- Locate(tree, loc);
    var x := At(tree, p).(text := Some(BoolText(value)));
    EditKeepsFind(tree, loc, p, x);
    ReplaceAtOutside(tree, p, x);
    Success(ReplaceAt(tree, p, x))
  }

  /** Setting a flag twice is setting it to the second value. */
  lemma SetBoolLastWins(tree: Element, loc: Path, v: bool, w: bool)
    requires Find(tree, loc).Some?
    ensures SetBool(SetBool(tree, loc, v).value, loc, w) == SetBool(tree, loc, w)
  {
    var p := FindPos(tree, loc).value;
    var x := At(tree, p).(text := Some(BoolText(v)));
    EditKeepsFind(tree, loc, p, x);
    ReplaceAtTwice(tree, p, x, x.(text := Some(BoolText(w))));
  }

  /** `clear_list(location)`: `Element.clear()` drops the located element's
      text and children and keeps its tag. */
  function ClearList(tree: Element, loc: Path): (r: Result<Element>)
    ensures r.Failure? <==> Find(tree, loc).None?
    ensures r.Failure? ==> r.error == ValueError
    ensures r.Success? ==> Find(r.value, loc) == Some(Element(Find(tree, loc).value.tag, None, []))
    ensures r.Success? ==> FindPos(r.value, loc) == FindPos(tree, loc)
    ensures r.Success? ==> SameOutside(tree, r.value, FindPos(tree, loc).value)
  {
    var p :- Locate(tree, loc);
    var x := Element(At(tree, p).tag, None, []);
    EditKeepsFind(tree, loc, p, x);
    ReplaceAtOutside(tree, p, x);
    Success(ReplaceAt(tree, p, x))
  }

  /** Clearing a cleared list changes nothing. */
  lemma ClearListIdempotent(tree: Element, loc: Path)
    requires Find(tree, loc).Some?
    ensures ClearList(ClearList(tree, loc).value, loc) == ClearList(tree, loc)
  {
    var p := FindPos(tree, loc).value;
    var x := Element(At(tree, p).tag, None, []);
    EditKeepsFind(tree, loc, p, x);
    ReplaceAtTwice(tree, p, x, x);
  }

  /** What `remove_object_from_list` is given: a JSS object (matched by its
      id), a Python `int` or a string (matched by id or by name), or
      anything else. */
  datatype Member =
    | MemberObject(kind: Kind, tree: Element)
    | MemberId(n: int)
    | MemberText(s: string)
    | MemberOther

  /** Whether a list entry is one the member names. An `int` is compared
      with the id through `str`; its comparison with the name never holds. */
  predicate Selects(key: Member, item: Element) {
    match key
    case MemberObject(k, t) => FindText(item, ["id"]) == IdOf(k, t)
    case MemberId(n) => FindText(item, ["id"]) == Some(IntToString(n))
    case MemberText(s) => FindText(item, ["id"]) == Some(s) || FindText(item, ["name"]) == Some(s)
    case MemberOther => false
  }

  /** Which entries the member selects, entry by entry. */
  function Marks(cs: seq<Element>, key: Member): (r: seq<bool>)
    ensures |r| == |cs| && forall j :: 0 <= j < |cs| ==> (r[j] <==> Selects(key, cs[j]))
  {
    seq(|cs|, j requires 0 <= j < |cs| => Selects(key, cs[j]))
  }

  /** The positions from `i` on whose mark is set, in increasing order. */
  function Positions(m: seq<bool>, i: nat): (r: seq<nat>)
    requires i <= |m|
    ensures forall j :: j in r <==> i <= j < |m| && m[j]
    ensures forall a, b :: 0 <= a < b < |r| ==> r[a] < r[b]
    decreases |m| - i
  {
    if i == |m| then []
    else
      var rest := Positions(m, i + 1);
      assert forall b :: 0 <= b < |rest| ==> rest[b] in rest;
      if m[i] then [i] + rest else rest
  }

  /** The positions of the entries the member selects, in increasing order. */
  function Hits(cs: seq<Element>, key: Member): (r: seq<nat>)
    ensures forall j :: j in r <==> 0 <= j < |cs| && Selects(key, cs[j])
    ensures forall a, b :: 0 <= a < b < |r| ==> r[a] < r[b]
  {
    Positions(Marks(cs, key), 0)
  }

  /** A list with one entry removed. */
  function Without(cs: seq<Element>, h: nat): (r: seq<Element>)
    requires h < |cs|
    ensures |r| == |cs| - 1
    ensures forall j :: 0 <= j < |r| ==> r[j] == cs[if j < h then j else j + 1]
  {
    cs[..h] + cs[h + 1..]
  }

  /** When exactly one entry is selected, removing it leaves none. */
  lemma RemoveOnlyHit(cs: seq<Element>, key: Member)
    requires |Hits(cs, key)| == 1
    ensures Hits(cs, key)[0] < |cs| && Selects(key, cs[Hits(cs, key)[0]])
    ensures forall j :: 0 <= j < |cs| - 1 ==> !Selects(key, Without(cs, Hits(cs, key)[0])[j])
  {
    var hits := Hits(cs, key);
    var h := hits[0];
    assert h in hits;
    forall j | 0 <= j < |cs| - 1
      ensures !Selects(key, Without(cs, h)[j])
    {
      var i := if j < h then j else j + 1;
      assert Without(cs, h)[j] == cs[i];
      assert hits == [h];
      assert i !in hits;
    }
  }

  /** Appending an entry that is the only one selected makes it the only
      hit, and removing it gives back the list. */
  lemma AppendedOnlyHit(cs: seq<Element>, key: Member, x: Element)
    requires Selects(key, x)
    requires forall j :: 0 <= j < |cs| ==> !Selects(key, cs[j])
    ensures Hits(cs + [x], key) == [|cs|]
    ensures Without(cs + [x], |cs|) == cs
  {
    var ds := cs + [x];
    var m := Marks(ds, key);
    assert ds[|cs|] == x;
    assert forall j :: 0 <= j < |cs| ==> ds[j] == cs[j];
    assert forall j :: 0 <= j < |cs| ==> !m[j];
    OnlyLastPosition(m, 0);
    assert ds[..|cs|] == cs;
  }

  lemma {:induction false} OnlyLastPosition(m: seq<bool>, i: nat)
    requires i < |m| && m[|m| - 1]
    requires forall j :: i <= j < |m| - 1 ==> !m[j]
    ensures Positions(m, i) == [|m| - 1]
    decreases |m| - i
  {
    if i < |m| - 1 {
      OnlyLastPosition(m, i + 1);
    } else {
      assert Positions(m, i + 1) == [];
    }
  }

  /** `remove_object_from_list(obj, location)`: the one entry the member
      selects is removed; none or several is a ValueError. A `long` or any
      other type leaves `results` unbound. */
  function RemoveFromList(tree: Element, key: Member, loc: Path): (r: Result<Element>)
    ensures Find(tree, loc).None? ==> r == Failure(ValueError)
    ensures Find(tree, loc).Some? && (key.MemberOther? || (key.MemberId? && !IsMachineInt(key.n))) ==>
      r == Failure(UnboundLocal)
    ensures Find(tree, loc).Some? && !key.MemberOther? && !(key.MemberId? && !IsMachineInt(key.n)) ==>
      (r.Success? <==> |Hits(Find(tree, loc).value.children, key)| == 1)
    ensures r.Success? ==>
      (Find(tree, loc).Some? && Find(r.value, loc).Some? &&
       var before := Find(tree, loc).value.children;
       var after := Find(r.value, loc).value.children;
       (exists h :: 0 <= h < |before| && Selects(key, before[h]) && after == Without(before, h)) &&
       (forall j :: 0 <= j < |after| ==> !Selects(key, after[j])))
    ensures r.Success? ==> FindPos(r.value, loc) == FindPos(tree, loc)
    ensures r.Success? ==> SameOutside(tree, r.value, FindPos(tree, loc).value)
  {
    var p :- Locate(tree, loc);
    if key.MemberOther? || (key.MemberId? && !IsMachineInt(key.n)) then Failure(UnboundLocal)
    else
      var e := At(tree, p);
      var hits := Hits(e.children, key);
      if |hits| != 1 then Failure(ValueError)
      else
        RemoveOnlyHit(e.children, key);
        var x := e.(children := Without(e.children, hits[0]));
        EditKeepsFind(tree, loc, p, x);
        ReplaceAtOutside(tree, p, x);
        Success(ReplaceAt(tree, p, x))
  }

  /** A member that selects no entry, or several, is refused and nothing
      is removed. */
  lemma RemoveNeedsOneMatch(tree: Element, key: Member, loc: Path)
    requires Find(tree, loc).Some?
    requires |Hits(Find(tree, loc).value.children, key)| != 1
    ensures RemoveFromList(tree, key, loc).Failure?
    ensures !key.MemberOther? && !(key.MemberId? && !IsMachineInt(key.n)) ==>
      RemoveFromList(tree, key, loc) == Failure(ValueError)
  {
  }

  /** What `add_object_to_path` leaves behind: the new tree, and the
      entry it returns (the first child whose id text is the object's id,
      IndexError when there is none). */
  datatype Added = Added(tree: Element, entry: Result<Element>)

  /** `[item for item in children if item.findtext("id") == id][0]`. */
  function FirstWithId(cs: seq<Element>, id: Option<string>): (r: Result<Element>)
    ensures r.Success? ==> r.value in cs && FindText(r.value, ["id"]) == id
    ensures r.Failure? ==> r.error == IndexError
    ensures r.Failure? <==> forall j :: 0 <= j < |cs| ==> FindText(cs[j], ["id"]) != id
  {
    if cs == [] then Failure(IndexError)
    else if FindText(cs[0], ["id"]) == id then Success(cs[0])
    else
      var r := FirstWithId(cs[1..], id);
      assert forall j :: 1 <= j < |cs| ==> cs[j] == cs[1..][j - 1];
      r
  }

  /** `add_object_to_path(obj, location)`: the object's list entry is
      appended to the located element. The tree is changed even when the
      lookup of the returned entry then fails. */
  function AddObjectToPath(tree: Element, loc: Path, k: Kind, obj: Element): (r: Result<Added>)
    ensures Find(tree, loc).None? ==> r == Failure(ValueError)
    ensures Find(tree, loc).Some? && IsFlat(k) ==> r == Failure(AttributeError)
    ensures r.Success? <==> Find(tree, loc).Some? && !IsFlat(k)
    ensures r.Success? ==>
      var before := Find(tree, loc).value;
      FindPos(r.value.tree, loc) == FindPos(tree, loc) &&
      Find(r.value.tree, loc) == Some(before.(children := before.children + [AsListData(k, obj).value]))
    ensures r.Success? ==> SameOutside(tree, r.value.tree, FindPos(tree, loc).value)
    ensures r.Success? && IdOf(k, obj).Some? ==>
      r.value.entry.Success? && FindText(r.value.entry.value, ["id"]) == IdOf(k, obj)
  {
    var p :- Locate(tree, loc);
    var entry :- AsListData(k, obj);
    var e := At(tree, p);
    var cs := e.children + [entry];
    var x := e.(children := cs);
    EditKeepsFind(tree, loc, p, x);
    ReplaceAtOutside(tree, p, x);
    assert cs[|cs| - 1] == entry;
    Success(Added(ReplaceAt(tree, p, x), FirstWithId(cs, IdOf(k, obj))))
  }

  /** Adding an object to a list that did not hold it and removing it
      again restores the tree. */
  lemma AddThenRemove(tree: Element, loc: Path, k: Kind, obj: Element)
    requires Find(tree, loc).Some? && !IsFlat(k) && IdOf(k, obj).Some?
    requires forall j :: 0 <= j < |Find(tree, loc).value.children| ==>
      FindText(Find(tree, loc).value.children[j], ["id"]) != IdOf(k, obj)
    ensures RemoveFromList(AddObjectToPath(tree, loc, k, obj).value.tree, MemberObject(k, obj), loc) == Success(tree)
  {
    var p := FindPos(tree, loc).value;
    var e := At(tree, p);
    var entry := AsListData(k, obj).value;
    var cs := e.children + [entry];
    var x := e.(children := cs);
    EditKeepsFind(tree, loc, p, x);
    AppendedOnlyHit(e.children, MemberObject(k, obj), entry);
    ReplaceAtTwice(tree, p, x, e);
    ReplaceAtSame(tree, p);
  }

  /** The list a group keeps devices of a kind in, and the tag of each. */
  function MemberPath(k: Kind): (r: Result<Path>)
    ensures r.Success? <==> k == Computer || k == MobileDevice
    ensures k == Computer ==> r == Success(["computers", "computer"])
    ensures k == MobileDevice ==> r == Success(["mobile_devices", "mobile_device"])
    ensures r.Success? ==> |r.value| == 2 && r.value[1] == ListType(k)
  {
    if k == Computer then Success(["computers", "computer"])
    else if k == MobileDevice then Success(["mobile_devices", "mobile_device"])
    else Failure(ValueError)
  }

  /** `add_device(device, container)`: only a static group takes devices. */
  function AddDevice(tree: Element, loc: Path, k: Kind, obj: Element): (r: Result<Added>)
    ensures FindText(tree, ["is_smart"]) != Some("false") ==> r == Failure(ValueError)
    ensures FindText(tree, ["is_smart"]) == Some("false") ==> r == AddObjectToPath(tree, loc, k, obj)
  {
    if FindText(tree, ["is_smart"]) == Some("false") then AddObjectToPath(tree, loc, k, obj)
    else Failure(ValueError)
  }

  /** `has_member(device)`: whether some entry of the device kind's list
      carries the device's id. */
  function HasMember(tree: Element, k: Kind, device: Element): (r: Result<bool>)
    ensures r.Failure? <==> k != Computer && k != MobileDevice
    ensures r.Success? ==>
      (r.value <==> exists i :: (0 <= i < |FindAll(tree, MemberPath(k).value)| &&
                                 FindText(FindAll(tree, MemberPath(k).value)[i], ["id"]) == IdOf(k, device)))
  {
    var path :- MemberPath(k);
    var ms := FindAll(tree, path);
    Success(exists i :: 0 <= i < |ms| && FindText(ms[i], ["id"]) == IdOf(k, device))
  }

  /** A device added to a static group's own list is then a member of it. */
  lemma AddedDeviceIsMember(tree: Element, k: Kind, obj: Element)
    requires k == Computer || k == MobileDevice
    requires IdOf(k, obj).Some?
    requires AddDevice(tree, [MemberPath(k).value[0]], k, obj).Success?
    ensures HasMember(AddDevice(tree, [MemberPath(k).value[0]], k, obj).value.tree, k, obj) == Success(true)
  {
    var path := MemberPath(k).value;
    var loc := [path[0]];
    assert AddDevice(tree, loc, k, obj) == AddObjectToPath(tree, loc, k, obj);
    AddedIsMember(tree, k, obj, path, FindPos(tree, loc).value, AsListData(k, obj).value);
  }

  lemma AddedIsMember(tree: Element, k: Kind, obj: Element, path: Path, p: Pos, entry: Element)
    requires k == Computer || k == MobileDevice
    requires MemberPath(k) == Success(path) && IdOf(k, obj).Some?
    requires FindPos(tree, [path[0]]) == Some(p) && AsListData(k, obj) == Success(entry)
    ensures AddObjectToPath(tree, [path[0]], k, obj).Success?
    ensures HasMember(AddObjectToPath(tree, [path[0]], k, obj).value.tree, k, obj) == Success(true)
  {
    var loc := [path[0]];
    var x := At(tree, p).(children := At(tree, p).children + [entry]);
    var t := ReplaceAt(tree, p, x);
    AddedTree(tree, loc, k, obj, p, entry);
    TwoSteps(path, entry.tag);
    AppendedInFindAll(tree, loc, p, x, entry);
    ListedIsMember(t, k, obj, entry);
  }

  lemma TwoSteps(path: Path, last: string)
    requires |path| == 2 && path[1] == last
    ensures [path[0]] + [last] == path
  {
  }

  lemma AddedTree(tree: Element, loc: Path, k: Kind, obj: Element, p: Pos, entry: Element)
    requires FindPos(tree, loc) == Some(p) && AsListData(k, obj) == Success(entry)
    ensures AddObjectToPath(tree, loc, k, obj).Success?
    ensures AddObjectToPath(tree, loc, k, obj).value.tree ==
      ReplaceAt(tree, p, At(tree, p).(children := At(tree, p).children + [entry]))
  {
  }

  lemma ListedIsMember(t: Element, k: Kind, obj: Element, entry: Element)
    requires k == Computer || k == MobileDevice
    requires FindText(entry, ["id"]) == IdOf(k, obj)
    requires exists i :: 0 <= i < |FindAll(t, MemberPath(k).value)| && FindAll(t, MemberPath(k).value)[i] == entry
    ensures HasMember(t, k, obj) == Success(true)
  {
  }

  /** The `is_smart` setter: the flag is set, and a smart group without a
      "criteria" child gets an empty one. */
  function SetIsSmart(tree: Element, value: bool): (r: Result<Element>)
    ensures r.Failure? <==> Find(tree, ["is_smart"]).None?
    ensures r.Success? ==> (IsSmart(r.value) <==> value)
    ensures r.Success? && value ==> Find(r.value, ["criteria"]).Some?
    ensures r.Success? && Find(tree, ["criteria"]).Some? ==>
      Find(r.value, ["criteria"]) == Find(tree, ["criteria"])
    ensures r.Success? && !(value && Find(tree, ["criteria"]).None?) ==> r == SetBool(tree, ["is_smart"], value)
    ensures r.Success? && value && Find(tree, ["criteria"]).None? ==>
      var t := SetBool(tree, ["is_smart"], value).value;
      r.value == t.(children := t.children + [Element("criteria", None, [])])
  {
    var t :- SetBool(tree, ["is_smart"], value);
    assert Find(t, ["criteria"]) == Find(tree, ["criteria"]) by {
      SetBoolKeepsOther(tree, "is_smart", value, "criteria");
    }
    if value && FindPos(t, ["criteria"]).None? then
      var c := Element("criteria", None, []);
      FindAfterAppend(t, c, ["is_smart"]);
      var t' := t.(children := t.children + [c]);
      NoChildWhenNotFound(t, "criteria");
      assert forall j :: 0 <= j < |t.children| ==> t'.children[j] == t.children[j];
      FindChild(t', "criteria", |t.children|);
      Success(t')
    else Success(t)
  }

  /** Setting a top-level flag leaves what a path through another
      top-level tag finds untouched. */
  lemma SetBoolKeepsOther(tree: Element, tag: string, value: bool, other: string)
    requires tag != other
    ensures SetBool(tree, [tag], value).Success? ==>
      Find(SetBool(tree, [tag], value).value, [other]) == Find(tree, [other])
  {
    if Find(tree, [tag]).Some? {
      var p := FindPos(tree, [tag]).value;
      var x := At(tree, p).(text := Some(BoolText(value)));
      var t := ReplaceAt(tree, p, x);
      MatchesAfterReplace(tree, p, x, [other]);
      match FindPos(tree, [other])
      case None =>
      case Some(q) =>
        assert q[0] != p[0] && q[1..] == [] && p[1..] == [];
        assert t.children[q[0]] == tree.children[q[0]];
    }
  }

  /** `add_criterion(...)`: the criterion is appended to the group's
      "criteria" element; without one there is nothing to append to. */
  function AddCriterion(tree: Element, c: Element): (r: Result<Element>)
    ensures r.Failure? <==> Find(tree, ["criteria"]).None?
    ensures r.Failure? ==> r.error == AttributeError
    ensures r.Success? ==> var before := Find(tree, ["criteria"]).value;
      Find(r.value, ["criteria"]) == Some(before.(children := before.children + [c]))
    ensures r.Success? ==> FindPos(r.value, ["criteria"]) == FindPos(tree, ["criteria"])
    ensures r.Success? ==> SameOutside(tree, r.value, FindPos(tree, ["criteria"]).value)
  {
    match FindPos(tree, ["criteria"])
    case None => Failure(AttributeError)
    case Some(p) =>
      var e := At(tree, p);
      var x := e.(children := e.children + [c]);
      EditKeepsFind(tree, ["criteria"], p, x);
      ReplaceAtOutside(tree, p, x);
      Success(ReplaceAt(tree, p, x))
  }

  /** The first child with a tag removed: `remove(find(tag))`, ValueError
      when there is none. */
  function RemoveFirst(e: Element, tag: string): (r: Result<Element>)
    ensures r.Failure? <==> Find(e, [tag]).None?
    ensures r.Failure? ==> r.error == ValueError
    ensures r.Success? ==>
      (r.value.tag == e.tag && r.value.text == e.text &&
       exists h :: (0 <= h < |e.children| && e.children[h].tag == tag &&
                    (forall j :: 0 <= j < h ==> e.children[j].tag != tag) &&
                    r.value.children == Without(e.children, h)))
  {
    match FindPos(e, [tag])
    case None => Failure(ValueError)
    case Some(p) =>
      FoundChildIsFirst(e, tag);
      Success(e.(children := Without(e.children, p[0])))
  }

  /** Removing a child with one tag leaves a child with another tag to be
      found. */
  lemma RemoveFirstKeeps(e: Element, tag: string, other: string)
    requires tag != other && Find(e, [tag]).Some? && Find(e, [other]).Some?
    ensures Find(RemoveFirst(e, tag).value, [other]).Some?
  {
    var r := RemoveFirst(e, tag).value;
    var h :| 0 <= h < |e.children| && e.children[h].tag == tag && r.children == Without(e.children, h);
    FoundChildIsFirst(e, other);
    var q := FindPos(e, [other]).value[0];
    assert q != h;
    var q' := if q < h then q else q - 1;
    assert q' < |Without(e.children, h)|;
    assert Without(e.children, h)[q'] == e.children[q];
    assert r.children[q'] == e.children[q];
    FirstChildFrom(r, other, 0, q');
  }

  /** `Policy.save`'s fix-up: a "general/category" with id "-1" loses its
      first "name" child and then its first "id" child; a category without
      a "name" makes `remove(None)` raise ValueError. */
  function PolicyFixup(tree: Element): (r: Result<Element>)
    ensures Find(tree, ["general", "category"]).None? ==> r == Failure(AttributeError)
    ensures Find(tree, ["general", "category"]).Some? ==>
      var before := Find(tree, ["general", "category"]).value;
      (FindText(before, ["id"]) != Some("-1") ==> r == Success(tree)) &&
      (FindText(before, ["id"]) == Some("-1") && Find(before, ["name"]).None? ==> r == Failure(ValueError)) &&
      (FindText(before, ["id"]) == Some("-1") && Find(before, ["name"]).Some? ==>
         RemoveFirst(before, "name").Success? && RemoveFirst(RemoveFirst(before, "name").value, "id").Success? &&
         r.Success? &&
         FindPos(r.value, ["general", "category"]) == FindPos(tree, ["general", "category"]) &&
         Find(r.value, ["general", "category"]) ==
           Some(RemoveFirst(RemoveFirst(before, "name").value, "id").value) &&
         |Find(r.value, ["general", "category"]).value.children| == |before.children| - 2)
    ensures r.Success? ==> SameOutside(tree, r.value, FindPos(tree, ["general", "category"]).value)
  {
    match FindPos(tree, ["general", "category"])
    case None => Failure(AttributeError)
    case Some(p) =>
      var c := At(tree, p);
      if FindText(c, ["id"]) != Some("-1") then
        ReplaceAtSame(tree, p);
        Success(tree)
      else
        var c1 :- RemoveFirst(c, "name");
        RemoveFirstKeeps(c, "name", "id");
        var c2 := RemoveFirst(c1, "id").value;
        EditKeepsFind(tree, ["general", "category"], p, c2);
        ReplaceAtOutside(tree, p, c2);
        Success(ReplaceAt(tree, p, c2))
  }

  /** `Package.save`'s fix-up: a "category" reading "No category
      assigned" is emptied, and any other tree is left as it is. */
  function PackageFixup(tree: Element): (r: Result<Element>)
    ensures r.Failure? <==> Find(tree, ["category"]).None?
    ensures r.Failure? ==> r.error == AttributeError
    ensures r.Success? ==> FindPos(r.value, ["category"]) == FindPos(tree, ["category"])
    ensures r.Success? ==> FindText(r.value, ["category"]) != Some("No category assigned")
    ensures r.Success? && Find(tree, ["category"]).value.text == Some("No category assigned") ==>
      Find(r.value, ["category"]) == Some(Find(tree, ["category"]).value.(text := Some("")))
    ensures r.Success? && Find(tree, ["category"]).value.text != Some("No category assigned") ==>
      r.value == tree
    ensures r.Success? ==> SameOutside(tree, r.value, FindPos(tree, ["category"]).value)
  {
    match FindPos(tree, ["category"])
    case None => Failure(AttributeError)
    case Some(p) =>
      var c := At(tree, p);
      if c.text == Some("No category assigned") then
        var x := c.(text := Some(""));
        EditKeepsFind(tree, ["category"], p, x);
        ReplaceAtOutside(tree, p, x);
        Success(ReplaceAt(tree, p, x))
      else
        ReplaceAtSame(tree, p);
        Success(tree)
  }

  /** The package fix-up is idempotent. */
  lemma PackageFixupIdempotent(tree: Element)
    requires PackageFixup(tree).Success?
    ensures PackageFixup(PackageFixup(tree).value) == PackageFixup(tree)
  {
  }
}

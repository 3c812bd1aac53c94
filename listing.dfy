/** What a list request yields: one JSSListData record per item of the
    reply, built from the item's children, with its `id` and `name`
    accessors. */
module Listing {
  import opened Wrappers
  import opened Errors
  import opened Text
  import opened Xml
  import opened Resources

  /** `JSSListData(obj_class, d)`: a dictionary from tag to text. */
  datatype ListData = ListData(kind: Kind, fields: map<string, Option<string>>)

  /** `{i.tag: i.text for i in element}`: one entry per tag, a later child
      overriding an earlier one with the same tag. */
  function RecordOf(cs: seq<Element>): (m: map<string, Option<string>>)
    ensures forall t :: t in m <==> exists j :: 0 <= j < |cs| && cs[j].tag == t
  {
    if cs == [] then map[]
    else
      var m := RecordOf(cs[..|cs| - 1]);
      assert forall j :: 0 <= j < |cs| - 1 ==> cs[..|cs| - 1][j] == cs[j];
      m[cs[|cs| - 1].tag := cs[|cs| - 1].text]
  }

  /** The entry for a tag is the text of the last child carrying it. */
  lemma {:induction false} LastChildWins(cs: seq<Element>, j: nat)
    requires j < |cs|
    requires forall i :: j < i < |cs| ==> cs[i].tag != cs[j].tag
    ensures cs[j].tag in RecordOf(cs) && RecordOf(cs)[cs[j].tag] == cs[j].text
    decreases |cs|
  {
    if j < |cs| - 1 {
      var init := cs[..|cs| - 1];
      assert init[j] == cs[j];
      LastChildWins(init, j);
    }
  }

  /** The items of a list reply: every child but the "size" count, in
      document order. */
  function Items(cs: seq<Element>): (r: seq<Element>)
    ensures forall i :: 0 <= i < |r| ==> r[i].tag != "size" && r[i] in cs
    ensures forall x :: x in cs && x.tag != "size" ==> x in r
    ensures |r| <= |cs|
  {
    if cs == [] then []
    else
      var rest := Items(cs[1..]);
      assert forall x :: x in cs[1..] ==> x in cs;
      assert forall x :: x in cs ==> x == cs[0] || x in cs[1..];
      if cs[0].tag == "size" then rest else [cs[0]] + rest
  }

  /** Items keep document order: a child added at the end becomes the last
      item, unless it is a "size" count. */
  lemma {:induction false} ItemsSnoc(cs: seq<Element>, x: Element)
    ensures Items(cs + [x]) == Items(cs) + (if x.tag != "size" then [x] else [])
    decreases |cs|
  {
    if cs == [] {
      assert cs + [x] == [x];
    } else {
      assert (cs + [x])[1..] == cs[1..] + [x];
      ItemsSnoc(cs[1..], x);
    }
  }

  /** How many children are "size" counts. */
  function SizeCount(cs: seq<Element>): nat {
    if cs == [] then 0 else (if cs[0].tag == "size" then 1 else 0) + SizeCount(cs[1..])
  }

  /** A list reply yields one item per child that is not a "size" count. */
  lemma {:induction false} ItemsCount(cs: seq<Element>)
    ensures |Items(cs)| == |cs| - SizeCount(cs)
  {
    if cs != [] {
      ItemsCount(cs[1..]);
    }
  }

  /** The records a list reply holds. */
  function Records(k: Kind, e: Element): (r: seq<ListData>)
    ensures |r| == |Items(e.children)|
    ensures forall i :: 0 <= i < |r| ==> r[i].kind == k
    ensures forall i :: 0 <= i < |r| ==> r[i].fields == RecordOf(Items(e.children)[i].children)
  {
    var items := Items(e.children);
    seq(|items|, i requires 0 <= i < |items| => ListData(k, RecordOf(items[i].children)))
  }

  /** `JSSListData.id`: `int(self["id"])`. */
  function ListId(d: ListData): (r: Result<int>)
    ensures r.Success? <==> "id" in d.fields && d.fields["id"].Some? && ParseInt(d.fields["id"].value).Some?
    ensures r.Failure? && "id" !in d.fields ==> r.error == KeyError("id")
  {
    if "id" !in d.fields then Failure(KeyError("id"))
    else match d.fields["id"]
      case None => Failure(TypeError)
      case Some(s) =>
        match ParseInt(s)
        case None => Failure(ValueError)
        case Some(n) => Success(n)
  }

  /** `JSSListData.name`: `self["name"]`, possibly `None`. */
  function ListName(d: ListData): (r: Result<Option<string>>)
    ensures r.Success? <==> "name" in d.fields
    ensures r.Success? ==> r.value == d.fields["name"]
  {
    if "name" in d.fields then Success(d.fields["name"]) else Failure(KeyError("name"))
  }

  /** A listed item whose last "id" child holds `str(n)` has id `n`. */
  lemma RecordIdReadsBack(k: Kind, cs: seq<Element>, j: nat, n: int)
    requires j < |cs| && cs[j].tag == "id" && cs[j].text == Some(IntToString(n))
    requires forall i :: j < i < |cs| ==> cs[i].tag != "id"
    ensures ListId(ListData(k, RecordOf(cs))) == Success(n)
  {
    LastChildWins(cs, j);
    ParseIntOfIntToString(n);
  }

  /** A listed item whose last "name" child holds `t` has name `t`. */
  lemma RecordNameReadsBack(k: Kind, cs: seq<Element>, j: nat)
    requires j < |cs| && cs[j].tag == "name"
    requires forall i :: j < i < |cs| ==> cs[i].tag != "name"
    ensures ListName(ListData(k, RecordOf(cs))) == Success(cs[j].text)
  {
    LastChildWins(cs, j);
  }
}

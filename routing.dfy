/** The URLs a resource type is read, created, updated and deleted at:
    `get_url`, `get_post_url` and `get_object_url`, with the JSSFlatObject
    overrides. */
module Routing {
  import opened Wrappers
  import opened Errors
  import opened Text
  import opened Xml
  import opened Resources
  import opened Fields

  /** What `get_url` is asked for: `None`, a Python `int`, or a string (a
      number, a "key=value" search, or a bare name). */
  datatype Lookup = NoLookup | ById(n: int) | ByText(s: string)

  /** `sys.maxint` of a 64-bit CPython 2: `int()` of a larger magnitude
      yields a `long`, which `get_url` does not treat as an id. */
  const MaxInt: int := 0x7fff_ffff_ffff_ffff

  predicate IsMachineInt(n: int) {
    -MaxInt - 1 <= n <= MaxInt
  }

  /** `"%s" % data`. */
  function QueryText(l: Lookup): string {
    match l
    case NoLookup => "None"
    case ById(n) => IntToString(n)
    case ByText(s) => s
  }

  /** The route of a numeric lookup. A number beyond `sys.maxint` becomes a
      `long`, is taken for a string, and `"=" in data` raises TypeError. */
  function IdRoute(k: Kind, n: int): (r: Result<string>)
    ensures r.Success? ==> Url(k) <= r.value
  {
    if IsMachineInt(n) then Success(Url(k) + IdUrl(k) + IntToString(n))
    else Failure(TypeError)
  }

  /** The route of a string that is not a number: a "key=value" search
      through `search_types`, or a bare name through the default search. */
  function TextRoute(url: string, searchTypes: map<string, string>, s: string): (r: Result<string>)
    ensures r.Success? ==> url <= r.value
  {
    if '=' in s then
      var pieces := Split(s, '=');
      if |pieces| != 2 then Failure(ValueError)
      else if pieces[0] in searchTypes then Success(url + searchTypes[pieces[0]] + pieces[1])
      else Failure(UnsupportedSearch(pieces[0]))
    else if "name" in searchTypes then Success(url + searchTypes["name"] + s)
    else Failure(KeyError("name"))
  }

  /** `get_url(data)`. Flat types answer only `None`; the others turn
      anything `int()` accepts into an id route and route other strings by
      search type. */
  function GetUrl(k: Kind, l: Lookup): (r: Result<string>)
    ensures IsFlat(k) ==> (r.Success? <==> l.NoLookup?)
    ensures IsFlat(k) && !l.NoLookup? ==> r.error == UnsupportedSearch(QueryText(l))
    ensures l.NoLookup? ==> r == Success(Url(k))
    ensures r.Success? ==> Url(k) <= r.value
  {
    if IsFlat(k) then
      if l.NoLookup? then Success(Url(k)) else Failure(UnsupportedSearch(QueryText(l)))
    else
      match l
      case NoLookup => Success(Url(k))
      case ById(n) => IdRoute(k, n)
      case ByText(s) => StringRoute(k, s)
  }

  /** A string lookup: a number `int()` accepts goes to the id route, any
      other string to `TextRoute`. */
  function StringRoute(k: Kind, s: string): (r: Result<string>)
    ensures r.Success? ==> Url(k) <= r.value
  {
    match ParseInt(s)
    case Some(n) => IdRoute(k, n)
    case None => TextRoute(Url(k), SearchTypes(k), s)
  }

  /** `get_post_url()`: the JSS creates objects by a POST to id 0. */
  function PostUrl(k: Kind): string {
    Url(k) + IdUrl(k) + "0"
  }

  /** `get_object_url()`: the object's own id route, "None" standing in for
      a missing id; a flat object's is its type's URL. */
  function ObjectUrl(k: Kind, tree: Element): string {
    if IsFlat(k) then Url(k)
    else Url(k) + IdUrl(k) + IdOf(k, tree).GetOr("None")
  }

  /** An integer and its decimal string are routed alike: `get_url(5)` and
      `get_url("5")` agree. */
  lemma IdAndNumeralAgree(k: Kind, n: int)
    ensures GetUrl(k, ById(n)) == GetUrl(k, ByText(IntToString(n)))
  {
    ParseIntOfIntToString(n);
  }

  /** A string that `int()` refuses is routed by `TextRoute`. */
  lemma TextLookup(k: Kind, s: string)
    requires !IsFlat(k) && ParseInt(s) == None
    ensures GetUrl(k, ByText(s)) == TextRoute(Url(k), SearchTypes(k), s)
  {
    assert GetUrl(k, ByText(s)) == StringRoute(k, s);
  }

  /** "key=value" goes to the key's route, for a declared key. */
  lemma {:induction false} KeyValueText(url: string, st: map<string, string>, key: string, value: string)
    requires '=' !in key && '=' !in value
    ensures key in st ==> TextRoute(url, st, key + "=" + value) == Success(url + st[key] + value)
    ensures key !in st ==> TextRoute(url, st, key + "=" + value) == Failure(UnsupportedSearch(key))
  {
    var s := key + "=" + value;
    assert s[|key|] == '=';
    assert s == key + ['='] + value;
    SplitPieceThenRest(key, value, '=');
    SplitWithoutSeparator(value, '=');
  }

  /** "key=value" is sent to the key's search route with the value
      appended, for every key the type declares. */
  lemma KeyValueRoute(k: Kind, key: string, value: string)
    requires !IsFlat(k) && key in SearchTypes(k)
    requires '=' !in key && '=' !in value
    ensures GetUrl(k, ByText(key + "=" + value)) == Success(Url(k) + SearchTypes(k)[key] + value)
  {
    var s := key + "=" + value;
    assert s[|key|] == '=';
    ParseIntRejects(s, |key|);
    TextLookup(k, s);
    KeyValueText(Url(k), SearchTypes(k), key, value);
  }

  /** A key the type does not declare is refused by name. */
  lemma UnknownKeyRefused(k: Kind, key: string, value: string)
    requires !IsFlat(k) && key !in SearchTypes(k)
    requires '=' !in key && '=' !in value
    ensures GetUrl(k, ByText(key + "=" + value)) == Failure(UnsupportedSearch(key))
  {
    var s := key + "=" + value;
    assert s[|key|] == '=';
    ParseIntRejects(s, |key|);
    TextLookup(k, s);
    KeyValueText(Url(k), SearchTypes(k), key, value);
  }

  /** A bare name (no "=", not a number) goes to the default "name"
      search route; with `KeyValueRoute` this is `get_url("name=" + n)`. */
  lemma {:induction false} BareNameRoute(k: Kind, s: string)
    requires !IsFlat(k) && "name" in SearchTypes(k)
    requires '=' !in s && ParseInt(s) == None
    ensures GetUrl(k, ByText(s)) == Success(Url(k) + SearchTypes(k)["name"] + s)
  {
    TextLookup(k, s);
  }

  /** A string with two or more "=" cannot be unpacked into key and value. */
  lemma {:induction false} TwoSeparatorsText(url: string, st: map<string, string>, a: string, b: string, c: string)
    requires '=' !in a && '=' !in b
    ensures TextRoute(url, st, a + "=" + b + "=" + c) == Failure(ValueError)
  {
    var s := a + "=" + b + "=" + c;
    assert s[|a|] == '=';
    var rest := b + "=" + c;
    assert s == a + ['='] + rest;
    SplitPieceThenRest(a, rest, '=');
    assert rest == b + ['='] + c;
    SplitPieceThenRest(b, c, '=');
    assert Split(s, '=') == [a] + ([b] + Split(c, '='));
  }

  lemma TwoSeparatorsRefused(k: Kind, a: string, b: string, c: string)
    requires !IsFlat(k) && '=' !in a && '=' !in b
    ensures GetUrl(k, ByText(a + "=" + b + "=" + c)) == Failure(ValueError)
  {
    var s := a + "=" + b + "=" + c;
    assert s[|a|] == '=';
    ParseIntRejects(s, |a|);
    TextLookup(k, s);
    TwoSeparatorsText(Url(k), SearchTypes(k), a, b, c);
  }

  /** An object's own URL is the route `get_url` gives its id, so an object
      saved and fetched again is addressed the same way. */
  lemma ObjectUrlIsIdRoute(k: Kind, tree: Element, n: int)
    requires !IsFlat(k) && IsMachineInt(n)
    requires IdOf(k, tree) == Some(IntToString(n))
    ensures GetUrl(k, ById(n)) == Success(ObjectUrl(k, tree))
  {
  }

  /** A flat object's URL is the one `get_url(None)` gives its type. */
  lemma FlatObjectUrl(k: Kind, tree: Element)
    requires IsFlat(k)
    ensures GetUrl(k, NoLookup) == Success(ObjectUrl(k, tree))
  {
  }

  /** The post URL is the id route of id 0. */
  lemma PostUrlIsIdZero(k: Kind)
    requires !IsFlat(k)
    ensures GetUrl(k, ById(0)) == Success(PostUrl(k))
  {
    assert IntToString(0) == "0";
  }
}

/** The accessors every JSS object offers on its element tree: `id`,
    `name`, `as_list_data`, a smart group's `is_smart`, and the
    `SearchCriteria` element a smart group's criteria list holds. */
module Fields {
  import opened Wrappers
  import opened Errors
  import opened Text
  import opened Xml
  import opened Resources

  /** Python's `a or b` on two `findtext` results: `a` unless it is `None`
      or the empty string. */
  function Or(a: Option<string>, b: Option<string>): Option<string> {
    if a.Some? && a.value != "" then a else b
  }

  /** The `id` property: the top-level "id" text, else "general/id"; an
      LDAPServer keeps its id under "connection". */
  function IdOf(k: Kind, tree: Element): Option<string> {
    if k == LDAPServer then FindText(tree, ["connection", "id"])
    else Or(FindText(tree, ["id"]), FindText(tree, ["general", "id"]))
  }

  /** The `name` property, laid out like `id`. */
  function NameOf(k: Kind, tree: Element): Option<string> {
    if k == LDAPServer then FindText(tree, ["connection", "name"])
    else Or(FindText(tree, ["name"]), FindText(tree, ["general", "name"]))
  }

  /** A tree whose first "id" child has non-empty text reports that text
      as its id, whatever "general" holds. */
  lemma TopLevelIdWins(k: Kind, tree: Element, n: nat)
    requires k != LDAPServer
    requires n < |tree.children| && tree.children[n].tag == "id"
    requires forall j :: 0 <= j < n ==> tree.children[j].tag != "id"
    requires tree.children[n].text.Some? && tree.children[n].text.value != ""
    ensures IdOf(k, tree) == tree.children[n].text
  {
    FindChild(tree, "id", n);
  }

  /** With no top-level "id", the id is read from the first "general"
      child that holds one: `find("general/id")`. */
  lemma GeneralIdUsed(k: Kind, tree: Element, g: nat)
    requires k != LDAPServer
    requires forall j :: 0 <= j < |tree.children| ==> tree.children[j].tag != "id"
    requires g < |tree.children| && tree.children[g].tag == "general"
    requires forall j :: 0 <= j < g ==> tree.children[j].tag != "general"
    requires FindPos(tree.children[g], ["id"]).Some?
    ensures IdOf(k, tree) == FindText(tree.children[g], ["id"])
  {
    FindNoChild(tree, "id");
    FindBelowFirst(tree, "general", ["id"], g);
    assert ["general"] + ["id"] == ["general", "id"];
  }

  /** An LDAPServer reads its id and name from the first "connection"
      child that holds them, whatever the top level or "general" say. */
  lemma ConnectionIdUsed(tree: Element, g: nat)
    requires g < |tree.children| && tree.children[g].tag == "connection"
    requires forall j :: 0 <= j < g ==> tree.children[j].tag != "connection"
    requires FindPos(tree.children[g], ["id"]).Some? && FindPos(tree.children[g], ["name"]).Some?
    ensures IdOf(LDAPServer, tree) == FindText(tree.children[g], ["id"])
    ensures NameOf(LDAPServer, tree) == FindText(tree.children[g], ["name"])
  {
    FindBelowFirst(tree, "connection", ["id"], g);
    FindBelowFirst(tree, "connection", ["name"], g);
    assert ["connection"] + ["id"] == ["connection", "id"];
    assert ["connection"] + ["name"] == ["connection", "name"];
  }

  /** An element `JSSObject(jss, data)` builds from `data`: the tag and the
      children are kept, the text is not. */
  function Adopt(e: Element): Element {
    Element(e.tag, None, e.children)
  }

  /** `as_list_data`: a `list_type` element holding the object's id and
      name, for adding it to another object's list. Flat objects have no
      such method. */
  function AsListData(k: Kind, tree: Element): (r: Result<Element>)
    ensures r.Failure? <==> IsFlat(k)
    ensures r.Failure? ==> r.error == AttributeError
    ensures r.Success? ==> r.value.tag == ListType(k)
    ensures r.Success? ==> FindText(r.value, ["id"]) == Some(IdOf(k, tree).GetOr(""))
    ensures r.Success? ==> FindText(r.value, ["name"]) == Some(NameOf(k, tree).GetOr(""))
  {
    if IsFlat(k) then Failure(AttributeError)
    else
      var e := Element(ListType(k), None,
                       [Element("id", IdOf(k, tree), []), Element("name", NameOf(k, tree), [])]);
      FindChild(e, "id", 0);
      FindChild(e, "name", 1);
      Success(e)
  }

  /** A list entry identifies the object it was made from: read as an
      object of any kind other than LDAPServer, it has the same id. */
  lemma ListDataKeepsId(k: Kind, tree: Element, k': Kind)
    requires !IsFlat(k) && k' != LDAPServer
    requires IdOf(k, tree).Some? && IdOf(k, tree).value != ""
    ensures IdOf(k', AsListData(k, tree).value) == IdOf(k, tree)
  {
  }

  /** `is_smart`: true exactly when the "is_smart" text is "true". */
  predicate IsSmart(tree: Element) {
    FindText(tree, ["is_smart"]) == Some("true")
  }

  /** `SearchCriteria(name, priority, and_or, search_type, value)`: a
      "criterion" element with five text children, the priority rendered
      with `str`. */
  function Criterion(name: string, priority: int, andOr: string, searchType: string, value: string): Element {
    Element("criterion", None,
            [Element("name", Some(name), []), Element("priority", Some(IntToString(priority)), []),
             Element("and_or", Some(andOr), []), Element("search_type", Some(searchType), []),
             Element("value", Some(value), [])])
  }

  /** Every argument of a criterion reads back from its element, the
      priority through `int`. */
  lemma CriterionReadsBack(name: string, priority: int, andOr: string, searchType: string, value: string)
    ensures var c := Criterion(name, priority, andOr, searchType, value);
      c.tag == "criterion" &&
      FindText(c, ["name"]) == Some(name) &&
      FindText(c, ["and_or"]) == Some(andOr) &&
      FindText(c, ["search_type"]) == Some(searchType) &&
      FindText(c, ["value"]) == Some(value) &&
      FindText(c, ["priority"]).Some? && ParseInt(FindText(c, ["priority"]).value) == Some(priority)
  {
    var c := Criterion(name, priority, andOr, searchType, value);
    FindChild(c, "name", 0);
    FindChild(c, "priority", 1);
    FindChild(c, "and_or", 2);
    FindChild(c, "search_type", 3);
    FindChild(c, "value", 4);
    ParseIntOfIntToString(priority);
  }
}

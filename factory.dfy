/** `JSSObjectFactory.get_object`: from the type, the `data` argument and
    the `subset` argument to at most one GET, and from the reply to an
    object, a list of records, or nothing. */
module Factory {
  import opened Wrappers
  import opened Errors
  import opened Text
  import opened Xml
  import opened Resources
  import opened Fields
  import opened Routing
  import opened Listing
  import opened Transport

  /** A Python list of subset names owned by the caller: `get_object`
      appends "general" to it in place. */
  class TagList {
    var items: seq<string>

    constructor (items: seq<string>)
      ensures this.items == items
    {
      this.items := items;
    }
  }

  /** The `subset` argument: `None` (or any other false value, such as ""
      or []), a list, a string, or some other true value. */
  datatype SubsetArg = NoSubset | ListSubset(list: TagList) | TextSubset(s: string) | OtherSubset

  /** The `subset` argument's value when the call starts. */
  datatype SubsetValue = NoTags | TagListValue(items: seq<string>) | TagText(s: string) | OtherValue

  /** The `data` argument: `None`, an `int`, a `str`, or anything else
      (a dict, an element, a `long`). */
  datatype Data = NoData | IntData(n: int) | TextData(s: string) | OtherData

  /** What `get_object` returns: an object's element tree, a list of
      records, or `None`. */
  datatype Fetched = Single(tree: Element) | Listed(records: seq<ListData>) | Nothing

  /** How the reply is read: as a list under `container`, as one object, or
      by looking for a "size" child. */
  datatype Shape = ListAll(container: string) | OneObject | Probe

  /** The single GET a call makes, how its reply is read, and whether
      "general" is appended to the caller's list. */
  datatype Plan = Plan(url: string, shape: Shape, appendGeneral: bool)

  function Footprint(arg: SubsetArg): set<object> {
    if arg.ListSubset? then {arg.list} else {}
  }

  function ValueOf(arg: SubsetArg): SubsetValue
    reads Footprint(arg)
  {
    match arg
    case NoSubset => NoTags
    case ListSubset(l) => TagListValue(l.items)
    case TextSubset(s) => TagText(s)
    case OtherSubset => OtherValue
  }

  /** The subset once normalised: `None` when it is false (empty), else
      its names; a string is split on "&", and anything else that is true
      raises TypeError. */
  function Normalise(v: SubsetValue): (r: Result<Option<seq<string>>>)
    ensures r.Failure? <==> v.OtherValue?
    ensures r.Success? && r.value.Some? ==> |r.value.value| >= 1
    ensures v.TagText? && v.s != "" ==> r == Success(Some(Split(v.s, '&')))
  {
    match v
    case NoTags => Success(None)
    case TagListValue(items) => Success(if items == [] then None else Some(items))
    case TagText(s) => Success(if s == "" then None else Some(Split(s, '&')))
    case OtherValue => Failure(TypeError)
  }

  /** The names sent with a lookup: "general" is added when missing. */
  function WithGeneral(tags: seq<string>): (r: seq<string>)
    ensures "general" in r
    ensures "general" in tags ==> r == tags
    ensures "general" !in tags ==> r == tags + ["general"]
  {
    if "general" in tags then tags else tags + ["general"]
  }

  /** The request `get_object` makes, if any. */
  function PlanFor(k: Kind, data: Data, v: SubsetValue): Result<Option<Plan>> {
    var subset :- Normalise(v);
    var c := CapabilitiesOf(k);
    match data
    case NoData =>
      if c.list && c.get then
        var basic := k == Computer && subset.Some? && |subset.value| == 1 && Upper(subset.value[0]) == "BASIC";
        Success(Some(Plan(Url(k) + (if basic then "/subset/basic" else ""), ListAll(ContainerTag(k)), false)))
      else if c.get then Success(Some(Plan(Url(k), OneObject, false)))
      else Failure(MethodNotAllowed)
    case IntData(n) =>
      if !IsMachineInt(n) then Success(None) else LookupPlan(k, ById(n), subset, v.TagListValue?)
    case TextData(s) => LookupPlan(k, ByText(s), subset, v.TagListValue?)
    case OtherData => Success(None)
  }

  /** The lookup branch: the capability check, `get_url`, then the subset
      suffix with "general" forced in. */
  function LookupPlan(k: Kind, l: Lookup, subset: Option<seq<string>>, isList: bool): Result<Option<Plan>> {
    if !CapabilitiesOf(k).get then Failure(MethodNotAllowed)
    else
      var url :- GetUrl(k, l);
      match subset
      case None => Success(Some(Plan(url, Probe, false)))
      case Some(tags) =>
        Success(Some(Plan(url + "/subset/" + Join(WithGeneral(tags), '&'), Probe,
                          isList && "general" !in tags)))
  }

  /** Reading the reply. */
  function Respond(k: Kind, shape: Shape, doc: Element): (r: Result<Fetched>)
    ensures r.Failure? ==> shape.ListAll? && shape.container != "" && r.error == TypeError
    ensures shape.OneObject? ==> r == Success(Single(Adopt(doc)))
    ensures shape.Probe? && FindPos(doc, ["size"]).None? ==> r == Success(Single(Adopt(doc)))
    ensures shape.Probe? && FindPos(doc, ["size"]).Some? ==> r == Success(Listed(Records(k, doc)))
  {
    match shape
    case ListAll(container) =>
      if container == "" then Success(Listed(Records(k, doc)))
      else
        (match Find(doc, [container])
         case None => Failure(TypeError)
         case Some(inner) => Success(Listed(Records(k, inner))))
    case OneObject => Success(Single(Adopt(doc)))
    case Probe =>
      if FindPos(doc, ["size"]).Some? then Success(Listed(Records(k, doc)))
      else Success(Single(Adopt(doc)))
  }

  /** The outcome of a planned GET given its reply. */
  function Complete(k: Kind, p: Plan, reply: Reply): Result<Fetched> {
    var doc :- GetOutcome(reply);
    Respond(k, p.shape, doc)
  }

  /** One call of `get_object` seen from outside: what it returns, the
      request log afterwards, and the caller's subset afterwards. */
  datatype Exchange = Exchange(result: Result<Fetched>, sent: seq<Request>, subset: SubsetValue)

  /** What `get_object` does against a server that answers `server(log, q)`
      to the request `q` sent after `log`. */
  function Fetch(k: Kind, data: Data, v: SubsetValue, server: (seq<Request>, Request) -> Reply,
                 log: seq<Request>): Exchange {
    Carry(k, PlanFor(k, data, v), v, server, log)
  }

  /** Carrying out a plan: no request when the plan failed or there is
      nothing to fetch, otherwise the planned GET, with "general" appended
      to a caller's list when the plan asks for it. */
  function Carry(k: Kind, plan: Result<Option<Plan>>, v: SubsetValue, server: (seq<Request>, Request) -> Reply,
                 log: seq<Request>): Exchange {
    match plan
    case Failure(e) => Exchange(Failure(e), log, v)
    case Success(None) => Exchange(Success(Nothing), log, v)
    case Success(Some(p)) =>
      Exchange(Complete(k, p, server(log, Get(p.url))), log + [Get(p.url)],
               if p.appendGeneral && v.TagListValue? then TagListValue(v.items + ["general"]) else v)
  }

  /** `get_object(obj_class, data, subset)`. */
  method GetObject(jss: Jss, k: Kind, data: Data, subset: SubsetArg) returns (r: Result<Fetched>)
    modifies jss, Footprint(subset)
    ensures jss.baseUrl == old(jss.baseUrl)
    ensures Exchange(r, jss.sent, ValueOf(subset)) == Fetch(k, data, old(ValueOf(subset)), jss.server, old(jss.sent))
  {
    var plan := PlanFor(k, data, ValueOf(subset));
    r := Run(jss, k, plan, subset);
  }

  method Run(jss: Jss, k: Kind, plan: Result<Option<Plan>>, subset: SubsetArg) returns (r: Result<Fetched>)
    modifies jss, Footprint(subset)
    ensures jss.baseUrl == old(jss.baseUrl)
    ensures Exchange(r, jss.sent, ValueOf(subset)) == Carry(k, plan, old(ValueOf(subset)), jss.server, old(jss.sent))
  {
    if plan.Failure? {
      return Failure(plan.error);
    }
    if plan.value.None? {
      return Success(Nothing);
    }
    var p := plan.value.value;
    ghost var v := ValueOf(subset);
    ghost var log := jss.sent;
    if p.appendGeneral && subset.ListSubset? {
      subset.list.items := subset.list.items + ["general"];
    }
    assert ValueOf(subset) == if p.appendGeneral && v.TagListValue? then TagListValue(v.items + ["general"]) else v;
    r := Perform(jss, k, p);
    assert Carry(k, plan, v, jss.server, log) ==
      Exchange(Complete(k, p, jss.server(log, Get(p.url))), log + [Get(p.url)], ValueOf(subset));
  }

  /** The GET of a plan and the reading of its reply. */
  method Perform(jss: Jss, k: Kind, p: Plan) returns (r: Result<Fetched>)
    modifies jss
    ensures jss.baseUrl == old(jss.baseUrl)
    ensures jss.sent == old(jss.sent) + [Get(p.url)]
    ensures r == Complete(k, p, jss.server(old(jss.sent), Get(p.url)))
  {
    var doc := jss.GetPath(p.url);
    if doc.Failure? {
      return Failure(doc.error);
    }
    r := Respond(k, p.shape, doc.value);
  }

  /** A type that cannot be read refuses every lookup and every list
      request before anything is sent. */
  lemma UnreadableRefused(k: Kind, data: Data, v: SubsetValue)
    requires !CapabilitiesOf(k).get && !v.OtherValue?
    requires !data.OtherData? && !(data.IntData? && !IsMachineInt(data.n))
    ensures PlanFor(k, data, v) == Failure(MethodNotAllowed)
  {
  }

  /** A subset that is neither a string nor a list raises TypeError before
      anything else is looked at. */
  lemma OddSubsetRefused(k: Kind, data: Data)
    ensures PlanFor(k, data, OtherValue) == Failure(TypeError)
  {
  }

  /** A lookup with a subset always asks for "general", exactly once more
      than the caller named it when the caller left it out. */
  lemma GeneralRequested(k: Kind, l: Lookup, tags: seq<string>, isList: bool)
    requires CapabilitiesOf(k).get && GetUrl(k, l).Success?
    ensures var r := LookupPlan(k, l, Some(tags), isList);
      r.Success? && r.value.Some? &&
      r.value.value.url == GetUrl(k, l).value + "/subset/" + Join(WithGeneral(tags), '&') &&
      "general" in WithGeneral(tags) &&
      multiset(WithGeneral(tags))["general"] == (if "general" in tags then multiset(tags)["general"] else 1)
  {
    GeneralCounted(tags);
  }

  lemma GeneralCounted(tags: seq<string>)
    ensures multiset(WithGeneral(tags))["general"] == (if "general" in tags then multiset(tags)["general"] else 1)
  {
    if "general" !in tags {
      assert multiset(tags)["general"] == 0;
    }
  }

  /** The server can recover the names from the suffix: splitting it on
      "&" gives back what was sent, provided no name holds "&". */
  lemma SubsetSuffixReadsBack(tags: seq<string>)
    requires forall i :: 0 <= i < |tags| ==> '&' !in tags[i]
    ensures Split(Join(WithGeneral(tags), '&'), '&') == WithGeneral(tags)
  {
    var w := WithGeneral(tags);
    if "general" !in tags {
      assert forall i :: 0 <= i < |w| ==> '&' !in w[i] by {
        forall i | 0 <= i < |w| ensures '&' !in w[i] {
          if i < |tags| { assert w[i] == tags[i]; } else { assert w[i] == "general"; }
        }
      }
    }
    SplitJoin(w, '&');
  }

  /** A "&" string subset without "general" reaches the server as itself
      followed by "&general". */
  lemma TextSubsetSuffix(s: string)
    requires s != [] && "general" !in Split(s, '&')
    ensures Normalise(TagText(s)) == Success(Some(Split(s, '&')))
    ensures Join(WithGeneral(Split(s, '&')), '&') == s + "&general"
  {
    var tags := Split(s, '&');
    JoinSplit(s, '&');
    JoinAppend(tags, "general", '&');
  }

  /** A list request goes to the type's URL, except that a Computer listing
      with the single subset "basic" (in any case) gets the basic suffix. */
  lemma ListUrl(k: Kind, v: SubsetValue)
    requires CapabilitiesOf(k).list && CapabilitiesOf(k).get && !v.OtherValue? && k != Computer
    ensures PlanFor(k, NoData, v) == Success(Some(Plan(Url(k), ListAll(ContainerTag(k)), false)))
  {
    assert Url(k) + "" == Url(k);
  }

  lemma UpperBasic()
    ensures Upper("basic") == "BASIC" && Upper("Basic") == "BASIC"
  {
    assert Upper("basic")[0] == 'B' && Upper("basic")[4] == 'C';
  }

  lemma BasicComputerList()
    ensures PlanFor(Computer, NoData, TagText("basic")) ==
            Success(Some(Plan("/computers/subset/basic", ListAll(""), false)))
  {
    SplitWithoutSeparator("basic", '&');
    UpperBasic();
    ComputerRow();
    assert Normalise(TagText("basic")) == Success(Some(["basic"]));
  }

  lemma ComputerRow()
    ensures CapabilitiesOf(Computer) == All && Url(Computer) == "/computers" && ContainerTag(Computer) == ""
    ensures Url(Computer) + "/subset/basic" == "/computers/subset/basic"
    ensures Url(Computer) + "" == "/computers"
  {
  }

  /** The "basic" test ignores case: any single name reading "BASIC" once
      upper-cased, given as a string or as a one-name list, shortens a
      Computer listing. */
  lemma BasicComputerListCaseless(s: string)
    requires Upper(s) == "BASIC"
    ensures PlanFor(Computer, NoData, TagText(s)) ==
            Success(Some(Plan("/computers/subset/basic", ListAll(""), false)))
    ensures PlanFor(Computer, NoData, TagListValue([s])) ==
            Success(Some(Plan("/computers/subset/basic", ListAll(""), false)))
  {
    NoAmpersandInBasic(s);
    SplitWithoutSeparator(s, '&');
    ComputerRow();
  }

  lemma NoAmpersandInBasic(s: string)
    requires Upper(s) == "BASIC"
    ensures '&' !in s
  {
    forall i | 0 <= i < |s|
      ensures s[i] != '&'
    {
      assert Upper(s)[i] == UpperChar(s[i]);
      assert 'A' <= Upper(s)[i] <= 'Z';
    }
  }

  /** A subset of two or more names never shortens a Computer listing. */
  lemma {:induction false} TwoNamesListInFull(a: string, b: string)
    requires '&' !in a
    ensures PlanFor(Computer, NoData, TagText(a + "&" + b)) ==
            Success(Some(Plan("/computers", ListAll(""), false)))
  {
    var s := a + "&" + b;
    assert s == a + ['&'] + b;
    assert |Split(s, '&')| >= 2 by {
      SplitPieceThenRest(a, b, '&');
    }
    ComputerRow();
  }

  /** Without `data`, the reply is read as a list whenever the type can
      list, and as one object otherwise, whatever the reply looks like. */
  lemma NoDataShape(k: Kind, v: SubsetValue)
    requires CapabilitiesOf(k).get && !v.OtherValue?
    ensures PlanFor(k, NoData, v).Success?
    ensures PlanFor(k, NoData, v).value.Some?
    ensures PlanFor(k, NoData, v).value.value.shape.ListAll? <==> CapabilitiesOf(k).list
  {
  }

  /** A list reply gives one record per item: per child of the reply, or
      of its `container` child, whose tag is not "size". */
  lemma ListedOnePerItem(k: Kind, container: string, doc: Element)
    ensures var r := Respond(k, ListAll(container), doc);
      var e := if container == "" then doc else Find(doc, [container]).GetOr(doc);
      (container == "" || Find(doc, [container]).Some?) ==>
        r.Success? && r.value.Listed? && |r.value.records| == |e.children| - SizeCount(e.children)
  {
    var e := if container == "" then doc else Find(doc, [container]).GetOr(doc);
    ItemsCount(e.children);
  }

  /** A call sends at most one request, and none when it fails before the
      GET. */
  lemma FetchSendsAtMostOne(k: Kind, data: Data, v: SubsetValue, server: (seq<Request>, Request) -> Reply,
                            log: seq<Request>)
    ensures var x := Fetch(k, data, v, server, log);
      log <= x.sent && |x.sent| <= |log| + 1 &&
      (|x.sent| == |log| + 1 ==> x.sent[|log|].Get?) &&
      (PlanFor(k, data, v).Failure? ==> x.sent == log && x.result == Failure(PlanFor(k, data, v).error))
  {
  }

  /** The caller's subset gains "general" only when it is a list without
      it; otherwise it is left alone. */
  lemma FetchSubset(k: Kind, data: Data, v: SubsetValue, server: (seq<Request>, Request) -> Reply,
                    log: seq<Request>)
    ensures var x := Fetch(k, data, v, server, log);
      x.subset == v ||
      (v.TagListValue? && "general" !in v.items && x.subset == TagListValue(v.items + ["general"]))
  {
    var plan := PlanFor(k, data, v);
    assert Fetch(k, data, v, server, log) == Carry(k, plan, v, server, log);
    CarrySubset(k, plan, v, server, log);
    if plan.Success? && plan.value.Some? && plan.value.value.appendGeneral && v.TagListValue? {
      AppendOnlyWhenMissing(k, data, v);
    }
  }

  lemma AppendOnlyWhenMissing(k: Kind, data: Data, v: SubsetValue)
    requires v.TagListValue?
    requires PlanFor(k, data, v).Success? && PlanFor(k, data, v).value.Some?
    requires PlanFor(k, data, v).value.value.appendGeneral
    ensures "general" !in v.items
  {
    var subset := if v.items == [] then None else Some(v.items);
    assert Normalise(v) == Success(subset);
    match data
    case NoData =>
    case IntData(n) => LookupAppends(k, ById(n), subset);
    case TextData(s) => LookupAppends(k, ByText(s), subset);
    case OtherData =>
  }

  lemma LookupAppends(k: Kind, l: Lookup, subset: Option<seq<string>>)
    requires LookupPlan(k, l, subset, true).Success? && LookupPlan(k, l, subset, true).value.Some?
    requires LookupPlan(k, l, subset, true).value.value.appendGeneral
    ensures subset.Some? && "general" !in subset.value
  {
  }

  lemma CarrySubset(k: Kind, plan: Result<Option<Plan>>, v: SubsetValue, server: (seq<Request>, Request) -> Reply,
                    log: seq<Request>)
    ensures var x := Carry(k, plan, v, server, log);
      x.subset == v ||
      (plan.Success? && plan.value.Some? && plan.value.value.appendGeneral && v.TagListValue? &&
       x.subset == TagListValue(v.items + ["general"]))
  {
  }
}

/** A JSS object: an element tree that the object edits in place and
    saves back to the server with `save`, or removes with `delete`. The
    exchange `save` has with the server is specified by `SaveSpec`, a
    function of the tree, the server and the requests sent so far. */
module Objects {
  import opened Wrappers
  import opened Errors
  import opened Xml
  import opened Resources
  import opened Fields
  import opened Routing
  import opened Transport
  import opened Factory
  import opened Edits

  /** After `save`: its outcome, the object's tree and the request log. */
  datatype Saved = Saved(outcome: Outcome, tree: Element, sent: seq<Request>)

  /** `self.clear()`: the tag stays, the text and the children go. */
  function Cleared(tree: Element): (r: Element)
    ensures r.tag == tree.tag && r.text == None && r.children == []
  {
    Element(tree.tag, None, [])
  }

  /** `self.clear()` followed by taking over the children of the data the
      server sent back: the tag stays, the text goes. */
  function Refill(tree: Element, fetched: Element): (r: Element)
    ensures r.tag == tree.tag && r.text == None && r.children == fetched.children
  {
    Cleared(tree).(children := fetched.children)
  }

  /** The POST branch of `save`: a POST to the type's post URL, then
      `get_object` of the id the reply names; anything but a single object
      back fails on `getchildren`, after `self.clear()` has already
      emptied the tree. */
  function AfterPost(k: Kind, tree: Element, server: (seq<Request>, Request) -> Reply, log: seq<Request>): Saved {
    var q := Post(PostUrl(k), tree);
    var log1 := log + [q];
    match PostOutcome(server(log, q))
    case Failure(e) => Saved(Fail(e), tree, log1)
    case Success(id) =>
      var x := Fetch(k, IntData(id), NoTags, server, log1);
      match x.result
      case Failure(e) => Saved(Fail(e), tree, x.sent)
      case Success(Single(t)) => Saved(Pass, Refill(tree, t), x.sent)
      case Success(_) => Saved(Fail(AttributeError), Cleared(tree), x.sent)
  }

  /** `JSSObject.save`: PUT to the object's URL and GET it back; on a 404
      fall back to creating it by POST when the type allows it; a type that
      can only POST creates. */
  function SaveSpec(k: Kind, tree: Element, server: (seq<Request>, Request) -> Reply, log: seq<Request>): Saved {
    var c := CapabilitiesOf(k);
    if !c.put && !c.post then Saved(Fail(MethodNotAllowed), tree, log)
    else if c.put then AfterPut(k, ObjectUrl(k, tree), c.post, tree, server, log)
    else AfterPost(k, tree, server, log)
  }

  /** The PUT branch of `save`, for a type that can PUT to `url`. */
  function AfterPut(k: Kind, url: string, canPost: bool, tree: Element, server: (seq<Request>, Request) -> Reply,
                    log: seq<Request>): Saved {
    var log1 := log + [Put(url, tree)];
    var reply := server(log, Put(url, tree));
    match PutOutcome(reply)
    case Fail(e) =>
      if reply.status == 404 then
        if canPost then AfterPost(k, tree, server, log1) else Saved(Fail(MethodNotAllowed), tree, log1)
      else Saved(Fail(e), tree, log1)
    case Pass =>
      var log2 := log1 + [Get(url)];
      match GetOutcome(server(log1, Get(url)))
      case Failure(e) => Saved(Fail(e), tree, log2)
      case Success(doc) => Saved(Pass, Refill(tree, doc), log2)
  }

  /** The clean-up `Policy.save` and `Package.save` do before saving. */
  function Fixup(k: Kind, tree: Element): Result<Element> {
    if k == Policy then PolicyFixup(tree)
    else if k == Package then PackageFixup(tree)
    else Success(tree)
  }

  /** `save` as a type's own override runs it: the clean-up, which stays
      even when the save then fails, then `JSSObject.save`. */
  function SaveWithFixup(k: Kind, tree: Element, server: (seq<Request>, Request) -> Reply, log: seq<Request>): Saved {
    match Fixup(k, tree)
    case Failure(e) => Saved(Fail(e), tree, log)
    case Success(t) => SaveSpec(k, t, server, log)
  }

  /** A JSS object and the element tree it edits in place. */
  class JssObject {
    const kind: Kind
    var tree: Element

    /** `obj_class(jss, data)` for an element: its tag and children. */
    constructor (kind: Kind, data: Element)
      ensures this.kind == kind && tree == Adopt(data)
    {
      this.kind := kind;
      tree := Adopt(data);
    }

    function Id(): Option<string>
      reads this
    {
      IdOf(kind, tree)
    }

    function Name(): Option<string>
      reads this
    {
      NameOf(kind, tree)
    }

    /** Applies an edit's result: the new tree on success, nothing on
        failure. */
    method Apply(edit: Result<Element>) returns (o: Outcome)
      modifies this
      ensures edit.Success? ==> o == Pass && tree == edit.value
      ensures edit.Failure? ==> o == Fail(edit.error) && tree == old(tree)
    {
      if edit.Failure? {
        return Fail(edit.error);
      }
      tree := edit.value;
      o := Pass;
    }

    method SetBool(loc: Path, value: bool) returns (o: Outcome)
      modifies this
      ensures var e := Edits.SetBool(old(tree), loc, value);
        (e.Success? ==> o == Pass && tree == e.value) && (e.Failure? ==> o == Fail(e.error) && tree == old(tree))
    {
      o := Apply(Edits.SetBool(tree, loc, value));
    }

    method ClearList(loc: Path) returns (o: Outcome)
      modifies this
      ensures var e := Edits.ClearList(old(tree), loc);
        (e.Success? ==> o == Pass && tree == e.value) && (e.Failure? ==> o == Fail(e.error) && tree == old(tree))
    {
      o := Apply(Edits.ClearList(tree, loc));
    }

    method RemoveObjectFromList(key: Member, loc: Path) returns (o: Outcome)
      modifies this
      ensures var e := RemoveFromList(old(tree), key, loc);
        (e.Success? ==> o == Pass && tree == e.value) && (e.Failure? ==> o == Fail(e.error) && tree == old(tree))
    {
      o := Apply(RemoveFromList(tree, key, loc));
    }

    /** `add_object_to_path`: the tree gains the entry even when the entry
        returned is then missing. */
    method AddObjectToPath(obj: JssObject, loc: Path) returns (r: Result<Element>)
      modifies this
      ensures var a := Edits.AddObjectToPath(old(tree), loc, obj.kind, old(obj.tree));
        (a.Success? ==> r == a.value.entry && tree == a.value.tree) &&
        (a.Failure? ==> r == Failure(a.error) && tree == old(tree))
    {
      var a := Edits.AddObjectToPath(tree, loc, obj.kind, obj.tree);
      if a.Failure? {
        return Failure(a.error);
      }
      tree := a.value.tree;
      r := a.value.entry;
    }

    /** `add_device(device, container)`. */
    method AddDevice(device: JssObject, loc: Path) returns (r: Result<Element>)
      modifies this
      ensures var a := Edits.AddDevice(old(tree), loc, device.kind, old(device.tree));
        (a.Success? ==> r == a.value.entry && tree == a.value.tree) &&
        (a.Failure? ==> r == Failure(a.error) && tree == old(tree))
    {
      var a := Edits.AddDevice(tree, loc, device.kind, device.tree);
      if a.Failure? {
        return Failure(a.error);
      }
      tree := a.value.tree;
      r := a.value.entry;
    }

    function HasMember(device: JssObject): Result<bool>
      reads this, device
    {
      Edits.HasMember(tree, device.kind, device.tree)
    }

    /** The `is_smart` setter. */
    method SetIsSmart(value: bool) returns (o: Outcome)
      modifies this
      ensures var e := Edits.SetIsSmart(old(tree), value);
        (e.Success? ==> o == Pass && tree == e.value) && (e.Failure? ==> o == Fail(e.error) && tree == old(tree))
    {
      o := Apply(Edits.SetIsSmart(tree, value));
    }

    /** `add_criterion(name, priority, and_or, search_type, value)`. */
    method AddCriterion(name: string, priority: int, andOr: string, searchType: string, value: string)
      returns (o: Outcome)
      modifies this
      ensures var e := Edits.AddCriterion(old(tree), Criterion(name, priority, andOr, searchType, value));
        (e.Success? ==> o == Pass && tree == e.value) && (e.Failure? ==> o == Fail(e.error) && tree == old(tree))
    {
      o := Apply(Edits.AddCriterion(tree, Criterion(name, priority, andOr, searchType, value)));
    }

    /** `self.clear()`. */
    method Clear()
      modifies this
      ensures tree == Cleared(old(tree))
    {
      tree := Element(tree.tag, None, []);
    }

    /** The end of `save`: `self.clear()`, then each child of the data the
        server sent back appended in turn. */
    method RefillFrom(fetched: Element)
      modifies this
      ensures tree == Refill(old(tree), fetched)
    {
      Clear();
      var i := 0;
      while i < |fetched.children|
        invariant 0 <= i <= |fetched.children|
        invariant tree == Element(old(tree).tag, None, fetched.children[..i])
      {
        tree := tree.(children := tree.children + [fetched.children[i]]);
        i := i + 1;
      }
      assert fetched.children[..i] == fetched.children;
    }

    /** `delete()`: a DELETE of the object's URL, when the type allows it. */
    method Delete(jss: Jss) returns (o: Outcome)
      modifies jss
      ensures jss.baseUrl == old(jss.baseUrl)
      ensures !CapabilitiesOf(kind).delete ==> o == Fail(MethodNotAllowed) && jss.sent == old(jss.sent)
      ensures CapabilitiesOf(kind).delete ==>
        var q := Request.Delete(ObjectUrl(kind, tree));
        jss.sent == old(jss.sent) + [q] && o == DeleteOutcome(jss.server(old(jss.sent), q))
    {
      if !CapabilitiesOf(kind).delete {
        return Fail(MethodNotAllowed);
      }
      o := jss.DeletePath(ObjectUrl(kind, tree));
    }

    /** `save()`, with the override of a Policy or a Package. */
    method Save(jss: Jss) returns (o: Outcome)
      modifies this, jss
      ensures jss.baseUrl == old(jss.baseUrl)
      ensures Saved(o, tree, jss.sent) == SaveWithFixup(kind, old(tree), jss.server, old(jss.sent))
    {
      var fixed := Fixup(kind, tree);
      if fixed.Failure? {
        return Fail(fixed.error);
      }
      tree := fixed.value;
      o := BaseSave(jss);
    }

    /** `JSSObject.save()`. */
    method BaseSave(jss: Jss) returns (o: Outcome)
      modifies this, jss
      ensures jss.baseUrl == old(jss.baseUrl)
      ensures Saved(o, tree, jss.sent) == SaveSpec(kind, old(tree), jss.server, old(jss.sent))
    {
      var c := CapabilitiesOf(kind);
      if !c.put && !c.post {
        return Fail(MethodNotAllowed);
      }
      if !c.put {
        o := Create(jss);
        return;
      }
      o := Update(jss, ObjectUrl(kind, tree), c.post);
    }

    /** The PUT branch of `save`. */
    method Update(jss: Jss, url: string, canPost: bool) returns (o: Outcome)
      modifies this, jss
      ensures jss.baseUrl == old(jss.baseUrl)
      ensures Saved(o, tree, jss.sent) == AfterPut(kind, url, canPost, old(tree), jss.server, old(jss.sent))
    {
      var put := jss.PutPath(url, tree);
      if put.Fail? {
        if put.error == PutError(404) {
          if canPost {
            o := Create(jss);
          } else {
            o := Fail(MethodNotAllowed);
          }
        } else {
          o := put;
        }
        return;
      }
      var got := jss.GetPath(url);
      if got.Failure? {
        return Fail(got.error);
      }
      RefillFrom(got.value);
      o := Pass;
    }

    /** The POST branch of `save`. */
    method Create(jss: Jss) returns (o: Outcome)
      modifies this, jss
      ensures jss.baseUrl == old(jss.baseUrl)
      ensures Saved(o, tree, jss.sent) == AfterPost(kind, old(tree), jss.server, old(jss.sent))
    {
      var id := jss.PostPath(PostUrl(kind), tree);
      if id.Failure? {
        return Fail(id.error);
      }
      var fetched := GetObject(jss, kind, IntData(id.value), NoSubset);
      if fetched.Success? && fetched.value.Single? {
        RefillFrom(fetched.value.tree);
        o := Pass;
      } else if fetched.Failure? {
        o := Fail(fetched.error);
      } else {
        Clear();
        o := Fail(AttributeError);
      }
    }
  }

  /** A type that can neither update nor create refuses to save and sends
      nothing. */
  lemma SaveNeedsAWrite(k: Kind, tree: Element, server: (seq<Request>, Request) -> Reply, log: seq<Request>)
    requires !CapabilitiesOf(k).put && !CapabilitiesOf(k).post
    ensures SaveSpec(k, tree, server, log) == Saved(Fail(MethodNotAllowed), tree, log)
  {
  }

  /** A failed save leaves the tree as it was, except for the
      AttributeError raised after `self.clear()`, which leaves the tag
      alone; a successful one keeps the tag and takes the server's
      children. Either way the requests are appended to the log, at most
      three of them. */
  lemma SaveShape(k: Kind, tree: Element, server: (seq<Request>, Request) -> Reply, log: seq<Request>)
    ensures var r := SaveSpec(k, tree, server, log);
      (r.outcome.Fail? ==> r.tree == tree || (r.outcome == Fail(AttributeError) && r.tree == Cleared(tree))) &&
      (r.outcome.Pass? ==> r.tree.tag == tree.tag && r.tree.text == None) &&
      log <= r.sent && |r.sent| <= |log| + 3
  {
    var c := CapabilitiesOf(k);
    if c.put {
      PutShape(k, ObjectUrl(k, tree), c.post, tree, server, log);
    } else {
      PostShape(k, tree, server, log);
    }
  }

  lemma PutShape(k: Kind, url: string, canPost: bool, tree: Element, server: (seq<Request>, Request) -> Reply,
                 log: seq<Request>)
    ensures var r := AfterPut(k, url, canPost, tree, server, log);
      (r.outcome.Fail? ==> r.tree == tree || (r.outcome == Fail(AttributeError) && r.tree == Cleared(tree))) &&
      (r.outcome.Pass? ==> r.tree.tag == tree.tag && r.tree.text == None) &&
      log <= r.sent && |r.sent| <= |log| + 3
  {
    PostShape(k, tree, server, log + [Put(url, tree)]);
  }

  lemma PostShape(k: Kind, tree: Element, server: (seq<Request>, Request) -> Reply, log: seq<Request>)
    ensures var r := AfterPost(k, tree, server, log);
      (r.outcome.Fail? ==> r.tree == tree || (r.outcome == Fail(AttributeError) && r.tree == Cleared(tree))) &&
      (r.outcome.Pass? ==> r.tree.tag == tree.tag && r.tree.text == None) &&
      log <= r.sent && |r.sent| <= |log| + 2
  {
    var q := Post(PostUrl(k), tree);
    var log1 := log + [q];
    match PostOutcome(server(log, q))
    case Failure(e) =>
    case Success(id) =>
      FetchSendsAtMostOne(k, IntData(id), NoTags, server, log1);
  }

  /** A POST the server accepts, after which `get_object` brings back
      anything but one object, fails on `getchildren` with the tree
      already cleared. */
  lemma PostNotSingleClears(k: Kind, tree: Element, server: (seq<Request>, Request) -> Reply, log: seq<Request>,
                            n: int)
    requires PostOutcome(server(log, Post(PostUrl(k), tree))) == Success(n)
    requires var x := Fetch(k, IntData(n), NoTags, server, log + [Post(PostUrl(k), tree)]);
      x.result.Success? && !x.result.value.Single?
    ensures AfterPost(k, tree, server, log) ==
      Saved(Fail(AttributeError), Cleared(tree), Fetch(k, IntData(n), NoTags, server, log + [Post(PostUrl(k), tree)]).sent)
  {
  }

  /** An id the server returns that does not fit a machine `int` makes
      `get_object` return `None` without a request, so the save fails with
      the tree cleared and only the POST sent. */
  lemma HugeIdClears(k: Kind, tree: Element, server: (seq<Request>, Request) -> Reply, log: seq<Request>, n: int)
    requires PostOutcome(server(log, Post(PostUrl(k), tree))) == Success(n)
    requires !IsMachineInt(n)
    ensures AfterPost(k, tree, server, log) == Saved(Fail(AttributeError), Cleared(tree), log + [Post(PostUrl(k), tree)])
  {
    var log1 := log + [Post(PostUrl(k), tree)];
    assert Fetch(k, IntData(n), NoTags, server, log1).result == Success(Nothing);
  }

  /** A POST the server accepts with id `n`, followed by a GET that brings
      back one object, creates the object in place: the POST, then the GET
      of the new id's URL, and the tree takes the children the GET
      returned. */
  lemma CreatedInPlace(k: Kind, tree: Element, server: (seq<Request>, Request) -> Reply, log: seq<Request>,
                       n: nat, t: Element)
    requires PostOutcome(server(log, Post(PostUrl(k), tree))) == Success(n)
    requires Fetch(k, IntData(n), NoTags, server, log + [Post(PostUrl(k), tree)]).result == Success(Single(t))
    ensures GetUrl(k, ById(n)).Success?
    ensures AfterPost(k, tree, server, log) ==
      Saved(Pass, Refill(tree, t), log + [Post(PostUrl(k), tree), Get(GetUrl(k, ById(n)).value)])
  {
    var log1 := log + [Post(PostUrl(k), tree)];
    FetchedById(k, n, server, log1, t);
    assert log1 + [Get(GetUrl(k, ById(n)).value)] == log + [Post(PostUrl(k), tree), Get(GetUrl(k, ById(n)).value)];
  }

  /** A lookup by id that brings back one object sent exactly one GET, of
      the id's URL. */
  lemma FetchedById(k: Kind, n: int, server: (seq<Request>, Request) -> Reply, log: seq<Request>, t: Element)
    requires Fetch(k, IntData(n), NoTags, server, log).result == Success(Single(t))
    ensures GetUrl(k, ById(n)).Success?
    ensures Fetch(k, IntData(n), NoTags, server, log).sent == log + [Get(GetUrl(k, ById(n)).value)]
  {
  }

  /** A type that can create but not update saves by POST alone: it is
      created in place as above. */
  lemma PostOnlySaveCreates(k: Kind, tree: Element, server: (seq<Request>, Request) -> Reply, log: seq<Request>,
                            n: nat, t: Element)
    requires !CapabilitiesOf(k).put && CapabilitiesOf(k).post
    requires PostOutcome(server(log, Post(PostUrl(k), tree))) == Success(n)
    requires Fetch(k, IntData(n), NoTags, server, log + [Post(PostUrl(k), tree)]).result == Success(Single(t))
    ensures GetUrl(k, ById(n)).Success?
    ensures SaveSpec(k, tree, server, log) ==
      Saved(Pass, Refill(tree, t), log + [Post(PostUrl(k), tree), Get(GetUrl(k, ById(n)).value)])
  {
    CreatedInPlace(k, tree, server, log, n, t);
  }

  /** An object the server accepts is updated in place: a PUT of the tree
      to the object's URL, a GET of the same URL, and the tree takes the
      children the GET returned. */
  lemma UpdateInPlace(k: Kind, tree: Element, server: (seq<Request>, Request) -> Reply, log: seq<Request>,
                      doc: Element)
    requires CapabilitiesOf(k).put
    requires server(log, Put(ObjectUrl(k, tree), tree)).status < 400
    requires GetOutcome(server(log + [Put(ObjectUrl(k, tree), tree)], Get(ObjectUrl(k, tree)))) == Success(doc)
    ensures SaveSpec(k, tree, server, log) ==
      Saved(Pass, Refill(tree, doc), log + [Put(ObjectUrl(k, tree), tree), Get(ObjectUrl(k, tree))])
  {
  }

  /** An object the server does not know (404) is created by a POST of
      the same tree to the post URL, when the type can create. */
  lemma CreateWhenMissing(k: Kind, tree: Element, server: (seq<Request>, Request) -> Reply, log: seq<Request>)
    requires CapabilitiesOf(k).put && CapabilitiesOf(k).post
    requires server(log, Put(ObjectUrl(k, tree), tree)).status == 404
    ensures var r := SaveSpec(k, tree, server, log);
      |r.sent| >= |log| + 2 &&
      r.sent[|log|] == Put(ObjectUrl(k, tree), tree) &&
      r.sent[|log| + 1] == Post(PostUrl(k), tree)
  {
    var url := ObjectUrl(k, tree);
    assert SaveSpec(k, tree, server, log) == AfterPut(k, url, true, tree, server, log);
    MissingThenPost(k, url, tree, server, log);
  }

  lemma MissingThenPost(k: Kind, url: string, tree: Element, server: (seq<Request>, Request) -> Reply,
                        log: seq<Request>)
    requires server(log, Put(url, tree)).status == 404
    ensures var r := AfterPut(k, url, true, tree, server, log);
      |r.sent| >= |log| + 2 && r.sent[|log|] == Put(url, tree) && r.sent[|log| + 1] == Post(PostUrl(k), tree)
  {
    var log1 := log + [Put(url, tree)];
    MissingPosts(k, url, tree, server, log);
    PostFirst(k, tree, server, log1);
  }

  lemma MissingPosts(k: Kind, url: string, tree: Element, server: (seq<Request>, Request) -> Reply,
                     log: seq<Request>)
    requires server(log, Put(url, tree)).status == 404
    ensures AfterPut(k, url, true, tree, server, log) == AfterPost(k, tree, server, log + [Put(url, tree)])
  {
  }

  lemma PostFirst(k: Kind, tree: Element, server: (seq<Request>, Request) -> Reply, log: seq<Request>)
    ensures var r := AfterPost(k, tree, server, log);
      log + [Post(PostUrl(k), tree)] <= r.sent && |r.sent| <= |log| + 2 &&
      (|r.sent| == |log| + 2 ==> r.sent[|log| + 1].Get?)
  {
    var q := Post(PostUrl(k), tree);
    var log1 := log + [q];
    match PostOutcome(server(log, q))
    case Failure(e) =>
    case Success(id) =>
      FetchSendsAtMostOne(k, IntData(id), NoTags, server, log1);
  }

  /** A type that can only update gives up on a 404. */
  lemma MissingWithoutPost(k: Kind, tree: Element, server: (seq<Request>, Request) -> Reply, log: seq<Request>)
    requires CapabilitiesOf(k).put && !CapabilitiesOf(k).post
    requires server(log, Put(ObjectUrl(k, tree), tree)).status == 404
    ensures SaveSpec(k, tree, server, log) ==
      Saved(Fail(MethodNotAllowed), tree, log + [Put(ObjectUrl(k, tree), tree)])
  {
  }

  /** Any other refused PUT is reported with its status, and nothing more
      is sent. */
  lemma PutRefused(k: Kind, tree: Element, server: (seq<Request>, Request) -> Reply, log: seq<Request>)
    requires CapabilitiesOf(k).put
    requires server(log, Put(ObjectUrl(k, tree), tree)).status >= 400
    requires server(log, Put(ObjectUrl(k, tree), tree)).status != 404
    ensures SaveSpec(k, tree, server, log) ==
      Saved(Fail(PutError(server(log, Put(ObjectUrl(k, tree), tree)).status)), tree,
            log + [Put(ObjectUrl(k, tree), tree)])
  {
  }

  /** A Package is never sent with the "No category assigned" placeholder:
      every PUT or POST its save makes carries the cleaned-up tree. */
  lemma PackagePlaceholderNeverSent(tree: Element, server: (seq<Request>, Request) -> Reply, log: seq<Request>)
    ensures var r := SaveWithFixup(Package, tree, server, log);
      forall i :: |log| <= i < |r.sent| && (r.sent[i].Put? || r.sent[i].Post?) ==>
        FindText(r.sent[i].body, ["category"]) != Some("No category assigned")
  {
    match PackageFixup(tree)
    case Failure(e) =>
    case Success(t) =>
      PackageSaveBodies(t, server, log);
  }

  /** Every PUT or POST a save sends carries the tree being saved. */
  lemma PackageSaveBodies(t: Element, server: (seq<Request>, Request) -> Reply, log: seq<Request>)
    ensures var r := SaveSpec(Package, t, server, log);
      forall i :: |log| <= i < |r.sent| && (r.sent[i].Put? || r.sent[i].Post?) ==> r.sent[i].body == t
  {
    SaveBodies(Package, t, server, log);
  }

  lemma SaveBodies(k: Kind, t: Element, server: (seq<Request>, Request) -> Reply, log: seq<Request>)
    ensures var r := SaveSpec(k, t, server, log);
      forall i :: |log| <= i < |r.sent| && (r.sent[i].Put? || r.sent[i].Post?) ==> r.sent[i].body == t
  {
    var c := CapabilitiesOf(k);
    if c.put {
      PutBodies(k, ObjectUrl(k, t), c.post, t, server, log);
    } else {
      PostBodies(k, t, server, log);
    }
  }

  lemma PutBodies(k: Kind, url: string, canPost: bool, t: Element, server: (seq<Request>, Request) -> Reply,
                  log: seq<Request>)
    ensures var r := AfterPut(k, url, canPost, t, server, log);
      forall i :: |log| <= i < |r.sent| && (r.sent[i].Put? || r.sent[i].Post?) ==> r.sent[i].body == t
  {
    var log1 := log + [Put(url, t)];
    var sent := AfterPut(k, url, canPost, t, server, log).sent;
    PutSent(k, url, canPost, t, server, log);
    if sent == AfterPost(k, t, server, log1).sent {
      PostBodies(k, t, server, log1);
      PostFirst(k, t, server, log1);
    } else {
      assert forall i :: |log1| <= i < |sent| ==> sent[i].Get?;
    }
    PutThen(log, Put(url, t), sent, t);
  }

  /** After the PUT, a save sends nothing more, a GET of the same URL, or
      what creating the object by POST sends. */
  lemma PutSent(k: Kind, url: string, canPost: bool, t: Element, server: (seq<Request>, Request) -> Reply,
                log: seq<Request>)
    ensures var log1 := log + [Put(url, t)];
      var sent := AfterPut(k, url, canPost, t, server, log).sent;
      sent == log1 || sent == log1 + [Get(url)] || sent == AfterPost(k, t, server, log1).sent
  {
  }

  lemma PostBodies(k: Kind, t: Element, server: (seq<Request>, Request) -> Reply, log: seq<Request>)
    ensures var r := AfterPost(k, t, server, log);
      forall i :: |log| <= i < |r.sent| && (r.sent[i].Put? || r.sent[i].Post?) ==> r.sent[i].body == t
  {
    PostFirst(k, t, server, log);
    PostThenGet(log, Post(PostUrl(k), t), AfterPost(k, t, server, log).sent, t);
  }

  /** A PUT or POST of `t` followed by at most one GET carries `t` in every
      body sent. */
  lemma PostThenGet(log: seq<Request>, q: Request, sent: seq<Request>, t: Element)
    requires (q.Put? || q.Post?) && q.body == t && log + [q] <= sent
    requires |sent| <= |log| + 2 && (|sent| == |log| + 2 ==> sent[|log| + 1].Get?)
    ensures forall i :: |log| <= i < |sent| && (sent[i].Put? || sent[i].Post?) ==> sent[i].body == t
  {
    assert sent[|log|] == q;
  }

  lemma PutThen(log: seq<Request>, q: Request, sent: seq<Request>, t: Element)
    requires (q.Put? || q.Post?) && q.body == t && log + [q] <= sent
    requires forall i :: |log| + 1 <= i < |sent| && (sent[i].Put? || sent[i].Post?) ==> sent[i].body == t
    ensures forall i :: |log| <= i < |sent| && (sent[i].Put? || sent[i].Post?) ==> sent[i].body == t
  {
    assert sent[|log|] == q;
  }
}

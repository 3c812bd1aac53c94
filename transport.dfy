/** The JSS connection: the API root derived from `base_url`, and the four
    HTTP verbs the object layer uses. The server is an oracle that answers
    each request given every request sent before it; the connection keeps
    the log of what it sent. */
module Transport {
  import opened Wrappers
  import opened Errors
  import opened Text
  import opened Xml

  /** A request as the object layer issues it: the path below the API root
      and, for PUT and POST, the element serialised as the body. */
  datatype Request =
    | Get(path: string)
    | Put(path: string, body: Element)
    | Post(path: string, body: Element)
    | Delete(path: string)

  /** What comes back: the status code, the body parsed as XML (`None` when
      it does not parse), and the number a POST reply carries in its first
      `<id>digits</id>` (`None` when there is none). */
  datatype Reply = Reply(status: int, document: Option<Element>, createdId: Option<nat>)

  /** `JSS.get`: a status of 400 or more raises JSSGetError with that
      status; a body that does not parse raises JSSGetError too. */
  function GetOutcome(r: Reply): (o: Result<Element>)
    ensures o.Success? <==> r.status < 400 && r.document.Some?
    ensures o.Success? ==> o.value == r.document.value
    ensures r.status >= 400 ==> o == Failure(GetError(r.status))
  {
    if r.status >= 400 then Failure(GetError(r.status))
    else if r.document.None? then Failure(ParseFailure)
    else Success(r.document.value)
  }

  /** `JSS.put`: only a status of 400 or more is an error. */
  function PutOutcome(r: Reply): (o: Outcome)
    ensures o.Pass? <==> r.status < 400
    ensures o.Fail? ==> o.error == PutError(r.status)
  {
    if r.status >= 400 then Fail(PutError(r.status)) else Pass
  }

  /** `JSS.post`, up to the new id: a status of 400 or more raises
      JSSPostError; a reply without an id makes `re.search(...).group`
      fail on `None`. */
  function PostOutcome(r: Reply): (o: Result<nat>)
    ensures o.Success? <==> r.status < 400 && r.createdId.Some?
    ensures o.Success? ==> o.value == r.createdId.value
    ensures r.status >= 400 ==> o == Failure(PostError(r.status))
  {
    if r.status >= 400 then Failure(PostError(r.status))
    else if r.createdId.None? then Failure(AttributeError)
    else Success(r.createdId.value)
  }

  /** `JSS.delete`. */
  function DeleteOutcome(r: Reply): (o: Outcome)
    ensures o.Pass? <==> r.status < 400
    ensures o.Fail? ==> o.error == DeleteError(r.status)
  {
    if r.status >= 400 then Fail(DeleteError(r.status)) else Pass
  }

  /** The `JSS` object, as far as the object layer sees it. */
  class Jss {
    var baseUrl: string
    var sent: seq<Request>
    const server: (seq<Request>, Request) -> Reply

    /** `JSS(url=...)`: the `base_url` setter strips trailing slashes. */
    constructor (url: string, server: (seq<Request>, Request) -> Reply)
      ensures baseUrl == RStrip(url, '/')
      ensures sent == [] && this.server == server
    {
      baseUrl := RStrip(url, '/');
      sent := [];
      this.server := server;
    }

    /** The `base_url` setter. */
    method SetBaseUrl(url: string)
      modifies this
      ensures baseUrl == RStrip(url, '/')
      ensures sent == old(sent)
    {
      baseUrl := RStrip(url, '/');
    }

    /** The `_url` property: the root every request path is appended to. */
    function ApiUrl(): string
      reads this
    {
      baseUrl + "/JSSResource"
    }

    method Send(q: Request) returns (r: Reply)
      modifies this
      ensures sent == old(sent) + [q]
      ensures r == server(old(sent), q)
      ensures baseUrl == old(baseUrl)
    {
      r := server(sent, q);
      sent := sent + [q];
    }

    method GetPath(path: string) returns (o: Result<Element>)
      modifies this
      ensures sent == old(sent) + [Get(path)]
      ensures o == GetOutcome(server(old(sent), Get(path)))
      ensures baseUrl == old(baseUrl)
    {
      var r := Send(Get(path));
      o := GetOutcome(r);
    }

    method PutPath(path: string, body: Element) returns (o: Outcome)
      modifies this
      ensures sent == old(sent) + [Put(path, body)]
      ensures o == PutOutcome(server(old(sent), Put(path, body)))
      ensures baseUrl == old(baseUrl)
    {
      var r := Send(Put(path, body));
      o := PutOutcome(r);
    }

    method PostPath(path: string, body: Element) returns (o: Result<nat>)
      modifies this
      ensures sent == old(sent) + [Post(path, body)]
      ensures o == PostOutcome(server(old(sent), Post(path, body)))
      ensures baseUrl == old(baseUrl)
    {
      var r := Send(Post(path, body));
      o := PostOutcome(r);
    }

    method DeletePath(path: string) returns (o: Outcome)
      modifies this
      ensures sent == old(sent) + [Delete(path)]
      ensures o == DeleteOutcome(server(old(sent), Delete(path)))
      ensures baseUrl == old(baseUrl)
    {
      var r := Send(Delete(path));
      o := DeleteOutcome(r);
    }
  }

  /** However many slashes a URL ends in, the connection's root is the
      same, and it never ends in a slash. */
  lemma TrailingSlashesIgnored(url: string, n: nat)
    ensures RStrip(url + seq(n, _ => '/'), '/') == RStrip(url, '/')
    ensures RStrip(url, '/') == [] || RStrip(url, '/')[|RStrip(url, '/')| - 1] != '/'
  {
    RStripPadding(url, '/', n);
  }
}

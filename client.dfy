/**
 * `JmapClient`: endpoint discovery and account resolution (`new_session`),
 * the mailbox catalog (`first_call`), the message catalog (`fetch_messages`)
 * and the generic `call`.  Every HTTP exchange is replaced by the reply the
 * transport hands back, and each method returns the request it issues.
 */
module Client {
  import opened Wrappers
  import opened JsonValues
  import opened Envelope

  const DiscoveryUrl := "https://jmap.fastmail.com/.well-known/jmap"
  /** The mailbox `fetch_messages` queries, fixed in the client. */
  const InboxId := "dc032506-cdae-44f1-9f7f-0c9e9f16686d"
  const QueryLimit := 20

  const MailboxGet := "Mailbox/get"
  const EmailQuery := "Email/query"
  const EmailGet := "Email/get"

  /** An HTTP request with basic-auth credentials. */
  datatype HttpRequest =
    | HttpGet(url: string, user: string, password: string)
    | HttpPost(endpoint: Json, user: string, password: string, body: Json)

  /** What the transport gives back: the parsed body, or an exception from `requests` or `r.json()`. */
  datatype Reply = Delivered(body: Json) | Raised

  datatype ClientError =
    | MissingAccountId   // the ValueError of `first_call`
    | TransportFailure   // an exception raised by the HTTP layer
    | NoTrashMailbox     // the IndexError of `move_to_trash`

  /** The `accountId` argument: the id, or JSON null while it is still Python None. */
  function AccountJson(accountId: Option<string>): Json
  {
    if accountId.Some? then JStr(accountId.value) else JNull
  }

  /** The single call of `first_call`: fetch every mailbox of the account. */
  function MailboxGetCall(accountId: string): (c: MethodCall)
    ensures c.name == MailboxGet && c.callId == "0" && DistinctKeys(c.args)
    ensures Lookup(c.args, "accountId") == Some(JStr(accountId)) && Lookup(c.args, "ids") == Some(JNull)
  {
    MethodCall(MailboxGet, [("accountId", JStr(accountId)), ("ids", JNull)], "0")
  }

  /** The two calls of `fetch_messages`: query the inbox, then get what the query found. */
  function FetchMessagesCalls(accountId: Option<string>): (calls: seq<MethodCall>)
    ensures forall i :: 0 <= i < |calls| ==> Lookup(calls[i].args, "accountId") == Some(AccountJson(accountId))
  {
    [ MethodCall(EmailQuery,
        [("accountId", AccountJson(accountId)),
         ("filter", JObj([("inMailbox", JStr(InboxId))])),
         ("limit", JNum(QueryLimit))], "0"),
      MethodCall(EmailGet,
        [("accountId", AccountJson(accountId)),
         ("#ids", ResultReference(EmailQuery, "/ids", "0"))], "0") ]
  }

  /** The `fetch_messages` request: exactly two calls, and its `#ids` reference resolves to the query. */
  lemma FetchMessagesEnvelope(accountId: Option<string>)
    ensures var calls := FetchMessagesCalls(accountId);
      && |calls| == 2 && calls[0].name == EmailQuery && calls[1].name == EmailGet
      && Lookup(calls[1].args, "#ids") == Some(ResultReference(EmailQuery, "/ids", calls[0].callId))
      && ResolveReference(calls, 1, ResultReference(EmailQuery, "/ids", "0")) == Some(0)
      && ReferencesResolve(calls)
  {
  }

  // Account resolution (section 2 of RFC 8620)

  predicate NameIs(account: Json, username: string)
  {
    account.JObj? && Lookup(account.members, "name") == Some(JStr(username))
  }

  /**
   * What the loop of `new_session` needs to run without KeyError: every
   * account it inspects, up to and including the first match, has a name.
   */
  predicate AccountsScannable(accounts: Members, username: string)
  {
    accounts == [] ||
    (IsDict(accounts[0].1) && "name" in KeySet(accounts[0].1.members) &&
     (NameIs(accounts[0].1, username) || AccountsScannable(accounts[1..], username)))
  }

  /** The id of the first account, in iteration order, whose name is `username`. */
  function FindAccount(accounts: Members, username: string): (r: Option<string>)
    ensures r.Some? ==> r.value in KeySet(accounts)
  {
    if accounts == [] then None
    else if NameIs(accounts[0].1, username) then Some(accounts[0].0)
    else FindAccount(accounts[1..], username)
  }

  /** Account `i` has the user's name and no earlier account has. */
  predicate FirstNamed(accounts: Members, username: string, i: int)
  {
    0 <= i < |accounts| && NameIs(accounts[i].1, username) &&
    forall j :: 0 <= j < i ==> !NameIs(accounts[j].1, username)
  }

  lemma {:induction false} FindAccountFirstMatch(accounts: Members, username: string)
    ensures forall i :: FirstNamed(accounts, username, i) ==> FindAccount(accounts, username) == Some(accounts[i].0)
    ensures FindAccount(accounts, username).None? <==> forall i :: 0 <= i < |accounts| ==> !NameIs(accounts[i].1, username)
  {
    if accounts != [] {
      var rest := accounts[1..];
      FindAccountFirstMatch(rest, username);
      forall i | FirstNamed(accounts, username, i)
        ensures FindAccount(accounts, username) == Some(accounts[i].0)
      {
        if i > 0 {
          assert rest[i - 1] == accounts[i];
          assert FirstNamed(rest, username, i - 1) by {
            forall j | 0 <= j < i - 1 ensures !NameIs(rest[j].1, username) {
              assert rest[j] == accounts[j + 1];
            }
          }
        }
      }
      if FindAccount(accounts, username).None? {
        forall i | 0 <= i < |accounts| ensures !NameIs(accounts[i].1, username) {
          if i > 0 { assert rest[i - 1] == accounts[i]; }
        }
      }
      if forall i :: 0 <= i < |accounts| ==> !NameIs(accounts[i].1, username) {
        forall i | 0 <= i < |rest| ensures !NameIs(rest[i].1, username) {
          assert rest[i] == accounts[i + 1];
        }
      }
    }
  }

  /** Two accounts, the first named like the user: its id is the one chosen. */
  lemma DiscoveryExample()
    ensures FindAccount([("A1", JObj([("name", JStr("me@example.com"))])),
                         ("A2", JObj([("name", JStr("other@x"))]))], "me@example.com") == Some("A1")
  {
  }

  /** A discovery body `new_session` reads without KeyError or TypeError. */
  predicate DiscoveryReady(data: Json, username: string)
  {
    IsDict(data) && "apiUrl" in KeySet(data.members) &&
    match Lookup(data.members, "accounts")
    case Some(accounts) => IsDict(accounts) && AccountsScannable(accounts.members, username)
    case None => false
  }

  function AccountsOf(data: Json): Members
    requires data.JObj?
  {
    match Lookup(data.members, "accounts")
    case Some(JObj(ms)) => ms
    case _ => []
  }

  // Response demultiplexing (section 3.4 of RFC 8620)

  /** The `list` member of a result, found as the inner loop does: the first `list` key. */
  function ListOf(result: Json): Option<Json>
  {
    if result.JObj? then Lookup(result.members, "list") else None
  }

  /** The response `mr` is a `name` response that carries a `list`. */
  predicate Answers(mr: Json, name: string)
  {
    mr.JArr? && |mr.items| == 3 && mr.items[0] == JStr(name) && ListOf(mr.items[1]).Some?
  }

  /** What the demux loops need: 3-element arrays, and a dict result wherever the name matches. */
  predicate ResponseTriples(mrs: seq<Json>, name: string)
  {
    forall i :: 0 <= i < |mrs| ==>
      mrs[i].JArr? && |mrs[i].items| == 3 && (mrs[i].items[0] == JStr(name) ==> IsDict(mrs[i].items[1]))
  }

  /** One response's effect on the cache. */
  function Step(mr: Json, name: string, cache: Json): (r: Json)
    ensures r == cache || (Answers(mr, name) && Some(r) == ListOf(mr.items[1]))
  {
    if Answers(mr, name) then ListOf(mr.items[1]).value else cache
  }

  /** The cache after scanning the responses in order. */
  function Demux(mrs: seq<Json>, name: string, cache: Json): (r: Json)
    ensures Answering(mrs, name) == [] ==> r == cache
    decreases |mrs|
  {
    if mrs == [] then cache else Demux(mrs[1..], name, Step(mrs[0], name, cache))
  }

  /** The responses that answer `name`, in order. */
  function Answering(mrs: seq<Json>, name: string): (r: seq<Json>)
    ensures forall x :: x in r ==> x in mrs && Answers(x, name)
    ensures forall i :: 0 <= i < |mrs| && Answers(mrs[i], name) ==> mrs[i] in r
  {
    if mrs == [] then []
    else if Answers(mrs[0], name) then [mrs[0]] + Answering(mrs[1..], name)
    else Answering(mrs[1..], name)
  }

  /** Filtering distributes over concatenation, so the kept responses keep their input order. */
  lemma {:induction false} AnsweringAppend(a: seq<Json>, b: seq<Json>, name: string)
    ensures Answering(a + b, name) == Answering(a, name) + Answering(b, name)
  {
    if a != [] {
      assert (a + b)[1..] == a[1..] + b;
      AnsweringAppend(a[1..], b, name);
    } else {
      assert a + b == b;
    }
  }

  /** With no answering response, the cache is left as it was. */
  lemma {:induction false} DemuxNoAnswer(mrs: seq<Json>, name: string, cache: Json)
    requires forall j :: 0 <= j < |mrs| ==> !Answers(mrs[j], name)
    ensures Demux(mrs, name, cache) == cache
  {
    if mrs != [] {
      assert !Answers(mrs[0], name);
      forall j | 0 <= j < |mrs[1..]| ensures !Answers(mrs[1..][j], name) {
        assert mrs[1..][j] == mrs[j + 1];
      }
      DemuxNoAnswer(mrs[1..], name, cache);
    }
  }

  /** The last answering response wins: the scan never stops at the first. */
  lemma {:induction false} DemuxLastWins(mrs: seq<Json>, name: string, cache: Json, k: nat)
    requires k < |mrs| && Answers(mrs[k], name)
    requires forall j :: k < j < |mrs| ==> !Answers(mrs[j], name)
    ensures Demux(mrs, name, cache) == ListOf(mrs[k].items[1]).value
  {
    var rest := mrs[1..];
    if k == 0 {
      forall j | 0 <= j < |rest| ensures !Answers(rest[j], name) {
        assert rest[j] == mrs[j + 1];
      }
      DemuxNoAnswer(rest, name, Step(mrs[0], name, cache));
    } else {
      assert rest[k - 1] == mrs[k];
      forall j | k - 1 < j < |rest| ensures !Answers(rest[j], name) {
        assert rest[j] == mrs[j + 1];
      }
      DemuxLastWins(rest, name, Step(mrs[0], name, cache), k - 1);
    }
  }

  /** Only the answering responses matter: responses for other methods are ignored. */
  lemma {:induction false} DemuxOnlyAnswersMatter(mrs: seq<Json>, name: string, cache: Json)
    ensures Demux(mrs, name, cache) == Demux(Answering(mrs, name), name, cache)
  {
    if mrs != [] {
      DemuxOnlyAnswersMatter(mrs[1..], name, Step(mrs[0], name, cache));
      if Answers(mrs[0], name) {
        var a := [mrs[0]] + Answering(mrs[1..], name);
        assert a[1..] == Answering(mrs[1..], name);
      }
    }
  }

  /** The demux loops of `first_call` and `fetch_messages`. */
  method ScanResponses(mrs: seq<Json>, name: string, cache: Json) returns (c: Json)
    requires ResponseTriples(mrs, name)
    ensures c == Demux(mrs, name, cache)
  {
    c := cache;
    var i := 0;
    while i < |mrs|
      invariant 0 <= i <= |mrs|
      invariant Demux(mrs[i..], name, c) == Demux(mrs, name, cache)
    {
      var methodName, result := mrs[i].items[0], mrs[i].items[1];
      ghost var before := c;
      if methodName == JStr(name) {
        var ms := result.members;
        var j := 0;
        while j < |ms|
          invariant 0 <= j <= |ms|
          invariant Lookup(ms[j..], "list") == Lookup(ms, "list")
          invariant c == before
        {
          if ms[j].0 == "list" {
            c := ms[j].1;
            break;
          }
          assert ms[j..][1..] == ms[j + 1..];
          j := j + 1;
        }
      }
      assert c == Step(mrs[i], name, before);
      assert mrs[i..][1..] == mrs[i + 1..];
      i := i + 1;
    }
  }

  /** A body whose `methodResponses` the demux loops read without error. */
  predicate ResponseReady(data: Json, name: string)
  {
    IsDict(data) &&
    match Lookup(data.members, "methodResponses")
    case Some(JArr(mrs)) => ResponseTriples(mrs, name)
    case _ => false
  }

  function MethodResponses(data: Json): seq<Json>
    requires data.JObj?
  {
    match Lookup(data.members, "methodResponses")
    case Some(JArr(mrs)) => mrs
    case _ => []
  }

  class JmapClient {
    const username: string
    const password: string
    var apiUrl: Json
    var accountId: Option<string>
    var cacheFolders: Json
    var cacheMessages: Json

    constructor (username: string, password: string)
      ensures this.username == username && this.password == password
      ensures apiUrl == JNull && accountId == None
      ensures cacheFolders == JNull && cacheMessages == JNull
    {
      this.username := username;
      this.password := password;
      apiUrl := JNull;
      accountId := None;
      cacheFolders := JNull;
      cacheMessages := JNull;
    }

    /** The POST that `call` issues: the wrapped payload, to the API URL, with the credentials. */
    function CallRequest(payload: seq<MethodCall>): (req: HttpRequest)
      reads this
      ensures req.HttpPost? && req.endpoint == apiUrl && req.user == username && req.password == password
      ensures RequestCalls(req.body) == Some(payload)
      ensures Lookup(req.body.members, "using") == Some(Using)
    {
      WrapReqPreservesCalls(payload);
      HttpPost(apiUrl, username, password, WrapReq(payload))
    }

    /** `call`: send the payload and hand back the parsed reply unexamined. */
    method Call(payload: seq<MethodCall>, reply: Reply) returns (sent: HttpRequest, r: Result<Json, ClientError>)
      ensures sent == CallRequest(payload)
      ensures reply.Delivered? ==> r == Success(reply.body)
      ensures reply.Raised? ==> r == Failure(TransportFailure)
    {
      sent := CallRequest(payload);
      if reply.Delivered? {
        r := Success(reply.body);
      } else {
        r := Failure(TransportFailure);
      }
    }

    /** `new_session`: record the API URL and the id of the first account named like the user. */
    method NewSession(reply: Reply) returns (sent: HttpRequest, status: Outcome<ClientError>)
      requires reply.Delivered? ==> DiscoveryReady(reply.body, username)
      modifies this`apiUrl, this`accountId
      ensures sent == HttpGet(DiscoveryUrl, username, password)
      ensures reply.Raised? ==>
        status == Fail(TransportFailure) && apiUrl == old(apiUrl) && accountId == old(accountId)
      ensures reply.Delivered? ==>
        && status == Pass
        && Some(apiUrl) == Lookup(reply.body.members, "apiUrl")
        && var found := FindAccount(AccountsOf(reply.body), username);
           accountId == if found.Some? then found else old(accountId)
    {
      sent := HttpGet(DiscoveryUrl, username, password);
      if reply.Raised? {
        status := Fail(TransportFailure);
        return;
      }
      var data := reply.body;
      apiUrl := Lookup(data.members, "apiUrl").value;
      var accounts := Lookup(data.members, "accounts").value.members;
      var i := 0;
      while i < |accounts|
        invariant 0 <= i <= |accounts|
        invariant AccountsScannable(accounts[i..], username)
        invariant FindAccount(accounts[i..], username) == FindAccount(accounts, username)
        invariant accountId == old(accountId)
      {
        var (id, account) := accounts[i];
        if Lookup(account.members, "name").value == JStr(username) {
          accountId := Some(id);
          break;
        }
        assert accounts[i..][1..] == accounts[i + 1..];
        i := i + 1;
      }
      status := Pass;
    }

    /** `first_call`: cache the mailbox list; refused while there is no account id. */
    method FirstCall(reply: Reply) returns (sent: Option<HttpRequest>, status: Outcome<ClientError>)
      requires accountId.Some? && reply.Delivered? ==> ResponseReady(reply.body, MailboxGet)
      modifies this`cacheFolders
      ensures accountId.None? ==>
        sent == None && status == Fail(MissingAccountId) && cacheFolders == old(cacheFolders)
      ensures accountId.Some? ==> sent == Some(CallRequest([MailboxGetCall(accountId.value)]))
      ensures accountId.Some? && reply.Raised? ==>
        status == Fail(TransportFailure) && cacheFolders == old(cacheFolders)
      ensures accountId.Some? && reply.Delivered? ==>
        status == Pass && cacheFolders == Demux(MethodResponses(reply.body), MailboxGet, old(cacheFolders))
    {
      if accountId.None? {
        sent, status := None, Fail(MissingAccountId);
        return;
      }
      sent := Some(CallRequest([MailboxGetCall(accountId.value)]));
      if reply.Raised? {
        status := Fail(TransportFailure);
        return;
      }
      cacheFolders := ScanResponses(MethodResponses(reply.body), MailboxGet, cacheFolders);
      status := Pass;
    }

    /** `fetch_messages`: cache the messages of the inbox; sends a null account id if there is none. */
    method FetchMessages(reply: Reply) returns (sent: HttpRequest, status: Outcome<ClientError>)
      requires reply.Delivered? ==> ResponseReady(reply.body, EmailGet)
      modifies this`cacheMessages
      ensures sent == CallRequest(FetchMessagesCalls(accountId))
      ensures reply.Raised? ==> status == Fail(TransportFailure) && cacheMessages == old(cacheMessages)
      ensures reply.Delivered? ==>
        status == Pass && cacheMessages == Demux(MethodResponses(reply.body), EmailGet, old(cacheMessages))
    {
      sent := CallRequest(FetchMessagesCalls(accountId));
      if reply.Raised? {
        status := Fail(TransportFailure);
        return;
      }
      cacheMessages := ScanResponses(MethodResponses(reply.body), EmailGet, cacheMessages);
      status := Pass;
    }
  }
}

/**
 * The mutation batch (`Handler`): six builders that each queue one
 * `Email/set` call carrying a PatchObject (section 5.3 of RFC 8620,
 * section 4.6 of RFC 8621), and `apply_batch`, which submits the queue as
 * one request and empties it.
 */
module Mutations {
  import opened Wrappers
  import opened JsonValues
  import opened Envelope
  import opened Client

  const EmailSet := "Email/set"
  const SeenKeyword := "$seen"
  const FlaggedKeyword := "$flagged"
  const TrashRole := "trash"

  /** `d[k] = v` on a Python dict: an existing key keeps its place, a new key goes last. */
  function Insert(ms: Members, k: string, v: Json): (r: Members)
    ensures KeySet(r) == KeySet(ms) + {k} && |r| <= |ms| + 1
    ensures DistinctKeys(ms) ==> DistinctKeys(r)
    ensures (forall i :: 0 <= i < |ms| ==> ms[i].1 == v) ==> forall i :: 0 <= i < |r| ==> r[i].1 == v
  {
    if ms == [] then [(k, v)]
    else if ms[0].0 == k then [(k, v)] + ms[1..]
    else
      var rest := Insert(ms[1..], k, v);
      assert forall i :: 1 <= i < |ms| ==> ms[i] == ms[1..][i - 1];
      KeySetMembers(ms[1..]);
      KeySetMembers(rest);
      [ms[0]] + rest
  }

  /** After `d[k] = v`, `d[k]` is `v` and every other key keeps its value. */
  lemma {:induction false} InsertAssigns(ms: Members, k: string, v: Json)
    requires DistinctKeys(ms)
    ensures Lookup(Insert(ms, k, v), k) == Some(v)
    ensures forall k' :: k' != k ==> Lookup(Insert(ms, k, v), k') == Lookup(ms, k')
  {
    if ms != [] && ms[0].0 != k {
      DistinctTail(ms);
      InsertAssigns(ms[1..], k, v);
    }
  }

  /** The keys of an object are the first components of its members. */
  lemma {:induction false} KeySetMembers(ms: Members)
    ensures forall x :: x in KeySet(ms) <==> exists i :: 0 <= i < |ms| && ms[i].0 == x
  {
    if ms != [] {
      KeySetMembers(ms[1..]);
      forall x | x in KeySet(ms[1..]) ensures exists i :: 0 <= i < |ms| && ms[i].0 == x {
        var i :| 0 <= i < |ms[1..]| && ms[1..][i].0 == x;
        assert ms[i + 1].0 == x;
      }
      forall x | (exists i :: 0 <= i < |ms| && ms[i].0 == x) ensures x in KeySet(ms) {
        var i :| 0 <= i < |ms| && ms[i].0 == x;
        if i > 0 { assert ms[1..][i - 1].0 == x; }
      }
    }
  }

  /** `{m_id: True for m_id in ids}`. */
  function TrueMap(ids: seq<string>): (r: Members)
    ensures |r| <= |ids|
  {
    if ids == [] then [] else Insert(TrueMap(ids[..|ids| - 1]), ids[|ids| - 1], JBool(true))
  }

  /** The comprehension's keys are exactly the given ids, once each, all mapped to true. */
  lemma {:induction false} TrueMapShape(ids: seq<string>)
    ensures KeySet(TrueMap(ids)) == set id | id in ids
    ensures DistinctKeys(TrueMap(ids))
    ensures forall i :: 0 <= i < |TrueMap(ids)| ==> TrueMap(ids)[i].1 == JBool(true)
  {
    if ids != [] {
      var init := ids[..|ids| - 1];
      TrueMapShape(init);
      assert ids == init + [ids[|ids| - 1]];
      assert (set id | id in ids) == (set id | id in init) + {ids[|ids| - 1]};
    }
  }

  /** The message a builder targets must be a dict with a string `id`. */
  predicate HasStringId(message: Json)
  {
    IsDict(message) && match Lookup(message.members, "id") case Some(JStr(_)) => true case _ => false
  }

  function MessageId(message: Json): string
    requires HasStringId(message)
  {
    Lookup(message.members, "id").value.s
  }

  /** A keyword patch: `true` adds the keyword, null removes it. */
  function KeywordPatch(keyword: string, on: bool): (p: Members)
    ensures KeySet(p) == {"keywords/" + keyword}
    ensures Lookup(p, "keywords/" + keyword) == Some(if on then JBool(true) else JNull)
  {
    [("keywords/" + keyword, if on then JBool(true) else JNull)]
  }

  /** A patch that replaces the mailbox membership with the given ids. */
  function MailboxesPatch(ids: seq<string>): (p: Members)
    ensures KeySet(p) == {"mailboxIds"}
    ensures match Lookup(p, "mailboxIds")
      case Some(JObj(m)) => KeySet(m) == (set id | id in ids) && DistinctKeys(m)
      case _ => false
  {
    TrueMapShape(ids);
    [("mailboxIds", JObj(TrueMap(ids)))]
  }

  /** The `Email/set` call every builder makes: one update, for one message. */
  function EmailSetCall(accountId: Option<string>, messageId: string, patch: Members): (c: MethodCall)
    ensures ReadUpdate(c) == Some(Update(accountId, messageId, patch))
  {
    MethodCall(EmailSet,
      [("accountId", AccountJson(accountId)),
       ("update", JObj([(messageId, JObj(patch))]))], "0")
  }

  /** What a single-update `Email/set` call asks for. */
  datatype Update = Update(accountId: Option<string>, messageId: string, patch: Members)

  function ReadAccount(j: Json): Option<Option<string>>
  {
    match j
    case JNull => Some(None)
    case JStr(s) => Some(Some(s))
    case _ => None
  }

  /** Read a call back as a single-message `Email/set` update, if it is one. */
  function ReadUpdate(c: MethodCall): Option<Update>
  {
    if c.name == EmailSet && c.callId == "0" && |c.args| == 2
       && c.args[0].0 == "accountId" && ReadAccount(c.args[0].1).Some?
       && c.args[1].0 == "update" && c.args[1].1.JObj? && |c.args[1].1.members| == 1
       && c.args[1].1.members[0].1.JObj?
    then Some(Update(ReadAccount(c.args[0].1).value, c.args[1].1.members[0].0, c.args[1].1.members[0].1.members))
    else None
  }

  /** A call reads back as an update exactly when it is the `Email/set` call built from it. */
  lemma ReadUpdateInverse(c: MethodCall, u: Update)
    ensures ReadUpdate(c) == Some(u) <==> c == EmailSetCall(u.accountId, u.messageId, u.patch)
  {
    if ReadUpdate(c) == Some(u) {
      var args := c.args;
      assert args == [args[0], args[1]];
      assert c.args[1].1.members == [c.args[1].1.members[0]];
      assert AccountJson(u.accountId) == args[0].1;
    }
  }

  /** The first cached folder whose role is trash. */
  predicate IsTrash(folder: Json)
  {
    folder.JObj? && Lookup(folder.members, "role") == Some(JStr(TrashRole))
  }

  function FirstTrash(folders: seq<Json>): (r: Option<Json>)
    ensures r.Some? ==> r.value in folders && IsTrash(r.value)
  {
    if folders == [] then None
    else if IsTrash(folders[0]) then Some(folders[0])
    else FirstTrash(folders[1..])
  }

  lemma {:induction false} FirstTrashFirstMatch(folders: seq<Json>)
    ensures forall i :: 0 <= i < |folders| && IsTrash(folders[i]) && (forall j :: 0 <= j < i ==> !IsTrash(folders[j])) ==>
      FirstTrash(folders) == Some(folders[i])
    ensures FirstTrash(folders).None? <==> forall i :: 0 <= i < |folders| ==> !IsTrash(folders[i])
  {
    if folders != [] {
      var rest := folders[1..];
      FirstTrashFirstMatch(rest);
      assert forall i :: 1 <= i < |folders| ==> folders[i] == rest[i - 1];
    }
  }

  /** Where the first trash folder sits in the list. */
  lemma {:induction false} FirstTrashIndex(folders: seq<Json>) returns (i: nat)
    requires FirstTrash(folders).Some?
    ensures i < |folders| && folders[i] == FirstTrash(folders).value
    ensures forall j :: 0 <= j < i ==> !IsTrash(folders[j])
  {
    if IsTrash(folders[0]) {
      i := 0;
    } else {
      var k := FirstTrashIndex(folders[1..]);
      i := k + 1;
      assert forall j :: 1 <= j < i ==> folders[j] == folders[1..][j - 1];
    }
  }

  /**
   * What `move_to_trash` needs of the catalog to run without TypeError or
   * KeyError: a list of dicts that all have a role, the first trash folder
   * having a string id.
   */
  predicate FoldersReady(folders: Json)
  {
    folders.JArr? &&
    (forall i :: 0 <= i < |folders.items| ==> IsDict(folders.items[i]) && "role" in KeySet(folders.items[i].members)) &&
    match FirstTrash(folders.items)
    case Some(trash) => (match Lookup(trash.members, "id") case Some(JStr(_)) => true case _ => false)
    case None => true
  }

  /** The id of the trash mailbox, or None where `[...][0]` raises IndexError. */
  function TrashMailbox(folders: Json): (r: Option<string>)
    requires FoldersReady(folders)
    ensures r.None? <==> forall i :: 0 <= i < |folders.items| ==> !IsTrash(folders.items[i])
    ensures r.Some? ==> exists i :: (0 <= i < |folders.items| && IsTrash(folders.items[i]) &&
                                     (forall j :: 0 <= j < i ==> !IsTrash(folders.items[j])) &&
                                     Lookup(folders.items[i].members, "id") == Some(JStr(r.value)))
  {
    FirstTrashFirstMatch(folders.items);
    match FirstTrash(folders.items)
    case Some(trash) =>
      var id := Lookup(trash.members, "id").value.s;
      assert exists i :: (0 <= i < |folders.items| && IsTrash(folders.items[i]) &&
                          (forall j :: 0 <= j < i ==> !IsTrash(folders.items[j])) &&
                          Lookup(folders.items[i].members, "id") == Some(JStr(id))) by {
        var i := FirstTrashIndex(folders.items);
      }
      Some(id)
    case None => None
  }

  /** Folders M1 (trash) and M2 (inbox): the trash mailbox is M1. */
  lemma TrashMailboxExample()
    ensures var folders := JArr([JObj([("id", JStr("M1")), ("role", JStr("trash"))]),
                                 JObj([("id", JStr("M2")), ("role", JStr("inbox"))])]);
      FoldersReady(folders) && TrashMailbox(folders) == Some("M1")
  {
  }

  /** Moving one message to the trash twice queues two identical calls, both kept. */
  method MoveToTrashTwice(h: Handler, message: Json) returns (first: MethodCall, second: MethodCall)
    requires HasStringId(message) && FoldersReady(h.client.cacheFolders)
    requires TrashMailbox(h.client.cacheFolders).Some?
    modifies h`batch
    ensures first == second && h.batch == old(h.batch) + [first, second]
  {
    var r1 := h.MoveToTrash(message);
    var r2 := h.MoveToTrash(message);
    first, second := r1.value, r2.value;
  }

  class Handler {
    const client: JmapClient
    var accountId: Option<string>
    var batch: seq<MethodCall>

    /** The handler over an already bootstrapped client. */
    constructor (client: JmapClient)
      ensures this.client == client && accountId == client.accountId && batch == []
    {
      this.client := client;
      accountId := client.accountId;
      batch := [];
    }

    /** `apply_batch`: submit the whole batch; it is emptied only when `call` returns. */
    method ApplyBatch(reply: Reply) returns (sent: HttpRequest, r: Result<Json, ClientError>)
      modifies this`batch
      ensures sent == client.CallRequest(old(batch))
      ensures reply.Delivered? ==> r == Success(reply.body) && batch == []
      ensures reply.Raised? ==> r == Failure(TransportFailure) && batch == old(batch)
    {
      sent, r := client.Call(batch, reply);
      if r.Failure? {
        return;
      }
      batch := [];
    }

    method MarkUnseen(message: Json) returns (call: MethodCall)
      requires HasStringId(message)
      modifies this`batch
      ensures call == EmailSetCall(accountId, MessageId(message), KeywordPatch(SeenKeyword, false))
      ensures batch == old(batch) + [call]
    {
      call := EmailSetCall(accountId, MessageId(message), KeywordPatch(SeenKeyword, false));
      batch := batch + [call];
    }

    method MarkSeen(message: Json) returns (call: MethodCall)
      requires HasStringId(message)
      modifies this`batch
      ensures call == EmailSetCall(accountId, MessageId(message), KeywordPatch(SeenKeyword, true))
      ensures batch == old(batch) + [call]
    {
      call := EmailSetCall(accountId, MessageId(message), KeywordPatch(SeenKeyword, true));
      batch := batch + [call];
    }

    method Flag(message: Json) returns (call: MethodCall)
      requires HasStringId(message)
      modifies this`batch
      ensures call == EmailSetCall(accountId, MessageId(message), KeywordPatch(FlaggedKeyword, true))
      ensures batch == old(batch) + [call]
    {
      call := EmailSetCall(accountId, MessageId(message), KeywordPatch(FlaggedKeyword, true));
      batch := batch + [call];
    }

    method Unflag(message: Json) returns (call: MethodCall)
      requires HasStringId(message)
      modifies this`batch
      ensures call == EmailSetCall(accountId, MessageId(message), KeywordPatch(FlaggedKeyword, false))
      ensures batch == old(batch) + [call]
    {
      call := EmailSetCall(accountId, MessageId(message), KeywordPatch(FlaggedKeyword, false));
      batch := batch + [call];
    }

    /** `move_to_trash`: fails, queuing nothing, when the catalog has no trash folder. */
    method MoveToTrash(message: Json) returns (r: Result<MethodCall, ClientError>)
      requires HasStringId(message) && FoldersReady(client.cacheFolders)
      modifies this`batch
      ensures TrashMailbox(client.cacheFolders).None? ==> r == Failure(NoTrashMailbox) && batch == old(batch)
      ensures TrashMailbox(client.cacheFolders).Some? ==>
        && r == Success(EmailSetCall(accountId, MessageId(message), MailboxesPatch([TrashMailbox(client.cacheFolders).value])))
        && batch == old(batch) + [r.value]
    {
      var trash := TrashMailbox(client.cacheFolders);
      if trash.None? {
        r := Failure(NoTrashMailbox);
        return;
      }
      var call := EmailSetCall(accountId, MessageId(message), MailboxesPatch([trash.value]));
      batch := batch + [call];
      r := Success(call);
    }

    method MoveToMailboxes(message: Json, mailboxIds: seq<string>) returns (call: MethodCall)
      requires HasStringId(message)
      modifies this`batch
      ensures call == EmailSetCall(accountId, MessageId(message), MailboxesPatch(mailboxIds))
      ensures batch == old(batch) + [call]
    {
      call := EmailSetCall(accountId, MessageId(message), MailboxesPatch(mailboxIds));
      batch := batch + [call];
    }
  }
}

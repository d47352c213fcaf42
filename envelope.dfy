/**
 * Method calls and the Request object that carries them (sections 3.2, 3.3
 * and 3.7 of RFC 8620), as built by `wrap_req` and the client's payloads.
 */
module Envelope {
  import opened Wrappers
  import opened JsonValues

  const CoreCapability := "urn:ietf:params:jmap:core"
  const MailCapability := "urn:ietf:params:jmap:mail"

  /** The `using` list every request of this client declares. */
  const Using: Json := JArr([JStr(CoreCapability), JStr(MailCapability)])

  /** A method call: name, arguments object and client-chosen call-id. */
  datatype MethodCall = MethodCall(name: string, args: Members, callId: string)

  /** A call as it travels: the JSON array `[name, args, callId]`. */
  function CallToJson(c: MethodCall): Json
  {
    JArr([JStr(c.name), JObj(c.args), JStr(c.callId)])
  }

  function CallsToJson(cs: seq<MethodCall>): (js: seq<Json>)
    ensures |js| == |cs|
  {
    if cs == [] then [] else [CallToJson(cs[0])] + CallsToJson(cs[1..])
  }

  /** How a receiver reads one `[name, args, callId]` triple back. */
  function CallFromJson(j: Json): Option<MethodCall>
  {
    if j.JArr? && |j.items| == 3 && j.items[0].JStr? && j.items[1].JObj? && j.items[2].JStr?
    then Some(MethodCall(j.items[0].s, j.items[1].members, j.items[2].s))
    else None
  }

  function CallsFromJson(js: seq<Json>): Option<seq<MethodCall>>
  {
    if js == [] then Some([])
    else match (CallFromJson(js[0]), CallsFromJson(js[1..]))
      case (Some(c), Some(rest)) => Some([c] + rest)
      case _ => None
  }

  /** `wrap_req`: the Request object for an ordered list of calls. */
  function WrapReq(calls: seq<MethodCall>): (r: Json)
    ensures IsDict(r) && KeySet(r.members) == {"using", "methodCalls"}
    ensures Lookup(r.members, "using") == Some(Using)
  {
    var ms := [("using", Using), ("methodCalls", JArr(CallsToJson(calls)))];
    assert KeySet(ms[1..]) == {"methodCalls"} by { assert ms[1..][1..] == []; }
    JObj(ms)
  }

  /** The call list a server reads out of a Request object. */
  function RequestCalls(req: Json): Option<seq<MethodCall>>
  {
    if req.JObj? then
      match Lookup(req.members, "methodCalls")
      case Some(JArr(items)) => CallsFromJson(items)
      case _ => None
    else None
  }

  lemma {:induction false} CallsRoundTrip(cs: seq<MethodCall>)
    ensures CallsFromJson(CallsToJson(cs)) == Some(cs)
  {
    if cs != [] {
      CallsRoundTrip(cs[1..]);
      assert CallsToJson(cs)[1..] == CallsToJson(cs[1..]);
      assert [cs[0]] + cs[1..] == cs;
    }
  }

  /** The calls of a wrapped request are the input calls, verbatim and in order. */
  lemma WrapReqPreservesCalls(calls: seq<MethodCall>)
    ensures RequestCalls(WrapReq(calls)) == Some(calls)
  {
    CallsRoundTrip(calls);
  }

  // Result references (section 3.7 of RFC 8620)

  /** An argument whose name starts with '#' holds a result reference. */
  predicate IsReferenceKey(k: string)
  {
    |k| > 0 && k[0] == '#'
  }

  function ResultReference(name: string, path: string, resultOf: string): Json
  {
    JObj([("name", JStr(name)), ("path", JStr(path)), ("resultOf", JStr(resultOf))])
  }

  /** The position of the first call in `calls` with the given call-id. */
  function FirstWithId(calls: seq<MethodCall>, id: string): (r: Option<nat>)
    ensures r.Some? ==> r.value < |calls| && calls[r.value].callId == id
    ensures r.Some? ==> forall j :: 0 <= j < r.value ==> calls[j].callId != id
    ensures r.None? ==> forall j :: 0 <= j < |calls| ==> calls[j].callId != id
  {
    if calls == [] then None
    else if calls[0].callId == id then Some(0)
    else match FirstWithId(calls[1..], id)
      case Some(j) => Some(j + 1)
      case None => None
  }

  /**
   * A client-side check on the request: the position of the call that the
   * reference `ref`, an argument of call `i`, names.  That is the first
   * earlier call with its `resultOf` call-id, and it must carry the method
   * name the reference expects.  The server resolves against responses and
   * applies `path`; that is not modelled here.
   */
  function ResolveReference(calls: seq<MethodCall>, i: nat, ref: Json): Option<nat>
    requires i <= |calls|
  {
    if ref.JObj? then
      match (Lookup(ref.members, "name"), Lookup(ref.members, "path"), Lookup(ref.members, "resultOf"))
      case (Some(JStr(name)), Some(JStr(_)), Some(JStr(resultOf))) =>
        (match FirstWithId(calls[..i], resultOf)
         case Some(j) => if calls[j].name == name then Some(j) else None
         case None => None)
      case _ => None
    else None
  }

  /** Every result reference in the request resolves to an earlier call. */
  predicate ReferencesResolve(calls: seq<MethodCall>)
  {
    forall i, k :: 0 <= i < |calls| && 0 <= k < |calls[i].args| && IsReferenceKey(calls[i].args[k].0) ==>
      ResolveReference(calls, i, calls[i].args[k].1).Some?
  }
}

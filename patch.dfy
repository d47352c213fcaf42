/**
 * What the builders' patches mean: PatchObject application (section 5.3 of
 * RFC 8620) to the two mutable Email properties the client touches,
 * `keywords` and `mailboxIds` (section 4.1.1 of RFC 8621).  This is the
 * server's side of `Email/set`, stated here so that each builder's patch
 * can be checked against the effect the client intends.
 */
module PatchSemantics {
  import opened Wrappers
  import opened JsonValues
  import opened Mutations

  /** The part of an Email a patch from this client can change. */
  datatype EmailState = EmailState(keywords: set<string>, mailboxIds: set<string>)

  const KeywordsPrefix := "keywords/"

  /** The ids of an `Id[Boolean]` map whose values are all true, or None if one is not. */
  function TrueKeys(ms: Members): Option<set<string>>
  {
    if ms == [] then Some({})
    else if ms[0].1 != JBool(true) then None
    else match TrueKeys(ms[1..])
      case Some(rest) => Some({ms[0].0} + rest)
      case None => None
  }

  /** Apply one patch entry: a path and the value to put there (null removes). */
  function ApplyEntry(e: EmailState, path: string, value: Json): Option<EmailState>
  {
    if path == "mailboxIds" then
      if value.JObj? then
        match TrueKeys(value.members)
        case Some(ids) => Some(e.(mailboxIds := ids))
        case None => None
      else None
    else if |path| > |KeywordsPrefix| && path[..|KeywordsPrefix|] == KeywordsPrefix then
      var keyword := path[|KeywordsPrefix|..];
      if value == JBool(true) then Some(e.(keywords := e.keywords + {keyword}))
      else if value == JNull then Some(e.(keywords := e.keywords - {keyword}))
      else None
    else None
  }

  function ApplyPatch(e: EmailState, patch: Members): Option<EmailState>
    decreases |patch|
  {
    if patch == [] then Some(e)
    else match ApplyEntry(e, patch[0].0, patch[0].1)
      case Some(next) => ApplyPatch(next, patch[1..])
      case None => None
  }

  /** A keyword patch sets (true) or clears (null) that keyword and nothing else. */
  lemma KeywordPatchEffect(e: EmailState, keyword: string, on: bool)
    requires keyword != ""
    ensures ApplyPatch(e, KeywordPatch(keyword, on)) ==
      Some(e.(keywords := if on then e.keywords + {keyword} else e.keywords - {keyword}))
  {
    var path := KeywordsPrefix + keyword;
    assert path[..|KeywordsPrefix|] == KeywordsPrefix && path[|KeywordsPrefix|..] == keyword;
    assert path != "mailboxIds" by { assert path[0] == 'k' && "mailboxIds"[0] == 'm'; }
    assert KeywordPatch(keyword, on)[1..] == [];
  }

  lemma {:induction false} TrueKeysOfTrueMap(ms: Members)
    requires forall i :: 0 <= i < |ms| ==> ms[i].1 == JBool(true)
    ensures TrueKeys(ms) == Some(KeySet(ms))
  {
    if ms != [] {
      assert forall i :: 0 <= i < |ms[1..]| ==> ms[1..][i] == ms[i + 1];
      TrueKeysOfTrueMap(ms[1..]);
    }
  }

  /** A mailbox patch replaces the membership with exactly the given ids: nothing is kept or added. */
  lemma MailboxesPatchEffect(e: EmailState, ids: seq<string>)
    ensures ApplyPatch(e, MailboxesPatch(ids)) == Some(e.(mailboxIds := set id | id in ids))
  {
    TrueMapShape(ids);
    TrueKeysOfTrueMap(TrueMap(ids));
    assert MailboxesPatch(ids)[1..] == [];
  }

  /** The trash move leaves the message in the trash mailbox alone. */
  lemma TrashPatchEffect(e: EmailState, trash: string)
    ensures ApplyPatch(e, MailboxesPatch([trash])) == Some(e.(mailboxIds := {trash}))
  {
    MailboxesPatchEffect(e, [trash]);
    assert (set id | id in [trash]) == {trash};
  }

  /** Every builder's patch is idempotent: queuing it twice changes nothing more than once. */
  lemma BuilderPatchesIdempotent(e: EmailState, keyword: string, on: bool, ids: seq<string>)
    requires keyword != ""
    ensures var once := ApplyPatch(e, KeywordPatch(keyword, on));
      once.Some? && ApplyPatch(once.value, KeywordPatch(keyword, on)) == once
    ensures var once := ApplyPatch(e, MailboxesPatch(ids));
      once.Some? && ApplyPatch(once.value, MailboxesPatch(ids)) == once
  {
    KeywordPatchEffect(e, keyword, on);
    var once := ApplyPatch(e, KeywordPatch(keyword, on)).value;
    KeywordPatchEffect(once, keyword, on);
    if on {
      assert once.keywords + {keyword} == once.keywords;
    } else {
      assert once.keywords - {keyword} == once.keywords;
    }
    MailboxesPatchEffect(e, ids);
    MailboxesPatchEffect(ApplyPatch(e, MailboxesPatch(ids)).value, ids);
  }
}

# jmapfilter: a Dafny model of the JMAP session and mutation-batch client

This project models `jmapfilter.py`, a small client for JMAP (RFC 8620, with the
mail methods of RFC 8621). The client:

- discovers the API URL and the user's account (`JmapClient.new_session`);
- caches the mailbox list (`first_call`) and the inbox messages (`fetch_messages`);
- queues `Email/set` mutations in a batch (`Handler.mark_seen`, `mark_unseen`,
  `flag`, `unflag`, `move_to_trash`, `move_to_mailboxes`);
- submits the batch as one request (`apply_batch`, through `call` and `wrap_req`).

Every HTTP exchange is replaced by a parameter. A `Reply` is either the parsed
JSON body (`Delivered`) or `Raised`, which stands for an exception from
`requests` or `r.json()`. Each networking method returns the `HttpRequest` it
issues: the URL, the basic-auth credentials and the JSON body.

Modules:

- `Wrappers` (wrappers.dfy): Option, Result, Outcome.
- `JsonValues` (json.dfy): parsed JSON. Objects are ordered member lists, because
  the client walks `accounts.items()` and `other.items()` in order and keeps the
  first match. `IsDict` says that no key occurs twice, as in a Python dict.
- `Envelope` (envelope.dfy): method-call triples, `wrap_req`, and result
  references (section 3.7 of RFC 8620). `ResolveReference` is a client-side
  check on the request alone: a reference must name the first earlier call
  with its `resultOf` call-id, and that call must carry the expected method
  name. The server's resolution against responses is not modelled (see
  "## Left out").
- `Client` (client.dfy): the `JmapClient` class, account resolution, and the
  response demultiplexer.
- `Mutations` (mutations.dfy): the `Handler` class and its builders.
- `PatchSemantics` (patch.dfy): what a builder's PatchObject does to an email's
  `keywords` and `mailboxIds` (section 5.3 of RFC 8620, section 4.6 of RFC 8621).
  It is the reference each builder's patch is checked against.

Python `None` in `api_url`, `cache_folders` and `cache_messages` is modelled as
JSON null, and `account_id` as `Option<string>`.

Behaviour of the code worth noting:

- `apply_batch` clears the batch only when `call` returns. If `call` raises, the
  batch is kept (jmapfilter.py:117-120).
- When no account matches, `new_session` leaves `account_id` unchanged and
  raises nothing.
- When no `Mailbox/get` or `Email/get` response carries a `list`, the cache is
  left unchanged. No protocol error is raised.
- `fetch_messages` does not check for a missing account id. It then sends
  `"accountId": null`.
- Its query mailbox and limit are fixed constants, not parameters.
- Both calls of `fetch_messages` use call-id `"0"`. The `#ids` reference still
  resolves to the query, because the first call with that id is the query
  (`Client.FetchMessagesEnvelope`).

## Model

| member | source | states |
|---|---|---|
| `Envelope.WrapReq` | jmapfilter.py:5-9 | the envelope is a dict with exactly the keys `using` and `methodCalls`; `using` is the core and mail capability list whatever the input |
| `Envelope.WrapReqPreservesCalls` | jmapfilter.py:5-9 | reading `methodCalls` back out of the envelope gives the input calls verbatim and in order |
| `Envelope.CallsRoundTrip` | jmapfilter.py:8 | decoding the `[name, args, callId]` arrays of any call list gives back that list |
| `Envelope.FirstWithId` | jmapfilter.py:80-85 | the position of the first call carrying a call-id: no earlier call has it, and none at all when the result is None |
| `JsonValues.Lookup` | jmapfilter.py:36-37 | a result exactly when the key is present, and then the value of a member with that key; on dicts, `JsonValues.LookupInDict` |
| `JsonValues.LookupInDict` | jmapfilter.py:36-37 | on a dict (distinct keys), `d[k]` for the key of any member gives that member's value |
| `Client.FetchMessagesEnvelope` | jmapfilter.py:71-87 | the envelope has exactly two calls, `Email/query` then `Email/get`; the `#ids` reference names `Email/query`, path `/ids` and the query's call-id, resolves to call 0, and every reference in the request resolves |
| `Client.FindAccount` | jmapfilter.py:38-41 | the id found is one of the account ids; first-match and no-match are stated by `Client.FindAccountFirstMatch` |
| `Client.MailboxGetCall` | jmapfilter.py:47-50 | a `Mailbox/get` call with call-id `0`, arguments `accountId` (the account id) and `ids: null` |
| `Client.FetchMessagesCalls` | jmapfilter.py:71-87 | both calls carry the same `accountId` (the id, or null); their order and the `#ids` reference are stated by `Client.FetchMessagesEnvelope` |
| `Client.FindAccountFirstMatch` | jmapfilter.py:38-41 | the chosen id is that of the first account, in iteration order, whose name equals the username; there is no result exactly when no account matches |
| `Client.DiscoveryExample` | jmapfilter.py:38-41 | with accounts A1 named like the user and A2 named otherwise, A1 is chosen |
| `Client.Answering` | jmapfilter.py:61-65 | exactly the answering responses: every kept response comes from the input and answers the method name with a `list`, and every answering response is kept; their order and multiplicity are stated by `Client.AnsweringAppend` |
| `Client.AnsweringAppend` | jmapfilter.py:61-65 | keeping the answering responses of `a + b` is keeping those of `a`, then those of `b`: the kept responses stay in input order, each as often as it occurs |
| `Client.Step` | jmapfilter.py:62-67 | one response either leaves the cache as it was or, when it answers the method name, replaces it with its `list`; characterised over a whole reply by `Client.DemuxLastWins` |
| `Client.Demux` | jmapfilter.py:60-67 | the cache after the scan; unchanged when no response answers (fully characterised by `Client.DemuxNoAnswer`, `Client.DemuxLastWins` and `Client.DemuxOnlyAnswersMatter`) |
| `Client.DemuxNoAnswer` | jmapfilter.py:60-67 | if no response answers the method with a `list`, the cache is unchanged |
| `Client.DemuxLastWins` | jmapfilter.py:60-67 | the cache ends as the `list` of the last answering response, because the outer loop never breaks |
| `Client.DemuxOnlyAnswersMatter` | jmapfilter.py:60-67 | responses with other method names, or without a `list`, do not affect the result |
| `Client.ScanResponses` | jmapfilter.py:97-104 | the demux loop pair (outer over responses, inner over the result's keys until `list`) computes `Demux`; shared by `first_call` and `fetch_messages` |
| `Client.JmapClient.constructor` | jmapfilter.py:13-19 | credentials stored; URL, account id and both caches start as None |
| `Client.JmapClient.CallRequest` | jmapfilter.py:21-26 | a POST to `api_url`, with the client's credentials, whose body carries exactly the payload calls in order under the fixed `using` list |
| `Client.JmapClient.Call` | jmapfilter.py:21-28 | sends that request and returns the parsed body unexamined, or reports the transport failure |
| `Client.JmapClient.NewSession` | jmapfilter.py:30-41 | GET to the discovery URL; `api_url` becomes the body's `apiUrl`; `account_id` becomes the first matching account's id, or stays as it was when none matches; a raised exception changes nothing |
| `Client.JmapClient.FirstCall` | jmapfilter.py:43-67 | with no account id: ValueError, no request, cache unchanged; otherwise one `Mailbox/get` call with `ids: null` and call-id `0`, and `cache_folders` becomes the demuxed `Mailbox/get` list |
| `Client.JmapClient.FetchMessages` | jmapfilter.py:69-104 | sends the two-call query/get envelope, with the account id or null; `cache_messages` becomes the demuxed `Email/get` list |
| `Mutations.Insert` | jmapfilter.py:208 | assigning a dict key adds exactly that key and at most one member, keeps keys distinct, and keeps "every value is v" |
| `Mutations.InsertAssigns` | jmapfilter.py:208 | on a dict, after `d[k] = v` the key `k` maps to `v` and every other key keeps its value |
| `Mutations.TrueMap` | jmapfilter.py:208 | the comprehension has no more entries than there are ids; its exact shape is `Mutations.TrueMapShape` |
| `Mutations.TrueMapShape` | jmapfilter.py:208 | `{m_id: True for m_id in ids}` has exactly the given ids as keys (duplicates collapse), each once, each mapped to true |
| `Mutations.KeywordPatch` | jmapfilter.py:141-145 | a patch with the single path `keywords/<keyword>`, valued true (set) or null (clear); its effect is `PatchSemantics.KeywordPatchEffect` |
| `Mutations.MailboxesPatch` | jmapfilter.py:206-210 | a patch with the single path `mailboxIds`, whose map has exactly the given ids as keys, once each; its effect is `PatchSemantics.MailboxesPatchEffect` |
| `Mutations.EmailSetCall` | jmapfilter.py:123-133 | the call reads back as the single-message update for that account, message id and patch; both directions in `Mutations.ReadUpdateInverse` |
| `Mutations.ReadUpdateInverse` | jmapfilter.py:123-133 | a call reads back as a single-message `Email/set` update (account, message id, patch, call-id `0`) exactly when it is the call the builders construct from that update |
| `Mutations.FirstTrash` | jmapfilter.py:183-186 | the folder found is one of the cached folders and has role `trash` |
| `Mutations.FirstTrashFirstMatch` | jmapfilter.py:183-186 | the folder found is the first with role `trash`; there is none exactly when no folder has that role |
| `Mutations.TrashMailbox` | jmapfilter.py:183-186 | no id exactly when no cached folder has role `trash`; otherwise the string `id` of the first cached folder whose role is `trash` |
| `Mutations.FirstTrashIndex` | jmapfilter.py:183-186 | the trash folder found sits at a position before which no folder has role `trash` |
| `Mutations.TrashMailboxExample` | jmapfilter.py:183-186 | with folders M1 (trash) and M2 (inbox), the trash mailbox is M1 |
| `Mutations.MoveToTrashTwice` | jmapfilter.py:182-200 | two trash moves of one message with an unchanged catalog queue two identical calls, both kept |
| `Mutations.Handler.constructor` | jmapfilter.py:113-115 | the handler keeps the client, copies its account id and starts with an empty batch |
| `Mutations.Handler.ApplyBatch` | jmapfilter.py:117-120 | submits the current batch, in order, via `call`; on return the batch is empty and the body is returned; if `call` raises, the batch is kept |
| `Mutations.Handler.MarkUnseen` | jmapfilter.py:122-135 | appends and returns one `Email/set` call for the handler's account and `message['id']` with patch `keywords/$seen: null`; earlier entries unchanged |
| `Mutations.Handler.MarkSeen` | jmapfilter.py:137-150 | likewise with `keywords/$seen: true` |
| `Mutations.Handler.Flag` | jmapfilter.py:152-165 | likewise with `keywords/$flagged: true` |
| `Mutations.Handler.Unflag` | jmapfilter.py:167-180 | likewise with `keywords/$flagged: null` |
| `Mutations.Handler.MoveToTrash` | jmapfilter.py:182-200 | with no trash folder cached: IndexError, nothing appended; otherwise appends the call whose patch sets `mailboxIds` to `{t: true}`, `t` the first trash folder's id |
| `Mutations.Handler.MoveToMailboxes` | jmapfilter.py:202-215 | appends the call whose patch sets `mailboxIds` to the given ids, each mapped to true |
| `PatchSemantics.KeywordPatchEffect` | jmapfilter.py:141-145 | a keyword patch adds the keyword (true) or removes it (null) and changes nothing else |
| `PatchSemantics.TrueKeysOfTrueMap` | jmapfilter.py:208 | an id map whose values are all true stands for exactly its key set |
| `PatchSemantics.MailboxesPatchEffect` | jmapfilter.py:206-210 | the `move_to_mailboxes` patch makes the membership exactly the set of given ids: a replacement, not an addition |
| `PatchSemantics.TrashPatchEffect` | jmapfilter.py:191-195 | the `move_to_trash` patch leaves the message in the trash mailbox only |
| `PatchSemantics.BuilderPatchesIdempotent` | jmapfilter.py:122-215 | every builder's patch applies, and applying it a second time changes nothing |

## Left out

- HTTP: `requests.get`, `requests.post`, `HTTPBasicAuth` and `r.json()` (jmapfilter.py:22-27, 31-35, 52-58, 89-95) are network I/O and library calls. They appear as the `HttpRequest` a method returns and the `Reply` it is given.
- `Handler.__init__`'s network bootstrap (jmapfilter.py:109-112) is not modelled. The constructor takes a client that is already bootstrapped.
- example.py is not part of this model. It is a demo script with side effects at import time, and its filter predicate is caller policy.
- Crashes outside the documented contracts are preconditions, not modelled behaviour. `DiscoveryReady`, `ResponseReady` and `FoldersReady` cover:
  - KeyError on `apiUrl`, `accounts`, `name` or `role`;
  - KeyError on `methodResponses` (jmapfilter.py:60, 97), which a request-level error body (section 3.6.1 of RFC 8620) triggers;
  - AttributeError from `.items()` when `accounts` or a matching result is not a dict;
  - KeyError on the trash folder's `id` (jmapfilter.py:186);
  - TypeError when a body is not a dict or `cache_folders` is None;
  - unpack errors on responses that are not 3-element arrays. The precondition also excludes a 3-character string or a 3-key object there, which Python would unpack and, unless its first component equals the method name, skip.
- `FoldersReady` requires the trash folder's `id` to be a string. Python would accept another hashable JSON value there, and `json` would serialise it.
- Result references are checked on the request only. Section 3.7 of RFC 8620 resolves a reference against the first earlier response with that call-id, checks that response's name and then applies `path`. So a failed `Email/query`, answered by an `error` response, leaves the `#ids` reference unresolved; the model does not capture this.
- A message must be a dict with a string `id` (`HasStringId`). Other key types, which `json` would convert or refuse when serialising, are not modelled.
- JSON numbers are integers; floating point is not modelled.
- Aliasing is not modelled. Python's builders return the same list object they append, so a caller could later change a queued call through it. The model treats calls as values.
- Equality of JSON objects is order-sensitive in the model, unlike Python dict equality. The client only builds and compares values whose member order it fixes.
- `PatchSemantics` does not interpret JSON Pointer escapes (`~0`, `~1`) or patch paths that this client never builds.
- The per-item `updated`/`notUpdated` reporting of an `Email/set` response is passed through unexamined, as in the source.
- Concurrency is not modelled. The client is single-threaded, and its calls block.

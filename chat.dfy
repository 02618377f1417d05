/** The chat system (chat.py): messages with optional expiry, per-user
    ownership, sorted and filtered listings, and timestamped backups.

    Python object identity matters here and is modelled explicitly:
    - every `Message` object lives in `heap` and a message table maps ids to
      heap positions, so the re-stamping done by `unzip_messages` is seen by
      every backup that holds the same object;
    - after `unzip_messages` the live `user_messages` and `messages` ARE the
      dicts stored in the backup, so later writes change that backup too;
      `alias` names the backup key whose dicts are the live ones;
    - the live ownership table starts as a `defaultdict(set)`, whose reads
      insert an empty set for an unseen user; the table installed by
      `unzip_messages` is a plain dict of lists (`plainDict`), where an unseen
      user raises KeyError and `.add` raises AttributeError. The lists never
      repeat an id and their order is never observed, so a set stands for
      each of them. */
module Chat {
  import opened Wrappers
  import opened Seqs
  import opened Ordering
  import opened Text

  type UserId = string
  type MessageId = string

  /** The identity of a `Message` object: its position in the heap. */
  type Ref = nat

  /** The `Message` dataclass. */
  datatype Message = Message(content: string, timestamp: Option<int>, expiry: Option<int>)

  /** A message with an expiry also has a timestamp: every sender sets both or
      neither, and re-stamping only replaces one integer by another. */
  predicate Stamped(m: Message) {
    m.expiry.Some? ==> m.timestamp.Some?
  }

  /** `Message.is_valid_at`. */
  function IsValidAt(m: Message, t: int): (b: bool)
    requires Stamped(m)
    ensures m.expiry.None? ==> b
    ensures m.expiry.Some? ==> (b <==> t - m.timestamp.value < m.expiry.value)
  {
    m.expiry.None? || t < m.timestamp.value + m.expiry.value
  }

  /** Validity is a prefix of time: valid at `t` means valid at every earlier
      time, and a message without expiry is valid at all times. */
  lemma ValidityIsAPrefixOfTime(m: Message, t: int, t': int)
    requires Stamped(m) && t' <= t
    ensures IsValidAt(m, t) ==> IsValidAt(m, t')
    ensures m.expiry.None? ==> IsValidAt(m, t) && IsValidAt(m, t')
  {
  }

  /** Python truthiness of an optional integer: `None` and `0` are false. */
  function Truthy(x: Option<int>): (b: bool)
    ensures b <==> x != None && x != Some(0)
  {
    x.Some? && x.value != 0
  }

  /** What `unzip_messages` does to one message object. */
  function Restamped(m: Message, rt: int): (r: Message)
    requires Stamped(m)
    ensures Stamped(r) && r.content == m.content && r.expiry == m.expiry
    ensures r.timestamp == if Truthy(m.timestamp) then Some(rt) else m.timestamp
    ensures Truthy(m.timestamp) && m.expiry.Some? ==> (forall t :: IsValidAt(r, t) <==> t < rt + m.expiry.value)
  {
    if Truthy(m.timestamp) then m.(timestamp := Some(rt)) else m
  }

  /** A pair of `user_messages` and `messages` dicts, live or backed up. */
  datatype Tables = Tables(owners: map<UserId, set<MessageId>>, messages: map<MessageId, Ref>)

  /** Every message reference of `t` points into a heap of size `n`. */
  predicate RefsIn(t: Tables, n: nat) {
    forall id :: id in t.messages ==> t.messages[id] < n
  }

  /** The whole chat system, with object identity made explicit. */
  datatype ChatState = ChatState(
    heap: seq<Message>,
    live: Tables,
    plainDict: bool,
    backupOrder: seq<int>,
    backups: map<int, Tables>,
    alias: Option<int>)

  ghost predicate Good(st: ChatState) {
    && (forall i :: 0 <= i < |st.heap| ==> Stamped(st.heap[i]))
    && RefsIn(st.live, |st.heap|)
    && (forall k :: k in st.backups ==> RefsIn(st.backups[k], |st.heap|))
    && Distinct(st.backupOrder)
    && (forall k :: k in st.backupOrder <==> k in st.backups)
    && (st.alias.Some? ==> st.plainDict && st.alias.value in st.backups && st.backups[st.alias.value] == st.live)
  }

  /** `ChatSystem()`. */
  function Initial(): (st: ChatState)
    ensures Good(st) && st.live.messages == map[] && st.live.owners == map[] && !st.plainDict
  {
    ChatState([], Tables(map[], map[]), false, [], map[], None)
  }

  /** The errors the chat system raises. */
  datatype ChatError =
    | KeyError        // an unseen user in the plain dict, or an owned id gone from the message table
    | AttributeError  // `.add` on a list of the plain dict

  /** The state after a call, and what the call returned or raised. */
  datatype Call<T> = Call(st: ChatState, outcome: Result<T, ChatError>)

  /** The message object the live table holds under `id`. */
  function Deref(st: ChatState, id: MessageId): (m: Message)
    requires Good(st) && id in st.live.messages
    ensures Stamped(m)
  {
    st.heap[st.live.messages[id]]
  }

  /** The ids `user` owns in `t`; an unseen user owns none. */
  function Owned(t: Tables, user: UserId): set<MessageId> {
    if user in t.owners then t.owners[user] else {}
  }

  /** Reading `self.user_messages[user]` raises: an unseen user of the plain dict. */
  predicate Missing(st: ChatState, user: UserId) {
    st.plainDict && user !in st.live.owners
  }

  /** `r` is `st` with only the live tables changed, and with them the backup
      that holds the same dict objects. */
  ghost predicate LiveChangeOnly(st: ChatState, r: ChatState) {
    && r.heap == st.heap && r.plainDict == st.plainDict
    && r.backupOrder == st.backupOrder && r.alias == st.alias
    && r.backups.Keys == st.backups.Keys
    && (forall k :: k in st.backups && Some(k) != st.alias ==> r.backups[k] == st.backups[k])
  }

  /** Writing the live dicts in place. */
  function WithLive(st: ChatState, t: Tables): (r: ChatState)
    requires Good(st) && RefsIn(t, |st.heap|)
    ensures Good(r) && r.live == t && LiveChangeOnly(st, r)
  {
    st.(live := t, backups := if st.alias.Some? then st.backups[st.alias.value := t] else st.backups)
  }

  /** The state after reading `self.user_messages[user]`: the defaultdict
      inserts an empty set for an unseen user; the plain dict is not changed. */
  function Touch(st: ChatState, user: UserId): (r: ChatState)
    requires Good(st)
    ensures Good(r) && LiveChangeOnly(st, r) && r.live.messages == st.live.messages
    ensures user in st.live.owners || st.plainDict ==> r == st
    ensures user !in st.live.owners && !st.plainDict ==> r.live.owners == st.live.owners[user := {}]
    ensures forall u :: Owned(r.live, u) == Owned(st.live, u)
  {
    if user in st.live.owners || st.plainDict then st
    else WithLive(st, st.live.(owners := st.live.owners[user := {}]))
  }

  /** `send_message`, `send_message_at` and `send_message_with_expiry`: the new
      message object replaces whatever `id` named, then `id` is added to the
      sender's set. In the plain dict the `.add` raises, after the message
      table has already been written. */
  function SendOn(st: ChatState, user: UserId, id: MessageId, m: Message): (r: Call<()>)
    requires Good(st) && Stamped(m)
    ensures Good(r.st)
    ensures r.st.heap == st.heap + [m] && r.st.plainDict == st.plainDict && r.st.alias == st.alias
    ensures r.st.backupOrder == st.backupOrder && r.st.backups.Keys == st.backups.Keys
    ensures forall k :: k in st.backups && Some(k) != st.alias ==> r.st.backups[k] == st.backups[k]
    ensures r.st.live.messages == st.live.messages[id := |st.heap|]
    ensures r.outcome.Failure? <==> st.plainDict
    ensures r.outcome.Failure? ==>
      && r.outcome.error == (if user in st.live.owners then AttributeError else KeyError)
      && r.st.live.owners == st.live.owners
    ensures r.outcome.Success? ==> r.st.live.owners == st.live.owners[user := Owned(st.live, user) + {id}]
  {
    var st1 := st.(heap := st.heap + [m]);
    var st2 := WithLive(st1, st1.live.(messages := st1.live.messages[id := |st.heap|]));
    if st.plainDict then
      Call(st2, Failure(if user in st.live.owners then AttributeError else KeyError))
    else
      Call(WithLive(st2, st2.live.(owners := st2.live.owners[user := Owned(st.live, user) + {id}])), Success(()))
  }

  /** `get_message`: the content when `user` owns `id`, otherwise "". */
  function GetOn(st: ChatState, user: UserId, id: MessageId): (r: Call<string>)
    requires Good(st)
    ensures r.st == Touch(st, user)
    ensures r.outcome.Failure? <==> Missing(st, user) || (id in Owned(st.live, user) && id !in st.live.messages)
    ensures r.outcome.Failure? ==> r.outcome.error == KeyError
    ensures r.outcome.Success? && id in Owned(st.live, user) ==> r.outcome.value == Deref(st, id).content
    ensures r.outcome.Success? && id !in Owned(st.live, user) ==> r.outcome.value == ""
  {
    if Missing(st, user) then Call(st, Failure(KeyError))
    else if id !in Owned(st.live, user) then Call(Touch(st, user), Success(""))
    else if id !in st.live.messages then Call(st, Failure(KeyError))
    else Call(st, Success(Deref(st, id).content))
  }

  /** `delete_message`: True, and `id` gone from the message table and from the
      user's set, exactly when the user owns it; False and no change otherwise. */
  function DeleteOn(st: ChatState, user: UserId, id: MessageId): (r: Call<bool>)
    requires Good(st)
    ensures Good(r.st)
    ensures r.outcome.Failure? <==> Missing(st, user) || (id in Owned(st.live, user) && id !in st.live.messages)
    ensures r.outcome.Failure? ==> r.outcome.error == KeyError && r.st == st
    ensures r.outcome == Success(true) <==> id in Owned(st.live, user) && id in st.live.messages
    ensures r.outcome == Success(false) ==> r.st == Touch(st, user)
    ensures r.outcome == Success(true) ==>
      && LiveChangeOnly(st, r.st)
      && r.st.live.messages == st.live.messages - {id}
      && r.st.live.owners == st.live.owners[user := st.live.owners[user] - {id}]
  {
    if Missing(st, user) then Call(st, Failure(KeyError))
    else if id !in Owned(st.live, user) then Call(Touch(st, user), Success(false))
    else if id !in st.live.messages then Call(st, Failure(KeyError))
    else
      var t := Tables(st.live.owners[user := st.live.owners[user] - {id}], st.live.messages - {id});
      Call(WithLive(st, t), Success(true))
  }

  /** `get_message_at`: the content when `user` owns `id` and it is valid at
      `t`, otherwise "". */
  function GetAtOn(st: ChatState, user: UserId, id: MessageId, t: int): (r: Call<string>)
    requires Good(st)
    ensures r.st == Touch(st, user)
    ensures r.outcome.Failure? <==> Missing(st, user) || (id in Owned(st.live, user) && id !in st.live.messages)
    ensures r.outcome.Failure? ==> r.outcome.error == KeyError
    ensures r.outcome.Success? && id in Owned(st.live, user) && IsValidAt(Deref(st, id), t) ==>
      r.outcome.value == Deref(st, id).content
    ensures r.outcome.Success? && !(id in Owned(st.live, user) && IsValidAt(Deref(st, id), t)) ==>
      r.outcome.value == ""
  {
    if Missing(st, user) then Call(st, Failure(KeyError))
    else if id !in Owned(st.live, user) then Call(Touch(st, user), Success(""))
    else if id !in st.live.messages then Call(st, Failure(KeyError))
    else if IsValidAt(Deref(st, id), t) then Call(st, Success(Deref(st, id).content))
    else Call(st, Success(""))
  }

  /** `delete_message_at`: deletes, and answers True, only an owned message still
      valid at `t`; an expired or unowned one is kept and False is returned. */
  function DeleteAtOn(st: ChatState, user: UserId, id: MessageId, t: int): (r: Call<bool>)
    requires Good(st)
    ensures Good(r.st)
    ensures r.outcome.Failure? <==> Missing(st, user) || (id in Owned(st.live, user) && id !in st.live.messages)
    ensures r.outcome.Failure? ==> r.outcome.error == KeyError && r.st == st
    ensures r.outcome == Success(true) <==>
      id in Owned(st.live, user) && id in st.live.messages && IsValidAt(Deref(st, id), t)
    ensures r.outcome == Success(true) ==> r == DeleteOn(st, user, id)
    ensures r.outcome == Success(false) ==> r.st == Touch(st, user)
  {
    if Missing(st, user) then Call(st, Failure(KeyError))
    else if id !in Owned(st.live, user) then Call(Touch(st, user), Success(false))
    else if id !in st.live.messages then Call(st, Failure(KeyError))
    else if IsValidAt(Deref(st, id), t) then DeleteOn(st, user, id)
    else Call(st, Success(false))
  }

  /** An optional prefix filter: `None` keeps every id. */
  predicate PrefixOk(id: MessageId, prefix: Option<string>) {
    prefix.None? || StartsWith(id, prefix.value)
  }

  /** A listing looks up every owned id that passes the prefix test (the `and`
      stops before the lookup for the others); none of them may be missing. */
  predicate Readable(st: ChatState, user: UserId, prefix: Option<string>) {
    forall id :: id in Owned(st.live, user) && PrefixOk(id, prefix) ==> id in st.live.messages
  }

  /** The ids a listing shows: the owned ids that pass both filters, in
      ascending order (sorted first, filtered after, as the comprehension does). */
  function Shown(st: ChatState, user: UserId, prefix: Option<string>, at: Option<int>): (ids: seq<MessageId>)
    requires Good(st) && Readable(st, user, prefix)
    ensures SortedBy(ids, LexLt)
    ensures forall id :: id in ids <==>
      id in Owned(st.live, user) && PrefixOk(id, prefix) && (at.None? || IsValidAt(Deref(st, id), at.value))
  {
    LexIsStrictTotalOrder();
    var sorted := Enumerate(Owned(st.live, user), LexLt);
    var keep := (id: MessageId) =>
      PrefixOk(id, prefix) && (at.None? || (id in st.live.messages && IsValidAt(Deref(st, id), at.value)));
    KeepSorted(sorted, keep, LexLt);
    Keep(sorted, keep)
  }

  /** `f"{msg_id}({content})"`. */
  function Entry(id: MessageId, content: string): (r: string)
    ensures |r| == |id| + |content| + 2
    ensures r[..|id|] == id && r[|id|] == '(' && r[|id| + 1..|r| - 1] == content && r[|r| - 1] == ')'
  {
    var r := id + "(" + content + ")";
    assert r[..|id|] == id && r[|id| + 1..|r| - 1] == content;
    r
  }

  function Render(st: ChatState, ids: seq<MessageId>): (r: seq<string>)
    requires Good(st) && forall id :: id in ids ==> id in st.live.messages
    ensures |r| == |ids|
    ensures forall i :: 0 <= i < |ids| ==> r[i] == Entry(ids[i], Deref(st, ids[i]).content)
  {
    if ids == [] then [] else [Entry(ids[0], Deref(st, ids[0]).content)] + Render(st, ids[1..])
  }

  /** `list_messages` (no filter), `list_messages_by_prefix` (`prefix`),
      `list_messages_at` (`at`) and `list_messages_by_prefix_at` (both): the
      shown ids as "id(content)", joined by ", ". */
  function ListOn(st: ChatState, user: UserId, prefix: Option<string>, at: Option<int>): (r: Call<string>)
    requires Good(st)
    ensures r.st == Touch(st, user)
    ensures r.outcome.Failure? <==> Missing(st, user) || !Readable(st, user, prefix)
    ensures r.outcome.Failure? ==> r.outcome.error == KeyError
    ensures r.outcome.Success? ==> r.outcome.value == Join(", ", Render(st, Shown(st, user, prefix, at)))
    ensures r.outcome.Success? && Owned(st.live, user) == {} ==> r.outcome.value == ""
  {
    if Missing(st, user) then Call(st, Failure(KeyError))
    else if !Readable(st, user, prefix) then Call(Touch(st, user), Failure(KeyError))
    else
      var ids := Shown(st, user, prefix, at);
      assert Owned(st.live, user) == {} ==> ids == [] by {
        if ids != [] { assert ids[0] in ids; }
      }
      Call(Touch(st, user), Success(Join(", ", Render(st, ids))))
  }

  /** Listing with the empty prefix is listing without a prefix filter. */
  lemma ListWithEmptyPrefix(st: ChatState, user: UserId, at: Option<int>)
    requires Good(st)
    ensures ListOn(st, user, Some(""), at) == ListOn(st, user, None, at)
  {
    forall id: MessageId ensures PrefixOk(id, Some("")) {
      assert id[..0] == "";
    }
    if !Missing(st, user) && Readable(st, user, None) {
      LexIsStrictTotalOrder();
      SortedUnique(Shown(st, user, Some(""), at), Shown(st, user, None, at), LexLt);
    }
  }

  /** The backup `zip_messages(t)` stores: the message objects valid at `t`
      and, for every user of the table, the owned ids among them. */
  function SnapshotAt(st: ChatState, t: int): (s: Tables)
    requires Good(st)
    ensures RefsIn(s, |st.heap|)
    ensures forall id :: id in s.messages <==> id in st.live.messages && IsValidAt(Deref(st, id), t)
    ensures forall id :: id in s.messages ==> s.messages[id] == st.live.messages[id]
    ensures s.owners.Keys == st.live.owners.Keys
    ensures forall u :: u in s.owners ==> s.owners[u] == st.live.owners[u] * s.messages.Keys
  {
    var valid := map id | id in st.live.messages && IsValidAt(Deref(st, id), t) :: st.live.messages[id];
    Tables(map u | u in st.live.owners :: st.live.owners[u] * valid.Keys, valid)
  }

  /** Tables that agree with the snapshot entry by entry are the snapshot. */
  lemma SnapshotIs(st: ChatState, t: int, owners: map<UserId, set<MessageId>>, valid: map<MessageId, Ref>)
    requires Good(st)
    requires forall id :: id in valid <==> id in st.live.messages && IsValidAt(Deref(st, id), t)
    requires forall id :: id in valid ==> valid[id] == st.live.messages[id]
    requires owners.Keys == st.live.owners.Keys
    requires forall u :: u in owners ==> owners[u] == st.live.owners[u] * valid.Keys
    ensures Tables(owners, valid) == SnapshotAt(st, t)
  {
    var s := SnapshotAt(st, t);
    assert valid.Keys == s.messages.Keys;
    assert valid == s.messages;
    assert owners == s.owners;
  }

  /** `zip_messages`: stores the snapshot under key `t` (a new key goes last in
      the insertion order, an existing one keeps its place) and returns the
      number of messages kept. */
  function ZipOn(st: ChatState, t: int): (r: Call<nat>)
    requires Good(st)
    ensures Good(r.st)
    ensures r.st.heap == st.heap && r.st.live == st.live && r.st.plainDict == st.plainDict
    ensures r.st.backups == st.backups[t := SnapshotAt(st, t)]
    ensures r.st.backupOrder == if t in st.backups then st.backupOrder else st.backupOrder + [t]
    ensures r.st.alias == if st.alias == Some(t) then None else st.alias
    ensures r.outcome.Success?
    ensures r.outcome.value == |set id | id in st.live.messages && IsValidAt(Deref(st, id), t)|
  {
    var s := SnapshotAt(st, t);
    assert s.messages.Keys == set id | id in st.live.messages && IsValidAt(Deref(st, id), t);
    var order := if t in st.backups then st.backupOrder else st.backupOrder + [t];
    Call(st.(backupOrder := order, backups := st.backups[t := s],
             alias := if st.alias == Some(t) then None else st.alias),
         Success(|s.messages|))
  }

  /** The position `unzip_messages` restores from: scanning the keys from the
      most recently inserted one, the first that is at most `bound`. */
  function LatestIndex(order: seq<int>, bound: int): (r: Option<nat>)
    ensures r.None? <==> forall j :: 0 <= j < |order| ==> order[j] > bound
    ensures r.Some? ==> r.value < |order| && order[r.value] <= bound
    ensures r.Some? ==> forall j :: r.value < j < |order| ==> order[j] > bound
    decreases |order|
  {
    if order == [] then None
    else if order[|order| - 1] <= bound then Some(|order| - 1)
    else
      var r := LatestIndex(order[..|order| - 1], bound);
      assert forall j :: 0 <= j < |order| - 1 ==> order[..|order| - 1][j] == order[j];
      r
  }

  /** When backups were taken in increasing time order, the most recently
      inserted key at most `bound` is the largest such key. */
  lemma LatestIsLargestWhenInOrder(order: seq<int>, bound: int)
    requires forall i, j :: 0 <= i < j < |order| ==> order[i] < order[j]
    ensures var r := LatestIndex(order, bound);
      r.Some? ==> forall j :: 0 <= j < |order| && order[j] <= bound ==> order[j] <= order[r.value]
  {
  }

  /** The heap after re-stamping the objects `refs`. */
  function Restamp(heap: seq<Message>, refs: set<Ref>, rt: int): (h: seq<Message>)
    requires forall i :: 0 <= i < |heap| ==> Stamped(heap[i])
    ensures |h| == |heap|
    ensures forall i :: 0 <= i < |heap| ==> h[i] == if i in refs then Restamped(heap[i], rt) else heap[i]
  {
    seq(|heap|, i requires 0 <= i < |heap| => if i in refs then Restamped(heap[i], rt) else heap[i])
  }

  /** `unzip_messages`: nothing happens when no key is at most
      `backupTimestamp`, or when the key found is 0 (`if not restore_from`).
      Otherwise the backup's dicts become the live ones and every message
      object they hold with a truthy timestamp is re-stamped to
      `restoreTimestamp`; objects shared with other backups change there too. */
  function UnzipOn(st: ChatState, restoreTimestamp: int, backupTimestamp: int): (r: ChatState)
    requires Good(st)
    ensures Good(r)
    ensures var k := LatestIndex(st.backupOrder, backupTimestamp);
      k.None? || st.backupOrder[k.value] == 0 ==> r == st
    ensures var k := LatestIndex(st.backupOrder, backupTimestamp);
      k.Some? && st.backupOrder[k.value] != 0 ==>
        var b := st.backupOrder[k.value];
        && r.live == st.backups[b] && r.plainDict && r.alias == Some(b)
        && r.backups == st.backups && r.backupOrder == st.backupOrder
        && r.heap == Restamp(st.heap, st.backups[b].messages.Values, restoreTimestamp)
        && (forall id :: id in r.live.messages ==>
              Deref(r, id) == Restamped(st.heap[st.backups[b].messages[id]], restoreTimestamp))
  {
    var k := LatestIndex(st.backupOrder, backupTimestamp);
    if k.None? || st.backupOrder[k.value] == 0 then st
    else
      var b := st.backupOrder[k.value];
      var installed := st.backups[b];
      var heap := Restamp(st.heap, installed.messages.Values, restoreTimestamp);
      assert forall k :: k in st.backups ==> RefsIn(st.backups[k], |heap|);
      ChatState(heap, installed, true, st.backupOrder, st.backups, Some(b))
  }

  /** A backup taken under a fresh nonzero key and restored straight away
      brings back exactly the messages valid when it was taken, each
      re-stamped, with the per-user sets cut down to them. */
  lemma ZipThenUnzip(st: ChatState, t: int, rt: int)
    requires Good(st) && t != 0 && t !in st.backups
    ensures var u := UnzipOn(ZipOn(st, t).st, rt, t);
      && u.live == SnapshotAt(st, t) && u.plainDict
      && (forall id :: id in u.live.messages ==> Deref(u, id) == Restamped(Deref(st, id), rt))
  {
    var z := ZipOn(st, t).st;
    var k := LatestIndex(z.backupOrder, t);
    assert z.backupOrder[|st.backupOrder|] == t;
    assert k == Some(|st.backupOrder|);
  }

  /** Sending then reading back returns the content sent. */
  lemma SendThenGet(st: ChatState, user: UserId, id: MessageId, m: Message)
    requires Good(st) && Stamped(m) && !st.plainDict
    ensures GetOn(SendOn(st, user, id, m).st, user, id).outcome == Success(m.content)
  {
    var s := SendOn(st, user, id, m).st;
    assert s.heap[s.live.messages[id]] == m;
  }

  /** After a successful delete the message reads back as "". */
  lemma DeleteThenGet(st: ChatState, user: UserId, id: MessageId)
    requires Good(st) && DeleteOn(st, user, id).outcome == Success(true)
    ensures GetOn(DeleteOn(st, user, id).st, user, id).outcome == Success("")
  {
  }

  /** The backup-and-restore trace of the level-4 test in chat.py: a message
      sent at 60 with expiry 30 is saved by `zip_messages(70)`; a later message
      is lost by `unzip_messages(100, 70)`, and the restored one, re-stamped to
      100, is still listed at 100. */
  lemma BackupScenario(bob: UserId, m1: MessageId, m2: MessageId, c1: string, c2: string)
    requires m1 != m2
    ensures var s1 := SendOn(Initial(), bob, m1, Message(c1, Some(60), Some(30))).st;
      var z := ZipOn(s1, 70);
      var s3 := SendOn(z.st, bob, m2, Message(c2, Some(75), Some(20))).st;
      var s4 := UnzipOn(s3, 100, 70);
      && z.outcome == Success(1)
      && ListOn(s4, bob, None, Some(100)).outcome == Success(Entry(m1, c1))
  {
    var msg1, msg2 := Message(c1, Some(60), Some(30)), Message(c2, Some(75), Some(20));
    var saved := Tables(map[bob := {m1}], map[m1 := 0]);
    var s1 := SendOn(Initial(), bob, m1, msg1).st;
    assert Owned(Initial().live, bob) + {m1} == {m1};
    assert s1 == ChatState([msg1], saved, false, [], map[], None);
    ScenarioZip(bob, m1, msg1);
    var z := ZipOn(s1, 70).st;
    var s3 := SendOn(z, bob, m2, msg2).st;
    assert z.alias == None && z.backups[70] == saved && z.heap == [msg1];
    assert s3.backupOrder == [70] && s3.backups[70] == saved && s3.heap[0] == msg1;
    ScenarioUnzip(s3, bob, m1, msg1);
    ScenarioList(UnzipOn(s3, 100, 70), bob, m1, Message(c1, Some(100), Some(30)));
  }

  lemma ScenarioZip(bob: UserId, m1: MessageId, msg1: Message)
    requires msg1.timestamp == Some(60) && msg1.expiry == Some(30)
    ensures var s1 := ChatState([msg1], Tables(map[bob := {m1}], map[m1 := 0]), false, [], map[], None);
      ZipOn(s1, 70) == Call(s1.(backupOrder := [70], backups := map[70 := s1.live]), Success(1))
  {
    var s1 := ChatState([msg1], Tables(map[bob := {m1}], map[m1 := 0]), false, [], map[], None);
    assert (set id | id in s1.live.messages && IsValidAt(Deref(s1, id), 70)) == {m1};
    var snap := SnapshotAt(s1, 70);
    assert snap.messages.Keys == {m1};
    assert snap.owners[bob] == {m1} * {m1} == {m1};
    assert snap == s1.live;
  }

  lemma ScenarioUnzip(s3: ChatState, bob: UserId, m1: MessageId, msg1: Message)
    requires Good(s3) && s3.backupOrder == [70]
    requires 70 in s3.backups && s3.backups[70] == Tables(map[bob := {m1}], map[m1 := 0])
    requires |s3.heap| >= 1 && s3.heap[0] == msg1 && msg1.timestamp == Some(60)
    ensures var s4 := UnzipOn(s3, 100, 70);
      s4.live == s3.backups[70] && s4.plainDict && s4.heap[0] == msg1.(timestamp := Some(100))
      && s4.backups == s3.backups
  {
    assert LatestIndex(s3.backupOrder, 70) == Some(0);
    assert s3.backups[70].messages[m1] == 0;
    assert 0 in s3.backups[70].messages.Values;
  }

  lemma ScenarioList(s4: ChatState, bob: UserId, m1: MessageId, msg1: Message)
    requires Good(s4) && s4.live == Tables(map[bob := {m1}], map[m1 := 0]) && s4.plainDict
    requires |s4.heap| >= 1 && s4.heap[0] == msg1 && msg1.timestamp == Some(100) && msg1.expiry == Some(30)
    ensures ListOn(s4, bob, None, Some(100)).outcome == Success(Entry(m1, msg1.content))
  {
    var ids := Shown(s4, bob, None, Some(100));
    assert (set x | x in ids) == {m1};
    LexIsStrictTotalOrder();
    SortedCard(ids, LexLt);
    assert ids == [ids[0]];
  }

  /** `ChatSystem`: the fields of `ChatState`, updated in place. */
  class ChatSystem {
    var heap: seq<Message>
    var userMessages: map<UserId, set<MessageId>>
    var messages: map<MessageId, Ref>
    var plainDict: bool
    var backupOrder: seq<int>
    var backups: map<int, Tables>
    var alias: Option<int>

    function State(): ChatState
      reads this
    {
      ChatState(heap, Tables(userMessages, messages), plainDict, backupOrder, backups, alias)
    }

    ghost predicate Valid()
      reads this
    {
      Good(State())
    }

    constructor ()
      ensures Valid() && State() == Initial()
    {
      heap, userMessages, messages := [], map[], map[];
      plainDict, backupOrder, backups, alias := false, [], map[], None;
    }

    /** Writes the live dicts; the backup sharing them sees the write. */
    method SetLive(t: Tables)
      requires Valid() && RefsIn(t, |heap|)
      modifies this
      ensures Valid() && State() == WithLive(old(State()), t)
    {
      userMessages, messages := t.owners, t.messages;
      if alias.Some? {
        backups := backups[alias.value := t];
      }
    }

    /** `self.user_messages[user]`, read. */
    method ReadOwned(user: UserId) returns (r: Result<set<MessageId>, ChatError>)
      requires Valid()
      modifies this
      ensures Valid() && State() == Touch(old(State()), user)
      ensures r == if Missing(old(State()), user) then Failure(KeyError) else Success(Owned(old(State()).live, user))
    {
      if user in userMessages {
        return Success(userMessages[user]);
      }
      if plainDict {
        return Failure(KeyError);
      }
      SetLive(Tables(userMessages[user := {}], messages));
      return Success({});
    }

    method Send(user: UserId, id: MessageId, m: Message) returns (r: Result<(), ChatError>)
      requires Valid() && Stamped(m)
      modifies this
      ensures Valid()
      ensures State() == SendOn(old(State()), user, id, m).st && r == SendOn(old(State()), user, id, m).outcome
    {
      heap := heap + [m];
      SetLive(Tables(userMessages, messages[id := |heap| - 1]));
      if plainDict {
        return Failure(if user in userMessages then AttributeError else KeyError);
      }
      var owned := if user in userMessages then userMessages[user] else {};
      SetLive(Tables(userMessages[user := owned + {id}], messages));
      return Success(());
    }

    method SendMessage(user: UserId, id: MessageId, text: string) returns (r: Result<(), ChatError>)
      requires Valid()
      modifies this
      ensures Valid()
      ensures var c := SendOn(old(State()), user, id, Message(text, None, None)); State() == c.st && r == c.outcome
    {
      r := Send(user, id, Message(text, None, None));
    }

    method SendMessageAt(user: UserId, id: MessageId, text: string, t: int) returns (r: Result<(), ChatError>)
      requires Valid()
      modifies this
      ensures Valid()
      ensures var c := SendOn(old(State()), user, id, Message(text, Some(t), None)); State() == c.st && r == c.outcome
    {
      r := Send(user, id, Message(text, Some(t), None));
    }

    method SendMessageWithExpiry(user: UserId, id: MessageId, text: string, t: int, expiry: int)
      returns (r: Result<(), ChatError>)
      requires Valid()
      modifies this
      ensures Valid()
      ensures var c := SendOn(old(State()), user, id, Message(text, Some(t), Some(expiry)));
        State() == c.st && r == c.outcome
    {
      r := Send(user, id, Message(text, Some(t), Some(expiry)));
    }

    method GetMessage(user: UserId, id: MessageId) returns (r: Result<string, ChatError>)
      requires Valid()
      modifies this
      ensures Valid()
      ensures var c := GetOn(old(State()), user, id); State() == c.st && r == c.outcome
    {
      var owned := ReadOwned(user);
      if owned.Failure? {
        return Failure(KeyError);
      }
      if id !in owned.value {
        return Success("");
      }
      if id !in messages {
        return Failure(KeyError);
      }
      return Success(heap[messages[id]].content);
    }

    method DeleteMessage(user: UserId, id: MessageId) returns (r: Result<bool, ChatError>)
      requires Valid()
      modifies this
      ensures Valid()
      ensures var c := DeleteOn(old(State()), user, id); State() == c.st && r == c.outcome
    {
      var owned := ReadOwned(user);
      if owned.Failure? {
        return Failure(KeyError);
      }
      if id !in owned.value {
        return Success(false);
      }
      if id !in messages {
        return Failure(KeyError);
      }
      SetLive(Tables(userMessages[user := userMessages[user] - {id}], messages - {id}));
      return Success(true);
    }

    method GetMessageAt(user: UserId, id: MessageId, t: int) returns (r: Result<string, ChatError>)
      requires Valid()
      modifies this
      ensures Valid()
      ensures var c := GetAtOn(old(State()), user, id, t); State() == c.st && r == c.outcome
    {
      var owned := ReadOwned(user);
      if owned.Failure? {
        return Failure(KeyError);
      }
      if id !in owned.value {
        return Success("");
      }
      if id !in messages {
        return Failure(KeyError);
      }
      var msg := heap[messages[id]];
      if IsValidAt(msg, t) {
        return Success(msg.content);
      }
      return Success("");
    }

    method DeleteMessageAt(user: UserId, id: MessageId, t: int) returns (r: Result<bool, ChatError>)
      requires Valid()
      modifies this
      ensures Valid()
      ensures var c := DeleteAtOn(old(State()), user, id, t); State() == c.st && r == c.outcome
    {
      var owned := ReadOwned(user);
      if owned.Failure? {
        return Failure(KeyError);
      }
      if id !in owned.value {
        return Success(false);
      }
      if id !in messages {
        return Failure(KeyError);
      }
      var msg := heap[messages[id]];
      if IsValidAt(msg, t) {
        r := DeleteMessage(user, id);
        return;
      }
      return Success(false);
    }

    /** The four listings: the comprehension is an expression, and the table
        read that precedes it may insert an empty set. */
    method List(user: UserId, prefix: Option<string>, at: Option<int>) returns (r: Result<string, ChatError>)
      requires Valid()
      modifies this
      ensures Valid()
      ensures var c := ListOn(old(State()), user, prefix, at); State() == c.st && r == c.outcome
    {
      r := ListOn(State(), user, prefix, at).outcome;
      var _ := ReadOwned(user);
    }

    method ListMessages(user: UserId) returns (r: Result<string, ChatError>)
      requires Valid()
      modifies this
      ensures Valid()
      ensures var c := ListOn(old(State()), user, None, None); State() == c.st && r == c.outcome
    {
      r := List(user, None, None);
    }

    method ListMessagesByPrefix(user: UserId, prefix: string) returns (r: Result<string, ChatError>)
      requires Valid()
      modifies this
      ensures Valid()
      ensures var c := ListOn(old(State()), user, Some(prefix), None); State() == c.st && r == c.outcome
    {
      r := List(user, Some(prefix), None);
    }

    method ListMessagesAt(user: UserId, t: int) returns (r: Result<string, ChatError>)
      requires Valid()
      modifies this
      ensures Valid()
      ensures var c := ListOn(old(State()), user, None, Some(t)); State() == c.st && r == c.outcome
    {
      r := List(user, None, Some(t));
    }

    method ListMessagesByPrefixAt(user: UserId, prefix: string, t: int) returns (r: Result<string, ChatError>)
      requires Valid()
      modifies this
      ensures Valid()
      ensures var c := ListOn(old(State()), user, Some(prefix), Some(t)); State() == c.st && r == c.outcome
    {
      r := List(user, Some(prefix), Some(t));
    }

    method ZipMessages(t: int) returns (count: nat)
      requires Valid()
      modifies this
      ensures Valid()
      ensures var c := ZipOn(old(State()), t); State() == c.st && Success(count) == c.outcome
    {
      ghost var c := ZipOn(State(), t);
      var valid := map id | id in messages && IsValidAt(heap[messages[id]], t) :: messages[id];
      var buUsers := BackupOwners(userMessages, valid.Keys);
      SnapshotIs(State(), t, buUsers, valid);
      if t !in backups {
        backupOrder := backupOrder + [t];
      }
      backups := backups[t := Tables(buUsers, valid)];
      if alias == Some(t) {
        alias := None;
      }
      count := |valid|;
      assert backups == c.st.backups && backupOrder == c.st.backupOrder && alias == c.st.alias;
      assert State() == c.st;
    }

    method UnzipMessages(restoreTimestamp: int, backupTimestamp: int)
      requires Valid()
      modifies this
      ensures Valid()
      ensures State() == UnzipOn(old(State()), restoreTimestamp, backupTimestamp)
    {
      var k := FindRestorePoint(backupOrder, backupTimestamp);
      if k.None? || backupOrder[k.value] == 0 {
        return;
      }
      var b := backupOrder[k.value];
      assert RefsIn(backups[b], |heap|);
      var h := RestampAll(heap, backups[b].messages.Values, restoreTimestamp);
      userMessages, messages := backups[b].owners, backups[b].messages;
      plainDict, alias := true, Some(b);
      heap := h;
    }
  }

  /** The `bu_users` loop of `zip_messages`: each user's ids cut down to `keep`. */
  method BackupOwners(owners: map<UserId, set<MessageId>>, keep: set<MessageId>)
    returns (bu: map<UserId, set<MessageId>>)
    ensures bu.Keys == owners.Keys && forall u :: u in bu ==> bu[u] == owners[u] * keep
  {
    bu := map[];
    var users := owners.Keys;
    while users != {}
      invariant users <= owners.Keys
      invariant bu.Keys == owners.Keys - users
      invariant forall u :: u in bu ==> bu[u] == owners[u] * keep
      decreases users
    {
      var u :| u in users;
      bu := bu[u := owners[u] * keep];
      users := users - {u};
    }
  }

  /** The `reversed(self.backups)` scan of `unzip_messages`. */
  method FindRestorePoint(order: seq<int>, bound: int) returns (k: Option<nat>)
    ensures k == LatestIndex(order, bound)
  {
    var i := |order|;
    while i > 0 && order[i - 1] > bound
      invariant 0 <= i <= |order|
      invariant forall j :: i <= j < |order| ==> order[j] > bound
    {
      i := i - 1;
    }
    if i == 0 {
      return None;
    }
    return Some(i - 1);
  }

  /** The re-stamping loop of `unzip_messages`, one message object at a time. */
  method RestampAll(heap: seq<Message>, refs: set<Ref>, rt: int) returns (h: seq<Message>)
    requires forall i :: 0 <= i < |heap| ==> Stamped(heap[i])
    requires forall r :: r in refs ==> r < |heap|
    ensures h == Restamp(heap, refs, rt)
  {
    h := heap;
    var todo := refs;
    while todo != {}
      invariant todo <= refs && |h| == |heap|
      invariant h == Restamp(heap, refs - todo, rt)
      decreases todo
    {
      var ref :| ref in todo;
      if Truthy(h[ref].timestamp) {
        h := h[ref := h[ref].(timestamp := Some(rt))];
      }
      todo := todo - {ref};
    }
    assert refs - todo == refs;
  }
}

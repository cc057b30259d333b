/** The host cache and the callers of `get_or_set_with` as one step system.

    Each caller is a client in a phase of the function; each host call or closure run it makes is a step, and
    what the host or the closure answers is part of the step. The host's rules are those the header documents:
    a transactional lookup waits while another client holds the obligation for its key, it ends when that
    client provides the item's metadata, cancels or fails, and then either finds an item or is given the
    obligation. That an obligation not met is given up when the last handle of its transaction is closed is an
    assumption about the host; the exits of the function that close the handle are the steps that release. One
    exit closes nothing: when the state query inside the lookup fails, the handle was not yet given an owner. */
module CacheProtocol {
  import opened Basics
  import StreamLog
  import opened SurrogateKeys

  type Key = seq<byte>
  type Cid = nat

  /** The body of a cache entry, as the closure left it: get area, host body and put area. */
  type EntryBody = StreamLog.View<byte>

  /** What `append` splices of an entry: the by-value parameter is made by a move, whose drain the host may cut
      short after `accepted` bytes, and the get area is dropped. */
  function Delivered(body: EntryBody, accepted: nat): seq<byte> {
    StreamLog.Drain(body, accepted).queue
  }

  /** An entry arrives whole exactly if nothing of it had been read into its get area and the drain of the move
      was not cut short. */
  predicate Whole(body: EntryBody, accepted: nat) {
    body.unread == [] && !StreamLog.Short(body, accepted)
  }

  lemma DeliveredExact(body: EntryBody, accepted: nat)
    ensures Delivered(body, accepted) == body.Total() <==> Whole(body, accepted)
  {
    StreamLog.AppendsAllExact(body, false, accepted);
  }

  /** `core::CacheError`. */
  datatype CoreError = CoreLimitExceeded | CoreInvalidOperation | CoreUnsupported | CoreUnknown

  /** `simple::CacheError`. */
  datatype SimpleError = LimitExceeded | InvalidOperation | Unsupported | Io | Purge | GetOrSet | Other

  /** `from_status`, on the status codes of src/cpp/fastly.h:14-29 other than 0, which is success. */
  function FromStatus(status: nat): CoreError {
    if status == 5 then CoreUnsupported
    else if status == 13 then CoreLimitExceeded
    else if status == 3 then CoreInvalidOperation
    else CoreUnknown
  }

  /** The error a caller of the simple cache is to see for a failed host call, by the number of its status. */
  function ErrorFor(status: nat): SimpleError {
    match status
    case 3 => InvalidOperation
    case 5 => Unsupported
    case 13 => LimitExceeded
    case _ => Other
  }

  /** `from_core_error`: three codes keep their names, anything else is Other. */
  function FromCoreError(e: CoreError): SimpleError {
    match e
    case CoreLimitExceeded => LimitExceeded
    case CoreInvalidOperation => InvalidOperation
    case CoreUnsupported => Unsupported
    case CoreUnknown => Other
  }

  /** The two conversions on the way from the host to the caller, each and taken together. */
  lemma ErrorsKeepTheirCode(status: nat)
    ensures FromCoreError(FromStatus(status)) == ErrorFor(status)
    ensures var e := FromStatus(status);
      && (e.CoreInvalidOperation? <==> status == 3) && (e.CoreUnsupported? <==> status == 5)
      && (e.CoreLimitExceeded? <==> status == 13)
  {
  }

  /** How far a caller has come; the line numbers are those of include/fastly/cache/simple.h. */
  datatype Phase =
    | Looking                                   // 194: the lookup is with the host
    | Hit(item: Cid)                            // 202: found, and no obligation
    | Obliged                                   // 214: must insert or update, the closure is running
    | Entry(body: EntryBody)                    // 219: the closure returned an entry
    | Inserted(body: EntryBody)                 // 234: metadata provided, nothing written yet
    | Appended                                  // 237: entry appended, not finished
    | Finished                                  // 242: item complete, not read back
    | Done(result: Result<Cid, SimpleError>)    // returned a stream of an item, or an error

  datatype Client = Client(key: Key, phase: Phase)

  datatype Status = Streaming | Complete | Broken

  /** An item is known by the client that inserted it; a client inserts at most one. */
  datatype Item = Item(key: Key, surrogates: string, content: seq<byte>, status: Status)

  datatype State = State(
    clients: seq<Client>,
    /** The usable item a lookup of the key finds. */
    current: map<Key, Cid>,
    /** The client obliged to insert the key's item. */
    holder: map<Key, Cid>,
    /** Every item ever inserted; streams already handed out keep reading theirs. */
    items: map<Cid, Item>,
    /** Lookups whose call has returned while the host still has their handle: nobody will close it. */
    orphans: set<Cid>,
    /** The latest call that a call's closure has made itself. */
    child: map<Cid, Cid>,
    /** History: the entry each successful closure run produced. */
    made: map<Cid, EntryBody>,
    /** History: how much of an entry's put area the move into `append` got to the host. */
    drained: map<Cid, nat>,
    /** History: how often a closure ran for the key. */
    runs: map<Key, nat>)

  const EMPTY := State([], map[], map[], map[], {}, map[], map[], map[], map[])

  datatype Step =
    | Call(key: Key)
    | CallFrom(c: Cid, key: Key)                  // the closure of a call makes a call
    | LookupFails(c: Cid, error: CoreError)
    | StateQueryFails(c: Cid, error: CoreError)   // src/cpp/cache/core.cpp:328
    | Resolve(c: Cid)
    | OpenStream(c: Cid, failure: Option<CoreError>)
    | RunClosure(c: Cid, entry: Option<EntryBody>)  // it ends, with this result
    | Insert(c: Cid, failure: Option<CoreError>)
    | AppendEntry(c: Cid, accepted: nat)
    | Finish(c: Cid, ok: bool)
    | ReadBack(c: Cid, failure: Option<CoreError>)
    | PurgeBy(surrogate: string)
    | Expire(key: Key)
    | GrantOrphan(c: Cid)                         // the host answers a lookup nobody waits for any more

  /** A step of some caller inside the function, as opposed to a new call or a host event. */
  predicate ByClient(t: Step) {
    !t.Call? && !t.CallFrom? && !t.PurgeBy? && !t.Expire? && !t.GrantOrphan?
  }

  function Runs(s: State, key: Key): nat {
    if key in s.runs then s.runs[key] else 0
  }

  predicate HoldsObligation(p: Phase) {
    p.Obliged? || p.Entry?
  }

  /** A lookup of the key is answered at once; otherwise it waits. */
  predicate Answerable(s: State, key: Key) {
    key in s.current || key !in s.holder
  }

  /** The closure of a call waits for the end of a call it has made. */
  predicate Nesting(s: State, c: Cid) {
    c in s.child && s.child[c] < |s.clients| && !s.clients[s.child[c]].phase.Done?
  }

  predicate ClosureRuns(s: State, c: Cid) {
    c < |s.clients| && s.clients[c].phase.Obliged? && !Nesting(s, c)
  }

  predicate Enabled(s: State, t: Step) {
    if t.CallFrom? then ClosureRuns(s, t.c)
    else if t.GrantOrphan? then t.c in s.orphans && t.c < |s.clients| && Answerable(s, s.clients[t.c].key)
    else if !ByClient(t) then true
    else
      && t.c < |s.clients|
      && match t
         case LookupFails(c, _) => s.clients[c].phase.Looking?
         case StateQueryFails(c, _) => s.clients[c].phase.Looking?
         case Resolve(c) => s.clients[c].phase.Looking? && Answerable(s, s.clients[c].key)
         case OpenStream(c, _) => s.clients[c].phase.Hit?
         case RunClosure(c, _) => ClosureRuns(s, c)
         case Insert(c, _) => s.clients[c].phase.Entry?
         case AppendEntry(c, _) => s.clients[c].phase.Inserted?
         case Finish(c, _) => s.clients[c].phase.Appended?
         case ReadBack(c, _) => s.clients[c].phase.Finished?
  }

  /** The transaction's last handle is closed with the obligation unmet: the host takes it back. */
  function Release(s: State, c: Cid): State
    requires c < |s.clients|
  {
    s.(holder := s.holder - {s.clients[c].key})
  }

  function Opened(item: Cid, failure: Option<CoreError>): Phase {
    Done(if failure.Some? then Err(FromCoreError(failure.value)) else Ok(item))
  }

  function Without(current: map<Key, Cid>, gone: set<Key>): map<Key, Cid> {
    current - gone
  }

  /** The keys whose current item a purge by this surrogate key removes. */
  function Purged(s: State, surrogate: string): set<Key> {
    set k | k in s.current && s.current[k] in s.items && Purges(s.items[s.current[k]].surrogates, surrogate)
  }

  /** The phase a client's step takes it to. */
  function After(s: State, t: Step): Phase
    requires ByClient(t) && Enabled(s, t)
  {
    var Client(key, phase) := s.clients[t.c];
    match t
    case LookupFails(_, e) => Done(Err(FromCoreError(e)))
    case StateQueryFails(_, e) => Done(Err(FromCoreError(e)))
    case Resolve(_) => if key in s.current then Hit(s.current[key]) else Obliged
    case OpenStream(_, failure) => Opened(phase.item, failure)
    case RunClosure(_, entry) => if entry.None? then Done(Err(GetOrSet)) else Entry(entry.value)
    case Insert(_, failure) =>
      if failure.Some? then Done(Err(FromCoreError(failure.value))) else Inserted(phase.body)
    case AppendEntry(_, _) => Appended
    case Finish(_, ok) => if ok then Finished else Done(Err(Other))
    case ReadBack(c, failure) => Opened(c, failure)
  }

  /** What a client's step changes in the cache and in the histories, its own phase aside. */
  function Effect(site: Site, s: State, t: Step): State
    requires ByClient(t) && Enabled(s, t)
  {
    var Client(key, phase) := s.clients[t.c];
    match t
    case StateQueryFails(c, _) => s.(orphans := s.orphans + {c})
    case Resolve(c) => if key in s.current then s else s.(holder := s.holder[key := c])
    case RunClosure(c, entry) =>
      var s' := s.(runs := s.runs[key := Runs(s, key) + 1]);
      if entry.None? then Release(s', c) else s'.(made := s.made[c := entry.value])
    case Insert(c, failure) =>
      if failure.Some? then Release(s, c)
      else Release(s, c).(
        items := s.items[c := Item(key, StoredKeys(site, key), [], Streaming)],
        current := s.current[key := c])
    case AppendEntry(c, accepted) =>
      var s' := s.(drained := s.drained[c := accepted]);
      if c in s.items
      then s'.(items := s.items[c := s.items[c].(content := s.items[c].content + Delivered(phase.body, accepted))])
      else s'
    case Finish(c, ok) =>
      s.(
        items := if c in s.items then s.items[c := s.items[c].(status := if ok then Complete else Broken)]
                 else s.items,
        current := if !ok && key in s.current && s.current[key] == c then Without(s.current, {key}) else s.current)
    case _ => s
  }

  /** The host answers a lookup whose handle nobody has: on a miss with the obligation. */
  function Granted(s: State, c: Cid): State
    requires c < |s.clients|
  {
    var s', key := s.(orphans := s.orphans - {c}), s.clients[c].key;
    if key in s.current then s' else s'.(holder := s.holder[key := c])
  }

  function Apply(site: Site, s: State, t: Step): State
    requires Enabled(s, t)
  {
    match t
    case Call(key) => s.(clients := s.clients + [Client(key, Looking)])
    case CallFrom(c, key) => s.(clients := s.clients + [Client(key, Looking)], child := s.child[c := |s.clients|])
    case PurgeBy(surrogate) => s.(current := Without(s.current, Purged(s, surrogate)))
    case Expire(key) => s.(current := Without(s.current, {key}))
    case GrantOrphan(c) => Granted(s, c)
    case _ => Effect(site, s, t).(clients := s.clients[t.c := s.clients[t.c].(phase := After(s, t))])
  }

  ghost predicate Legal(site: Site, s: State, steps: seq<Step>)
    decreases |steps|
  {
    steps == [] || (Enabled(s, steps[0]) && Legal(site, Apply(site, s, steps[0]), steps[1..]))
  }

  ghost function Run(site: Site, s: State, steps: seq<Step>): State
    requires Legal(site, s, steps)
    decreases |steps|
  {
    if steps == [] then s else Run(site, Apply(site, s, steps[0]), steps[1..])
  }

  lemma RunFirst(site: Site, s: State, t: Step, rest: seq<Step>)
    requires Enabled(s, t) && Legal(site, Apply(site, s, t), rest)
    ensures Legal(site, s, [t] + rest) && Run(site, s, [t] + rest) == Run(site, Apply(site, s, t), rest)
  {
    assert ([t] + rest)[1..] == rest;
  }

  lemma {:induction false} RunAppend(site: Site, s: State, front: seq<Step>, back: seq<Step>)
    requires Legal(site, s, front) && Legal(site, Run(site, s, front), back)
    ensures Legal(site, s, front + back)
    ensures Run(site, s, front + back) == Run(site, Run(site, s, front), back)
    decreases |front|
  {
    if front == [] {
      assert front + back == back;
    } else {
      assert (front + back)[1..] == front[1..] + back;
      RunAppend(site, Apply(site, s, front[0]), front[1..], back);
    }
  }

  /** A call that returned an error; only such a call can have left its obligation behind. */
  predicate Failed(p: Phase) {
    p.Done? && p.result.Err?
  }

  /** What is always true of the obligation of a key. */
  ghost predicate HolderOk(s: State, key: Key) {
    key in s.holder ==>
      && s.holder[key] < |s.clients|
      && s.clients[s.holder[key]].key == key
      && (HoldsObligation(s.clients[s.holder[key]].phase) || Failed(s.clients[s.holder[key]].phase))
      && key !in s.current
  }

  /** The key's obligation is with a call that has returned: its handle will never be closed. */
  predicate Leaked(s: State, key: Key) {
    key in s.holder && s.holder[key] < |s.clients| && s.clients[s.holder[key]].phase.Done?
  }

  ghost predicate CurrentOk(site: Site, s: State, key: Key) {
    key in s.current ==>
      && s.current[key] in s.items
      && s.items[s.current[key]].key == key
      && s.items[s.current[key]].status != Broken
  }

  ghost predicate Names(s: State, o: Cid, key: Key) {
    o in s.items && s.items[o].key == key
  }

  /** What is always true of a client, and of the item it inserted. */
  ghost predicate ClientOk(site: Site, s: State, c: Cid)
    requires c < |s.clients|
  {
    var Client(key, p) := s.clients[c];
    && (HoldsObligation(p) ==> key in s.holder && s.holder[key] == c)
    && (p.Hit? ==> Names(s, p.item, key))
    && (p.Done? && p.result.Ok? ==> Names(s, p.result.value, key))
    && (p.Entry? ==> c in s.made && s.made[c] == p.body)
    && (p.Looking? || p.Obliged? ==> c !in s.made)
    && (p.Looking? || p.Hit? || HoldsObligation(p) ==> c !in s.items)
    && (p.Inserted? || p.Appended? || p.Finished? ==> c in s.items)
    && (c in s.items ==>
          var i := s.items[c];
          && i.key == key && i.surrogates == StoredKeys(site, key)
          && c in s.made
          && (p.Inserted? ==> i.content == [] && i.status.Streaming? && p.body == s.made[c])
          && (p.Appended? ==> i.status.Streaming?)
          && (p.Finished? ==> i.status.Complete?)
          && (p.Done? ==> !i.status.Streaming?)
          && (!p.Inserted? ==> c in s.drained && i.content == Delivered(s.made[c], s.drained[c])))
  }

  ghost predicate CacheOk(site: Site, s: State) {
    && (forall key :: HolderOk(s, key))
    && (forall key :: CurrentOk(site, s, key))
    && (forall c :: 0 <= c < |s.clients| ==> ClientOk(site, s, c))
    && (forall o :: o in s.items || o in s.made ==> o < |s.clients|)
    && (forall c :: c in s.orphans ==> c < |s.clients| && Failed(s.clients[c].phase))
  }

  /** A call is made by a closure that is running, and the closure does not end before it. */
  ghost predicate NestOk(s: State, c: Cid) {
    c in s.child ==>
      && c < s.child[c] < |s.clients|
      && !s.clients[c].phase.Looking? && !s.clients[c].phase.Hit?
      && (Nesting(s, c) ==> s.clients[c].phase.Obliged?)
  }

  ghost predicate Inv(site: Site, s: State) {
    CacheOk(site, s) && forall c :: NestOk(s, c)
  }

  ghost predicate OnlyAt<K, V>(m: map<K, V>, m': map<K, V>, k: K) {
    m' == m || m' == m - {k} || (k in m' && m' == m[k := m'[k]])
  }

  /** A step of client `c` touches nothing but the client itself, its item and the entries of its key. */
  ghost predicate Local(s: State, s': State, c: Cid)
    requires c < |s.clients|
  {
    var key := s.clients[c].key;
    && |s'.clients| == |s.clients|
    && s'.clients[c].key == key
    && (forall d :: 0 <= d < |s.clients| && d != c ==> s'.clients[d] == s.clients[d])
    && s'.child == s.child
    && OnlyAt(s.holder, s'.holder, key)
    && OnlyAt(s.current, s'.current, key)
    && OnlyAt(s.items, s'.items, c)
    && OnlyAt(s.made, s'.made, c)
    && OnlyAt(s.drained, s'.drained, c)
    && OnlyAt(s.runs, s'.runs, key)
    && (s'.orphans == s.orphans || (s'.orphans == s.orphans + {c} && Failed(s'.clients[c].phase)))
    && (Failed(s.clients[c].phase) ==> s'.clients[c] == s.clients[c])
    && (c in s.items ==> c in s'.items && s'.items[c].key == s.items[c].key)
    && (s'.holder != s.holder ==> key in s.holder ==> s.holder[key] == c)
  }

  lemma Elsewhere<K, V>(m: map<K, V>, m': map<K, V>, gone: K, k: K)
    requires OnlyAt(m, m', gone) && k != gone
    ensures k in m <==> k in m'
    ensures k in m ==> m[k] == m'[k]
  {
  }

  lemma LocalOthers(site: Site, s: State, s': State, c: Cid, d: Cid)
    requires CacheOk(site, s) && c < |s.clients| && Local(s, s', c)
    requires d < |s.clients| && d != c
    ensures ClientOk(site, s', d)
  {
    var key, dk := s.clients[c].key, s.clients[d].key;
    assert ClientOk(site, s, d);
    Elsewhere(s.items, s'.items, c, d);
    Elsewhere(s.made, s'.made, c, d);
    Elsewhere(s.drained, s'.drained, c, d);
    if dk != key {
      Elsewhere(s.holder, s'.holder, key, dk);
    }
    var p := s.clients[d].phase;
    if p.Hit? && p.item != c {
      Elsewhere(s.items, s'.items, c, p.item);
    }
    if p.Done? && p.result.Ok? && p.result.value != c {
      Elsewhere(s.items, s'.items, c, p.result.value);
    }
  }

  lemma LocalKeys(site: Site, s: State, s': State, c: Cid, key: Key)
    requires CacheOk(site, s) && c < |s.clients| && Local(s, s', c)
    requires key != s.clients[c].key
    ensures HolderOk(s', key) && CurrentOk(site, s', key)
  {
    assert HolderOk(s, key) && CurrentOk(site, s, key) && ClientOk(site, s, c);
    Elsewhere(s.holder, s'.holder, s.clients[c].key, key);
    Elsewhere(s.current, s'.current, s.clients[c].key, key);
    if key in s.current {
      Elsewhere(s.items, s'.items, c, s.current[key]);
    }
  }

  /** After a step of client `c`, only the client and its key need looking at. */
  lemma InvLocal(site: Site, s: State, s': State, c: Cid)
    requires CacheOk(site, s) && c < |s.clients| && Local(s, s', c)
    requires ClientOk(site, s', c) && HolderOk(s', s.clients[c].key) && CurrentOk(site, s', s.clients[c].key)
    ensures CacheOk(site, s')
  {
    forall key ensures HolderOk(s', key) && CurrentOk(site, s', key) {
      if key != s.clients[c].key {
        LocalKeys(site, s, s', c, key);
      }
    }
    forall d | 0 <= d < |s'.clients| ensures ClientOk(site, s', d) {
      if d != c {
        LocalOthers(site, s, s', c, d);
      }
    }
    forall o | o in s'.items || o in s'.made ensures o < |s'.clients| {
      if o != c {
        Elsewhere(s.items, s'.items, c, o);
        Elsewhere(s.made, s'.made, c, o);
      }
    }
  }

  lemma InvCall(site: Site, s: State, key: Key, child: map<Cid, Cid>)
    requires CacheOk(site, s)
    ensures CacheOk(site, s.(clients := s.clients + [Client(key, Looking)], child := child))
  {
    var s' := s.(clients := s.clients + [Client(key, Looking)], child := child);
    forall k ensures HolderOk(s', k) && CurrentOk(site, s', k) {
      assert HolderOk(s, k) && CurrentOk(site, s, k);
    }
    forall c | 0 <= c < |s'.clients| ensures ClientOk(site, s', c) {
      assert c < |s.clients| ==> ClientOk(site, s, c);
    }
  }

  lemma InvEvict(site: Site, s: State, gone: set<Key>)
    requires CacheOk(site, s)
    ensures CacheOk(site, s.(current := Without(s.current, gone)))
  {
    var s' := s.(current := Without(s.current, gone));
    forall k ensures HolderOk(s', k) && CurrentOk(site, s', k) {
      assert HolderOk(s, k) && CurrentOk(site, s, k);
    }
    forall c | 0 <= c < |s'.clients| ensures ClientOk(site, s', c) {
      assert ClientOk(site, s, c);
    }
  }

  lemma InvGrant(site: Site, s: State, c: Cid)
    requires CacheOk(site, s) && Enabled(s, GrantOrphan(c))
    ensures CacheOk(site, Granted(s, c))
  {
    var s' := Granted(s, c);
    assert s'.clients == s.clients && s'.items == s.items && s'.current == s.current && s'.made == s.made;
    forall k ensures HolderOk(s', k) && CurrentOk(site, s', k) {
      assert HolderOk(s, k) && CurrentOk(site, s, k);
    }
    forall d | 0 <= d < |s'.clients| ensures ClientOk(site, s', d) {
      GrantKeepsClient(site, s, c, d);
    }
  }

  lemma GrantKeepsClient(site: Site, s: State, c: Cid, d: Cid)
    requires CacheOk(site, s) && Enabled(s, GrantOrphan(c)) && d < |s.clients|
    ensures ClientOk(site, Granted(s, c), d)
  {
    assert ClientOk(site, s, d) && HolderOk(s, s.clients[d].key);
  }

  lemma InvHostStep(site: Site, s: State, t: Step)
    requires CacheOk(site, s) && !ByClient(t) && Enabled(s, t)
    ensures CacheOk(site, Apply(site, s, t))
  {
    match t
    case Call(key) => InvCall(site, s, key, s.child);
    case CallFrom(c, key) => InvCall(site, s, key, s.child[c := |s.clients|]);
    case PurgeBy(surrogate) => InvEvict(site, s, Purged(s, surrogate));
    case Expire(key) => InvEvict(site, s, {key});
    case GrantOrphan(c) => InvGrant(site, s, c);
  }

  /** What has to be shown of a client's step: it is local, and leaves its client and key in order. */
  ghost predicate Sound(site: Site, s: State, t: Step)
    requires Enabled(s, t) && ByClient(t)
  {
    var s', key := Apply(site, s, t), s.clients[t.c].key;
    Local(s, s', t.c) && ClientOk(site, s', t.c) && HolderOk(s', key) && CurrentOk(site, s', key)
  }

  ghost predicate Ready(site: Site, s: State, t: Step) {
    && Enabled(s, t) && ByClient(t)
    && ClientOk(site, s, t.c) && HolderOk(s, s.clients[t.c].key) && CurrentOk(site, s, s.clients[t.c].key)
  }

  lemma SoundLookupFails(site: Site, s: State, t: Step)
    requires Ready(site, s, t) && t.LookupFails?
    ensures Sound(site, s, t)
  {
  }

  lemma SoundStream(site: Site, s: State, t: Step)
    requires Ready(site, s, t) && (t.OpenStream? || t.ReadBack?)
    ensures Sound(site, s, t)
  {
  }

  lemma SoundStateQueryFails(site: Site, s: State, t: Step)
    requires Ready(site, s, t) && t.StateQueryFails?
    ensures Sound(site, s, t)
  {
  }

  lemma SoundHit(site: Site, s: State, t: Step)
    requires Ready(site, s, t) && t.Resolve? && s.clients[t.c].key in s.current
    ensures Sound(site, s, t)
  {
  }

  lemma SoundObliged(site: Site, s: State, t: Step)
    requires Ready(site, s, t) && t.Resolve? && s.clients[t.c].key !in s.current
    ensures Sound(site, s, t)
  {
  }

  lemma SoundClosureFailure(site: Site, s: State, t: Step)
    requires Ready(site, s, t) && t.RunClosure? && t.entry.None?
    ensures Sound(site, s, t)
  {
  }

  lemma SoundRunClosure(site: Site, s: State, t: Step)
    requires Ready(site, s, t) && t.RunClosure? && t.entry.Some?
    ensures Sound(site, s, t)
  {
  }

  lemma SoundInsertFailure(site: Site, s: State, t: Step)
    requires Ready(site, s, t) && t.Insert? && t.failure.Some?
    ensures Sound(site, s, t)
  {
  }

  lemma InsertLocal(site: Site, s: State, t: Step)
    requires Ready(site, s, t) && t.Insert? && t.failure.None?
    ensures Local(s, Apply(site, s, t), t.c)
  {
  }

  lemma SoundInsert(site: Site, s: State, t: Step)
    requires Ready(site, s, t) && t.Insert? && t.failure.None?
    ensures Sound(site, s, t)
  {
    InsertLocal(site, s, t);
  }

  lemma SoundAppend(site: Site, s: State, t: Step)
    requires Ready(site, s, t) && t.AppendEntry?
    ensures Sound(site, s, t)
  {
  }

  lemma SoundFinish(site: Site, s: State, t: Step)
    requires Ready(site, s, t) && t.Finish?
    ensures Sound(site, s, t)
  {
  }

  lemma SoundStep(site: Site, s: State, t: Step)
    requires CacheOk(site, s) && Enabled(s, t) && ByClient(t)
    ensures Sound(site, s, t)
  {
    assert Ready(site, s, t);
    match t
    case LookupFails(_, _) => SoundLookupFails(site, s, t);
    case StateQueryFails(_, _) => SoundStateQueryFails(site, s, t);
    case OpenStream(_, _) => SoundStream(site, s, t);
    case ReadBack(_, _) => SoundStream(site, s, t);
    case Resolve(c) =>
      if s.clients[c].key in s.current { SoundHit(site, s, t); } else { SoundObliged(site, s, t); }
    case RunClosure(_, entry) =>
      if entry.None? { SoundClosureFailure(site, s, t); } else { SoundRunClosure(site, s, t); }
    case Insert(_, failure) =>
      if failure.Some? { SoundInsertFailure(site, s, t); } else { SoundInsert(site, s, t); }
    case AppendEntry(_, _) => SoundAppend(site, s, t);
    case Finish(_, _) => SoundFinish(site, s, t);
  }

  /** A client's step changes its own phase and no other, and makes no calls. */
  lemma NestLocal(site: Site, s: State, t: Step)
    requires Inv(site, s) && Enabled(s, t) && ByClient(t)
    ensures forall c :: NestOk(Apply(site, s, t), c)
  {
    SoundStep(site, s, t);
    forall c ensures NestOk(Apply(site, s, t), c) {
      assert NestOk(s, c) && NestOk(s, t.c);
    }
  }

  lemma NestCall(site: Site, s: State, t: Step)
    requires Inv(site, s) && Enabled(s, t) && !ByClient(t)
    ensures forall c :: NestOk(Apply(site, s, t), c)
  {
    forall c ensures NestOk(Apply(site, s, t), c) {
      assert NestOk(s, c);
    }
  }

  /** Every step keeps the invariant. */
  lemma InvStep(site: Site, s: State, t: Step)
    requires Inv(site, s) && Enabled(s, t)
    ensures Inv(site, Apply(site, s, t))
  {
    if !ByClient(t) {
      InvHostStep(site, s, t);
      NestCall(site, s, t);
    } else {
      SoundStep(site, s, t);
      InvLocal(site, s, Apply(site, s, t), t.c);
      NestLocal(site, s, t);
    }
  }

  lemma {:induction false} InvRun(site: Site, s: State, steps: seq<Step>)
    requires Inv(site, s) && Legal(site, s, steps)
    ensures Inv(site, Run(site, s, steps))
    decreases |steps|
  {
    if steps != [] {
      InvStep(site, s, steps[0]);
      InvRun(site, Apply(site, s, steps[0]), steps[1..]);
    }
  }
}

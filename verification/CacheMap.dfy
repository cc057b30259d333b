/** Calls made one after the other: on fresh items the simple cache is a map from keys to bytes. */
module CacheMap {
  import opened Basics
  import opened SurrogateKeys
  import opened CacheProtocol
  import opened CacheTheorems

  /** The bytes a lookup of each key would stream. */
  function Contents(s: State): map<Key, seq<byte>> {
    map k | k in s.current && s.current[k] in s.items :: s.items[s.current[k]].content
  }

  datatype Op = Get(key: Key) | GetOrSet(key: Key) | PurgeKey(key: Key, scope: Scope)

  /** What an operation gave its caller. An operation that returned an error may have stored its value before. */
  datatype Answer = Missing | Value(bytes: seq<byte>) | Purged | Error(stored: bool)

  /** An operation, the value its closure got to the cache if it had to run, and the answer. */
  datatype Event = Event(op: Op, value: seq<byte>, answer: Answer)

  /** A purge drops its key, along with any key it is confused with through the POP name. */
  function AfterPurge(site: Site, m: map<Key, seq<byte>>, key: Key, scope: Scope): map<Key, seq<byte>> {
    map k | k in m && k != key && !Confused(site, key, scope, k) :: m[k]
  }

  /** The reference, a map in which the first value set for a key stays: what an event makes of it. */
  function MapAfter(site: Site, m: map<Key, seq<byte>>, e: Event): map<Key, seq<byte>> {
    match e.op
    case Get(_) => m
    case GetOrSet(k) => if k in m || e.answer == Error(false) then m else m[k := e.value]
    case PurgeKey(k, scope) => if e.answer.Error? then m else AfterPurge(site, m, k, scope)
  }

  /** The answers the reference allows. Only a call that had to set its key can fail and yet store. */
  predicate MapAnswers(m: map<Key, seq<byte>>, e: Event) {
    match e.op
    case Get(k) => e.answer == Error(false) || e.answer == (if k in m then Value(m[k]) else Missing)
    case GetOrSet(k) =>
      || e.answer == Error(false) || (e.answer == Error(true) && k !in m)
      || e.answer == Value(if k in m then m[k] else e.value)
    case PurgeKey(_, _) => e.answer == Error(false) || e.answer == Answer.Purged
  }

  function MapRun(site: Site, m: map<Key, seq<byte>>, events: seq<Event>): map<Key, seq<byte>>
    decreases |events|
  {
    if events == [] then m else MapRun(site, MapAfter(site, m, events[0]), events[1..])
  }

  predicate MapAllows(site: Site, m: map<Key, seq<byte>>, events: seq<Event>)
    decreases |events|
  {
    events != [] ==> MapAnswers(m, events[0]) && MapAllows(site, MapAfter(site, m, events[0]), events[1..])
  }

  /** No call is in progress. */
  ghost predicate Quiet(site: Site, s: State) {
    Inv(site, s) && AllDone(s)
  }

  /** An operation as it was carried out: its steps, and whether it returned an error. */
  datatype Performed = Performed(op: Op, steps: seq<Step>, failed: bool)

  /** A step in the middle of a call that nothing disturbs, not even its closure: the call's own, or the host's to
      a lookup that its own call has left behind. */
  predicate OfCall(t: Step, c: Cid) {
    t.GrantOrphan? || (ByClient(t) && t.c == c)
  }

  /** The call is over, and it failed or not. */
  predicate Ended(s: State, c: Cid, failed: bool) {
    c < |s.clients| && s.clients[c].phase.Done? && (failed <==> s.clients[c].phase.result.Err?)
  }

  /** The ways to carry out an operation alone: any host call of it may fail, and the closure may. */
  ghost predicate Performs(site: Site, s: State, p: Performed) {
    && Legal(site, s, p.steps)
    && match p.op
       case Get(_) => p.steps == []
       case GetOrSet(k) =>
         && p.steps != [] && p.steps[0] == Call(k)
         && (forall t :: t in p.steps[1..] ==> OfCall(t, |s.clients|))
         && Ended(Run(site, s, p.steps), |s.clients|, p.failed)
       case PurgeKey(k, scope) => p.steps == if p.failed then [] else [PurgeBy(SurrogateKey(site, k, scope))]
  }

  /** What the closure of a call got to the cache: the part of its entry that came through the move. */
  function ValueOf(s: State, c: Cid): seq<byte> {
    if c in s.made && c in s.drained then Delivered(s.made[c], s.drained[c]) else []
  }

  predicate Stored(s: State, c: Cid) {
    c in s.items && s.items[c].status.Complete?
  }

  function ItemBytes(s: State, o: Cid): seq<byte> {
    if o in s.items then s.items[o].content else []
  }

  /** The operation as its caller sees it: the bytes behind the stream it returned, or the error. */
  ghost function EventOf(site: Site, s: State, p: Performed): Event
    requires Performs(site, s, p)
  {
    var s', c := Run(site, s, p.steps), |s.clients|;
    var answer :=
      match p.op
      case Get(k) =>
        if p.failed then Error(false) else if k in s.current then Value(ItemBytes(s, s.current[k])) else Missing
      case GetOrSet(_) =>
        if p.failed then Error(Stored(s', c)) else Value(ItemBytes(s', s'.clients[c].phase.result.value))
      case PurgeKey(_, _) => if p.failed then Error(false) else Answer.Purged;
    Event(p.op, ValueOf(s', c), answer)
  }

  /** The cache in the middle of a call that nothing disturbs, against the cache before it. */
  ghost predicate Alone(s: State, m: State, key: Key) {
    var c := |s.clients|;
    && |m.clients| == c + 1 && m.clients[..c] == s.clients && m.clients[c].key == key
    && (c !in m.items ==> m.items == s.items && m.current == s.current)
    && (c in m.items ==>
          && key !in s.current && m.items == s.items[c := m.items[c]]
          && m.current == if m.items[c].status.Broken? then s.current else s.current[key := c])
    && AloneClient(s, m, key, m.clients[c].phase)
  }

  predicate AloneClient(s: State, m: State, key: Key, p: Phase) {
    && (p.Hit? ==> key in s.current && p.item == s.current[key])
    && (p.Done? && p.result.Ok? ==>
          if key in s.current then p.result.value == s.current[key]
          else p.result.value == |s.clients| && Stored(m, |s.clients|))
  }

  lemma AloneStart(site: Site, s: State, key: Key)
    requires Inv(site, s)
    ensures Alone(s, Apply(site, s, Call(key)), key)
  {
  }

  lemma AloneInsert(site: Site, s: State, m: State, key: Key, t: Step)
    requires Inv(site, m) && Alone(s, m, key) && Enabled(m, t) && t.Insert? && t.c == |s.clients|
    ensures Alone(s, Apply(site, m, t), key)
  {
    assert ClientOk(site, m, t.c) && HolderOk(m, key);
  }

  lemma AloneAppend(site: Site, s: State, m: State, key: Key, t: Step)
    requires Inv(site, m) && Alone(s, m, key) && Enabled(m, t) && t.AppendEntry? && t.c == |s.clients|
    ensures Alone(s, Apply(site, m, t), key)
  {
    assert ClientOk(site, m, t.c);
  }

  lemma AloneFinish(site: Site, s: State, m: State, key: Key, t: Step)
    requires Inv(site, m) && Alone(s, m, key) && Enabled(m, t) && t.Finish? && t.c == |s.clients|
    ensures Alone(s, Apply(site, m, t), key)
  {
    assert ClientOk(site, m, t.c);
  }

  /** A step that leaves items and current items alone keeps everything but the phase. */
  lemma AloneQuiet(site: Site, s: State, m: State, key: Key, t: Step)
    requires Inv(site, m) && Alone(s, m, key) && Enabled(m, t) && OfCall(t, |s.clients|)
    requires !t.Insert? && !t.AppendEntry? && !t.Finish?
    ensures Alone(s, Apply(site, m, t), key)
  {
    QuietStep(site, m, t);
    var m', c := Apply(site, m, t), |s.clients|;
    assert m'.clients[..c] == m.clients[..c];
    if t.Resolve? {
      AloneResolve(site, s, m, key, t);
    } else if !t.GrantOrphan? {
      assert ClientOk(site, m, c);
      AlonePhase(s, m, key, t);
    }
    assert AloneClient(s, m', key, m'.clients[c].phase);
  }

  lemma QuietFailure(site: Site, m: State, t: Step)
    requires t.RunClosure? && t.entry.None? && Enabled(m, t)
    ensures var m' := Effect(site, m, t);
            m'.items == m.items && m'.current == m.current && m'.clients == m.clients
  {
  }

  lemma QuietClosure(site: Site, m: State, t: Step)
    requires t.RunClosure? && t.entry.Some? && Enabled(m, t)
    ensures var m' := Effect(site, m, t);
            m'.items == m.items && m'.current == m.current && m'.clients == m.clients
  {
  }

  lemma QuietEffect(site: Site, m: State, t: Step)
    requires ByClient(t) && Enabled(m, t) && !t.Insert? && !t.AppendEntry? && !t.Finish?
    ensures var m' := Effect(site, m, t);
            m'.items == m.items && m'.current == m.current && m'.clients == m.clients
  {
    if t.RunClosure? && t.entry.None? {
      QuietFailure(site, m, t);
    } else if t.RunClosure? {
      QuietClosure(site, m, t);
    } else if t.Resolve? || t.StateQueryFails? {
    } else {
      assert t.LookupFails? || t.OpenStream? || t.ReadBack?;
    }
  }

  lemma QuietStep(site: Site, m: State, t: Step)
    requires Enabled(m, t) && (t.GrantOrphan? || ByClient(t)) && !t.Insert? && !t.AppendEntry? && !t.Finish?
    ensures var m' := Apply(site, m, t);
            && m'.items == m.items && m'.current == m.current
            && (t.GrantOrphan? ==> m'.clients == m.clients)
            && (ByClient(t) ==> m'.clients == m.clients[t.c := m.clients[t.c].(phase := After(m, t))])
  {
    if ByClient(t) {
      QuietEffect(site, m, t);
    }
  }

  lemma AloneResolve(site: Site, s: State, m: State, key: Key, t: Step)
    requires Inv(site, m) && Alone(s, m, key) && Enabled(m, t) && t.Resolve? && t.c == |s.clients|
    ensures AloneClient(s, Apply(site, m, t), key, After(m, t))
  {
    assert ClientOk(site, m, t.c);
  }

  lemma AlonePhase(s: State, m: State, key: Key, t: Step)
    requires Alone(s, m, key) && ByClient(t) && Enabled(m, t) && t.c == |s.clients|
    requires !t.Resolve? && !t.Insert? && !t.AppendEntry? && !t.Finish?
    requires t.ReadBack? ==> key !in s.current && Stored(m, t.c)
    ensures AloneClient(s, m, key, After(m, t))
  {
  }

  lemma {:induction false} AloneRun(site: Site, s: State, m: State, key: Key, steps: seq<Step>)
    requires Inv(site, m) && Alone(s, m, key) && Legal(site, m, steps)
    requires forall t :: t in steps ==> OfCall(t, |s.clients|)
    ensures Alone(s, Run(site, m, steps), key)
    decreases |steps|
  {
    if steps != [] {
      var t := steps[0];
      assert t in steps;
      InvStep(site, m, t);
      if t.Insert? { AloneInsert(site, s, m, key, t); }
      else if t.AppendEntry? { AloneAppend(site, s, m, key, t); }
      else if t.Finish? { AloneFinish(site, s, m, key, t); }
      else { AloneQuiet(site, s, m, key, t); }
      AloneRun(site, s, Apply(site, m, t), key, steps[1..]);
    }
  }

  lemma StoredContents(site: Site, s: State, m: State, key: Key)
    requires Inv(site, s) && Alone(s, m, key) && Stored(m, |s.clients|)
    ensures Contents(m) == Contents(s)[key := m.items[|s.clients|].content]
  {
    var c := |s.clients|;
    forall k ensures k in Contents(m) <==> k in Contents(s)[key := m.items[c].content] {
      assert CurrentOk(site, s, k);
    }
  }

  lemma UnstoredContents(site: Site, s: State, m: State, key: Key)
    requires Inv(site, s) && Alone(s, m, key) && (|s.clients| !in m.items || m.items[|s.clients|].status.Broken?)
    ensures Contents(m) == Contents(s)
  {
    var c := |s.clients|;
    assert c !in s.items;
    forall k | k in s.current ensures s.current[k] != c && s.current[k] in s.items {
      assert CurrentOk(site, s, k);
    }
  }

  /** What a finished call leaves: its item, if it got that far, is what a lookup of the key finds from now on,
      and everything else is as before. */
  lemma AloneContents(site: Site, s: State, m: State, key: Key, failed: bool)
    requires Inv(site, s) && Inv(site, m) && Alone(s, m, key) && Ended(m, |s.clients|, failed)
    ensures Contents(m) == if Stored(m, |s.clients|) then Contents(s)[key := ValueOf(m, |s.clients|)] else Contents(s)
    ensures Stored(m, |s.clients|) ==> key !in Contents(s)
  {
    assert ClientOk(site, m, |s.clients|);
    if Stored(m, |s.clients|) {
      StoredContents(site, s, m, key);
    } else {
      UnstoredContents(site, s, m, key);
    }
  }

  ghost predicate Refines(site: Site, s: State, p: Performed)
    requires Performs(site, s, p)
  {
    var s', e := Run(site, s, p.steps), EventOf(site, s, p);
    Quiet(site, s') && MapAnswers(Contents(s), e) && Contents(s') == MapAfter(site, Contents(s), e)
  }

  lemma GetOrSetRuns(site: Site, s: State, p: Performed)
    requires Quiet(site, s) && Performs(site, s, p) && p.op.GetOrSet?
    ensures Quiet(site, Run(site, s, p.steps)) && Alone(s, Run(site, s, p.steps), p.op.key)
  {
    var key, s' := p.op.key, Run(site, s, p.steps);
    InvStep(site, s, Call(key));
    AloneStart(site, s, key);
    AloneRun(site, s, Apply(site, s, Call(key)), key, p.steps[1..]);
    InvRun(site, s, p.steps);
    assert forall d :: 0 <= d < |s.clients| ==> s'.clients[d] == s'.clients[..|s.clients|][d];
  }

  lemma GetOrSetRefines(site: Site, s: State, p: Performed)
    requires Quiet(site, s) && Performs(site, s, p) && p.op.GetOrSet?
    ensures Refines(site, s, p)
  {
    var key, c, s' := p.op.key, |s.clients|, Run(site, s, p.steps);
    GetOrSetRuns(site, s, p);
    AloneContents(site, s, s', key, p.failed);
    if key in s.current {
      HitBytes(site, s, s', key);
    } else if !p.failed {
      assert ClientOk(site, s', c);
    }
  }

  lemma HitBytes(site: Site, s: State, m: State, key: Key)
    requires Inv(site, s) && Alone(s, m, key) && key in s.current
    ensures s.current[key] in s.items && ItemBytes(m, s.current[key]) == Contents(s)[key]
  {
    assert CurrentOk(site, s, key);
  }

  lemma PurgeRefines(site: Site, s: State, key: Key, scope: Scope)
    requires Quiet(site, s) && CollisionFree(site, Contents(s).Keys + {key})
    ensures var s' := Apply(site, s, PurgeBy(SurrogateKey(site, key, scope)));
            Contents(s') == AfterPurge(site, Contents(s), key, scope)
  {
    var sk := SurrogateKey(site, key, scope);
    var s' := Apply(site, s, PurgeBy(sk));
    forall k
      ensures k in s.current ==> k in Contents(s)
      ensures k in s.current ==> (k in CacheProtocol.Purged(s, sk) <==> k == key || Confused(site, key, scope, k))
    {
      if k in s.current {
        assert CurrentOk(site, s, k) && ClientOk(site, s, s.current[k]);
        assert k in Contents(s);
        PurgeReachExact(site, key, scope, k);
      }
    }
    var m := AfterPurge(site, Contents(s), key, scope);
    forall k ensures k in Contents(s') <==> k in m {
    }
  }

  /** Each operation, carried out alone and with whatever errors, does to the contents, and answers, what the map
      does: in particular one that returns an error leaves its key with the old value or with the new one. */
  lemma OpRefines(site: Site, s: State, p: Performed)
    requires Quiet(site, s) && Performs(site, s, p) && CollisionFree(site, Contents(s).Keys + {p.op.key})
    ensures Refines(site, s, p)
  {
    match p.op
    case Get(k) =>
      assert CurrentOk(site, s, k);
    case PurgeKey(k, scope) =>
      if !p.failed {
        var t := PurgeBy(SurrogateKey(site, k, scope));
        PurgeRefines(site, s, k, scope);
        InvStep(site, s, t);
        RunFirst(site, s, t, []);
        assert [t] + [] == [t];
      }
    case GetOrSet(_) =>
      GetOrSetRefines(site, s, p);
  }

  /** An own step taken next to last, when only the call's own phase decides what is enabled. */
  lemma NextOwn(site: Site, s: State, t: Step, rest: seq<Step>, c: Cid)
    requires Enabled(s, t) && OfCall(t, c) && Legal(site, Apply(site, s, t), rest)
    requires forall u :: u in rest ==> OfCall(u, c)
    ensures Legal(site, s, [t] + rest) && Run(site, s, [t] + rest) == Run(site, Apply(site, s, t), rest)
    ensures forall u :: u in [t] + rest ==> OfCall(u, c)
  {
    RunFirst(site, s, t, rest);
  }

  /** From the closure on, with good answers from the host: the entry gets to the cache as far as its move lets. */
  lemma FillsAlone(site: Site, s: State, c: Cid, entry: EntryBody, accepted: nat) returns (steps: seq<Step>)
    requires ClosureRuns(s, c)
    ensures Legal(site, s, steps) && (forall t :: t in steps ==> OfCall(t, c))
    ensures var s' := Run(site, s, steps);
            Ended(s', c, false) && c in s'.made && c in s'.drained && ValueOf(s', c) == Delivered(entry, accepted)
  {
    var s1 := Apply(site, s, RunClosure(c, Some(entry)));
    steps := InsertsAlone(site, s1, c, accepted);
    NextOwn(site, s, RunClosure(c, Some(entry)), steps, c);
    steps := [RunClosure(c, Some(entry))] + steps;
  }

  lemma InsertsAlone(site: Site, s: State, c: Cid, accepted: nat) returns (steps: seq<Step>)
    requires c < |s.clients| && s.clients[c].phase.Entry?
    ensures Legal(site, s, steps) && (forall t :: t in steps ==> OfCall(t, c))
    ensures var s' := Run(site, s, steps);
            Ended(s', c, false) && s'.made == s.made && c in s'.drained && s'.drained[c] == accepted
  {
    var s1 := Apply(site, s, Insert(c, None));
    var s2 := Apply(site, s1, AppendEntry(c, accepted));
    steps := EndsAlone(site, s2, c);
    NextOwn(site, s1, AppendEntry(c, accepted), steps, c);
    steps := [AppendEntry(c, accepted)] + steps;
    NextOwn(site, s, Insert(c, None), steps, c);
    steps := [Insert(c, None)] + steps;
  }

  lemma EndsAlone(site: Site, s: State, c: Cid) returns (steps: seq<Step>)
    requires c < |s.clients| && s.clients[c].phase.Appended?
    ensures Legal(site, s, steps) && (forall t :: t in steps ==> OfCall(t, c))
    ensures var s' := Run(site, s, steps);
            Ended(s', c, false) && s'.made == s.made && s'.drained == s.drained
  {
    var s1 := Apply(site, s, Finish(c, true));
    NextOwn(site, s1, ReadBack(c, None), [], c);
    NextOwn(site, s, Finish(c, true), [ReadBack(c, None)] + [], c);
    steps := [Finish(c, true)] + ([ReadBack(c, None)] + []);
  }

  lemma FindsAlone(site: Site, s: State, c: Cid) returns (steps: seq<Step>)
    requires c < |s.clients| && s.clients[c].phase.Hit?
    ensures Legal(site, s, steps) && (forall t :: t in steps ==> OfCall(t, c))
    ensures Ended(Run(site, s, steps), c, false)
  {
    NextOwn(site, s, OpenStream(c, None), [], c);
    steps := [OpenStream(c, None)] + [];
  }

  /** Every operation can be carried out without an error, for any entry of its closure and any cut of its move,
      unless the obligation of its key is leaked. */
  lemma Performable(site: Site, s: State, op: Op, entry: EntryBody, accepted: nat) returns (p: Performed)
    requires Quiet(site, s) && !Leaked(s, op.key)
    ensures Performs(site, s, p) && p.op == op && !p.failed
    ensures op.GetOrSet? && op.key !in s.current ==> EventOf(site, s, p).value == Delivered(entry, accepted)
  {
    match op
    case Get(_) => p := Performed(op, [], false);
    case PurgeKey(k, scope) =>
      var t := PurgeBy(SurrogateKey(site, k, scope));
      RunFirst(site, s, t, []);
      assert [t] + [] == [t];
      p := Performed(op, [t], false);
    case GetOrSet(k) =>
      var rest := SetAlone(site, s, k, entry, accepted);
      p := Performed(op, [Call(k)] + rest, false);
      assert p.steps[1..] == rest;
  }

  lemma SetAlone(site: Site, s: State, key: Key, entry: EntryBody, accepted: nat) returns (rest: seq<Step>)
    requires Quiet(site, s) && !Leaked(s, key)
    ensures Legal(site, s, [Call(key)] + rest) && forall t :: t in rest ==> OfCall(t, |s.clients|)
    ensures Ended(Run(site, s, [Call(key)] + rest), |s.clients|, false)
    ensures key !in s.current ==>
      ValueOf(Run(site, s, [Call(key)] + rest), |s.clients|) == Delivered(entry, accepted)
  {
    assert HolderOk(s, key) && NestOk(s, |s.clients|);
    var c := |s.clients|;
    var s1 := Apply(site, s, Call(key));
    var s2 := Apply(site, s1, Resolve(c));
    if key in s.current {
      rest := FindsAlone(site, s2, c);
    } else {
      rest := FillsAlone(site, s2, c, entry, accepted);
    }
    NextOwn(site, s1, Resolve(c), rest, c);
    rest := [Resolve(c)] + rest;
    RunFirst(site, s, Call(key), rest);
  }

  ghost predicate PerformsAll(site: Site, s: State, ps: seq<Performed>)
    decreases |ps|
  {
    ps != [] ==> Performs(site, s, ps[0]) && PerformsAll(site, Run(site, s, ps[0].steps), ps[1..])
  }

  /** The state after the operations, and the operations as the caller saw them. */
  ghost function Exec(site: Site, s: State, ps: seq<Performed>): (State, seq<Event>)
    requires PerformsAll(site, s, ps)
    decreases |ps|
  {
    if ps == [] then (s, [])
    else
      var (s', rest) := Exec(site, Run(site, s, ps[0].steps), ps[1..]);
      (s', [EventOf(site, s, ps[0])] + rest)
  }

  function Keys(ps: seq<Performed>): set<Key> {
    set p | p in ps :: p.op.key
  }

  /** Carrying out operations brings no key into the cache that is not in one of them. */
  lemma FirstOpRefines(site: Site, s: State, ps: seq<Performed>)
    requires ps != [] && Quiet(site, s) && PerformsAll(site, s, ps)
    requires CollisionFree(site, Contents(s).Keys + Keys(ps))
    ensures Refines(site, s, ps[0])
    ensures CollisionFree(site, Contents(Run(site, s, ps[0].steps)).Keys + Keys(ps[1..]))
  {
    assert ps[0] in ps;
    FewerKeys(site, Contents(s).Keys + {ps[0].op.key}, Contents(s).Keys + Keys(ps));
    OpRefines(site, s, ps[0]);
    assert Keys(ps[1..]) <= Keys(ps) by {
      assert forall p :: p in ps[1..] ==> p in ps;
    }
    var after := Contents(Run(site, s, ps[0].steps)).Keys;
    assert after <= Contents(s).Keys + {ps[0].op.key};
    FewerKeys(site, after + Keys(ps[1..]), Contents(s).Keys + Keys(ps));
  }

  lemma FewerKeys(site: Site, few: set<Key>, many: set<Key>)
    requires few <= many && CollisionFree(site, many)
    ensures CollisionFree(site, few)
  {
  }

  /** Cache agrees with a map: any sequence of `get`, `get_or_set` and purges, whatever fails in it, leaves the
      contents of the map that went through the same events, and gives answers the map gives. */
  lemma {:induction false} SequentialRefinesMap(site: Site, s: State, ps: seq<Performed>)
    requires Quiet(site, s) && PerformsAll(site, s, ps)
    requires CollisionFree(site, Contents(s).Keys + Keys(ps))
    ensures var (s', events) := Exec(site, s, ps);
            Contents(s') == MapRun(site, Contents(s), events) && MapAllows(site, Contents(s), events)
    decreases |ps|
  {
    if ps != [] {
      FirstOpRefines(site, s, ps);
      SequentialRefinesMap(site, Run(site, s, ps[0].steps), ps[1..]);
      var (s', rest) := Exec(site, Run(site, s, ps[0].steps), ps[1..]);
      assert ([EventOf(site, s, ps[0])] + rest)[1..] == rest;
    }
  }

  /** A purge drops the item of its own key, and nothing else, exactly when no key that is confused with it is
      stored: a condition on the stored keys and the POP name alone. */
  lemma PurgeExact(site: Site, s: State, key: Key, scope: Scope)
    requires Quiet(site, s) && CollisionFree(site, Contents(s).Keys + {key})
    ensures var s' := Apply(site, s, PurgeBy(SurrogateKey(site, key, scope)));
            && key !in Contents(s')
            && (Contents(s') == Contents(s) - {key} <==>
                forall k :: k in Contents(s) && k != key ==> !Confused(site, key, scope, k))
  {
    PurgeRefines(site, s, key, scope);
    PurgedExact(site, Contents(s), key, scope);
  }

  lemma PurgedExact(site: Site, m: map<Key, seq<byte>>, key: Key, scope: Scope)
    ensures AfterPurge(site, m, key, scope) == m - {key} <==>
            forall k :: k in m && k != key ==> !Confused(site, key, scope, k)
  {
    if AfterPurge(site, m, key, scope) == m - {key} {
      forall k | k in m && k != key ensures !Confused(site, key, scope, k) {
        assert k in m - {key};
      }
    }
  }
}

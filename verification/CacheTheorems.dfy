/** What holds of every run of concurrent `get_or_set_with` calls: how many steps they take, when an obligation is
    leaked, and how often a closure runs. */
module CacheTheorems {
  import opened Basics
  import StreamLog
  import opened SurrogateKeys
  import opened CacheProtocol

  /** How many more steps a call can take. */
  function Rank(p: Phase): nat {
    match p
    case Looking => 6
    case Obliged => 5
    case Entry(_) => 4
    case Inserted(_) => 3
    case Appended => 2
    case Finished => 1
    case Hit(_) => 1
    case Done(_) => 0
  }

  function Measure(clients: seq<Client>): nat {
    if clients == [] then 0 else Rank(clients[0].phase) + Measure(clients[1..])
  }

  lemma {:induction false} MeasureUpdate(clients: seq<Client>, c: Cid, client: Client)
    requires c < |clients|
    ensures Measure(clients[c := client]) + Rank(clients[c].phase) == Measure(clients) + Rank(client.phase)
  {
    if c == 0 {
      assert clients[c := client][1..] == clients[1..];
    } else {
      assert clients[c := client][1..] == clients[1..][c - 1 := client];
      MeasureUpdate(clients[1..], c - 1, client);
    }
  }

  lemma {:induction false} MeasureSnoc(clients: seq<Client>, client: Client)
    ensures Measure(clients + [client]) == Measure(clients) + Rank(client.phase)
  {
    if clients == [] {
      assert Measure([client]) == Rank(client.phase) + Measure([]);
    } else {
      assert (clients + [client])[1..] == clients[1..] + [client];
      MeasureSnoc(clients[1..], client);
    }
  }

  lemma StepMeasure(site: Site, s: State, t: Step)
    requires Enabled(s, t)
    ensures ByClient(t) ==> Measure(Apply(site, s, t).clients) < Measure(s.clients)
    ensures t.Call? || t.CallFrom? ==> Measure(Apply(site, s, t).clients) == Measure(s.clients) + 6
    ensures t.PurgeBy? || t.Expire? || t.GrantOrphan? ==> Apply(site, s, t).clients == s.clients
  {
    if ByClient(t) {
      MeasureUpdate(s.clients, t.c, s.clients[t.c].(phase := After(s, t)));
    } else if t.Call? || t.CallFrom? {
      MeasureSnoc(s.clients, Client(t.key, Looking));
    }
  }

  function ClientSteps(steps: seq<Step>): nat {
    if steps == [] then 0 else (if ByClient(steps[0]) then 1 else 0) + ClientSteps(steps[1..])
  }

  function Calls(steps: seq<Step>): nat {
    if steps == [] then 0 else (if steps[0].Call? || steps[0].CallFrom? then 1 else 0) + Calls(steps[1..])
  }

  lemma {:induction false} RunMeasure(site: Site, s: State, steps: seq<Step>)
    requires Legal(site, s, steps)
    ensures ClientSteps(steps) + Measure(Run(site, s, steps).clients) <= Measure(s.clients) + 6 * Calls(steps)
    decreases |steps|
  {
    if steps != [] {
      StepMeasure(site, s, steps[0]);
      RunMeasure(site, Apply(site, s, steps[0]), steps[1..]);
    }
  }

  predicate AllDone(s: State) {
    forall c :: 0 <= c < |s.clients| ==> s.clients[c].phase.Done?
  }

  /** The next step of a client that need not wait, with the host's and the closure's answers all good. */
  function NextStep(s: State, c: Cid): Step
    requires c < |s.clients| && !s.clients[c].phase.Done?
  {
    match s.clients[c].phase
    case Looking => Resolve(c)
    case Hit(_) => OpenStream(c, None)
    case Obliged => RunClosure(c, Some(StreamLog.View([], [], [])))
    case Entry(_) => Insert(c, None)
    case Inserted(body) => AppendEntry(c, |body.pending|)
    case Appended => Finish(c, true)
    case _ => ReadBack(c, None)
  }

  lemma EmptyInv(site: Site)
    ensures Inv(site, EMPTY)
  {
  }

  /** The host gives the obligation for the key to a lookup whose state query has failed. */
  predicate Leak(s: State, t: Step, key: Key)
    requires Enabled(s, t)
  {
    t.GrantOrphan? && s.clients[t.c].key == key && key !in s.current
  }

  ghost predicate LeakFree(site: Site, s: State, steps: seq<Step>, key: Key)
    requires Legal(site, s, steps)
    decreases |steps|
  {
    steps != [] ==> !Leak(s, steps[0], key) && LeakFree(site, Apply(site, s, steps[0]), steps[1..], key)
  }

  lemma LeakOtherKey(site: Site, s: State, t: Step, key: Key)
    requires Inv(site, s) && Enabled(s, t) && ByClient(t) && key != s.clients[t.c].key
    ensures Leaked(Apply(site, s, t), key) <==> Leaked(s, key)
  {
    assert HolderOk(s, key);
    SoundStep(site, s, t);
    Elsewhere(s.holder, Apply(site, s, t).holder, s.clients[t.c].key, key);
  }

  lemma LeakClosure(site: Site, s: State, t: Step)
    requires Ready(site, s, t) && t.RunClosure?
    ensures Leaked(Apply(site, s, t), s.clients[t.c].key) <==> Leaked(s, s.clients[t.c].key)
  {
  }

  lemma LeakInsert(site: Site, s: State, t: Step)
    requires Ready(site, s, t) && t.Insert?
    ensures Leaked(Apply(site, s, t), s.clients[t.c].key) <==> Leaked(s, s.clients[t.c].key)
  {
  }

  lemma LeakHost(site: Site, s: State, t: Step, key: Key)
    requires Inv(site, s) && Enabled(s, t) && !ByClient(t)
    ensures Leaked(Apply(site, s, t), key) <==> Leaked(s, key) || Leak(s, t, key)
  {
    assert HolderOk(s, key);
    if t.GrantOrphan? {
      assert Failed(s.clients[t.c].phase);
    }
  }

  lemma LeakQuiet(site: Site, s: State, t: Step)
    requires Ready(site, s, t) && !t.RunClosure? && !t.Insert?
    ensures Leaked(Apply(site, s, t), s.clients[t.c].key) <==> Leaked(s, s.clients[t.c].key)
  {
    var key := s.clients[t.c].key;
    if key in s.holder {
      assert s.holder[key] != t.c;
      assert Apply(site, s, t).holder == s.holder;
    }
  }

  lemma LeakStep(site: Site, s: State, t: Step, key: Key)
    requires Inv(site, s) && Enabled(s, t)
    ensures Leaked(Apply(site, s, t), key) <==> Leaked(s, key) || Leak(s, t, key)
  {
    if !ByClient(t) {
      LeakHost(site, s, t, key);
    } else if key == s.clients[t.c].key {
      assert Ready(site, s, t);
      if t.RunClosure? { LeakClosure(site, s, t); }
      else if t.Insert? { LeakInsert(site, s, t); }
      else { LeakQuiet(site, s, t); }
    } else {
      LeakOtherKey(site, s, t, key);
    }
  }

  lemma {:induction false} LeakRun(site: Site, s: State, steps: seq<Step>, key: Key)
    requires Inv(site, s) && Legal(site, s, steps)
    ensures Leaked(Run(site, s, steps), key) <==> Leaked(s, key) || !LeakFree(site, s, steps, key)
    decreases |steps|
  {
    if steps != [] {
      LeakStep(site, s, steps[0], key);
      InvStep(site, s, steps[0]);
      LeakRun(site, Apply(site, s, steps[0]), steps[1..], key);
    }
  }

  lemma BlockedStep(site: Site, s: State, t: Step, c: Cid)
    requires Inv(site, s) && Enabled(s, t) && c < |s.clients| && Leaked(s, s.clients[c].key)
    requires s.clients[c].phase.Looking? || Failed(s.clients[c].phase)
    ensures var s' := Apply(site, s, t);
            && c < |s'.clients| && s'.clients[c].key == s.clients[c].key
            && (s'.clients[c].phase.Looking? || Failed(s'.clients[c].phase))
  {
    assert HolderOk(s, s.clients[c].key);
  }

  /** A call that waits on a leaked key waits for ever or ends in an error, whatever anyone does. */
  lemma {:induction false} LeakedBlocks(site: Site, s: State, steps: seq<Step>, c: Cid)
    requires Inv(site, s) && Legal(site, s, steps) && c < |s.clients| && Leaked(s, s.clients[c].key)
    requires s.clients[c].phase.Looking? || Failed(s.clients[c].phase)
    ensures var s' := Run(site, s, steps);
            c < |s'.clients| && (s'.clients[c].phase.Looking? || Failed(s'.clients[c].phase))
    decreases |steps|
  {
    if steps != [] {
      LeakStep(site, s, steps[0], s.clients[c].key);
      InvStep(site, s, steps[0]);
      BlockedStep(site, s, steps[0], c);
      LeakedBlocks(site, Apply(site, s, steps[0]), steps[1..], c);
    }
  }

  /** Two clients that both hold the obligation of one key. */
  predicate BothObliged(s: State, c: Cid, d: Cid) {
    && c < |s.clients| && d < |s.clients| && s.clients[c].key == s.clients[d].key
    && HoldsObligation(s.clients[c].phase) && HoldsObligation(s.clients[d].phase)
  }

  /** At every moment of every run: a call that has returned holds the obligation of a key if and only if the
      host has given it to a lookup whose state query had failed. No two calls hold the obligation of the same
      key, and a closure can only be run while the key has no usable item and its caller holds the obligation. */
  lemma ObligationLeaksExact(site: Site, steps: seq<Step>)
    requires Legal(site, EMPTY, steps)
    ensures var s := Run(site, EMPTY, steps);
            && (forall key :: Leaked(s, key) <==> !LeakFree(site, EMPTY, steps, key))
            && (forall c, d :: BothObliged(s, c, d) ==> c == d)
            && (forall c: Cid, entry :: Enabled(s, RunClosure(c, entry)) ==>
                  s.clients[c].key !in s.current && s.clients[c].key in s.holder && s.holder[s.clients[c].key] == c)
  {
    EmptyInv(site);
    InvRun(site, EMPTY, steps);
    var s := Run(site, EMPTY, steps);
    forall key ensures Leaked(s, key) <==> !LeakFree(site, EMPTY, steps, key) {
      LeakRun(site, EMPTY, steps, key);
    }
    forall c, d | BothObliged(s, c, d) ensures c == d {
      assert ClientOk(site, s, c) && ClientOk(site, s, d);
    }
    forall c: Cid, entry | Enabled(s, RunClosure(c, entry))
      ensures s.clients[c].key !in s.current
      ensures s.clients[c].key in s.holder && s.holder[s.clients[c].key] == c
    {
      assert ClientOk(site, s, c) && HolderOk(s, s.clients[c].key);
    }
  }

  /** No state query of a call for the key fails. */
  ghost predicate QueriesAnswered(site: Site, s: State, steps: seq<Step>, key: Key)
    requires Legal(site, s, steps)
    decreases |steps|
  {
    steps != [] ==>
      && !(steps[0].StateQueryFails? && s.clients[steps[0].c].key == key)
      && QueriesAnswered(site, Apply(site, s, steps[0]), steps[1..], key)
  }

  ghost predicate NoOrphans(s: State, key: Key) {
    forall c :: c in s.orphans && c < |s.clients| ==> s.clients[c].key != key
  }

  lemma OrphansAtClosure(site: Site, s: State, t: Step)
    requires t.RunClosure? && Enabled(s, t)
    ensures Effect(site, s, t).orphans == s.orphans
  {
  }

  lemma OrphansAtInsert(site: Site, s: State, t: Step)
    requires t.Insert? && Enabled(s, t)
    ensures Effect(site, s, t).orphans == s.orphans
  {
  }

  lemma OrphansStay(site: Site, s: State, t: Step)
    requires ByClient(t) && Enabled(s, t) && !t.StateQueryFails?
    ensures Effect(site, s, t).orphans == s.orphans
  {
    if t.RunClosure? { OrphansAtClosure(site, s, t); }
    else if t.Insert? { OrphansAtInsert(site, s, t); }
  }

  lemma NoOrphansStep(site: Site, s: State, t: Step, key: Key)
    requires Inv(site, s) && Enabled(s, t) && NoOrphans(s, key)
    requires !(t.StateQueryFails? && s.clients[t.c].key == key)
    ensures NoOrphans(Apply(site, s, t), key)
  {
    if ByClient(t) {
      if t.StateQueryFails? {
        assert Apply(site, s, t).orphans == s.orphans + {t.c};
      } else {
        OrphansStay(site, s, t);
      }
      KeysStay(site, s, t);
    }
  }

  lemma KeysStay(site: Site, s: State, t: Step)
    requires ByClient(t) && Enabled(s, t)
    ensures var s' := Apply(site, s, t);
            |s'.clients| == |s.clients| && forall c :: 0 <= c < |s.clients| ==> s'.clients[c].key == s.clients[c].key
  {
  }

  lemma {:induction false} AnsweredRun(site: Site, s: State, steps: seq<Step>, key: Key)
    requires Inv(site, s) && Legal(site, s, steps) && NoOrphans(s, key) && QueriesAnswered(site, s, steps, key)
    ensures LeakFree(site, s, steps, key)
    decreases |steps|
  {
    if steps != [] {
      NoOrphansStep(site, s, steps[0], key);
      InvStep(site, s, steps[0]);
      AnsweredRun(site, Apply(site, s, steps[0]), steps[1..], key);
    }
  }

  /** A key whose lookups all get the answer to their state query is not leaked. */
  lemma AnsweredIsLeakFree(site: Site, steps: seq<Step>, key: Key)
    requires Legal(site, EMPTY, steps) && QueriesAnswered(site, EMPTY, steps, key)
    ensures LeakFree(site, EMPTY, steps, key)
  {
    EmptyInv(site);
    AnsweredRun(site, EMPTY, steps, key);
  }

  /** The key has a usable item, or an entry for it is on its way to the host. */
  function Provided(s: State, key: Key): nat {
    if key in s.current then 1
    else if key in s.holder && s.holder[key] < |s.clients| && s.clients[s.holder[key]].phase.Entry? then 1
    else 0
  }

  /** The step costs the key an item or an entry: the closure, the insertion or the finish failed, or the item
      was purged or expired. */
  function Setback(s: State, t: Step, key: Key): nat
    requires Enabled(s, t)
  {
    var lost :=
      match t
      case RunClosure(c, entry) => s.clients[c].key == key && entry.None?
      case Insert(c, failure) => s.clients[c].key == key && failure.Some?
      case Finish(c, ok) => !ok && key in s.current && s.current[key] == c
      case PurgeBy(surrogate) => key in Purged(s, surrogate)
      case Expire(k) => k == key && key in s.current
      case _ => false;
    if lost then 1 else 0
  }

  ghost function Setbacks(site: Site, s: State, steps: seq<Step>, key: Key): nat
    requires Legal(site, s, steps)
    decreases |steps|
  {
    if steps == [] then 0
    else Setback(s, steps[0], key) + Setbacks(site, Apply(site, s, steps[0]), steps[1..], key)
  }

  ghost predicate Counted(site: Site, s: State, t: Step, key: Key)
    requires Enabled(s, t)
  {
    var s' := Apply(site, s, t);
    Runs(s', key) + Provided(s, key) == Runs(s, key) + Setback(s, t, key) + Provided(s', key)
  }

  lemma CountOtherKey(site: Site, s: State, t: Step, key: Key)
    requires Inv(site, s) && Enabled(s, t) && ByClient(t) && key != s.clients[t.c].key
    ensures Counted(site, s, t, key)
  {
    var s', k := Apply(site, s, t), s.clients[t.c].key;
    SoundStep(site, s, t);
    Elsewhere(s.holder, s'.holder, k, key);
    Elsewhere(s.current, s'.current, k, key);
    Elsewhere(s.runs, s'.runs, k, key);
    assert HolderOk(s, key) && CurrentOk(site, s, key) && ClientOk(site, s, t.c);
  }

  lemma CountClosureFailure(site: Site, s: State, t: Step)
    requires Ready(site, s, t) && t.RunClosure? && t.entry.None?
    ensures Counted(site, s, t, s.clients[t.c].key)
  {
  }

  lemma CountRunClosure(site: Site, s: State, t: Step)
    requires Ready(site, s, t) && t.RunClosure? && t.entry.Some?
    ensures Counted(site, s, t, s.clients[t.c].key)
  {
  }

  lemma CountInsert(site: Site, s: State, t: Step)
    requires Ready(site, s, t) && t.Insert?
    ensures Counted(site, s, t, s.clients[t.c].key)
  {
  }

  lemma CountQuiet(site: Site, s: State, t: Step)
    requires Ready(site, s, t) && !t.RunClosure? && !t.Insert?
    ensures Counted(site, s, t, s.clients[t.c].key)
  {
  }

  lemma CountSameKey(site: Site, s: State, t: Step)
    requires Inv(site, s) && Enabled(s, t) && ByClient(t)
    ensures Counted(site, s, t, s.clients[t.c].key)
  {
    assert Ready(site, s, t);
    if t.RunClosure? && t.entry.None? { CountClosureFailure(site, s, t); }
    else if t.RunClosure? { CountRunClosure(site, s, t); }
    else if t.Insert? { CountInsert(site, s, t); }
    else { CountQuiet(site, s, t); }
  }

  lemma CountEvict(site: Site, s: State, t: Step, key: Key)
    requires Inv(site, s) && (t.PurgeBy? || t.Expire?)
    ensures Counted(site, s, t, key)
  {
    assert HolderOk(s, key);
  }

  lemma CountCall(site: Site, s: State, t: Step, key: Key)
    requires Inv(site, s) && (t.Call? || t.CallFrom?) && Enabled(s, t)
    ensures Counted(site, s, t, key)
  {
    assert HolderOk(s, key);
  }

  lemma CountGrant(site: Site, s: State, c: Cid, key: Key)
    requires Inv(site, s) && Enabled(s, GrantOrphan(c))
    ensures Counted(site, s, GrantOrphan(c), key)
  {
    assert HolderOk(s, key) && Failed(s.clients[c].phase);
  }

  lemma StepCount(site: Site, s: State, t: Step, key: Key)
    requires Inv(site, s) && Enabled(s, t)
    ensures Counted(site, s, t, key)
  {
    if ByClient(t) {
      if key == s.clients[t.c].key { CountSameKey(site, s, t); } else { CountOtherKey(site, s, t, key); }
    } else if t.PurgeBy? || t.Expire? {
      CountEvict(site, s, t, key);
    } else if t.GrantOrphan? {
      CountGrant(site, s, t.c, key);
    } else {
      CountCall(site, s, t, key);
    }
  }

  /** The exact number of closure runs for a key, in every run from any reachable state: one for each setback
      of the key, and one more if the key came to have an item or an entry on the way that it did not have. */
  lemma {:induction false} ClosureCountExact(site: Site, s: State, steps: seq<Step>, key: Key)
    requires Inv(site, s) && Legal(site, s, steps)
    ensures var s' := Run(site, s, steps);
            Runs(s', key) + Provided(s, key) == Runs(s, key) + Setbacks(site, s, steps, key) + Provided(s', key)
    decreases |steps|
  {
    if steps != [] {
      StepCount(site, s, steps[0], key);
      InvStep(site, s, steps[0]);
      ClosureCountExact(site, Apply(site, s, steps[0]), steps[1..], key);
    }
  }

  lemma CachedStep(site: Site, s: State, t: Step, key: Key)
    requires Inv(site, s) && Enabled(s, t) && Setback(s, t, key) == 0 && key in s.current
    ensures key in Apply(site, s, t).current && Apply(site, s, t).current[key] == s.current[key]
  {
    if ByClient(t) {
      assert ClientOk(site, s, t.c) && HolderOk(s, s.clients[t.c].key);
    }
  }

  /** While a key suffers no setback, what is current for it stays current, and no closure runs for it. */
  lemma {:induction false} CachedStays(site: Site, s: State, steps: seq<Step>, key: Key)
    requires Inv(site, s) && Legal(site, s, steps) && Setbacks(site, s, steps, key) == 0
    requires key in s.current
    ensures var s' := Run(site, s, steps);
            key in s'.current && s'.current[key] == s.current[key] && Runs(s', key) == Runs(s, key)
    decreases |steps|
  {
    if steps != [] {
      CachedStep(site, s, steps[0], key);
      InvStep(site, s, steps[0]);
      StepCount(site, s, steps[0], key);
      CachedStays(site, Apply(site, s, steps[0]), steps[1..], key);
    }
  }

  /** Every item ever inserted for the key is the current one. */
  ghost predicate OneItem(s: State, key: Key) {
    forall o :: o in s.items && s.items[o].key == key ==> key in s.current && s.current[key] == o
  }

  /** No call for the key has returned an error. */
  ghost predicate NoErrors(s: State, key: Key) {
    forall c :: 0 <= c < |s.clients| && s.clients[c].key == key && s.clients[c].phase.Done? ==>
      s.clients[c].phase.result.Ok?
  }

  /** A step of a client for the key that gets a good answer; any step of the others. */
  predicate Succeeds(s: State, t: Step, key: Key)
    requires Enabled(s, t)
  {
    ByClient(t) && s.clients[t.c].key == key ==> !After(s, t).Done? || After(s, t).result.Ok?
  }

  ghost predicate AllSucceed(site: Site, s: State, steps: seq<Step>, key: Key)
    requires Legal(site, s, steps)
    decreases |steps|
  {
    steps != [] ==> Succeeds(s, steps[0], key) && AllSucceed(site, Apply(site, s, steps[0]), steps[1..], key)
  }

  lemma OneItemOwn(site: Site, s: State, t: Step)
    requires Ready(site, s, t) && Setback(s, t, s.clients[t.c].key) == 0 && OneItem(s, s.clients[t.c].key)
    ensures OneItem(Apply(site, s, t), s.clients[t.c].key)
  {
  }

  lemma OneItemOther(site: Site, s: State, t: Step, key: Key)
    requires Inv(site, s) && Enabled(s, t) && ByClient(t) && s.clients[t.c].key != key && OneItem(s, key)
    ensures OneItem(Apply(site, s, t), key)
  {
    var s', k := Apply(site, s, t), s.clients[t.c].key;
    SoundStep(site, s, t);
    assert ClientOk(site, s', t.c);
    Elsewhere(s.current, s'.current, k, key);
    forall o | o in s'.items && s'.items[o].key == key ensures key in s'.current && s'.current[key] == o {
      Elsewhere(s.items, s'.items, t.c, o);
    }
  }

  lemma OneItemHost(site: Site, s: State, t: Step, key: Key)
    requires Enabled(s, t) && !ByClient(t) && Setback(s, t, key) == 0 && OneItem(s, key)
    ensures OneItem(Apply(site, s, t), key)
  {
    HostKeeps(site, s, t, key);
  }

  lemma EvictKeeps(site: Site, s: State, t: Step, key: Key)
    requires (t.PurgeBy? || t.Expire?) && Setback(s, t, key) == 0
    ensures Apply(site, s, t).items == s.items
    ensures key in s.current ==> key in Apply(site, s, t).current && Apply(site, s, t).current[key] == s.current[key]
  {
  }

  lemma HostKeeps(site: Site, s: State, t: Step, key: Key)
    requires Enabled(s, t) && !ByClient(t) && Setback(s, t, key) == 0
    ensures Apply(site, s, t).items == s.items
    ensures key in s.current ==> key in Apply(site, s, t).current && Apply(site, s, t).current[key] == s.current[key]
  {
    match t
    case Call(_) =>
    case CallFrom(_, _) =>
    case GrantOrphan(_) =>
    case PurgeBy(_) => EvictKeeps(site, s, t, key);
    case Expire(_) => EvictKeeps(site, s, t, key);
  }

  lemma OneItemStep(site: Site, s: State, t: Step, key: Key)
    requires Inv(site, s) && Enabled(s, t) && Setback(s, t, key) == 0 && OneItem(s, key)
    ensures OneItem(Apply(site, s, t), key)
  {
    if ByClient(t) {
      assert Ready(site, s, t);
      if s.clients[t.c].key == key { OneItemOwn(site, s, t); } else { OneItemOther(site, s, t, key); }
    } else {
      OneItemHost(site, s, t, key);
    }
  }

  lemma {:induction false} OneItemRun(site: Site, s: State, steps: seq<Step>, key: Key)
    requires Inv(site, s) && Legal(site, s, steps) && Setbacks(site, s, steps, key) == 0 && OneItem(s, key)
    ensures OneItem(Run(site, s, steps), key)
    decreases |steps|
  {
    if steps != [] {
      OneItemStep(site, s, steps[0], key);
      InvStep(site, s, steps[0]);
      OneItemRun(site, Apply(site, s, steps[0]), steps[1..], key);
    }
  }

  lemma NoErrorsStep(site: Site, s: State, t: Step, key: Key)
    requires Enabled(s, t) && Succeeds(s, t, key) && NoErrors(s, key)
    ensures NoErrors(Apply(site, s, t), key)
  {
  }

  lemma {:induction false} NoErrorsRun(site: Site, s: State, steps: seq<Step>, key: Key)
    requires Legal(site, s, steps) && AllSucceed(site, s, steps, key) && NoErrors(s, key)
    ensures NoErrors(Run(site, s, steps), key)
    decreases |steps|
  {
    if steps != [] {
      NoErrorsStep(site, s, steps[0], key);
      NoErrorsRun(site, Apply(site, s, steps[0]), steps[1..], key);
    }
  }

  /** The single item holds what reached the host of the entry the closure made, and that is all of it exactly
      when the entry was unread and the move into `append` was not cut short. */
  ghost predicate HoldsEntry(s: State, o: Cid) {
    && o in s.items && o in s.made && o in s.drained
    && s.items[o].status == Complete
    && s.items[o].content == Delivered(s.made[o], s.drained[o])
    && (s.items[o].content == s.made[o].Total() <==> Whole(s.made[o], s.drained[o]))
  }

  /** Nothing of the key is in the cache, nobody is obliged for it and nobody has asked for it. */
  ghost predicate Unused(s: State, key: Key) {
    && key !in s.current && key !in s.holder
    && (forall o :: o in s.items ==> s.items[o].key != key)
    && (forall c :: 0 <= c < |s.clients| ==> s.clients[c].key != key)
  }

  /** Request collapsing. Any number of calls for a key that starts with no item and nobody obliged, arbitrarily
      interleaved with calls for other keys, without a setback for the key: at most one closure runs for it, and
      every call that returns a stream returns one of the single item, which holds that closure's entry as soon
      as its inserter is done. */
  lemma RequestCollapsing(site: Site, s0: State, steps: seq<Step>, key: Key)
    requires Inv(site, s0) && Legal(site, s0, steps) && Setbacks(site, s0, steps, key) == 0
    requires key !in s0.current && key !in s0.holder && forall o :: o in s0.items ==> s0.items[o].key != key
    ensures var s := Run(site, s0, steps);
      && Runs(s, key) == Runs(s0, key) + Provided(s, key)
      && forall c, o: Cid :: 0 <= c < |s.clients| && s.clients[c] == Client(key, Done(Ok(o))) ==>
           && key in s.current && s.current[key] == o && Runs(s, key) == Runs(s0, key) + 1
           && o in s.items && o in s.made
           && (o < |s.clients| && s.clients[o].phase.Done? ==> HoldsEntry(s, o))
  {
    var s := Run(site, s0, steps);
    InvRun(site, s0, steps);
    ClosureCountExact(site, s0, steps, key);
    OneItemRun(site, s0, steps, key);
    forall c, o: Cid | 0 <= c < |s.clients| && s.clients[c] == Client(key, Done(Ok(o)))
      ensures key in s.current && s.current[key] == o && o in s.items && o in s.made
      ensures o < |s.clients| && s.clients[o].phase.Done? ==> HoldsEntry(s, o)
    {
      assert ClientOk(site, s, c) && ClientOk(site, s, o) && CurrentOk(site, s, key);
      if s.clients[o].phase.Done? {
        DeliveredExact(s.made[o], s.drained[o]);
      }
    }
  }

  /** The case in which nothing fails for the key: once all its calls have returned, and there was one, exactly
      one closure ran, and every caller got the item with its entry. */
  lemma CollapsesToOne(site: Site, s0: State, steps: seq<Step>, key: Key)
    requires Inv(site, s0) && Legal(site, s0, steps)
    requires Setbacks(site, s0, steps, key) == 0 && AllSucceed(site, s0, steps, key)
    requires Unused(s0, key) && AllDone(Run(site, s0, steps))
    requires exists c :: 0 <= c < |Run(site, s0, steps).clients| && Run(site, s0, steps).clients[c].key == key
    ensures var s := Run(site, s0, steps);
      && Runs(s, key) == Runs(s0, key) + 1
      && key in s.current && HoldsEntry(s, s.current[key])
      && forall c :: 0 <= c < |s.clients| && s.clients[c].key == key ==> s.clients[c].phase == Done(Ok(s.current[key]))
  {
    var s := Run(site, s0, steps);
    InvRun(site, s0, steps);
    RequestCollapsing(site, s0, steps, key);
    NoErrorsRun(site, s0, steps, key);
    var c :| 0 <= c < |s.clients| && s.clients[c].key == key;
    var o := ReturnedItem(s, c, key);
    assert ClientOk(site, s, c);
    forall d | 0 <= d < |s.clients| && s.clients[d].key == key ensures s.clients[d].phase == Done(Ok(o)) {
      var o' := ReturnedItem(s, d, key);
    }
  }

  lemma ReturnedItem(s: State, c: Cid, key: Key) returns (o: Cid)
    requires AllDone(s) && NoErrors(s, key) && c < |s.clients| && s.clients[c].key == key
    ensures s.clients[c] == Client(key, Done(Ok(o)))
  {
    o := s.clients[c].phase.result.value;
  }

  /** A run in which all goes well for the key. */
  ghost predicate Smooth(site: Site, s: State, steps: seq<Step>, key: Key, s': State) {
    && Legal(site, s, steps) && Run(site, s, steps) == s'
    && Setbacks(site, s, steps, key) == 0 && AllSucceed(site, s, steps, key)
  }

  lemma SmoothFirst(site: Site, s: State, t: Step, rest: seq<Step>, key: Key, s': State)
    requires Enabled(s, t) && Setback(s, t, key) == 0 && Succeeds(s, t, key)
    requires Smooth(site, Apply(site, s, t), rest, key, s')
    ensures Smooth(site, s, [t] + rest, key, s')
  {
    RunFirst(site, s, t, rest);
    assert ([t] + rest)[1..] == rest;
  }

  /** The first of two callers is in the given phase, the second still waits, and the item exists. */
  function TwoCallers(site: Site, key: Key, first: Phase, item: Item, entry: EntryBody, drained: map<Cid, nat>): State {
    State([Client(key, first), Client(key, Looking)], map[key := 0], map[], map[0 := item], {}, map[],
          map[0 := entry], drained, map[key := 1])
  }

  lemma CutEntryLast(site: Site, key: Key, entry: EntryBody, accepted: nat) returns (steps: seq<Step>, s': State)
    ensures Smooth(site, TwoCallers(site, key, Finished, Item(key, StoredKeys(site, key), Delivered(entry, accepted),
                                    Complete), entry, map[0 := accepted]), steps, key, s')
    ensures s'.clients == [Client(key, Done(Ok(0))), Client(key, Done(Ok(0)))]
    ensures 0 in s'.items && s'.items[0].content == Delivered(entry, accepted)
  {
    var item := Item(key, StoredKeys(site, key), Delivered(entry, accepted), Complete);
    var s0 := TwoCallers(site, key, Finished, item, entry, map[0 := accepted]);
    var s1 := Apply(site, s0, ReadBack(0, None));
    var s2 := Apply(site, s1, Resolve(1));
    s' := Apply(site, s2, OpenStream(1, None));
    SmoothFirst(site, s2, OpenStream(1, None), [], key, s');
    SmoothFirst(site, s1, Resolve(1), [OpenStream(1, None)] + [], key, s');
    steps := [ReadBack(0, None)] + ([Resolve(1)] + ([OpenStream(1, None)] + []));
    SmoothFirst(site, s0, ReadBack(0, None), [Resolve(1)] + ([OpenStream(1, None)] + []), key, s');
  }

  lemma CutEntryMiddle(site: Site, key: Key, entry: EntryBody, accepted: nat) returns (steps: seq<Step>, s': State)
    ensures Smooth(site, TwoCallers(site, key, Inserted(entry), Item(key, StoredKeys(site, key), [], Streaming),
                                    entry, map[]), steps, key, s')
    ensures s'.clients == [Client(key, Done(Ok(0))), Client(key, Done(Ok(0)))]
    ensures 0 in s'.items && s'.items[0].content == Delivered(entry, accepted)
  {
    var item := Item(key, StoredKeys(site, key), [], Streaming);
    var filled := Item(key, StoredKeys(site, key), Delivered(entry, accepted), Streaming);
    var s0 := TwoCallers(site, key, Inserted(entry), item, entry, map[]);
    var s1 := Apply(site, s0, AppendEntry(0, accepted));
    assert [] + Delivered(entry, accepted) == Delivered(entry, accepted);
    assert s1 == TwoCallers(site, key, Appended, filled, entry, map[0 := accepted]);
    var s2 := Apply(site, s1, Finish(0, true));
    steps, s' := CutEntryLast(site, key, entry, accepted);
    assert s2 == TwoCallers(site, key, Finished, filled.(status := Complete), entry, map[0 := accepted]);
    SmoothFirst(site, s1, Finish(0, true), steps, key, s');
    SmoothFirst(site, s0, AppendEntry(0, accepted), [Finish(0, true)] + steps, key, s');
    steps := [AppendEntry(0, accepted)] + ([Finish(0, true)] + steps);
  }

  lemma CutEntryFirst(site: Site, key: Key, entry: EntryBody, accepted: nat) returns (steps: seq<Step>, s': State)
    ensures Smooth(site, OneObliged(key), steps, key, s')
    ensures s'.clients == [Client(key, Done(Ok(0))), Client(key, Done(Ok(0)))]
    ensures 0 in s'.items && s'.items[0].content == Delivered(entry, accepted)
  {
    var s1 := Apply(site, OneObliged(key), RunClosure(0, Some(entry)));
    var s2 := Apply(site, s1, Insert(0, None));
    assert s2 == TwoCallers(site, key, Inserted(entry), Item(key, StoredKeys(site, key), [], Streaming), entry, map[]);
    steps, s' := CutEntryMiddle(site, key, entry, accepted);
    SmoothFirst(site, s1, Insert(0, None), steps, key, s');
    steps := [Insert(0, None)] + steps;
    SmoothFirst(site, OneObliged(key), RunClosure(0, Some(entry)), steps, key, s');
    steps := [RunClosure(0, Some(entry))] + steps;
  }

  function OneObliged(key: Key): State {
    EMPTY.(clients := [Client(key, Obliged), Client(key, Looking)], holder := map[key := 0])
  }

  /** An entry that is not whole is shared like any other: for every entry and every cut of its move there is a
      run in which nothing fails and two callers both read what of the entry came through, and no more. */
  lemma CutEntryIsShared(site: Site, key: Key, entry: EntryBody, accepted: nat) returns (steps: seq<Step>, s': State)
    ensures Smooth(site, EMPTY, steps, key, s')
    ensures s'.clients == [Client(key, Done(Ok(0))), Client(key, Done(Ok(0)))]
    ensures 0 in s'.items && (s'.items[0].content == entry.Total() <==> Whole(entry, accepted))
    ensures entry == StreamLog.View([], [], [97, 98]) && accepted == 1 ==> s'.items[0].content == [97]
  {
    var s1 := Apply(site, EMPTY, Call(key));
    var s2 := Apply(site, s1, Call(key));
    assert Apply(site, s2, Resolve(0)) == OneObliged(key);
    steps, s' := CutEntryFirst(site, key, entry, accepted);
    DeliveredExact(entry, accepted);
    SmoothFirst(site, s2, Resolve(0), steps, key, s');
    steps := [Resolve(0)] + steps;
    SmoothFirst(site, s1, Call(key), steps, key, s');
    steps := [Call(key)] + steps;
    SmoothFirst(site, EMPTY, Call(key), steps, key, s');
    steps := [Call(key)] + steps;
  }
}

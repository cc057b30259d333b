/** Which runs let every call return: no leaked obligation, and no closures that wait for each other. */
module CacheDeadlocks {
  import opened Basics
  import opened SurrogateKeys
  import opened CacheProtocol
  import opened CacheTheorems
  import opened CacheWaits

  predicate Stuck(s: State) {
    forall c :: 0 <= c < |s.clients| ==> s.clients[c].phase.Done? || !Enabled(s, NextStep(s, c))
  }

  /** Every call for the key has returned, and nobody holds the key's obligation. */
  predicate Served(s: State, key: Key) {
    key !in s.holder && forall c :: 0 <= c < |s.clients| && s.clients[c].key == key ==> s.clients[c].phase.Done?
  }

  /** No call for the key waits, in the end, for a leaked key or for itself. */
  ghost predicate Unhindered(s: State, key: Key) {
    forall c :: 0 <= c < |s.clients| && s.clients[c].key == key ==> !WaitsOnLeak(s, c) && !WaitsOnCycle(s, c)
  }

  /** Where no client can go on, only a leak or a cycle can be the reason. */
  lemma StuckReason(site: Site, s: State, c: Cid)
    requires Inv(site, s) && Stuck(s) && c < |s.clients| && !s.clients[c].phase.Done?
    ensures Waiting(s, c) && (WaitsOnLeak(s, c) || WaitsOnCycle(s, c))
  {
    GoesOrWaits(site, s, c);
    if !WaitsOnLeak(s, c) && !WaitsOnCycle(s, c) {
      var d := Progress(site, s, c);
    }
  }

  lemma DoneWaitsForNobody(s: State, c: Cid)
    requires c < |s.clients| && s.clients[c].phase.Done?
    ensures !WaitsOnLeak(s, c) && !WaitsOnCycle(s, c)
  {
    assert forall n: nat :: Hop(s, c, n) == c;
  }

  lemma StuckServed(site: Site, s: State, key: Key)
    requires Inv(site, s) && Stuck(s)
    ensures Served(s, key) <==> !Leaked(s, key) && Unhindered(s, key)
  {
    assert HolderOk(s, key);
    forall c | 0 <= c < |s.clients| && s.clients[c].key == key
      ensures s.clients[c].phase.Done? <==> !WaitsOnLeak(s, c) && !WaitsOnCycle(s, c)
    {
      if s.clients[c].phase.Done? { DoneWaitsForNobody(s, c); } else { StuckReason(site, s, c); }
    }
  }

  /** Every call returns and leaves nothing behind, exactly as long as no obligation is leaked and no closures
      wait for each other. A run with n calls, those of closures included, has at most 6 n client steps; when no
      client can go on, the calls for a key have all returned and nobody holds its obligation if and only if that
      was not leaked and no call for the key waits for a leaked one or for a cycle of calls and closures; every
      call that has not returned does so, and no item is left half-written, whatever else fails. */
  lemma EveryCallReturns(site: Site, steps: seq<Step>)
    requires Legal(site, EMPTY, steps)
    ensures ClientSteps(steps) <= 6 * Calls(steps)
    ensures var s := Run(site, EMPTY, steps);
      Stuck(s) ==>
        && (forall key :: Served(s, key) <==> LeakFree(site, EMPTY, steps, key) && Unhindered(s, key))
        && (forall c :: 0 <= c < |s.clients| ==>
              s.clients[c].phase.Done? || WaitsOnLeak(s, c) || WaitsOnCycle(s, c))
        && forall o :: o in s.items ==> !s.items[o].status.Streaming?
  {
    EmptyInv(site);
    InvRun(site, EMPTY, steps);
    RunMeasure(site, EMPTY, steps);
    var s := Run(site, EMPTY, steps);
    if Stuck(s) {
      forall c | 0 <= c < |s.clients| && !s.clients[c].phase.Done?
        ensures Waiting(s, c) && (WaitsOnLeak(s, c) || WaitsOnCycle(s, c))
      {
        StuckReason(site, s, c);
      }
      forall key ensures Served(s, key) <==> LeakFree(site, EMPTY, steps, key) && Unhindered(s, key) {
        LeakRun(site, EMPTY, steps, key);
        StuckServed(site, s, key);
      }
      forall o | o in s.items ensures !s.items[o].status.Streaming? {
        assert ClientOk(site, s, o);
      }
    }
  }

  /** The leak happens: the state query of a first lookup fails, its call returns the error, the host gives the
      lookup the obligation all the same, and a second caller of the key then waits for ever. */
  lemma LeakHappens(site: Site, key: Key, error: CoreError)
    ensures var steps := [Call(key)] + ([StateQueryFails(0, error)] + ([GrantOrphan(0)] + ([Call(key)] + [])));
      && Legal(site, EMPTY, steps)
      && var s := Run(site, EMPTY, steps);
      && s.clients == [Client(key, Done(Err(FromCoreError(error)))), Client(key, Looking)]
      && s.holder == map[key := 0] && Leaked(s, key) && Stuck(s)
  {
    var s1 := Apply(site, EMPTY, Call(key));
    var s2 := Apply(site, s1, StateQueryFails(0, error));
    assert s2.clients == [Client(key, Done(Err(FromCoreError(error))))];
    LeakEnds(site, s2, key);
    RunFirst(site, s1, StateQueryFails(0, error), [GrantOrphan(0)] + ([Call(key)] + []));
    RunFirst(site, EMPTY, Call(key), [StateQueryFails(0, error)] + ([GrantOrphan(0)] + ([Call(key)] + [])));
  }

  lemma LeakEnds(site: Site, s: State, key: Key)
    requires |s.clients| == 1 && s.clients[0].key == key && s.clients[0].phase.Done? && s.orphans == {0}
    requires s.holder == map[] && s.current == map[]
    ensures var steps := [GrantOrphan(0)] + ([Call(key)] + []);
      && Legal(site, s, steps)
      && var s' := Run(site, s, steps);
      && s'.clients == s.clients + [Client(key, Looking)] && s'.holder == map[key := 0]
      && Leaked(s', key) && Stuck(s')
  {
    var s3 := Apply(site, s, GrantOrphan(0));
    assert s3.holder == map[key := 0];
    RunFirst(site, s3, Call(key), []);
    RunFirst(site, s, GrantOrphan(0), [Call(key)] + []);
  }

  /** Which keys the closure of a call for a key may ask the cache for. */
  type Asks = iset<(Key, Key)>

  /** Closures ask for nothing else. */
  ghost predicate AsksOnly(site: Site, s: State, steps: seq<Step>, asks: Asks)
    requires Legal(site, s, steps)
    decreases |steps|
  {
    steps != [] ==>
      && (steps[0].CallFrom? ==> (s.clients[steps[0].c].key, steps[0].key) in asks)
      && AsksOnly(site, Apply(site, s, steps[0]), steps[1..], asks)
  }

  /** Each key is asked for by a closure of the one before. */
  ghost predicate AskPath(asks: Asks, keys: seq<Key>) {
    |keys| >= 2 && forall i :: 0 <= i < |keys| - 1 ==> (keys[i], keys[i + 1]) in asks
  }

  ghost predicate Reaches(asks: Asks, from: Key, to: Key) {
    exists keys :: AskPath(asks, keys) && keys[0] == from && keys[|keys| - 1] == to
  }

  /** What a program that calls the cache from its closures has to see to: no key is asked for, however
      indirectly, by its own closure. */
  ghost predicate Acyclic(asks: Asks) {
    forall key :: !Reaches(asks, key, key)
  }

  /** Closures that ask only for keys of lower rank are acyclic. */
  lemma RankedIsAcyclic(asks: Asks, rank: Key -> nat)
    requires forall a, b :: (a, b) in asks ==> rank(b) < rank(a)
    ensures Acyclic(asks)
  {
    forall key ensures !Reaches(asks, key, key) {
      if Reaches(asks, key, key) {
        var keys :| AskPath(asks, keys) && keys[0] == key && keys[|keys| - 1] == key;
        RankFalls(asks, rank, keys);
      }
    }
  }

  lemma {:induction false} RankFalls(asks: Asks, rank: Key -> nat, keys: seq<Key>)
    requires forall a, b :: (a, b) in asks ==> rank(b) < rank(a)
    requires AskPath(asks, keys)
    ensures rank(keys[|keys| - 1]) < rank(keys[0])
    decreases |keys|
  {
    assert (keys[0], keys[1]) in asks;
    if |keys| > 2 {
      forall i | 0 <= i < |keys| - 2 ensures (keys[1..][i], keys[1..][i + 1]) in asks {
        assert (keys[i + 1], keys[i + 2]) in asks;
      }
      RankFalls(asks, rank, keys[1..]);
    }
  }

  /** Closures that run now were made by permitted calls. */
  ghost predicate Asked(s: State, asks: Asks) {
    forall c :: c in s.child && c < |s.clients| && s.child[c] < |s.clients| ==>
      (s.clients[c].key, s.clients[s.child[c]].key) in asks
  }

  lemma AskedOwn(site: Site, s: State, t: Step, asks: Asks)
    requires Inv(site, s) && Enabled(s, t) && ByClient(t) && Asked(s, asks)
    ensures Asked(Apply(site, s, t), asks)
  {
    SoundStep(site, s, t);
    KeysStay(site, s, t);
    assert forall c :: c in s.child ==> NestOk(s, c);
  }

  lemma AskedCall(site: Site, s: State, t: Step, asks: Asks)
    requires Inv(site, s) && Enabled(s, t) && (t.Call? || t.CallFrom?) && Asked(s, asks)
    requires t.CallFrom? ==> (s.clients[t.c].key, t.key) in asks
    ensures Asked(Apply(site, s, t), asks)
  {
    assert forall c :: c in s.child ==> NestOk(s, c);
  }

  lemma AskedStep(site: Site, s: State, t: Step, asks: Asks)
    requires Inv(site, s) && Enabled(s, t) && Asked(s, asks)
    requires t.CallFrom? ==> (s.clients[t.c].key, t.key) in asks
    ensures Asked(Apply(site, s, t), asks)
  {
    if ByClient(t) {
      AskedOwn(site, s, t, asks);
    } else if t.Call? || t.CallFrom? {
      AskedCall(site, s, t, asks);
    } else {
      assert Apply(site, s, t).child == s.child && Apply(site, s, t).clients == s.clients;
    }
  }

  lemma {:induction false} AskedRun(site: Site, s: State, steps: seq<Step>, asks: Asks)
    requires Inv(site, s) && Legal(site, s, steps) && AsksOnly(site, s, steps, asks) && Asked(s, asks)
    ensures Asked(Run(site, s, steps), asks)
    decreases |steps|
  {
    if steps != [] {
      AskedStep(site, s, steps[0], asks);
      InvStep(site, s, steps[0]);
      AskedRun(site, Apply(site, s, steps[0]), steps[1..], asks);
    }
  }

  lemma ReachesOn(asks: Asks, a: Key, b: Key, c: Key)
    requires (a, b) in asks && (b == c || Reaches(asks, b, c))
    ensures Reaches(asks, a, c)
  {
    if b == c {
      assert AskPath(asks, [a, b]);
    } else {
      var keys :| AskPath(asks, keys) && keys[0] == b && keys[|keys| - 1] == c;
      assert AskPath(asks, [a] + keys);
    }
  }

  /** Along a chain of waits the key changes only where a closure asks. */
  lemma {:induction false} HopReaches(site: Site, s: State, asks: Asks, c: Cid, n: nat)
    requires Inv(site, s) && Asked(s, asks) && c < |s.clients|
    ensures var a, b := s.clients[c].key, s.clients[Hop(s, c, n)].key; b == a || Reaches(asks, a, b)
    decreases n
  {
    if n > 0 && Waiting(s, c) {
      var d := Next(s, c).value;
      HopReaches(site, s, asks, d, n - 1);
      if s.clients[c].phase.Looking? {
        assert HolderOk(s, s.clients[c].key);
      } else {
        ReachesOn(asks, s.clients[c].key, s.clients[d].key, s.clients[Hop(s, c, n)].key);
      }
    }
  }

  /** A cycle of waits is a cycle of asking. */
  lemma CycleAsks(site: Site, s: State, asks: Asks, c: Cid) returns (key: Key)
    requires Inv(site, s) && Asked(s, asks) && c < |s.clients| && OnCycle(s, c)
    ensures Reaches(asks, key, key)
  {
    if s.clients[c].phase.Looking? {
      assert HolderOk(s, s.clients[c].key);
      CycleGoesOn(s, c);
      key := ClosureOnCycle(site, s, asks, Next(s, c).value);
    } else {
      key := ClosureOnCycle(site, s, asks, c);
    }
  }

  lemma ClosureOnCycle(site: Site, s: State, asks: Asks, c: Cid) returns (key: Key)
    requires Inv(site, s) && Asked(s, asks) && c < |s.clients| && OnCycle(s, c) && s.clients[c].phase.Obliged?
    ensures Reaches(asks, key, key)
  {
    key := s.clients[c].key;
    var m: nat :| m > 0 && Hop(s, c, m) == c;
    var d := Next(s, c).value;
    HopReaches(site, s, asks, d, m - 1);
    ReachesOn(asks, key, s.clients[d].key, key);
  }

  /** Where closures ask acyclically, no run gets into a cycle. */
  lemma AcyclicNeverDeadlocks(site: Site, steps: seq<Step>, asks: Asks, c: Cid)
    requires Legal(site, EMPTY, steps) && AsksOnly(site, EMPTY, steps, asks) && Acyclic(asks)
    requires c < |Run(site, EMPTY, steps).clients|
    ensures !WaitsOnCycle(Run(site, EMPTY, steps), c)
  {
    var s := Run(site, EMPTY, steps);
    EmptyInv(site);
    InvRun(site, EMPTY, steps);
    AskedRun(site, EMPTY, steps, asks);
    if WaitsOnCycle(s, c) {
      var n: nat :| OnCycle(s, Hop(s, c, n));
      var key := CycleAsks(site, s, asks, Hop(s, c, n));
    }
  }

  ghost predicate AllServed(s: State) {
    forall key :: Served(s, key)
  }

  ghost predicate NoLeaks(site: Site, steps: seq<Step>)
    requires Legal(site, EMPTY, steps)
  {
    forall key :: LeakFree(site, EMPTY, steps, key)
  }

  /** With closures that ask acyclically every call returns exactly if no obligation is leaked. */
  lemma AcyclicCallsReturn(site: Site, steps: seq<Step>, asks: Asks)
    requires Legal(site, EMPTY, steps) && AsksOnly(site, EMPTY, steps, asks) && Acyclic(asks)
    requires Stuck(Run(site, EMPTY, steps))
    ensures AllServed(Run(site, EMPTY, steps)) <==> NoLeaks(site, steps)
  {
    var s := Run(site, EMPTY, steps);
    if NoLeaks(site, steps) {
      forall key ensures Served(s, key) {
        AcyclicServed(site, steps, asks, key);
      }
    }
    if AllServed(s) {
      forall key ensures LeakFree(site, EMPTY, steps, key) {
        EveryCallReturns(site, steps);
        assert Served(s, key);
      }
    }
  }

  lemma AcyclicServed(site: Site, steps: seq<Step>, asks: Asks, key: Key)
    requires Legal(site, EMPTY, steps) && AsksOnly(site, EMPTY, steps, asks) && Acyclic(asks)
    requires Stuck(Run(site, EMPTY, steps)) && NoLeaks(site, steps)
    ensures Served(Run(site, EMPTY, steps), key)
  {
    var s := Run(site, EMPTY, steps);
    EveryCallReturns(site, steps);
    forall c | 0 <= c < |s.clients| && s.clients[c].key == key ensures !WaitsOnLeak(s, c) && !WaitsOnCycle(s, c) {
      AcyclicNeverDeadlocks(site, steps, asks, c);
      NoLeakToWaitOn(site, steps, c);
    }
    assert LeakFree(site, EMPTY, steps, key) && Unhindered(s, key);
  }

  lemma NoLeakToWaitOn(site: Site, steps: seq<Step>, c: Cid)
    requires Legal(site, EMPTY, steps) && NoLeaks(site, steps)
    requires c < |Run(site, EMPTY, steps).clients|
    ensures !WaitsOnLeak(Run(site, EMPTY, steps), c)
  {
    var s := Run(site, EMPTY, steps);
    EmptyInv(site);
    if WaitsOnLeak(s, c) {
      var n: nat :| AtLeak(s, Hop(s, c, n));
      LeakRun(site, EMPTY, steps, s.clients[Hop(s, c, n)].key);
    }
  }

  /** Each call's closure has called for the next key, and all have the obligation. */
  ghost predicate Nest(s: State, keys: seq<Key>) {
    && |s.clients| == |keys| && Distinct(keys) && s.current == map[]
    && (forall i :: 0 <= i < |keys| ==> s.clients[i] == Client(keys[i], Obliged))
    && (forall i :: 0 <= i < |keys| ==> keys[i] in s.holder && s.holder[keys[i]] == i)
    && (forall k :: k in s.holder ==> k in keys)
    && (forall i :: 0 <= i < |keys| - 1 ==> i in s.child && s.child[i] == i + 1)
    && (forall i :: i in s.child ==> i < |keys| - 1)
  }

  /** A run in which closures ask only as permitted and no state query fails. */
  ghost predicate Innocent(site: Site, s: State, steps: seq<Step>, asks: Asks, s': State) {
    && Legal(site, s, steps) && Run(site, s, steps) == s' && AsksOnly(site, s, steps, asks)
    && (forall key :: QueriesAnswered(site, s, steps, key))
  }

  lemma InnocentFirst(site: Site, s: State, t: Step, rest: seq<Step>, asks: Asks, s': State)
    requires Enabled(s, t) && !t.StateQueryFails? && Innocent(site, Apply(site, s, t), rest, asks, s')
    requires t.CallFrom? ==> (s.clients[t.c].key, t.key) in asks
    ensures Innocent(site, s, [t] + rest, asks, s')
  {
    RunFirst(site, s, t, rest);
    assert ([t] + rest)[1..] == rest;
  }

  /** The closure of the innermost call calls for a key that is free, and is given the obligation. */
  lemma NestDeeper(site: Site, s: State, keys: seq<Key>, key: Key)
    requires Nest(s, keys) && keys != [] && key !in keys
    ensures var c := |keys|;
            && Enabled(s, CallFrom(c - 1, key))
            && Enabled(Apply(site, s, CallFrom(c - 1, key)), Resolve(c))
            && Nest(Apply(site, Apply(site, s, CallFrom(c - 1, key)), Resolve(c)), keys + [key])
  {
    var c := |keys|;
    var s1 := Apply(site, s, CallFrom(c - 1, key));
    assert s1.clients == s.clients + [Client(key, Looking)];
    var s2 := Apply(site, s1, Resolve(c));
    NestJoined(s, keys, key, s2);
  }

  lemma NestJoined(s: State, keys: seq<Key>, key: Key, s': State)
    requires Nest(s, keys) && keys != [] && key !in keys && s'.current == map[]
    requires s'.clients == s.clients + [Client(key, Obliged)]
    requires s'.holder == s.holder[key := |keys|] && s'.child == s.child[|keys| - 1 := |keys|]
    ensures Nest(s', keys + [key])
  {
    assert (keys + [key])[..|keys|] == keys;
  }

  /** The closure of the innermost call calls for a key of the nest: then all of them wait for each other. */
  lemma NestCloses(site: Site, s: State, keys: seq<Key>, key: Key)
    requires Nest(s, keys) && key in keys
    ensures var c := |keys|;
            && Enabled(s, CallFrom(c - 1, key))
            && OnCycle(Apply(site, s, CallFrom(c - 1, key)), c)
  {
    var c := |keys|;
    var s' := Apply(site, s, CallFrom(c - 1, key));
    var i :| 0 <= i < c && keys[i] == key;
    assert s'.clients == s.clients + [Client(key, Looking)];
    assert s'.holder == s.holder && s'.current == map[] && s'.child == s.child[c - 1 := c];
    assert Next(s', c) == Some(i);
    forall j: Cid | i <= j < c ensures Next(s', j) == Some(j + 1) {
      assert j in s'.child && s'.child[j] == j + 1;
    }
    HopUp(s', i, c - i, c);
    assert Hop(s', c, c - i + 1) == Hop(s', i, c - i);
  }

  lemma {:induction false} HopUp(s: State, i: Cid, n: nat, c: Cid)
    requires i + n == c < |s.clients| && forall j: Cid :: i <= j < c ==> Next(s, j) == Some(j + 1)
    ensures Hop(s, i, n) == c
    decreases n
  {
    if n > 0 {
      HopUp(s, i + 1, n - 1, c);
    }
  }

  lemma InnocentDeeper(site: Site, s: State, keys: seq<Key>, key: Key, asks: Asks, rest: seq<Step>, s': State)
    requires Nest(s, keys) && keys != [] && key !in keys && (keys[|keys| - 1], key) in asks
    requires Enabled(s, CallFrom(|keys| - 1, key))
    requires Enabled(Apply(site, s, CallFrom(|keys| - 1, key)), Resolve(|keys|))
    requires Innocent(site, Apply(site, Apply(site, s, CallFrom(|keys| - 1, key)), Resolve(|keys|)), rest, asks, s')
    ensures Innocent(site, s, [CallFrom(|keys| - 1, key)] + ([Resolve(|keys|)] + rest), asks, s')
  {
    var s1 := Apply(site, s, CallFrom(|keys| - 1, key));
    InnocentFirst(site, s1, Resolve(|keys|), rest, asks, s');
    InnocentFirst(site, s, CallFrom(|keys| - 1, key), [Resolve(|keys|)] + rest, asks, s');
  }

  lemma InnocentEnd(site: Site, s: State, t: Step, asks: Asks)
    requires t.CallFrom? && Enabled(s, t) && (s.clients[t.c].key, t.key) in asks
    ensures Innocent(site, s, [t] + [], asks, Apply(site, s, t))
  {
    InnocentFirst(site, s, t, [], asks, Apply(site, s, t));
  }

  /** From a nest along a path of asking that comes back, the nest goes on until it closes. */
  lemma {:induction false} NestOn(site: Site, s: State, asks: Asks, keys: seq<Key>, j: nat)
    returns (steps: seq<Step>, s': State, c: Cid)
    requires AskPath(asks, keys) && keys[0] == keys[|keys| - 1]
    requires 1 <= j < |keys| && Nest(s, keys[..j])
    ensures Innocent(site, s, steps, asks, s') && c < |s'.clients| && OnCycle(s', c)
    decreases |keys| - j
  {
    var front, key := keys[..j], keys[j];
    assert front[j - 1] == keys[j - 1] && (keys[j - 1], keys[j - 1 + 1]) in asks;
    if key in front {
      NestCloses(site, s, front, key);
      InnocentEnd(site, s, CallFrom(j - 1, key), asks);
      return [CallFrom(j - 1, key)] + [], Apply(site, s, CallFrom(j - 1, key)), j;
    }
    assert j + 1 < |keys| by {
      assert front[0] == keys[0];
    }
    NestDeeper(site, s, front, key);
    assert keys[..j + 1] == front + [key];
    var s2 := Apply(site, Apply(site, s, CallFrom(j - 1, key)), Resolve(j));
    steps, s', c := NestOn(site, s2, asks, keys, j + 1);
    InnocentDeeper(site, s, front, key, asks, steps, s');
    steps := [CallFrom(j - 1, key)] + ([Resolve(j)] + steps);
  }

  /** Where some key is asked for by its own closure, however indirectly, there is a run without any failure
      that ends in a cycle of waits. */
  lemma CyclicDeadlocks(site: Site, asks: Asks, key: Key) returns (steps: seq<Step>, c: Cid)
    requires Reaches(asks, key, key)
    ensures Legal(site, EMPTY, steps) && AsksOnly(site, EMPTY, steps, asks)
    ensures NoLeaks(site, steps)
    ensures c < |Run(site, EMPTY, steps).clients| && WaitsOnCycle(Run(site, EMPTY, steps), c)
  {
    var keys :| AskPath(asks, keys) && keys[0] == key && keys[|keys| - 1] == key;
    var s1 := Apply(site, EMPTY, Call(key));
    var s2 := Apply(site, s1, Resolve(0));
    assert s2.clients == [Client(key, Obliged)];
    assert Nest(s2, keys[..1]);
    var s';
    steps, s', c := NestOn(site, s2, asks, keys, 1);
    InnocentFirst(site, s1, Resolve(0), steps, asks, s');
    InnocentFirst(site, EMPTY, Call(key), [Resolve(0)] + steps, asks, s');
    steps := [Call(key)] + ([Resolve(0)] + steps);
    forall k ensures LeakFree(site, EMPTY, steps, k) {
      AnsweredIsLeakFree(site, steps, k);
    }
    assert OnCycle(s', Hop(s', c, 0));
  }

  /** No run whatever ends in a cycle of waits. */
  ghost predicate NeverDeadlocks(site: Site, asks: Asks) {
    forall steps, c: Cid ::
      Legal(site, EMPTY, steps) && AsksOnly(site, EMPTY, steps, asks) && c < |Run(site, EMPTY, steps).clients| ==>
        !WaitsOnCycle(Run(site, EMPTY, steps), c)
  }

  /** Closures may use the cache exactly as long as no key is asked for by its own closure. */
  lemma DeadlockExact(site: Site, asks: Asks)
    ensures NeverDeadlocks(site, asks) <==> Acyclic(asks)
  {
    if Acyclic(asks) {
      forall steps, c: Cid |
        Legal(site, EMPTY, steps) && AsksOnly(site, EMPTY, steps, asks) && c < |Run(site, EMPTY, steps).clients|
        ensures !WaitsOnCycle(Run(site, EMPTY, steps), c)
      {
        AcyclicNeverDeadlocks(site, steps, asks, c);
      }
    } else {
      var key :| Reaches(asks, key, key);
      var steps, c := CyclicDeadlocks(site, asks, key);
    }
  }

  /** A closure that asks for its own key: the call it makes and its own wait for each other. */
  lemma SelfNested(site: Site, key: Key)
    ensures var steps := [Call(key)] + ([Resolve(0)] + ([CallFrom(0, key)] + []));
      && Legal(site, EMPTY, steps) && LeakFree(site, EMPTY, steps, key)
      && var s := Run(site, EMPTY, steps);
      && s.clients == [Client(key, Obliged), Client(key, Looking)] && !Leaked(s, key) && Stuck(s)
      && OnCycle(s, 0) && OnCycle(s, 1)
  {
    var s1 := Apply(site, EMPTY, Call(key));
    var s2 := Apply(site, s1, Resolve(0));
    var s3 := Apply(site, s2, CallFrom(0, key));
    assert s3.clients == [Client(key, Obliged), Client(key, Looking)];
    assert Next(s3, 0) == Some(1) && Next(s3, 1) == Some(0);
    assert Hop(s3, 0, 2) == Hop(s3, 1, 1) == Hop(s3, 0, 0);
    assert Hop(s3, 1, 2) == Hop(s3, 0, 1) == Hop(s3, 1, 0);
    var asks: Asks := iset{(key, key)};
    InnocentEnd(site, s2, CallFrom(0, key), asks);
    InnocentFirst(site, s1, Resolve(0), [CallFrom(0, key)] + [], asks, s3);
    InnocentFirst(site, EMPTY, Call(key), [Resolve(0)] + ([CallFrom(0, key)] + []), asks, s3);
    AnsweredIsLeakFree(site, [Call(key)] + ([Resolve(0)] + ([CallFrom(0, key)] + [])), key);
  }

  /** Two calls whose closures ask for each other's key: all four calls wait for ever. */
  lemma CrossNested(site: Site, a: Key, b: Key)
    requires a != b
    ensures var rest := [CallFrom(0, b)] + ([CallFrom(1, a)] + []);
      var steps := [Call(a)] + ([Call(b)] + ([Resolve(0)] + ([Resolve(1)] + rest)));
      && Legal(site, EMPTY, steps) && NoLeaks(site, steps)
      && var s := Run(site, EMPTY, steps);
      && s.clients == [Client(a, Obliged), Client(b, Obliged), Client(b, Looking), Client(a, Looking)]
      && Stuck(s) && forall c :: 0 <= c < 4 ==> WaitsOnCycle(s, c)
  {
    var s4 := TwoObliged(a, b);
    var s5 := Apply(site, s4, CallFrom(0, b));
    var s6 := Apply(site, s5, CallFrom(1, a));
    assert s6.clients == [Client(a, Obliged), Client(b, Obliged), Client(b, Looking), Client(a, Looking)];
    CrossWaits(s6, a, b);
    var asks: Asks := iset{(a, b), (b, a)};
    InnocentEnd(site, s5, CallFrom(1, a), asks);
    InnocentFirst(site, s4, CallFrom(0, b), [CallFrom(1, a)] + [], asks, s6);
    CrossStart(site, a, b, [CallFrom(0, b)] + ([CallFrom(1, a)] + []), asks, s6);
    var rest := [CallFrom(0, b)] + ([CallFrom(1, a)] + []);
    var steps := [Call(a)] + ([Call(b)] + ([Resolve(0)] + ([Resolve(1)] + rest)));
    forall key ensures LeakFree(site, EMPTY, steps, key) {
      AnsweredIsLeakFree(site, steps, key);
    }
  }

  function TwoObliged(a: Key, b: Key): State {
    EMPTY.(clients := [Client(a, Obliged), Client(b, Obliged)], holder := map[a := 0, b := 1])
  }

  lemma CrossStart(site: Site, a: Key, b: Key, rest: seq<Step>, asks: Asks, s': State)
    requires a != b && Innocent(site, TwoObliged(a, b), rest, asks, s')
    ensures Innocent(site, EMPTY, [Call(a)] + ([Call(b)] + ([Resolve(0)] + ([Resolve(1)] + rest))), asks, s')
  {
    var s1 := Apply(site, EMPTY, Call(a));
    var s2 := Apply(site, s1, Call(b));
    assert s2.clients == [Client(a, Looking), Client(b, Looking)];
    var s3 := Apply(site, s2, Resolve(0));
    assert s3.clients == [Client(a, Obliged), Client(b, Looking)] && s3.holder == map[a := 0];
    assert Apply(site, s3, Resolve(1)) == TwoObliged(a, b);
    InnocentFirst(site, s3, Resolve(1), rest, asks, s');
    InnocentFirst(site, s2, Resolve(0), [Resolve(1)] + rest, asks, s');
    InnocentFirst(site, s1, Call(b), [Resolve(0)] + ([Resolve(1)] + rest), asks, s');
    InnocentFirst(site, EMPTY, Call(a), [Call(b)] + ([Resolve(0)] + ([Resolve(1)] + rest)), asks, s');
  }

  lemma CrossWaits(s: State, a: Key, b: Key)
    requires s.clients == [Client(a, Obliged), Client(b, Obliged), Client(b, Looking), Client(a, Looking)]
    requires a != b && s.holder == map[a := 0, b := 1] && s.current == map[] && s.child == map[0 := 2, 1 := 3]
    ensures Stuck(s) && forall c :: 0 <= c < 4 ==> WaitsOnCycle(s, c)
  {
    assert Next(s, 0) == Some(2) && Next(s, 2) == Some(1) && Next(s, 1) == Some(3) && Next(s, 3) == Some(0);
    forall c | 0 <= c < 4 ensures WaitsOnCycle(s, c) {
      var c1 := Next(s, c).value;
      var c2 := Next(s, c1).value;
      var c3 := Next(s, c2).value;
      assert Hop(s, c, 4) == Hop(s, c1, 3) == Hop(s, c2, 2) == Hop(s, c3, 1) == Hop(s, c, 0);
      assert OnCycle(s, Hop(s, c, 0));
    }
  }
}

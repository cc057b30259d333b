/** Who waits for whom: which calls can still return, and when closures that use the cache themselves keep each
    other waiting for ever. */
module CacheWaits {
  import opened Basics
  import opened SurrogateKeys
  import opened CacheProtocol
  import opened CacheTheorems

  /** The call that call `c` waits for: a lookup waits for the call that has its key's obligation, and a closure
      for the end of the call it has made. */
  function Next(s: State, c: Cid): (d: Option<Cid>)
    requires c < |s.clients|
    ensures d.Some? ==> d.value < |s.clients|
  {
    var Client(key, phase) := s.clients[c];
    match phase
    case Looking => if !Answerable(s, key) && s.holder[key] < |s.clients| then Some(s.holder[key]) else None
    case Obliged => if Nesting(s, c) then Some(s.child[c]) else None
    case _ => None
  }

  predicate Waiting(s: State, c: Cid)
    requires c < |s.clients|
  {
    Next(s, c).Some?
  }

  /** The call at the end of `n` waits from `c`, or of fewer if one of them waits for nobody. */
  function Hop(s: State, c: Cid, n: nat): (d: Cid)
    requires c < |s.clients|
    ensures d < |s.clients|
    decreases n
  {
    if n == 0 || Next(s, c).None? then c else Hop(s, Next(s, c).value, n - 1)
  }

  /** The chain of waits leads to a lookup of a key whose obligation is leaked. */
  ghost predicate WaitsOnLeak(s: State, c: Cid)
    requires c < |s.clients|
  {
    exists n: nat :: AtLeak(s, Hop(s, c, n))
  }

  predicate AtLeak(s: State, c: Cid)
    requires c < |s.clients|
  {
    s.clients[c].phase.Looking? && Leaked(s, s.clients[c].key)
  }

  /** The chain of waits leads into a cycle of calls and closures. */
  ghost predicate WaitsOnCycle(s: State, c: Cid)
    requires c < |s.clients|
  {
    exists n: nat :: OnCycle(s, Hop(s, c, n))
  }

  ghost predicate OnCycle(s: State, c: Cid)
    requires c < |s.clients|
  {
    Waiting(s, c) && exists m: nat :: m > 0 && Hop(s, c, m) == c
  }

  /** Nobody on the chain of waits can go on. */
  predicate Hangs(s: State, c: Cid)
    requires c < |s.clients|
  {
    var last := Hop(s, c, |s.clients|);
    !s.clients[c].phase.Done? && (s.clients[last].phase.Done? || Waiting(s, last))
  }

  lemma {:induction false} HopAdd(s: State, c: Cid, n: nat, m: nat)
    requires c < |s.clients|
    ensures Hop(s, Hop(s, c, n), m) == Hop(s, c, n + m)
    decreases n
  {
    if n > 0 && Waiting(s, c) {
      HopAdd(s, Next(s, c).value, n - 1, m);
    }
  }

  /** A call that is not done goes on exactly if it waits for nobody. */
  lemma GoesOrWaits(site: Site, s: State, c: Cid)
    requires Inv(site, s) && c < |s.clients| && !s.clients[c].phase.Done?
    ensures Enabled(s, NextStep(s, c)) <==> !Waiting(s, c)
  {
    assert HolderOk(s, s.clients[c].key);
  }

  /** No deadlock but by a leak or a cycle: along the chain of waits of any other call there is a call that can
      go on. */
  lemma Progress(site: Site, s: State, c: Cid) returns (d: Cid)
    requires Inv(site, s) && c < |s.clients| && !s.clients[c].phase.Done?
    requires !WaitsOnLeak(s, c) && !WaitsOnCycle(s, c)
    ensures d == Hop(s, c, |s.clients|) && !s.clients[d].phase.Done? && Enabled(s, NextStep(s, d))
  {
    HangsExact(site, s, c);
    d := Hop(s, c, |s.clients|);
    GoesOrWaits(site, s, d);
  }

  lemma {:induction false} DoneIsLeak(s: State, c: Cid, n: nat) returns (i: nat)
    requires c < |s.clients| && !s.clients[c].phase.Done? && s.clients[Hop(s, c, n)].phase.Done?
    ensures AtLeak(s, Hop(s, c, i))
    decreases n
  {
    var d := Next(s, c).value;
    if s.clients[d].phase.Done? {
      i := 0;
    } else {
      i := DoneIsLeak(s, d, n - 1);
      i := i + 1;
    }
  }

  function Hops(s: State, c: Cid, n: nat): seq<Cid>
    requires c < |s.clients|
  {
    seq(n, i requires 0 <= i < n => Hop(s, c, i))
  }

  /** More hops than there are calls come back to one of them. */
  lemma LongWaitIsCycle(s: State, c: Cid)
    requires c < |s.clients| && Waiting(s, Hop(s, c, |s.clients|))
    ensures WaitsOnCycle(s, c)
  {
    var n := |s.clients|;
    var i, j := Pigeonhole(Hops(s, c, n + 1), n);
    assert Hop(s, c, i) == Hop(s, c, j);
    HopAdd(s, c, i, j - i);
    HopAdd(s, c, i, n - i);
    assert Waiting(s, Hop(s, c, i));
    assert OnCycle(s, Hop(s, c, i));
  }

  lemma {:induction false} HopPeriod(s: State, d: Cid, m: nat, q: nat)
    requires d < |s.clients| && Hop(s, d, m) == d
    ensures Hop(s, d, q * m) == d
    decreases q
  {
    if q > 0 {
      HopPeriod(s, d, m, q - 1);
      HopAdd(s, d, (q - 1) * m, m);
      assert (q - 1) * m + m == q * m;
    }
  }

  /** On a cycle nobody ever comes to an end. */
  lemma CycleWaits(s: State, d: Cid, k: nat)
    requires d < |s.clients| && OnCycle(s, d)
    ensures Waiting(s, Hop(s, d, k))
  {
    var m: nat :| m > 0 && Hop(s, d, m) == d;
    HopPeriod(s, d, m, k);
    assert k <= k * m;
    HopAdd(s, d, k, k * m - k);
  }

  /** A call hangs if and only if its chain of waits leads to a leak or into a cycle. */
  lemma HangsExact(site: Site, s: State, c: Cid)
    requires Inv(site, s) && c < |s.clients| && !s.clients[c].phase.Done?
    ensures Hangs(s, c) <==> WaitsOnLeak(s, c) || WaitsOnCycle(s, c)
  {
    var n := |s.clients|;
    var last := Hop(s, c, n);
    if Hangs(s, c) {
      if s.clients[last].phase.Done? {
        var i := DoneIsLeak(s, c, n);
      } else {
        LongWaitIsCycle(s, c);
      }
    }
    if WaitsOnLeak(s, c) {
      var k: nat :| AtLeak(s, Hop(s, c, k));
      LeakEnds(site, s, c, k, n);
    }
    if WaitsOnCycle(s, c) {
      var k: nat :| OnCycle(s, Hop(s, c, k));
      if k <= n {
        CycleWaits(s, Hop(s, c, k), n - k);
        HopAdd(s, c, k, n - k);
      } else {
        HopAdd(s, c, n, k - n);
      }
    }
  }

  lemma LeakEnds(site: Site, s: State, c: Cid, k: nat, n: nat)
    requires Inv(site, s) && c < |s.clients| && AtLeak(s, Hop(s, c, k))
    ensures s.clients[Hop(s, c, n)].phase.Done? || Waiting(s, Hop(s, c, n))
  {
    var d := Hop(s, c, k);
    assert HolderOk(s, s.clients[d].key);
    if k < n {
      HopAdd(s, c, k, n - k);
    } else {
      HopAdd(s, c, n, k - n);
    }
  }

  /** Whoever hangs waits for a call that hangs too, or has returned with the obligation. */
  lemma HangsNext(site: Site, s: State, c: Cid)
    requires Inv(site, s) && c < |s.clients| && Hangs(s, c)
    ensures Waiting(s, c)
    ensures var d := Next(s, c).value; s.clients[d].phase.Done? || Hangs(s, d)
  {
    var d := Next(s, c).value;
    if !s.clients[d].phase.Done? {
      HangsExact(site, s, c);
      HangsExact(site, s, d);
      if WaitsOnLeak(s, c) {
        var k: nat :| AtLeak(s, Hop(s, c, k));
        if k == 0 {
          assert Leaked(s, s.clients[c].key);
        } else {
          assert AtLeak(s, Hop(s, d, k - 1));
        }
      } else {
        var k: nat :| OnCycle(s, Hop(s, c, k));
        if k == 0 {
          CycleGoesOn(s, c);
        } else {
          assert OnCycle(s, Hop(s, d, k - 1));
        }
      }
    }
  }

  lemma CycleGoesOn(s: State, c: Cid)
    requires c < |s.clients| && OnCycle(s, c)
    ensures OnCycle(s, Next(s, c).value) && WaitsOnCycle(s, Next(s, c).value)
  {
    var d := Next(s, c).value;
    var m: nat :| m > 0 && Hop(s, c, m) == c;
    assert Hop(s, c, 1) == d by {
      assert Hop(s, d, 0) == d;
    }
    HopAdd(s, c, m, 1);
    assert Hop(s, d, m) == Hop(s, c, m + 1);
    CycleWaits(s, c, 1);
    assert OnCycle(s, Hop(s, d, 0));
  }

  /** The host gives up a lookup that waits in vain. */
  predicate GivesUp(s: State, t: Step)
    requires Enabled(s, t)
  {
    (t.LookupFails? || t.StateQueryFails?) && Hangs(s, t.c)
  }

  /** Whoever hangs takes no step of its own, unless the host gives up its lookup, and makes no call. */
  lemma HangsIdle(site: Site, s: State, t: Step, c: Cid)
    requires Inv(site, s) && Enabled(s, t) && !GivesUp(s, t) && c < |s.clients| && Hangs(s, c)
    ensures (ByClient(t) || t.CallFrom?) ==> t.c != c
  {
    HangsNext(site, s, c);
  }

  /** Two states in which everyone on the chain of waits from `c` waits for the same call. */
  ghost predicate SameChain(s: State, s': State, c: Cid)
    requires c < |s.clients| <= |s'.clients|
  {
    forall n: nat :: Next(s', Hop(s, c, n)) == Next(s, Hop(s, c, n))
  }

  lemma {:induction false} SameHops(s: State, s': State, c: Cid, n: nat)
    requires c < |s.clients| <= |s'.clients| && SameChain(s, s', c)
    ensures Hop(s', c, n) == Hop(s, c, n)
    decreases n
  {
    assert Next(s', Hop(s, c, 0)) == Next(s, Hop(s, c, 0));
    if n > 0 && Waiting(s, c) {
      var d := Next(s, c).value;
      forall k: nat ensures Next(s', Hop(s, d, k)) == Next(s, Hop(s, d, k)) {
        assert Hop(s, c, k + 1) == Hop(s, d, k);
        assert Next(s', Hop(s, c, k + 1)) == Next(s, Hop(s, c, k + 1));
      }
      SameHops(s, s', d, n - 1);
    }
  }

  /** What `c` waits for in one state it waits for in the other, if leaks on its way are there as well. */
  lemma SameWaits(s: State, s': State, c: Cid)
    requires c < |s.clients| <= |s'.clients| && SameChain(s, s', c)
    requires forall d: Cid :: d < |s.clients| && AtLeak(s, d) ==> AtLeak(s', d)
    ensures WaitsOnLeak(s, c) ==> WaitsOnLeak(s', c)
    ensures WaitsOnCycle(s, c) ==> WaitsOnCycle(s', c)
  {
    if WaitsOnLeak(s, c) {
      var n: nat :| AtLeak(s, Hop(s, c, n));
      SameHops(s, s', c, n);
      assert AtLeak(s', Hop(s', c, n));
    }
    if WaitsOnCycle(s, c) {
      var n: nat :| OnCycle(s, Hop(s, c, n));
      var d := Hop(s, c, n);
      var m: nat :| m > 0 && Hop(s, d, m) == d;
      SameHops(s, s', c, n);
      forall k: nat ensures Next(s', Hop(s, d, k)) == Next(s, Hop(s, d, k)) {
        HopAdd(s, c, n, k);
      }
      SameHops(s, s', d, m);
      assert Next(s', Hop(s, d, 0)) == Next(s, Hop(s, d, 0));
      assert OnCycle(s', Hop(s', c, n));
    }
  }

  /** Everyone on the chain of waits of a call that hangs, hangs, but for a call that has returned. */
  lemma {:induction false} ChainHangs(site: Site, s: State, c: Cid, n: nat)
    requires Inv(site, s) && c < |s.clients| && Hangs(s, c)
    ensures var d := Hop(s, c, n); s.clients[d].phase.Done? || Hangs(s, d)
    decreases n
  {
    if n > 0 {
      HangsNext(site, s, c);
      var d := Next(s, c).value;
      if !s.clients[d].phase.Done? {
        ChainHangs(site, s, d, n - 1);
      }
    }
  }

  lemma ClientStays(site: Site, s: State, t: Step, c: Cid)
    requires Inv(site, s) && Enabled(s, t) && c < |s.clients|
    requires ByClient(t) ==> t.c != c
    ensures c < |Apply(site, s, t).clients| && Apply(site, s, t).clients[c] == s.clients[c]
  {
    if ByClient(t) {
      SoundStep(site, s, t);
    }
  }

  /** The obligation stays where it is as long as its holder takes no step. */
  lemma HolderStays(site: Site, s: State, t: Step, key: Key)
    requires Inv(site, s) && Enabled(s, t) && key in s.holder
    requires ByClient(t) ==> t.c != s.holder[key]
    ensures key in Apply(site, s, t).holder && Apply(site, s, t).holder[key] == s.holder[key]
  {
    assert HolderOk(s, key);
    if ByClient(t) {
      var s', k := Apply(site, s, t), s.clients[t.c].key;
      SoundStep(site, s, t);
      if k != key {
        Elsewhere(s.holder, s'.holder, k, key);
      }
    }
  }

  lemma WaitStays(site: Site, s: State, t: Step, c: Cid)
    requires Inv(site, s) && Enabled(s, t) && !GivesUp(s, t) && c < |s.clients| && Hangs(s, c)
    ensures var s' := Apply(site, s, t);
            c < |s'.clients| && s'.clients[c] == s.clients[c] && Next(s', c) == Next(s, c)
  {
    var s', d := Apply(site, s, t), Next(s, c);
    HangsIdle(site, s, t, c);
    HangsNext(site, s, c);
    ClientStays(site, s, t, c);
    if Hangs(s, d.value) {
      HangsIdle(site, s, t, d.value);
    } else {
      assert s.clients[d.value].phase.Done?;
    }
    ClientStays(site, s, t, d.value);
    InvStep(site, s, t);
    if s.clients[c].phase.Looking? {
      HolderStays(site, s, t, s.clients[c].key);
      assert HolderOk(s', s.clients[c].key);
    } else {
      ChildStays(site, s, t, c);
    }
  }

  lemma ChildStays(site: Site, s: State, t: Step, c: Cid)
    requires Inv(site, s) && Enabled(s, t) && c in s.child && (t.CallFrom? ==> t.c != c)
    ensures c in Apply(site, s, t).child && Apply(site, s, t).child[c] == s.child[c]
  {
    if ByClient(t) {
      SoundStep(site, s, t);
    }
  }

  /** Once a call hangs, it hangs for as long as the host does not give up a lookup that hangs. */
  lemma HangsOn(site: Site, s: State, t: Step, c: Cid)
    requires Inv(site, s) && Enabled(s, t) && !GivesUp(s, t) && c < |s.clients| && Hangs(s, c)
    ensures c < |Apply(site, s, t).clients| && Hangs(Apply(site, s, t), c)
  {
    var s' := Apply(site, s, t);
    InvStep(site, s, t);
    WaitStays(site, s, t, c);
    ClientsStay(site, s, t);
    forall n: nat ensures Next(s', Hop(s, c, n)) == Next(s, Hop(s, c, n)) {
      ChainHangs(site, s, c, n);
      ChainStays(site, s, t, Hop(s, c, n));
    }
    forall d: Cid | d < |s.clients| && AtLeak(s, d) ensures AtLeak(s', d) {
      assert AtLeak(s, Hop(s, d, 0));
      HangsExact(site, s, d);
      WaitStays(site, s, t, d);
      LeakStep(site, s, t, s.clients[d].key);
    }
    HangsExact(site, s, c);
    SameWaits(s, s', c);
    HangsExact(site, s', c);
  }

  lemma ChainStays(site: Site, s: State, t: Step, d: Cid)
    requires Inv(site, s) && Enabled(s, t) && !GivesUp(s, t) && d < |s.clients|
    requires s.clients[d].phase.Done? || Hangs(s, d)
    ensures d < |Apply(site, s, t).clients| && Next(Apply(site, s, t), d) == Next(s, d)
  {
    if Hangs(s, d) {
      WaitStays(site, s, t, d);
    } else {
      ClientStays(site, s, t, d);
    }
  }

  lemma ClientsStay(site: Site, s: State, t: Step)
    requires Inv(site, s) && Enabled(s, t)
    ensures |s.clients| <= |Apply(site, s, t).clients| && (ByClient(t) ==> t.c < |s.clients|)
  {
    if ByClient(t) {
      SoundStep(site, s, t);
    }
  }

  /** A run in which the host gives up no lookup that hangs. */
  ghost predicate Patient(site: Site, s: State, steps: seq<Step>)
    requires Legal(site, s, steps)
    decreases |steps|
  {
    steps != [] ==> !GivesUp(s, steps[0]) && Patient(site, Apply(site, s, steps[0]), steps[1..])
  }

  lemma {:induction false} HangsForEver(site: Site, s: State, steps: seq<Step>, c: Cid)
    requires Inv(site, s) && Legal(site, s, steps) && Patient(site, s, steps) && c < |s.clients| && Hangs(s, c)
    ensures c < |Run(site, s, steps).clients| && Hangs(Run(site, s, steps), c)
    decreases |steps|
  {
    if steps != [] {
      HangsOn(site, s, steps[0], c);
      InvStep(site, s, steps[0]);
      HangsForEver(site, Apply(site, s, steps[0]), steps[1..], c);
    }
  }

  /** A client's step gives an obligation to nobody but itself. */
  lemma HolderBack(site: Site, s: State, t: Step, key: Key)
    requires Inv(site, s) && Enabled(s, t) && ByClient(t)
    requires key in Apply(site, s, t).holder && Apply(site, s, t).holder[key] != t.c
    ensures key in s.holder && s.holder[key] == Apply(site, s, t).holder[key]
  {
    var s', k := Apply(site, s, t), s.clients[t.c].key;
    SoundStep(site, s, t);
    if k != key {
      Elsewhere(s.holder, s'.holder, k, key);
    } else if !t.Resolve? {
      HolderNotTaken(site, s, t);
    }
  }

  lemma HolderNotTaken(site: Site, s: State, t: Step)
    requires ByClient(t) && Enabled(s, t) && !t.Resolve?
    ensures var e := Effect(site, s, t);
            e.holder == s.holder || e.holder == s.holder - {s.clients[t.c].key}
  {
    if t.RunClosure? && t.entry.None? { ClosureFailureHolder(site, s, t); }
    else if t.RunClosure? { ClosureHolder(site, s, t); }
    else if t.Insert? && t.failure.Some? { InsertFailureHolder(site, s, t); }
    else if t.Insert? { InsertHolder(site, s, t); }
  }

  lemma ClosureFailureHolder(site: Site, s: State, t: Step)
    requires t.RunClosure? && t.entry.None? && Enabled(s, t)
    ensures Effect(site, s, t).holder == s.holder - {s.clients[t.c].key}
  {
  }

  lemma ClosureHolder(site: Site, s: State, t: Step)
    requires t.RunClosure? && t.entry.Some? && Enabled(s, t)
    ensures Effect(site, s, t).holder == s.holder
  {
  }

  lemma InsertFailureHolder(site: Site, s: State, t: Step)
    requires t.Insert? && t.failure.Some? && Enabled(s, t)
    ensures Effect(site, s, t).holder == s.holder - {s.clients[t.c].key}
  {
  }

  lemma InsertHolder(site: Site, s: State, t: Step)
    requires t.Insert? && t.failure.None? && Enabled(s, t)
    ensures Effect(site, s, t).holder == s.holder - {s.clients[t.c].key}
  {
  }

  /** After a good step of its own a call waits for nobody. */
  lemma GoodStepFrees(site: Site, s: State, g: Cid)
    requires Inv(site, s) && g < |s.clients| && !s.clients[g].phase.Done? && Enabled(s, NextStep(s, g))
    ensures var s' := Apply(site, s, NextStep(s, g));
            && Inv(site, s') && g < |s'.clients| && !Waiting(s', g)
            && (s'.clients[g].phase.Done? ==> s'.clients[g].phase.result.Ok?)
  {
    assert NestOk(s, g);
    var t := NextStep(s, g);
    InvStep(site, s, t);
    SoundStep(site, s, t);
    assert Apply(site, s, t).clients[g].phase == After(s, t);
  }

  lemma NotForTheFree(site: Site, s: State, g: Cid, c: Cid)
    requires Inv(site, s) && g < |s.clients| && !Waiting(s, g) && c < |s.clients| && Hangs(s, c)
    requires s.clients[g].phase.Done? ==> s.clients[g].phase.result.Ok?
    ensures Next(s, c) != Some(g)
  {
    HangsNext(site, s, c);
    var d := Next(s, c).value;
    assert HolderOk(s, s.clients[c].key);
    if !s.clients[d].phase.Done? {
      HangsNext(site, s, d);
    }
  }

  /** Who hangs after a good step of another call waited for the same call before it. */
  lemma WaitedBefore(site: Site, s: State, g: Cid, c: Cid)
    requires Inv(site, s) && g < |s.clients| && !s.clients[g].phase.Done? && Enabled(s, NextStep(s, g))
    requires c < |s.clients| && c < |Apply(site, s, NextStep(s, g)).clients| && Hangs(Apply(site, s, NextStep(s, g)), c)
    ensures var s' := Apply(site, s, NextStep(s, g));
            c != g && s'.clients[c] == s.clients[c] && Next(s', c) == Next(s, c) && Next(s', c) != Some(g)
  {
    var t := NextStep(s, g);
    var s' := Apply(site, s, t);
    GoodStepFrees(site, s, g);
    HangsNext(site, s', c);
    ClientStays(site, s, t, c);
    var d := Next(s', c).value;
    NotForTheFree(site, s', g, c);
    ClientStays(site, s, t, d);
    if s.clients[c].phase.Looking? {
      HolderBack(site, s, t, s.clients[c].key);
      assert HolderOk(s, s.clients[c].key);
    } else {
      SoundStep(site, s, t);
    }
  }

  /** A good step of some call makes no other call hang. */
  lemma HungBefore(site: Site, s: State, g: Cid, c: Cid)
    requires Inv(site, s) && g < |s.clients| && !s.clients[g].phase.Done? && Enabled(s, NextStep(s, g))
    requires c < |s.clients| && c < |Apply(site, s, NextStep(s, g)).clients| && Hangs(Apply(site, s, NextStep(s, g)), c)
    ensures Hangs(s, c)
  {
    var s' := Apply(site, s, NextStep(s, g));
    GoodStepFrees(site, s, g);
    SoundStep(site, s, NextStep(s, g));
    WaitedBefore(site, s, g, c);
    forall n: nat ensures Next(s, Hop(s', c, n)) == Next(s', Hop(s', c, n)) {
      ChainBefore(site, s, g, c, n);
    }
    forall d: Cid | d < |s'.clients| && AtLeak(s', d) ensures AtLeak(s, d) {
      LeakBefore(site, s, g, d);
    }
    HangsExact(site, s', c);
    SameWaits(s', s, c);
    HangsExact(site, s, c);
  }

  lemma LeakBefore(site: Site, s: State, g: Cid, d: Cid)
    requires Inv(site, s) && g < |s.clients| && !s.clients[g].phase.Done? && Enabled(s, NextStep(s, g))
    requires d < |s.clients| && d < |Apply(site, s, NextStep(s, g)).clients|
    requires AtLeak(Apply(site, s, NextStep(s, g)), d)
    ensures AtLeak(s, d)
  {
    var s' := Apply(site, s, NextStep(s, g));
    GoodStepFrees(site, s, g);
    assert AtLeak(s', Hop(s', d, 0));
    HangsExact(site, s', d);
    WaitedBefore(site, s, g, d);
    LeakStep(site, s, NextStep(s, g), s.clients[d].key);
  }

  lemma ChainBefore(site: Site, s: State, g: Cid, c: Cid, n: nat)
    requires Inv(site, s) && g < |s.clients| && !s.clients[g].phase.Done? && Enabled(s, NextStep(s, g))
    requires c < |s.clients| && c < |Apply(site, s, NextStep(s, g)).clients| && Hangs(Apply(site, s, NextStep(s, g)), c)
    ensures var s' := Apply(site, s, NextStep(s, g));
            Hop(s', c, n) < |s.clients| && Next(s', Hop(s', c, n)) == Next(s, Hop(s', c, n))
    decreases n
  {
    var s' := Apply(site, s, NextStep(s, g));
    GoodStepFrees(site, s, g);
    WaitedBefore(site, s, g, c);
    HangsNext(site, s', c);
    if n > 0 {
      var d := Next(s', c).value;
      if s'.clients[d].phase.Done? {
        ClientStays(site, s, NextStep(s, g), d);
        assert Hop(s', d, n - 1) == d;
      } else {
        ChainBefore(site, s, g, d, n - 1);
      }
    }
  }

  /** The call returns in some run in which the host gives up no lookup that hangs. */
  ghost predicate CanReturn(site: Site, s: State, c: Cid) {
    exists steps :: ReturnsBy(site, s, steps, c)
  }

  ghost predicate ReturnsBy(site: Site, s: State, steps: seq<Step>, c: Cid) {
    && Legal(site, s, steps) && Patient(site, s, steps)
    && c < |Run(site, s, steps).clients| && Run(site, s, steps).clients[c].phase.Done?
  }

  lemma ReturnsFirst(site: Site, s: State, t: Step, rest: seq<Step>, c: Cid)
    requires Enabled(s, t) && !GivesUp(s, t) && ReturnsBy(site, Apply(site, s, t), rest, c)
    ensures ReturnsBy(site, s, [t] + rest, c)
  {
    RunFirst(site, s, t, rest);
    assert ([t] + rest)[1..] == rest;
  }

  lemma {:induction false} LetReturn(site: Site, s: State, c: Cid) returns (steps: seq<Step>)
    requires Inv(site, s) && c < |s.clients| && !Hangs(s, c)
    ensures ReturnsBy(site, s, steps, c)
    decreases Measure(s.clients)
  {
    if s.clients[c].phase.Done? {
      steps := [];
    } else {
      HangsExact(site, s, c);
      var g := Progress(site, s, c);
      var t := NextStep(s, g);
      var s' := Apply(site, s, t);
      GoodStepFrees(site, s, g);
      ClientsStay(site, s, t);
      StepMeasure(site, s, t);
      if Hangs(s', c) {
        HungBefore(site, s, g, c);
      }
      var rest := LetReturn(site, s', c);
      ReturnsFirst(site, s, t, rest, c);
      steps := [t] + rest;
    }
  }

  /** Which calls can return. As long as the host gives up no lookup that hangs, a call can return, by steps of
      the calls alone that all succeed, if and only if its chain of waits leads neither to a leak nor into a
      cycle; otherwise nothing that anyone does brings it to its end. */
  lemma ReturnsExact(site: Site, s: State, c: Cid)
    requires Inv(site, s) && c < |s.clients| && !s.clients[c].phase.Done?
    ensures CanReturn(site, s, c) <==> !WaitsOnLeak(s, c) && !WaitsOnCycle(s, c)
  {
    HangsExact(site, s, c);
    if Hangs(s, c) {
      forall steps ensures !ReturnsBy(site, s, steps, c) {
        if ReturnsBy(site, s, steps, c) {
          HangsForEver(site, s, steps, c);
        }
      }
    } else {
      var steps := LetReturn(site, s, c);
    }
  }
}

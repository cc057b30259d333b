/** The functions of the simple cache as the program runs them, against a cache that other callers and the host
    go on changing between any two host calls. The object's state is always that of a run of the step system,
    so the theorems about runs hold of it at every moment. */
module SimpleCache {
  import opened Basics
  import opened ListEncoding
  import opened SurrogateKeys
  import opened CacheProtocol
  import opened CacheTheorems
  import opened CacheWaits

  // State bits of a lookup, src/cpp/fastly.h:127-134.
  const FOUND: bv32 := 1
  const MUST_INSERT_OR_UPDATE: bv32 := 8

  /** `Transaction::must_insert_or_update`. */
  predicate MustInsertOrUpdate(state: bv32) {
    state & MUST_INSERT_OR_UPDATE != 0
  }

  /** `Transaction::found` yields an object. */
  predicate HasFound(state: bv32) {
    state & FOUND != 0
  }

  /** What `cache_get_state` answers, if it does, for a lookup that has been resolved: found and usable (1 + 2), or
      must insert or update (8), with which there may be an item that is found but stale (1 + 4). */
  function LookupState(p: Phase, stale: bool): (state: bv32)
    ensures HasFound(state) <==> p.Hit? || (p.Obliged? && stale)
    ensures MustInsertOrUpdate(state) <==> p.Obliged?
  {
    if p.Hit? then 3 else if p.Obliged? then if stale then 13 else 8 else 0
  }

  /** How a call ends. It can end with its process, and it never ends if what it waits for never comes. */
  datatype Ending<+T> = Died | Blocked | Answered(value: T)

  type Answer = Result<Option<Cid>, SimpleError>

  /** The ways through `get_or_set_with`. A `status` is the host's answer to the call that failed. */
  datatype Path =
    | NoLookup(status: nat)                                       // the lookup failed
    | NoState(status: nat)                                        // its state query failed
    | Unanswered                                                  // it is never answered
    | AbortedAtState(status: nat)                                 // a later state query failed
    | Read(item: Cid, failure: Option<nat>)                       // an item was found
    | AbortedInClosure                                            // a call of the closure ended the process
    | Nested                                                      // a call of the closure never returns
    | NoEntry                                                     // the closure had none
    | NoInsert(status: nat)                                       // the insertion failed
    | AbortedAtMove(status: nat)                                  // the host failed while the entry was moved
    | NoFinish(accepted: nat, status: nat)                        // the insertion could not be finished
    | Stored(accepted: nat, failure: Option<nat>)                 // it was, and then read back

  // The host calls and closure runs of a call up to each of its stages.

  function ToLookup(c: Cid): seq<Step> {
    [Resolve(c)]
  }

  function ToEntry(c: Cid, entry: Option<EntryBody>): seq<Step> {
    ToLookup(c) + [RunClosure(c, entry)]
  }

  function ToInsert(c: Cid, entry: Option<EntryBody>): seq<Step> {
    ToEntry(c, entry) + [Insert(c, None)]
  }

  function ToAppend(c: Cid, entry: Option<EntryBody>, accepted: nat): seq<Step> {
    ToInsert(c, entry) + [AppendEntry(c, accepted)]
  }

  function ToFinish(c: Cid, entry: Option<EntryBody>, accepted: nat): seq<Step> {
    ToAppend(c, entry, accepted) + [Finish(c, true)]
  }

  function Reason(failure: Option<nat>): Option<CoreError> {
    if failure.Some? then Some(FromStatus(failure.value)) else None
  }

  /** The host calls and closure runs of the call, in order. */
  function PathSteps(c: Cid, entry: Option<EntryBody>, path: Path): seq<Step> {
    match path
    case NoLookup(status) => [LookupFails(c, FromStatus(status))]
    case NoState(status) => [StateQueryFails(c, FromStatus(status))]
    case Unanswered => []
    case AbortedAtState(_) => ToLookup(c)
    case Read(_, failure) => ToLookup(c) + [OpenStream(c, Reason(failure))]
    case AbortedInClosure => ToLookup(c)
    case Nested => ToLookup(c)
    case NoEntry => ToEntry(c, None)
    case NoInsert(status) => ToEntry(c, entry) + [Insert(c, Some(FromStatus(status)))]
    case AbortedAtMove(_) => ToInsert(c, entry)
    case NoFinish(accepted, _) => ToAppend(c, entry, accepted) + [Finish(c, false)]
    case Stored(accepted, failure) => ToFinish(c, entry, accepted) + [ReadBack(c, Reason(failure))]
  }

  /** The host calls of the call that failed: one at most, and none on a path without a failure. */
  function PathFailures(path: Path): seq<nat> {
    match path
    case NoLookup(status) => [status]
    case NoState(status) => [status]
    case AbortedAtState(status) => [status]
    case Read(_, failure) => if failure.Some? then [failure.value] else []
    case NoInsert(status) => [status]
    case AbortedAtMove(status) => [status]
    case NoFinish(_, status) => [status]
    case Stored(_, failure) => if failure.Some? then [failure.value] else []
    case _ => []
  }

  /** What the caller gets for a stream of the item. */
  function StreamOf(item: Cid, failure: Option<nat>): Answer {
    if failure.Some? then Err(ErrorFor(failure.value)) else Ok(Some(item))
  }

  function PathResult(c: Cid, path: Path): Ending<Answer> {
    match path
    case NoLookup(status) => Answered(Err(ErrorFor(status)))
    case NoState(status) => Answered(Err(ErrorFor(status)))
    case Unanswered => Blocked
    case AbortedAtState(_) => Died
    case Read(item, failure) => Answered(StreamOf(item, failure))
    case AbortedInClosure => Died
    case Nested => Blocked
    case NoEntry => Answered(Err(SimpleError.GetOrSet))
    case NoInsert(status) => Answered(Err(ErrorFor(status)))
    case AbortedAtMove(_) => Died
    case NoFinish(_, _) => Answered(Err(Other))
    case Stored(_, failure) => Answered(StreamOf(c, failure))
  }

  /** Which paths are open, given the closure's result and the keys it calls for. */
  predicate PathOpen(entry: Option<EntryBody>, calls: seq<Key>, path: Path) {
    && (path.AbortedInClosure? || path.Nested? ==> calls != [])
    && (path.NoEntry? ==> entry.None?)
    && (path.NoInsert? || path.AbortedAtMove? || path.NoFinish? || path.Stored? ==> entry.Some?)
  }

  /** The error GetOrSet means that the closure had no entry. */
  lemma NoEntryIsClosure(c: Cid, path: Path)
    ensures PathResult(c, path) == Answered(Err(SimpleError.GetOrSet)) <==> path.NoEntry?
  {
  }

  class Cache {
    const site: Site
    var s: State
    /** Every step taken since the cache was empty. */
    ghost var trace: seq<Step>
    /** The statuses of the host calls made here that have failed. */
    ghost var failed: seq<nat>

    ghost predicate Valid()
      reads this`s, this`trace
    {
      && RunTo(site, trace, s)
      && forall t :: t in trace && ByClient(t) ==> t.c < |s.clients|
    }

    /** The state is that of a run, so all that is true of runs is true of it. */
    lemma Reached()
      requires Valid()
      ensures Legal(site, EMPTY, trace) && s == Run(site, EMPTY, trace) && Inv(site, s)
    {
      RunToIsRun(site, trace, s);
      EmptyInv(site);
      InvRun(site, EMPTY, trace);
    }

    constructor (site: Site)
      ensures Valid() && s == EMPTY && trace == [] && failed == [] && this.site == site
    {
      this.site, s, trace, failed := site, EMPTY, [], [];
      assert Chain(site, [EMPTY], [], EMPTY);
    }

    method Do(t: Step)
      requires Valid() && Enabled(s, t)
      modifies this`s, this`trace
      ensures Valid() && s == Apply(site, old(s), t) && trace == old(trace) + [t]
    {
      RunToNext(site, trace, s, t);
      assert |s.clients| <= |Apply(site, s, t).clients| && (ByClient(t) ==> t.c < |s.clients|) by {
        Reached();
        ClientsStay(site, s, t);
      }
      s := Apply(site, s, t);
      trace := trace + [t];
    }

    /** The call has gone along the path: its own steps, what it returns, the phase it is in and what it stored
        are those of the path. */
    ghost predicate Along(me: Cid, key: Key, entry: Option<EntryBody>, calls: seq<Key>, path: Path,
                          r: Ending<Answer>)
      reads this`s, this`trace
    {
      && me < |s.clients| && s.clients[me].key == key && PathOpen(entry, calls, path)
      && r == PathResult(me, path) && Own(trace, me) == PathSteps(me, entry, path)
      && (r.Answered? ==> EndedWith(s.clients[me].phase, r.value)) && (r.Blocked? ==> Hangs(s, me))
      && (me in s.made ==> entry == Some(s.made[me]))
      && (path.Stored? ==> me in s.items && s.items[me].content == Delivered(entry.value, path.accepted))
    }

    /** One path of the last part of a call after the other. */
    lemma AlongMoved(me: Cid, key: Key, body: EntryBody, status: nat)
      requires me < |s.clients| && s.clients[me].key == key && Made(me, body)
      requires Own(trace, me) == ToInsert(me, Some(body))
      ensures Along(me, key, Some(body), [], AbortedAtMove(status), Died)
    {
    }

    lemma AlongUnfinished(me: Cid, key: Key, body: EntryBody, accepted: nat, status: nat)
      requires me < |s.clients| && s.clients[me] == Client(key, Done(Err(Other))) && Made(me, body)
      requires Own(trace, me) == ToAppend(me, Some(body), accepted) + [Finish(me, false)]
      ensures Along(me, key, Some(body), [], NoFinish(accepted, status), Answered(Err(Other)))
    {
    }

    lemma AlongStored(me: Cid, key: Key, body: EntryBody, accepted: nat, failure: Option<nat>)
      requires me < |s.clients| && s.clients[me] == Client(key, Opened(me, Reason(failure))) && Made(me, body)
      requires Own(trace, me) == ToFinish(me, Some(body), accepted) + [ReadBack(me, Reason(failure))]
      requires me in s.items && s.items[me].content == Delivered(body, accepted)
      ensures Along(me, key, Some(body), [], Stored(accepted, failure), Answered(StreamOf(me, failure)))
    {
      if failure.Some? {
        ErrorsKeepTheirCode(failure.value);
      }
    }

    lemma AlongNoLookup(me: Cid, key: Key, entry: Option<EntryBody>, calls: seq<Key>, path: Path)
      requires me < |s.clients| && path.NoLookup? && me !in s.made
      requires s.clients[me] == Client(key, Done(Err(ErrorFor(path.status))))
      requires Own(trace, me) == [LookupFails(me, FromStatus(path.status))]
      ensures Along(me, key, entry, calls, path, Answered(Err(ErrorFor(path.status))))
    {
    }

    /** The call's closure produced this entry. */
    ghost predicate Made(c: Cid, body: EntryBody)
      reads this`s
    {
      c in s.made && s.made[c] == body
    }

    /** A step of the client whose call this is. */
    method Advance(t: Step)
      requires Valid() && Enabled(s, t) && ByClient(t)
      modifies this`s, this`trace
      ensures Valid() && trace == old(trace) + [t] && Own(trace, t.c) == Own(old(trace), t.c) + [t]
      ensures t.c < |s.clients|
      ensures s.clients[t.c] == Client(old(s).clients[t.c].key, After(old(s), t))
      ensures s.made == if t.RunClosure? && t.entry.Some? then old(s).made[t.c := t.entry.value] else old(s).made
      ensures s.child == old(s).child && |s.clients| == |old(s).clients|
      ensures forall d :: 0 <= d < |s.clients| && d != t.c ==> s.clients[d] == old(s).clients[d]
      ensures s.drained == if t.AppendEntry? then old(s).drained[t.c := t.accepted] else old(s).drained
    {
      OwnNext(trace, t, t.c);
      StepRecords(site, s, t);
      Do(t);
    }

    /** Any number of steps by anyone but client `c`. */
    method Interfere(c: Cid)
      requires Valid() && c < |s.clients|
      modifies this`s, this`trace
      ensures Valid() && Undisturbed(old(s), s, c)
      ensures old(trace) <= trace && Own(trace, c) == Own(old(trace), c)
    {
      ghost var start := trace;
      var n: nat := *;
      while n > 0
        invariant Valid() && Undisturbed(old(s), s, c)
        invariant start <= trace && Own(trace, c) == Own(start, c)
      {
        var t: Step := *;
        if Enabled(s, t) && !By(t, c) {
          DoOther(t, c);
        }
        n := n - 1;
      }
    }

    /** The host holds back the answer to the lookup of client `c` while another client has the obligation. The
        wait ends, because somebody on the chain of waits has an enabled step, unless the chain leads to a leak
        or into a cycle. Meanwhile anything may happen, only not for ever without such a step. */
    method AwaitAnswer(c: Cid) returns (answered: bool)
      requires Valid() && c < |s.clients| && s.clients[c].phase.Looking?
      modifies this`s, this`trace
      ensures Valid() && Undisturbed(old(s), s, c)
      ensures if answered then Answerable(s, s.clients[c].key) else Hangs(s, c)
      ensures old(trace) <= trace && Own(trace, c) == Own(old(trace), c)
    {
      ghost var start := trace;
      var n: nat := *;
      while !Answerable(s, s.clients[c].key) && !Hangs(s, c)
        invariant Valid() && Undisturbed(old(s), s, c)
        invariant start <= trace && Own(trace, c) == Own(start, c)
        decreases n, Measure(s.clients)
      {
        assert HolderOk(s, s.clients[c].key) by {
          Reached();
        }
        var disturbed := Wait(c, c, n > 0);
        if disturbed {
          n := n - 1;
        }
      }
      return Answerable(s, s.clients[c].key);
    }

    /** The same for the end of a call that the closure of `me` has made. */
    method AwaitReturn(me: Cid, c: Cid) returns (back: bool)
      requires Valid() && me < |s.clients| && s.clients[me].phase.Obliged? && me in s.child && s.child[me] == c
      modifies this`s, this`trace
      ensures Valid() && me < |s.clients| <= |s.clients| && s.clients[me] == old(s).clients[me]
      ensures SameEntry(old(s), s, me)
      ensures if back then !Nesting(s, me) else Hangs(s, me)
      ensures old(trace) <= trace && Own(trace, me) == Own(old(trace), me)
    {
      ghost var start := trace;
      var n: nat := *;
      assert NestOk(s, me) by {
        Reached();
      }
      while !s.clients[c].phase.Done? && !Hangs(s, c)
        invariant Valid() && me < |s.clients| && c < |s.clients| && s.clients[me] == old(s).clients[me]
        invariant SameEntry(old(s), s, me) && me in s.child && s.child[me] == c
        invariant start <= trace && Own(trace, me) == Own(start, me)
        decreases n, Measure(s.clients)
      {
        var disturbed := Wait(me, c, n > 0);
        if disturbed {
          n := n - 1;
        }
      }
      if !s.clients[c].phase.Done? {
        assert Hangs(s, me) by {
          Reached();
          HangsWith(site, s, me);
        }
      }
      return s.clients[c].phase.Done?;
    }

    /** One step of someone else while client `me` waits, for an answer or for the end of the call `c`: any, if
        that is allowed, or else one that brings the end of the wait nearer. */
    method Wait(me: Cid, c: Cid, any: bool) returns (disturbed: bool)
      requires Valid() && me < |s.clients| && CacheWaits.Waiting(s, me)
      requires c < |s.clients| && !s.clients[c].phase.Done? && !Hangs(s, c)
      modifies this`s, this`trace
      ensures Valid() && Undisturbed(old(s), s, me) && SameChild(old(s), s, me)
      ensures old(trace) <= trace && Own(trace, me) == Own(old(trace), me)
      ensures disturbed ==> any
      ensures !disturbed ==> Measure(s.clients) < Measure(old(s).clients)
    {
      var d := Hop(s, c, |s.clients|);
      assert d != me && !s.clients[d].phase.Done? && Enabled(s, NextStep(s, d)) by {
        Reached();
        WaitIsNearer(site, s, me, c);
      }
      var t: Step := *;
      disturbed := any && Enabled(s, t) && !By(t, me);
      if !disturbed {
        t := NextStep(s, d);
        StepMeasure(site, s, t);
      }
      DoOther(t, me);
    }

    /** A step that is not the call's own. */
    method DoOther(t: Step, c: Cid)
      requires Valid() && Enabled(s, t) && !By(t, c) && c < |s.clients|
      modifies this`s, this`trace
      ensures Valid() && Undisturbed(old(s), s, c) && SameChild(old(s), s, c) && s == Apply(site, old(s), t)
      ensures trace == old(trace) + [t] && Own(trace, c) == Own(old(trace), c)
    {
      Reached();
      UndisturbedStep(site, s, t, c);
      OwnNext(trace, t, c);
      Do(t);
    }

    /** The closure of `me`: it calls for the given keys, one after the other. */
    method CallKeys(me: Cid, calls: seq<Key>) returns (end: Ending<()>)
      requires Valid() && ClosureRuns(s, me)
      modifies this`s, this`trace
      ensures Valid() && me < |s.clients| && s.clients[me] == old(s).clients[me] && SameEntry(old(s), s, me)
      ensures old(trace) <= trace && Own(trace, me) == Own(old(trace), me)
      ensures end.Answered? ==> ClosureRuns(s, me)
      ensures end.Blocked? ==> Hangs(s, me)
      ensures !end.Answered? ==> calls != []
    {
      ghost var start := trace;
      for i := 0 to |calls|
        invariant Valid() && ClosureRuns(s, me) && s.clients[me] == old(s).clients[me] && SameEntry(old(s), s, me)
        invariant start <= trace && Own(trace, me) == Own(start, me)
      {
        Ask(me, calls[i]);
        var back := AwaitReturn(me, s.child[me]);
        if !back {
          return Blocked;
        }
        if * {
          return Died;
        }
      }
      return Answered(());
    }

    method Ask(me: Cid, key: Key)
      requires Valid() && ClosureRuns(s, me)
      modifies this`s, this`trace
      ensures Valid() && trace == old(trace) + [CallFrom(me, key)] && Own(trace, me) == Own(old(trace), me)
      ensures me < |s.clients| && s.clients[me] == old(s).clients[me] && SameEntry(old(s), s, me)
      ensures me in s.child
    {
      OwnNext(trace, CallFrom(me, key), me);
      Do(CallFrom(me, key));
    }

    /** A host call: its status is zero or it has failed. */
    method HostCall() returns (status: nat)
      modifies this`failed
      ensures failed == old(failed) + if status == 0 then [] else [status]
    {
      status := *;
      if status != 0 {
        failed := failed + [status];
      }
    }

    /** `cache_get_state` on the handle of a resolved lookup, in `must_insert_or_update` and in `found`: if it
        fails, and only then, the process ends. */
    method QueryState(c: Cid) returns (state: Outcome<bv32>, ghost status: nat)
      requires Valid() && c < |s.clients|
      modifies this`failed
      ensures state.Aborted? <==> status != 0
      ensures failed == old(failed) + if status == 0 then [] else [status]
      ensures state.Returned? ==> exists stale :: state.value == LookupState(s.clients[c].phase, stale)
    {
      var got := HostCall();
      status := got;
      if got != 0 {
        return Aborted, status;
      }
      var stale: bool := *;
      return Returned(LookupState(s.clients[c].phase, stale)), status;
    }

    /** `get_or_set_with`. The closure's result is the argument `entry`, and `calls` are the keys for which it calls
        the function itself; every failure of a host call is free. The call is a new client of the run, it takes
        the steps of one of the paths in their order, and it ends as the path says. */
    method GetOrSetWith(key: Key, entry: Option<EntryBody>, calls: seq<Key>)
      returns (r: Ending<Answer>, ghost c: Cid, ghost path: Path)
      requires Valid()
      modifies this`s, this`trace, this`failed
      ensures failed == old(failed) + PathFailures(path)
      ensures Valid() && old(trace) + [Call(key)] <= trace && c == |old(s).clients|
      ensures Along(c, key, entry, calls, path, r)
      ensures r == Answered(Err(SimpleError.GetOrSet)) <==> path.NoEntry?
    {
      var me := Begin(key);
      c := me;
      ghost var start := trace;
      var over;
      over, r, path := LookUp(me, key, entry, calls);
      if !over {
        ghost var answered := trace;
        r, path := ReadOrFill(me, key, entry, calls);
        assert start <= answered <= trace;
      }
      assert r == Answered(Err(SimpleError.GetOrSet)) <==> path.NoEntry? by {
        NoEntryIsClosure(me, path);
      }
    }

    /** `get_or_set_with` from its answered lookup on. */
    method ReadOrFill(me: Cid, key: Key, entry: Option<EntryBody>, calls: seq<Key>)
      returns (r: Ending<Answer>, ghost path: Path)
      requires Valid() && Resolved(me, key)
      modifies this`s, this`trace, this`failed
      ensures failed == old(failed) + PathFailures(path)
      ensures Valid() && old(trace) <= trace && Along(me, key, entry, calls, path, r)
    {
      ghost var start := trace;
      Interfere(me);
      var state: Outcome<bv32>;
      ghost var status;
      state, status := QueryState(me);
      if state.Aborted? {
        return Died, AbortedAtState(status);
      }
      if !MustInsertOrUpdate(state.value) {
        r, path := ReadFound(me, key, entry, calls);
      } else {
        r, path := Fill(me, key, entry, calls);
      }
    }

    /** The branch with the obligation: line 214 on. */
    method Fill(me: Cid, key: Key, entry: Option<EntryBody>, calls: seq<Key>)
      returns (r: Ending<Answer>, ghost path: Path)
      requires Valid() && me < |s.clients| && s.clients[me] == Client(key, Obliged) && !Nesting(s, me)
      requires Own(trace, me) == ToLookup(me)
      modifies this`s, this`trace, this`failed
      ensures failed == old(failed) + PathFailures(path)
      ensures Valid() && old(trace) <= trace && Along(me, key, entry, calls, path, r)
    {
      assert ClientOk(site, s, me) by {
        Reached();
      }
      var end := CallKeys(me, calls);
      match end
      case Died => return Died, AbortedInClosure;
      case Blocked => return Blocked, Nested;
      case Answered(_) => r, path := EndClosure(me, key, entry);
    }

    /** The closure returns its result: lines 214 to 217, and the rest. */
    method EndClosure(me: Cid, key: Key, entry: Option<EntryBody>) returns (r: Ending<Answer>, ghost path: Path)
      requires Valid() && ClosureRuns(s, me) && s.clients[me].key == key
      requires Own(trace, me) == ToLookup(me)
      modifies this`s, this`trace, this`failed
      ensures failed == old(failed) + PathFailures(path)
      ensures Valid() && old(trace) <= trace && Along(me, key, entry, [], path, r)
    {
      assert ClientOk(site, s, me) by {
        Reached();
      }
      ghost var start := trace;
      Advance(RunClosure(me, entry));
      assert start <= trace && Own(trace, me) == ToEntry(me, entry);
      if entry.None? {
        return Answered(Err(SimpleError.GetOrSet)), NoEntry;
      }
      r, path := InsertAndReadBack(me, key, entry.value);
    }

    /** The branch without an obligation: lines 202 to 210. */
    method ReadFound(me: Cid, key: Key, ghost entry: Option<EntryBody>, ghost calls: seq<Key>)
      returns (r: Ending<Answer>, ghost path: Path)
      requires Valid() && me < |s.clients| && s.clients[me].key == key && me !in s.made
      requires s.clients[me].phase.Hit? && Own(trace, me) == ToLookup(me)
      modifies this`s, this`trace, this`failed
      ensures failed == old(failed) + PathFailures(path)
      ensures Valid() && old(trace) <= trace && Along(me, key, entry, calls, path, r)
      ensures path.Read? ==> path.item == old(s).clients[me].phase.item
    {
      Interfere(me);
      var state: Outcome<bv32>;
      ghost var status;
      state, status := QueryState(me);
      if state.Aborted? {
        return Died, AbortedAtState(status);
      }
      if HasFound(state.value) {
        var item := s.clients[me].phase.item;
        var answer, failure := ToStream(item);
        Advance(OpenStream(me, Reason(failure)));
        return Answered(answer), Read(item, failure);
      } else {
        // The branch that returns CacheError::InvalidOperation.
        assert false;
      }
    }

    method Begin(key: Key) returns (me: Cid)
      requires Valid()
      modifies this`s, this`trace
      ensures Valid() && trace == old(trace) + [Call(key)] && me == |old(s).clients| < |s.clients|
      ensures s.clients[me] == Client(key, Looking) && me !in s.made && Own(trace, me) == []
    {
      me := |s.clients|;
      OwnNone(trace, me);
      OwnNext(trace, Call(key), me);
      Do(Call(key));
      assert ClientOk(site, s, me) by {
        Reached();
      }
    }

    /** The call's lookup has been answered, with an item or with the obligation. */
    ghost predicate Resolved(me: Cid, key: Key)
      reads this`s, this`trace
    {
      && me < |s.clients| && s.clients[me].key == key && me !in s.made && !Nesting(s, me)
      && (s.clients[me].phase.Hit? || s.clients[me].phase.Obliged?) && Own(trace, me) == ToLookup(me)
    }

    /** `Transaction::lookup(key).execute()`: an answer, or the path on which the call is over. */
    method LookUp(me: Cid, key: Key, ghost entry: Option<EntryBody>, ghost calls: seq<Key>)
      returns (over: bool, answer: Ending<Answer>, ghost path: Path)
      requires Valid() && me < |s.clients| && s.clients[me] == Client(key, Looking) && me !in s.made
      requires Own(trace, me) == []
      modifies this`s, this`trace, this`failed
      ensures Valid() && old(trace) <= trace
      ensures failed == old(failed) + if over then PathFailures(path) else []
      ensures over ==> Along(me, key, entry, calls, path, answer)
      ensures !over ==> Resolved(me, key)
      ensures over ==> path.NoLookup? || path.NoState? || path.Unanswered?
    {
      ghost var start := trace;
      Interfere(me);
      var status := HostCall();
      if status != 0 {
        ErrorsKeepTheirCode(status);
        Advance(LookupFails(me, FromStatus(status)));
        AlongNoLookup(me, key, entry, calls, NoLookup(status));
        return true, Answered(Err(FromCoreError(FromStatus(status)))), NoLookup(status);
      }
      over, answer, path := AwaitState(me, key, entry, calls);
    }

    /** The state query, which returns when the lookup is answered: lines 326 to 328. */
    method AwaitState(me: Cid, key: Key, ghost entry: Option<EntryBody>, ghost calls: seq<Key>)
      returns (over: bool, answer: Ending<Answer>, ghost path: Path)
      requires Valid() && me < |s.clients| && s.clients[me] == Client(key, Looking) && me !in s.made
      requires Own(trace, me) == []
      modifies this`s, this`trace, this`failed
      ensures Valid() && old(trace) <= trace
      ensures failed == old(failed) + if over then PathFailures(path) else []
      ensures over ==> Along(me, key, entry, calls, path, answer)
      ensures !over ==> Resolved(me, key)
      ensures over ==> path.NoState? || path.Unanswered?
    {
      var answered := AwaitAnswer(me);
      var status := HostCall();
      if status != 0 {
        ErrorsKeepTheirCode(status);
        Advance(StateQueryFails(me, FromStatus(status)));
        return true, Answered(Err(FromCoreError(FromStatus(status)))), NoState(status);
      }
      if !answered {
        return true, Blocked, Unanswered;
      }
      assert NestOk(s, me) by {
        Reached();
      }
      Advance(Resolve(me));
      return false, Blocked, Unanswered;
    }

    /** `to_stream`, and the conversion of its error. */
    method ToStream(item: Cid) returns (answer: Answer, failure: Option<nat>)
      modifies this`failed
      ensures failed == old(failed) + if failure.Some? then [failure.value] else []
      ensures answer == StreamOf(item, failure)
    {
      var status := HostCall();
      if status != 0 {
        ErrorsKeepTheirCode(status);
        return Err(FromCoreError(FromStatus(status))), Some(status);
      }
      return Ok(Some(item)), None;
    }

    /** The rest of `get_or_set_with` once the closure has returned an entry. */
    method InsertAndReadBack(me: Cid, key: Key, body: EntryBody) returns (r: Ending<Answer>, ghost path: Path)
      requires Valid() && me < |s.clients| && s.clients[me] == Client(key, Entry(body))
      requires Made(me, body) && Own(trace, me) == ToEntry(me, Some(body))
      modifies this`s, this`trace, this`failed
      ensures failed == old(failed) + PathFailures(path)
      ensures Valid() && old(trace) <= trace && Along(me, key, Some(body), [], path, r)
    {
      Interfere(me);
      var surrogates := SurrogateKeysOption(site, key);
      var status := ExecuteAndStreamBack(me, surrogates);
      if status != 0 {
        ErrorsKeepTheirCode(status);
        return Answered(Err(FromCoreError(FromStatus(status)))), NoInsert(status);
      }
      r, path := StreamAndReadBack(me, key, body);
    }

    /** `execute_and_stream_back` with the surrogate-key option of the builder. The host stores the option with the
        item, so it has to be the one the insertion step of the model stores. */
    method ExecuteAndStreamBack(me: Cid, surrogates: string) returns (status: nat)
      requires Valid() && me < |s.clients| && s.clients[me].phase.Entry?
      requires surrogates == StoredKeys(site, s.clients[me].key)
      modifies this`s, this`trace, this`failed
      ensures Valid() && me < |s.clients|
      ensures failed == old(failed) + if status == 0 then [] else [status]
      ensures var t := Insert(me, if status == 0 then None else Some(FromStatus(status)));
        && trace == old(trace) + [t] && Own(trace, me) == Own(old(trace), me) + [t]
        && s.clients[me] == Client(old(s).clients[me].key, After(old(s), t))
      ensures SameEntry(old(s), s, me)
      ensures status == 0 ==> me in s.items && s.items[me].surrogates == surrogates
    {
      status := HostCall();
      Advance(Insert(me, if status == 0 then None else Some(FromStatus(status))));
      assert ClientOk(site, s, me) by {
        Reached();
      }
    }

    /** From the append on: lines 236 to 247. The move into the parameter of `append` ends the process if the host
        fails in it. */
    method StreamAndReadBack(me: Cid, key: Key, body: EntryBody) returns (r: Ending<Answer>, ghost path: Path)
      requires Valid() && me < |s.clients| && s.clients[me] == Client(key, Inserted(body))
      requires Made(me, body) && Own(trace, me) == ToInsert(me, Some(body))
      modifies this`s, this`trace, this`failed
      ensures failed == old(failed) + PathFailures(path)
      ensures Valid() && old(trace) <= trace && Along(me, key, Some(body), [], path, r)
    {
      var moved := HostCall();
      if moved != 0 {
        Interfere(me);
        AlongMoved(me, key, body, moved);
        return Died, AbortedAtMove(moved);
      }
      var accepted, status := AppendAndFinish(me, key, body);
      if status != 0 {
        AlongUnfinished(me, key, body, accepted, status);
        return Answered(Err(Other)), NoFinish(accepted, status);
      }
      ghost var before := trace;
      var answer, failure := ReadOwn(me, key, body, accepted);
      assert old(trace) <= before <= trace;
      AlongStored(me, key, body, accepted, failure);
      return Answered(answer), Stored(accepted, failure);
    }

    /** Lines 236 to 240. */
    method AppendAndFinish(me: Cid, key: Key, body: EntryBody) returns (accepted: nat, status: nat)
      requires Valid() && me < |s.clients| && s.clients[me] == Client(key, Inserted(body)) && Made(me, body)
      modifies this`s, this`trace, this`failed
      ensures Valid() && old(trace) <= trace && me < |s.clients| && Made(me, body)
      ensures failed == old(failed) + if status == 0 then [] else [status]
      ensures s.clients[me] == Client(key, if status == 0 then Finished else Done(Err(Other)))
      ensures Own(trace, me) == Own(old(trace), me) + [AppendEntry(me, accepted)] + [Finish(me, status == 0)]
      ensures me in s.drained && s.drained[me] == accepted
    {
      ghost var start := trace;
      Interfere(me);
      accepted := *;
      Advance(AppendEntry(me, accepted));
      assert start <= trace;
      Interfere(me);
      assert start <= trace;
      status := HostCall();
      Advance(Finish(me, status == 0));
    }

    /** `found.to_stream()` on the item just inserted: lines 242 to 247. */
    method ReadOwn(me: Cid, key: Key, body: EntryBody, accepted: nat) returns (answer: Answer, failure: Option<nat>)
      requires Valid() && me < |s.clients| && s.clients[me] == Client(key, Finished)
      requires Made(me, body) && me in s.drained && s.drained[me] == accepted
      modifies this`s, this`trace, this`failed
      ensures Valid() && old(trace) <= trace && me < |s.clients|
      ensures failed == (old(failed) + if failure.Some? then [failure.value] else []) && answer == StreamOf(me, failure)
      ensures s.clients[me] == Client(key, Opened(me, Reason(failure))) && Made(me, body)
      ensures Own(trace, me) == Own(old(trace), me) + [ReadBack(me, Reason(failure))]
      ensures me in s.items && s.items[me].content == Delivered(body, accepted)
    {
      Interfere(me);
      answer, failure := ToStream(me);
      assert ClientOk(site, s, me) by {
        Reached();
      }
      OwnNext(trace, ReadBack(me, Reason(failure)), me);
      Do(ReadBack(me, Reason(failure)));
    }

    /** `get_or_set`. Its closure cannot fail, so GetOrSet is never returned, and the branch that aborts for want
        of a body is dead. */
    method GetOrSet(key: Key, value: EntryBody)
      returns (r: Ending<Result<Cid, SimpleError>>, ghost c: Cid, ghost path: Path)
      requires Valid()
      modifies this`s, this`trace, this`failed
      ensures failed == old(failed) + PathFailures(path)
      ensures Valid() && old(trace) + [Call(key)] <= trace && c == |old(s).clients| < |s.clients|
      ensures Own(trace, c) == PathSteps(c, Some(value), path) && PathOpen(Some(value), [], path)
      ensures match PathResult(c, path)
              case Answered(Ok(item)) => item.Some? && r == Answered(Ok(item.value))
              case Answered(Err(e)) => r == Answered(Err(e))
              case Blocked => r == Blocked
              case Died => r == Died
      ensures r.Blocked? ==> Hangs(s, c)
      ensures r.Answered? ==> s.clients[c] == Client(key, Done(r.value))
      ensures c in s.made ==> s.made[c] == value
      ensures path.Stored? ==> c in s.items && s.items[c].content == Delivered(value, path.accepted)
      ensures r != Answered(Err(SimpleError.GetOrSet))
      ensures !path.Nested? && !path.AbortedInClosure? && !path.NoEntry?
    {
      var opt: Ending<Answer>;
      opt, c, path := GetOrSetWith(key, Some(value), []);
      match opt
      case Died => return Died, c, path;
      case Blocked => return Blocked, c, path;
      case Answered(Err(e)) => return Answered(Err(e)), c, path;
      case Answered(Ok(body)) =>
        if body.Some? {
          return Answered(Ok(body.value)), c, path;
        }
        assert false;
    }

    /** Any number of steps by anyone. */
    method Elapse()
      requires Valid()
      modifies this`s, this`trace
      ensures Valid() && old(trace) <= trace && ItemsKept(old(s), s)
    {
      ghost var start := trace;
      var n: nat := *;
      while n > 0
        invariant Valid() && start <= trace && ItemsKept(old(s), s)
      {
        var t: Step := *;
        if Enabled(s, t) {
          assert ItemsKept(s, Apply(site, s, t)) by {
            Reached();
            ItemsKeptStep(site, s, t);
          }
          Do(t);
        }
        n := n - 1;
      }
    }

    /** `get`: a lookup outside any transaction, which neither waits nor takes on an obligation, and then a stream
        of what it found. The answer is that of the moment `at` of the lookup. */
    method Get(key: Key) returns (r: Result<Option<Cid>, SimpleError>, ghost at: seq<Step>, ghost failure: Option<nat>)
      requires Valid()
      modifies this`s, this`trace, this`failed
      ensures Valid() && old(trace) <= at <= trace && Legal(site, EMPTY, at)
      ensures failed == old(failed) + if failure.Some? then [failure.value] else []
      ensures failure.Some? ==> r == Err(ErrorFor(failure.value))
      ensures failure.None? ==>
        var found := Run(site, EMPTY, at).current;
        r == Ok(if key in found then Some(found[key]) else None)
      ensures r.Ok? && r.value.Some? ==> r.value.value in s.items && s.items[r.value.value].key == key
    {
      Elapse();
      at := trace;
      Reached();
      var status := HostCall();
      if status != 0 {
        ErrorsKeepTheirCode(status);
        return Err(FromCoreError(FromStatus(status))), at, Some(status);
      }
      if key !in s.current {
        return Ok(None), at, None;
      }
      assert CurrentOk(site, s, key) by {
        Reached();
      }
      var item := s.current[key];
      Elapse();
      var failed: Option<nat>;
      r, failed := ToStream(item);
      return r, at, failed;
    }

    /** `purge_with_opts`. */
    method PurgeWithOpts(key: Key, scope: Scope) returns (r: Result<(), SimpleError>)
      requires Valid()
      modifies this`s, this`trace, this`failed
      ensures Valid() && (r.Ok? <==> failed == old(failed)) && old(failed) <= failed
      ensures r.Ok? ==> s == Apply(site, old(s), PurgeBy(SurrogateKey(site, key, scope))) && key !in s.current
      ensures r.Ok? ==> trace == old(trace) + [PurgeBy(SurrogateKey(site, key, scope))]
      ensures r.Err? ==> r.error == Purge && s == old(s) && trace == old(trace)
    {
      var surrogate := SurrogateKeyForCacheKey(site, key, scope);
      var status := HostCall();
      if status != 0 {
        return Err(Purge);
      }
      assert key !in Apply(site, s, PurgeBy(surrogate)).current by {
        Reached();
        PurgedGone(site, s, key, scope);
      }
      Do(PurgeBy(surrogate));
      return Ok(());
    }
  }

  /** A purge by a key's surrogate key leaves no current item for the key. */
  lemma PurgedGone(site: Site, s: State, key: Key, scope: Scope)
    requires Inv(site, s)
    ensures key !in Apply(site, s, PurgeBy(SurrogateKey(site, key, scope))).current
  {
    if key in s.current {
      assert CurrentOk(site, s, key) && ClientOk(site, s, s.current[key]);
      PurgeReachesItsKey(site, key, scope);
    }
  }

  ghost predicate StepAt(site: Site, history: seq<State>, steps: seq<Step>, i: nat) {
    && i < |steps| && i + 1 < |history| && Enabled(history[i], steps[i])
    && history[i + 1] == Apply(site, history[i], steps[i])
  }

  /** The states a run goes through. */
  ghost predicate Chain(site: Site, history: seq<State>, steps: seq<Step>, s: State) {
    && |history| == |steps| + 1 && history[0] == EMPTY && history[|steps|] == s
    && forall i :: 0 <= i < |steps| ==> StepAt(site, history, steps, i)
  }

  /** The steps are a run from the empty cache to the state. */
  ghost predicate RunTo(site: Site, steps: seq<Step>, s: State) {
    exists history :: Chain(site, history, steps, s)
  }

  lemma RunToNext(site: Site, steps: seq<Step>, s: State, t: Step)
    requires RunTo(site, steps, s) && Enabled(s, t)
    ensures RunTo(site, steps + [t], Apply(site, s, t))
  {
    var history :| Chain(site, history, steps, s);
    var longer := history + [Apply(site, s, t)];
    forall i | 0 <= i < |steps| + 1 ensures StepAt(site, longer, steps + [t], i) {
      assert i < |steps| ==> StepAt(site, history, steps, i);
    }
    assert Chain(site, longer, steps + [t], Apply(site, s, t));
  }

  lemma {:induction false} RunToIsRun(site: Site, steps: seq<Step>, s: State)
    requires RunTo(site, steps, s)
    ensures Legal(site, EMPTY, steps) && s == Run(site, EMPTY, steps)
    decreases |steps|
  {
    var history :| Chain(site, history, steps, s);
    if steps != [] {
      var n := |steps| - 1;
      var front, t := steps[..n], steps[n];
      assert StepAt(site, history, steps, n);
      forall i | 0 <= i < n ensures StepAt(site, history[..|steps|], front, i) {
        assert StepAt(site, history, steps, i);
      }
      assert Chain(site, history[..|steps|], front, history[n]);
      RunToIsRun(site, front, history[n]);
      assert [t][1..] == [];
      RunAppend(site, EMPTY, front, [t]);
      assert steps == front + [t];
    }
  }

  /** The surrogate-key option `get_or_set_with` sets: both keys of the cache key, joined. The host's insertion
      step stores exactly this string with the item. */
  method SurrogateKeysOption(site: Site, key: Key) returns (joined: string)
    ensures joined == StoredKeys(site, key)
  {
    var pop := SurrogateKeyForCacheKey(site, key, Pop);
    var global := SurrogateKeyForCacheKey(site, key, Global);
    joined := JoinStrings([pop, global], ' ');
  }

  /** The phase a call ends in agrees with what it returns. */
  predicate EndedWith(p: Phase, r: Answer) {
    match r
    case Ok(body) => body.Some? && p == Done(Ok(body.value))
    case Err(e) => p == Done(Err(e))
  }

  /** The call itself takes the step, or its closure makes a call. */
  predicate By(t: Step, c: Cid) {
    (ByClient(t) || t.CallFrom?) && t.c == c
  }

  predicate OwnStep(t: Step, c: Cid) {
    ByClient(t) && t.c == c
  }

  /** The steps the call `c` itself has taken, in order. */
  ghost function Own(steps: seq<Step>, c: Cid): seq<Step> {
    if steps == [] then []
    else
      var last := steps[|steps| - 1];
      Own(steps[..|steps| - 1], c) + if OwnStep(last, c) then [last] else []
  }

  lemma OwnNext(steps: seq<Step>, t: Step, c: Cid)
    ensures Own(steps + [t], c) == Own(steps, c) + if OwnStep(t, c) then [t] else []
  {
    assert (steps + [t])[..|steps|] == steps;
  }

  /** A client that has not been in a run yet has no steps in it. */
  lemma {:induction false} OwnNone(steps: seq<Step>, c: Cid)
    requires forall t :: t in steps ==> !OwnStep(t, c)
    ensures Own(steps, c) == []
  {
    if steps != [] {
      OwnNone(steps[..|steps| - 1], c);
    }
  }

  /** What a client's step writes into the histories. */
  ghost predicate Records(site: Site, s: State, t: Step)
    requires ByClient(t) && Enabled(s, t)
  {
    var e := Effect(site, s, t);
    && e.clients == s.clients && e.child == s.child
    && e.made == (if t.RunClosure? && t.entry.Some? then s.made[t.c := t.entry.value] else s.made)
    && e.drained == (if t.AppendEntry? then s.drained[t.c := t.accepted] else s.drained)
  }

  lemma ClosureRecords(site: Site, s: State, t: Step)
    requires t.RunClosure? && Enabled(s, t)
    ensures Records(site, s, t)
  {
  }

  lemma InsertFailureRecords(site: Site, s: State, t: Step)
    requires t.Insert? && t.failure.Some? && Enabled(s, t)
    ensures Records(site, s, t)
  {
  }

  lemma InsertRecords(site: Site, s: State, t: Step)
    requires t.Insert? && t.failure.None? && Enabled(s, t)
    ensures Records(site, s, t)
  {
  }

  lemma AppendRecords(site: Site, s: State, t: Step)
    requires (t.AppendEntry? || t.Finish?) && Enabled(s, t)
    ensures Records(site, s, t)
  {
  }

  lemma QuietRecords(site: Site, s: State, t: Step)
    requires ByClient(t) && Enabled(s, t) && !t.RunClosure? && !t.Insert? && !t.AppendEntry? && !t.Finish?
    ensures Records(site, s, t)
  {
  }

  lemma StepRecords(site: Site, s: State, t: Step)
    requires ByClient(t) && Enabled(s, t)
    ensures Records(site, s, t)
  {
    if t.RunClosure? { ClosureRecords(site, s, t); }
    else if t.Insert? && t.failure.Some? { InsertFailureRecords(site, s, t); }
    else if t.Insert? { InsertRecords(site, s, t); }
    else if t.AppendEntry? || t.Finish? { AppendRecords(site, s, t); }
    else { QuietRecords(site, s, t); }
  }

  /** What neither the host nor a new call changes. */
  lemma HostKeepsEntries(site: Site, s: State, t: Step)
    requires Enabled(s, t) && !ByClient(t)
    ensures Apply(site, s, t).made == s.made && Apply(site, s, t).drained == s.drained
    ensures Apply(site, s, t).child == if t.CallFrom? then s.child[t.c := |s.clients|] else s.child
  {
    match t
    case Call(_) =>
    case CallFrom(_, _) =>
    case PurgeBy(_) =>
    case Expire(_) =>
    case GrantOrphan(_) =>
  }

  lemma OthersKeepEntries(site: Site, s: State, t: Step, c: Cid)
    requires Inv(site, s) && Enabled(s, t) && !By(t, c)
    ensures SameEntry(s, Apply(site, s, t), c) && SameChild(s, Apply(site, s, t), c)
  {
    if ByClient(t) {
      var s' := Apply(site, s, t);
      SoundStep(site, s, t);
      Elsewhere(s.made, s'.made, t.c, c);
      Elsewhere(s.drained, s'.drained, t.c, c);
    } else {
      HostKeepsEntries(site, s, t);
    }
  }

  /** A call that does not wait for a call of its closure does not come to wait by what others do. */
  lemma UndisturbedStep(site: Site, s: State, t: Step, c: Cid)
    requires Inv(site, s) && Enabled(s, t) && !By(t, c) && c < |s.clients|
    ensures Undisturbed(s, Apply(site, s, t), c) && SameChild(s, Apply(site, s, t), c)
  {
    OthersKeepEntries(site, s, t, c);
    ClientStays(site, s, t, c);
    ClientsStay(site, s, t);
    if c in s.child && !Nesting(s, c) {
      assert NestOk(s, c);
      ClientStays(site, s, t, s.child[c]);
    }
  }

  /** Items are never taken back, so a stream that was handed out keeps its item. */
  ghost predicate ItemsKept(s: State, s': State) {
    forall o :: o in s.items ==> o in s'.items && s'.items[o].key == s.items[o].key
  }

  lemma ItemsKeptStep(site: Site, s: State, t: Step)
    requires Inv(site, s) && Enabled(s, t)
    ensures ItemsKept(s, Apply(site, s, t))
  {
    if ByClient(t) {
      SoundStep(site, s, t);
      forall o | o in s.items && o != t.c ensures o in Apply(site, s, t).items {
        Elsewhere(s.items, Apply(site, s, t).items, t.c, o);
      }
    }
  }

  ghost predicate SameChild(s: State, s': State, c: Cid) {
    (c in s'.child <==> c in s.child) && (c in s.child ==> s'.child[c] == s.child[c])
  }

  /** While `me` waits, the end of another chain of waits is someone else, who can go on. */
  lemma WaitIsNearer(site: Site, s: State, me: Cid, c: Cid)
    requires Inv(site, s) && me < |s.clients| && CacheWaits.Waiting(s, me)
    requires c < |s.clients| && !s.clients[c].phase.Done? && !Hangs(s, c)
    ensures var d := Hop(s, c, |s.clients|);
            d != me && !s.clients[d].phase.Done? && Enabled(s, NextStep(s, d))
  {
    HangsExact(site, s, c);
    var d := Progress(site, s, c);
    GoesOrWaits(site, s, d);
  }

  /** Whoever waits for a call that hangs, hangs. */
  lemma HangsWith(site: Site, s: State, c: Cid)
    requires Inv(site, s) && c < |s.clients| && CacheWaits.Waiting(s, c) && Hangs(s, Next(s, c).value)
    ensures Hangs(s, c)
  {
    var d := Next(s, c).value;
    HangsExact(site, s, d);
    HangsExact(site, s, c);
    if WaitsOnLeak(s, d) {
      var n: nat :| AtLeak(s, Hop(s, d, n));
      assert AtLeak(s, Hop(s, c, n + 1));
    } else {
      var n: nat :| OnCycle(s, Hop(s, d, n));
      assert OnCycle(s, Hop(s, c, n + 1));
    }
  }

  /** What other clients and the host leave alone. */
  ghost predicate Undisturbed(s: State, s': State, c: Cid) {
    && c < |s.clients| <= |s'.clients| && s'.clients[c] == s.clients[c]
    && SameEntry(s, s', c) && (!Nesting(s, c) ==> !Nesting(s', c))
  }

  /** The same entry was made for the client, and the same part of it was delivered. */
  ghost predicate SameEntry(s: State, s': State, c: Cid) {
    && (c in s'.made <==> c in s.made) && (c in s.made ==> s'.made[c] == s.made[c])
    && (c in s'.drained <==> c in s.drained) && (c in s.drained ==> s'.drained[c] == s.drained[c])
  }
}

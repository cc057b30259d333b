/** Lifetime of host cache handles. Transactions, builders, `Found` and `Replace` objects share them through
    `shared_ptr`; the destructor of the handle class closes the handle. The reference counts are kept up step by
    step, as the pointers do, and are not computed from the objects. */
module Handles {
  import opened Basics

  type Handle = nat

  /** The program's objects; `Gone` is one that was destroyed or moved from. */
  datatype Object =
    | Gone
    | Transaction(h: Handle)
    | Pending(h: Handle)
    | Builder(h: Handle)
    | Found(h: Handle)
    | Replace(h: Handle, existing: Option<Handle>)

  /** How many of the object's pointers point to the handle. */
  function Owns(o: Object, h: Handle): nat {
    match o
    case Gone => 0
    case Replace(g, existing) => (if g == h then 1 else 0) + (if existing == Some(h) then 1 else 0)
    case _ => if o.h == h then 1 else 0
  }

  function Owners(objects: seq<Object>, h: Handle): nat {
    if objects == [] then 0 else Owns(objects[0], h) + Owners(objects[1..], h)
  }

  datatype State = State(
    objects: seq<Object>,
    /** The control blocks' counts. */
    refs: map<Handle, nat>,
    /** Handles the host has open. */
    open: set<Handle>,
    /** The `close` calls made, in order. */
    closed: seq<Handle>,
    /** Handles the host has given out. */
    next: Handle)

  const START := State([], map[], {}, [], 0)

  datatype Step =
    | Lookup(async: bool)               // core.cpp:320-342
    | PlainLookup                       // core.cpp:712-731, an item was found
    | BeginReplace(found: bool)         // core.cpp:819-839
    | WaitPending(i: nat)               // core.cpp:284-294
    | FoundOf(i: nat)                   // core.cpp:264-275
    | BuilderOf(i: nat)                 // core.cpp:244-258, insert or update
    | StreamBack(i: nat)                // core.cpp:466-479
    | ExecuteReplace(i: nat)            // core.cpp:852-864
    | Use(i: nat)                       // any other call on the object's handle
    | Copy(i: nat)
    | CopyExisting(i: nat)              // core.h:1113, the found object a replace gives access to
    | Move(i: nat)                      // also each setter of a builder
    | Destroy(i: nat)

  predicate Enabled(s: State, t: Step) {
    match t
    case Lookup(_) => true
    case PlainLookup => true
    case BeginReplace(_) => true
    case WaitPending(i) => i < |s.objects| && s.objects[i].Pending?
    case FoundOf(i) => i < |s.objects| && s.objects[i].Transaction?
    case BuilderOf(i) => i < |s.objects| && s.objects[i].Transaction?
    case StreamBack(i) => i < |s.objects| && s.objects[i].Builder?
    case ExecuteReplace(i) => i < |s.objects| && s.objects[i].Replace?
    case CopyExisting(i) => i < |s.objects| && s.objects[i].Replace? && s.objects[i].existing.Some?
    case _ => t.i < |s.objects| && !s.objects[t.i].Gone?
  }

  /** A new object owning what is already counted for it. */
  function Add(s: State, o: Object): State {
    s.(objects := s.objects + [o])
  }

  function RefCount(s: State, h: Handle): nat {
    if h in s.refs then s.refs[h] else 0
  }

  /** A copy of a `shared_ptr`. */
  function Retain(s: State, h: Handle): State {
    s.(refs := s.refs[h := RefCount(s, h) + 1])
  }

  /** The host gives out a handle and the first `shared_ptr` to it is made. */
  function Create(s: State): State {
    s.(refs := s.refs[s.next := 1], open := s.open + {s.next}, next := s.next + 1)
  }

  /** One owner less; the last one closes the handle. */
  function Release(s: State, h: Handle): State {
    if RefCount(s, h) > 1 then s.(refs := s.refs[h := RefCount(s, h) - 1])
    else s.(refs := s.refs[h := 0], open := s.open - {h}, closed := s.closed + [h])
  }

  function Destroyed(s: State, i: nat): State
    requires i < |s.objects|
  {
    var s' := s.(objects := s.objects[i := Gone]);
    match s.objects[i]
    case Gone => s'
    case Replace(h, existing) => Release(if existing.Some? then Release(s', existing.value) else s', h)
    case _ => Release(s', s.objects[i].h)
  }

  function RetainAll(s: State, o: Object): State {
    match o
    case Gone => s
    case Replace(h, existing) => Retain(if existing.Some? then Retain(s, existing.value) else s, h)
    case _ => Retain(s, o.h)
  }

  function Reset(s: State, i: nat): State
    requires i < |s.objects| && s.objects[i].Replace?
  {
    var Replace(h, existing) := s.objects[i];
    if existing.None? then s
    else Release(s.(objects := s.objects[i := Object.Replace(h, None)]), existing.value)
  }

  function Apply(s: State, t: Step): State
    requires Enabled(s, t)
  {
    match t
    case Lookup(async) => Add(Create(s), if async then Pending(s.next) else Transaction(s.next))
    case PlainLookup => Add(Create(s), Found(s.next))
    case BeginReplace(found) =>
      if found then Add(Retain(Create(s), s.next), Object.Replace(s.next, Some(s.next)))
      else Add(Create(s), Object.Replace(s.next, None))
    case WaitPending(_) => Add(Create(s), Transaction(s.next))
    case FoundOf(i) => Add(Retain(s, s.objects[i].h), Found(s.objects[i].h))
    case BuilderOf(i) => Add(Retain(s, s.objects[i].h), Builder(s.objects[i].h))
    case StreamBack(_) => Add(Create(s), Found(s.next))
    case ExecuteReplace(i) => Reset(s, i)
    case Use(_) => s
    case Copy(i) => Add(RetainAll(s, s.objects[i]), s.objects[i])
    case CopyExisting(i) => Add(Retain(s, s.objects[i].existing.value), Found(s.objects[i].existing.value))
    case Move(i) => s.(objects := s.objects[i := Gone] + [s.objects[i]])
    case Destroy(i) => Destroyed(s, i)
  }

  /** The handle a step passes to the host, and the state in which it does. */
  function UsedIn(s: State, t: Step): (State, set<Handle>)
    requires Enabled(s, t)
  {
    match t
    case WaitPending(i) => (s, {s.objects[i].h})
    case FoundOf(i) => (s, {s.objects[i].h})
    case StreamBack(i) => (s, {s.objects[i].h})
    case ExecuteReplace(i) => (Reset(s, i), {s.objects[i].h})
    case Use(i) => (s, {s.objects[i].h} + if s.objects[i].Replace? && s.objects[i].existing.Some?
                                          then {s.objects[i].existing.value} else {})
    case _ => (s, {})
  }

  lemma {:induction false} OwnersSnoc(objects: seq<Object>, o: Object, h: Handle)
    ensures Owners(objects + [o], h) == Owners(objects, h) + Owns(o, h)
  {
    if objects == [] {
      assert Owners([o], h) == Owns(o, h) + Owners([], h);
    } else {
      assert (objects + [o])[1..] == objects[1..] + [o];
      OwnersSnoc(objects[1..], o, h);
    }
  }

  lemma {:induction false} OwnersUpdate(objects: seq<Object>, i: nat, o: Object, h: Handle)
    requires i < |objects|
    ensures Owners(objects[i := o], h) + Owns(objects[i], h) == Owners(objects, h) + Owns(o, h)
  {
    if i == 0 {
      assert objects[i := o][1..] == objects[1..];
    } else {
      assert objects[i := o][1..] == objects[1..][i - 1 := o];
      OwnersUpdate(objects[1..], i - 1, o, h);
    }
  }

  lemma {:induction false} OwnersAt(objects: seq<Object>, i: nat, h: Handle)
    requires i < |objects|
    ensures Owns(objects[i], h) <= Owners(objects, h)
  {
    if i > 0 {
      OwnersAt(objects[1..], i - 1, h);
    }
  }

  /** The host's view given the counts: a handle is open while it is counted, and closed once when it no longer
      is. */
  ghost predicate Consistent(s: State) {
    && (forall h: Handle :: h in s.open <==> RefCount(s, h) > 0)
    && (forall h :: h in s.closed ==> h !in s.open)
    && Distinct(s.closed)
    && (forall h: Handle :: h in s.open || h in s.closed <==> h < s.next)
  }

  /** The counts are right for the given objects. */
  ghost predicate Counts(s: State, objects: seq<Object>) {
    forall h :: RefCount(s, h) == Owners(objects, h)
  }

  ghost predicate Inv(s: State) {
    Consistent(s) && Counts(s, s.objects)
  }

  lemma ReleaseConsistent(s: State, h: Handle)
    requires Consistent(s) && RefCount(s, h) > 0
    ensures Consistent(Release(s, h))
    ensures forall k :: RefCount(Release(s, h), k) == RefCount(s, k) - if k == h then 1 else 0
  {
    var s' := Release(s, h);
    if RefCount(s, h) == 1 {
      assert s'.closed == s.closed + [h];
      forall k: Handle ensures k in s'.open || k in s'.closed <==> k < s'.next {
        assert k in s'.closed <==> k in s.closed || k == h;
      }
    }
  }

  lemma RetainConsistent(s: State, h: Handle)
    requires Consistent(s) && RefCount(s, h) > 0
    ensures Consistent(Retain(s, h))
    ensures forall k :: RefCount(Retain(s, h), k) == RefCount(s, k) + if k == h then 1 else 0
  {
  }

  lemma CreateConsistent(s: State)
    requires Consistent(s)
    ensures Consistent(Create(s))
    ensures forall k :: RefCount(Create(s), k) == RefCount(s, k) + if k == s.next then 1 else 0
  {
  }

  /** An object owns only handles that are counted. */
  lemma OwnedCounted(s: State, i: nat)
    requires Inv(s) && i < |s.objects|
    ensures forall h :: Owns(s.objects[i], h) <= RefCount(s, h)
  {
    forall h ensures Owns(s.objects[i], h) <= RefCount(s, h) {
      OwnersAt(s.objects, i, h);
    }
  }

  lemma ReplacedCounts(s: State, s': State, i: nat, o: Object)
    requires Inv(s) && i < |s.objects|
    requires forall h :: RefCount(s', h) + Owns(s.objects[i], h) == RefCount(s, h) + Owns(o, h)
    ensures Counts(s', s.objects[i := o])
  {
    forall h ensures RefCount(s', h) == Owners(s.objects[i := o], h) {
      OwnersUpdate(s.objects, i, o, h);
    }
  }

  lemma AddedCounts(s: State, s': State, o: Object)
    requires Counts(s, s.objects) && forall h :: RefCount(s', h) == RefCount(s, h) + Owns(o, h)
    ensures Counts(s', s.objects + [o])
  {
    forall h ensures RefCount(s', h) == Owners(s.objects + [o], h) {
      OwnersSnoc(s.objects, o, h);
    }
  }

  lemma DestroyedInv(s: State, i: nat)
    requires Inv(s) && i < |s.objects|
    ensures Inv(Destroyed(s, i))
  {
    var o, s' := s.objects[i], s.(objects := s.objects[i := Gone]);
    OwnedCounted(s, i);
    if o.Replace? && o.existing.Some? {
      assert Owns(o, o.existing.value) > 0 && Owns(o, o.h) > 0;
      ReleaseConsistent(s', o.existing.value);
      ReleaseConsistent(Release(s', o.existing.value), o.h);
    } else if !o.Gone? {
      assert Owns(o, o.h) > 0;
      ReleaseConsistent(s', o.h);
    }
    ReplacedCounts(s, Destroyed(s, i), i, Gone);
  }

  lemma ResetInv(s: State, i: nat)
    requires Inv(s) && i < |s.objects| && s.objects[i].Replace?
    ensures Inv(Reset(s, i)) && s.objects[i].h in Reset(s, i).open
  {
    var Replace(h, existing) := s.objects[i];
    OwnedCounted(s, i);
    assert Owns(s.objects[i], h) > 0;
    if existing.Some? {
      var o := Object.Replace(h, None);
      var s' := s.(objects := s.objects[i := o]);
      assert Owns(s.objects[i], existing.value) > 0;
      ReleaseConsistent(s', existing.value);
      ReplacedCounts(s, Reset(s, i), i, o);
    }
  }

  lemma CopiedInv(s: State, i: nat)
    requires Inv(s) && i < |s.objects|
    ensures Inv(Add(RetainAll(s, s.objects[i]), s.objects[i]))
  {
    var o := s.objects[i];
    OwnedCounted(s, i);
    if o.Replace? && o.existing.Some? {
      assert Owns(o, o.existing.value) > 0 && Owns(o, o.h) > 0;
      RetainConsistent(s, o.existing.value);
      RetainConsistent(Retain(s, o.existing.value), o.h);
    } else if !o.Gone? {
      assert Owns(o, o.h) > 0;
      RetainConsistent(s, o.h);
    }
    AddedCounts(s, RetainAll(s, o), o);
  }

  lemma SharedInv(s: State, i: nat, h: Handle, o: Object)
    requires Inv(s) && i < |s.objects| && Owns(s.objects[i], h) > 0
    requires o == Found(h) || o == Builder(h)
    ensures Inv(Add(Retain(s, h), o))
  {
    OwnedCounted(s, i);
    RetainConsistent(s, h);
    AddedCounts(s, Retain(s, h), o);
  }

  lemma MovedInv(s: State, i: nat)
    requires Inv(s) && i < |s.objects|
    ensures Inv(s.(objects := s.objects[i := Gone] + [s.objects[i]]))
  {
    var o := s.objects[i];
    forall h ensures RefCount(s, h) == Owners(s.objects[i := Gone] + [o], h) {
      OwnersUpdate(s.objects, i, Gone, h);
      OwnersSnoc(s.objects[i := Gone], o, h);
    }
  }

  lemma CreatedInv(s: State, o: Object)
    requires Inv(s) && !o.Gone? && o.h == s.next && (o.Replace? ==> o.existing.None?)
    ensures Inv(Add(Create(s), o))
  {
    CreateConsistent(s);
    AddedCounts(s, Create(s), o);
  }

  lemma CreatedTwiceInv(s: State)
    requires Inv(s)
    ensures Inv(Apply(s, BeginReplace(true)))
  {
    CreateConsistent(s);
    RetainConsistent(Create(s), s.next);
    AddedCounts(s, Retain(Create(s), s.next), Object.Replace(s.next, Some(s.next)));
  }

  /** Every step keeps counts, open handles and close calls in agreement. */
  lemma InvStep(s: State, t: Step)
    requires Inv(s) && Enabled(s, t)
    ensures Inv(Apply(s, t))
  {
    match t
    case BeginReplace(found) =>
      if found { CreatedTwiceInv(s); } else { CreatedInv(s, Object.Replace(s.next, None)); }
    case Lookup(async) => CreatedInv(s, if async then Pending(s.next) else Transaction(s.next));
    case PlainLookup => CreatedInv(s, Found(s.next));
    case WaitPending(_) => CreatedInv(s, Transaction(s.next));
    case StreamBack(_) => CreatedInv(s, Found(s.next));
    case Copy(i) => CopiedInv(s, i);
    case FoundOf(i) => SharedInv(s, i, s.objects[i].h, Found(s.objects[i].h));
    case BuilderOf(i) => SharedInv(s, i, s.objects[i].h, Builder(s.objects[i].h));
    case CopyExisting(i) => SharedInv(s, i, s.objects[i].existing.value, Found(s.objects[i].existing.value));
    case ExecuteReplace(i) => ResetInv(s, i);
    case Destroy(i) => DestroyedInv(s, i);
    case Move(i) => MovedInv(s, i);
    case Use(_) =>
  }

  /** Whatever a step passes to the host is open then. */
  lemma UseIsOpen(s: State, t: Step)
    requires Inv(s) && Enabled(s, t)
    ensures UsedIn(s, t).1 <= UsedIn(s, t).0.open
  {
    if t.ExecuteReplace? {
      ResetInv(s, t.i);
    } else if !t.Lookup? && !t.PlainLookup? && !t.BeginReplace? {
      OwnedCounted(s, t.i);
      forall h | h in UsedIn(s, t).1 ensures h in s.open {
        assert Owns(s.objects[t.i], h) > 0;
      }
    }
  }

  datatype Trace = Begin | After(past: Trace, step: Step)

  ghost predicate Legal(trace: Trace) {
    trace.After? ==> Legal(trace.past) && Enabled(Final(trace.past), trace.step)
  }

  ghost function Final(trace: Trace): State {
    if trace.Begin? then START
    else if Enabled(Final(trace.past), trace.step) then Apply(Final(trace.past), trace.step)
    else Final(trace.past)
  }

  ghost predicate UsesOnlyOpen(trace: Trace) {
    trace.After? ==>
      && UsesOnlyOpen(trace.past)
      && (Enabled(Final(trace.past), trace.step) ==>
            var (at, used) := UsedIn(Final(trace.past), trace.step);
            used <= at.open)
  }

  lemma {:induction false} TraceInv(trace: Trace)
    requires Legal(trace)
    ensures Inv(Final(trace)) && UsesOnlyOpen(trace)
  {
    if trace.After? {
      TraceInv(trace.past);
      UseIsOpen(Final(trace.past), trace.step);
      InvStep(Final(trace.past), trace.step);
    }
  }

  /** Over every run of the program: a handle is passed to the host only while it is open, is never closed twice,
      and is open exactly while some object owns it. When every object is gone, each handle the host gave out
      has been closed exactly once and none is open. */
  lemma {:induction false} HandlesClosedOnce(trace: Trace)
    requires Legal(trace)
    ensures UsesOnlyOpen(trace)
    ensures var s := Final(trace);
            && Distinct(s.closed)
            && (forall h :: h in s.open <==> Owners(s.objects, h) > 0)
            && ((forall o :: o in s.objects ==> o.Gone?) ==>
                  s.open == {} && |s.closed| == s.next && forall h :: 0 <= h < s.next ==> h in s.closed)
  {
    TraceInv(trace);
    var s := Final(trace);
    if forall o :: o in s.objects ==> o.Gone? {
      forall h ensures h !in s.open {
        NoOwners(s.objects, h);
      }
      ClosedCount(s.closed, s.next);
    }
  }

  lemma {:induction false} NoOwners(objects: seq<Object>, h: Handle)
    requires forall o :: o in objects ==> o.Gone?
    ensures Owners(objects, h) == 0
  {
    if objects != [] {
      assert objects[0] in objects;
      NoOwners(objects[1..], h);
    }
  }

  /** A list without repetition of exactly the numbers below n has n elements. */
  lemma {:induction false} ClosedCount(s: seq<nat>, n: nat)
    requires Distinct(s) && forall h :: h in s <==> 0 <= h < n
    ensures |s| == n
  {
    if s == [] {
      assert n == 0 || 0 in s;
    } else {
      assert s[0] in s;
      assert n - 1 in s;
      var i :| 0 <= i < |s| && s[i] == n - 1;
      var rest := s[..i] + s[i + 1..];
      forall h ensures h in rest <==> 0 <= h < n - 1 {
        assert h in s <==> h in rest || h == n - 1;
        assert n - 1 !in rest;
      }
      ClosedCount(rest, n - 1);
    }
  }

  lemma NextIs(past: Trace, step: Step, s: State, s': State)
    requires Legal(past) && Final(past) == s && Enabled(s, step) && Apply(s, step) == s'
    ensures Legal(After(past, step)) && Final(After(past, step)) == s'
  {
  }

  /** An asynchronous lookup as a program uses it: waited for, found, inserted with the item streamed back. Each
      call is made on the object the one before gave, and the handles are closed as the objects go. */
  lemma LookupLifecycle()
    ensures var begun := After(After(After(Begin, Lookup(true)), WaitPending(0)), Destroy(0));
            var used := After(After(After(begun, FoundOf(1)), BuilderOf(1)), StreamBack(3));
            Legal(used) && Final(used).objects == [Gone, Transaction(1), Found(1), Builder(1), Found(2)]
            && Final(used).closed == [0] && Final(used).open == {1, 2}
  {
    var a := After(Begin, Lookup(true));
    var sa := State([Pending(0)], map[0 := 1], {0}, [], 1);
    NextIs(Begin, Lookup(true), START, sa);
    var b := After(a, WaitPending(0));
    var sb := State([Pending(0), Transaction(1)], map[0 := 1, 1 := 1], {0, 1}, [], 2);
    NextIs(a, WaitPending(0), sa, sb);
    var c := After(b, Destroy(0));
    var sc := State([Gone, Transaction(1)], map[0 := 0, 1 := 1], {1}, [0], 2);
    NextIs(b, Destroy(0), sb, sc);
    var d := After(c, FoundOf(1));
    var sd := State([Gone, Transaction(1), Found(1)], map[0 := 0, 1 := 2], {1}, [0], 2);
    NextIs(c, FoundOf(1), sc, sd);
    var e := After(d, BuilderOf(1));
    var se := State([Gone, Transaction(1), Found(1), Builder(1)], map[0 := 0, 1 := 3], {1}, [0], 2);
    NextIs(d, BuilderOf(1), sd, se);
    var objects := [Gone, Transaction(1), Found(1), Builder(1), Found(2)];
    var sf := State(objects, map[0 := 0, 1 := 3, 2 := 1], {1, 2}, [0], 3);
    NextIs(e, StreamBack(3), se, sf);
  }
}

/** The life of one buffered body as a log of events, and what the log says about the order of its bytes.

    The element type is a parameter: the classes in module Bodies instantiate it with bytes, and module StreamTags
    with bytes that carry their number, so that the facts proved here about runs with pairwise distinct elements
    become facts about where each single byte of any run ends up. */
module StreamLog {
  import opened Basics

  /** Size of the put buffer and of the get buffer. */
  const CAPACITY: nat := 512

  /** What a body holds: its get area, the host body behind it, and its put area. */
  datatype View<T> = View(unread: seq<T>, queue: seq<T>, pending: seq<T>) {
    function Total(): seq<T> {
      unread + queue + pending
    }
  }

  /** One event. The host's free choice is part of the event: `accepted` is how many bytes a drain of the put
      area could hand over before the host answered with a zero-length write, and `n` is how many bytes a
      refill of the get area, or a raw read past it, received. */
  datatype Event<T> =
    | Put(x: T, accepted: nat)
    | Flush(accepted: nat)
    | Move(accepted: nat)
    | Bypass(data: seq<T>)
    | Refill(n: nat)
    | Consume
    | RawRead(n: nat)

  /** The host stops accepting before the put area is empty. */
  predicate Short<T>(v: View<T>, accepted: nat) {
    accepted < |v.pending|
  }

  function Drain<T>(v: View<T>, accepted: nat): View<T> {
    if Short(v, accepted) then v.(queue := v.queue + v.pending[..accepted])
    else v.(queue := v.queue + v.pending, pending := [])
  }

  predicate NeedsDrain<T>(v: View<T>) {
    |v.pending| >= CAPACITY
  }

  function Apply<T>(v: View<T>, e: Event<T>): View<T> {
    match e
    case Put(x, accepted) =>
      if !NeedsDrain(v) then v.(pending := v.pending + [x])
      else if Short(v, accepted) then Drain(v, accepted)
      else Drain(v, accepted).(pending := [x])
    case Flush(accepted) => Drain(v, accepted)
    case Move(accepted) => Drain(v, accepted).(pending := [])
    case Bypass(data) => v.(queue := v.queue + data)
    case Refill(n) =>
      if v.unread == [] && n <= |v.queue| then v.(unread := v.queue[..n], queue := v.queue[n..]) else v
    case Consume => if v.unread == [] then v else v.(unread := v.unread[1..])
    case RawRead(n) => if n <= |v.queue| then v.(queue := v.queue[n..]) else v
  }

  /** The bytes the body takes from its writer in this event. A put whose drain fell short is refused. */
  function Written<T>(v: View<T>, e: Event<T>): seq<T> {
    match e
    case Put(x, accepted) => if NeedsDrain(v) && Short(v, accepted) then [] else [x]
    case Bypass(data) => data
    case _ => []
  }

  /** The bytes the reader gets in this event. */
  function Got<T>(v: View<T>, e: Event<T>): seq<T> {
    match e
    case Consume => v.unread[..if v.unread == [] then 0 else 1]
    case RawRead(n) => if n <= |v.queue| then v.queue[..n] else []
    case _ => []
  }

  /** A view together with everything written and everything read so far. */
  datatype History<T> = History(written: seq<T>, got: seq<T>, view: View<T>) {
    function Flow(): seq<T> {
      got + view.Total()
    }
  }

  function Step<T>(h: History<T>, e: Event<T>): History<T> {
    History(h.written + Written(h.view, e), h.got + Got(h.view, e), Apply(h.view, e))
  }

  /** A run: the events since the body was made, oldest innermost. */
  datatype Log<T> = Start | Then(past: Log<T>, last: Event<T>)

  function Run<T>(log: Log<T>): History<T> {
    match log
    case Start => History([], [], View([], [], []))
    case Then(past, last) => Step(Run(past), last)
  }

  /** A drain that gives up half-way: it leaves its prefix both with the host and in the buffer, and a move
      then drops the buffer. */
  predicate CutsDrain<T>(v: View<T>, e: Event<T>) {
    match e
    case Put(_, accepted) => NeedsDrain(v) && 0 < accepted && Short(v, accepted)
    case Flush(accepted) => 0 < accepted && Short(v, accepted)
    case Move(accepted) => Short(v, accepted)
    case _ => false
  }

  /** A raw write or an append that gets in front of bytes still buffered. */
  predicate Overtakes<T>(v: View<T>, e: Event<T>) {
    e.Bypass? && e.data != [] && v.pending != []
  }

  /** A raw read past bytes still in the get area. */
  predicate Skips<T>(v: View<T>, e: Event<T>) {
    e.RawRead? && 0 < e.n <= |v.queue| && v.unread != []
  }

  /** The events after which the bytes written no longer come out as written. */
  predicate Breaks<T>(v: View<T>, e: Event<T>) {
    CutsDrain(v, e) || Overtakes(v, e) || Skips(v, e)
  }

  predicate Unbroken<T>(log: Log<T>) {
    log.Then? ==> Unbroken(log.past) && !Breaks(Run(log.past).view, log.last)
  }

  predicate NoCutDrain<T>(log: Log<T>) {
    log.Then? ==> NoCutDrain(log.past) && !CutsDrain(Run(log.past).view, log.last)
  }

  predicate NoOvertaking<T>(log: Log<T>) {
    log.Then? ==> NoOvertaking(log.past) && !Overtakes(Run(log.past).view, log.last)
  }

  predicate NoSkipping<T>(log: Log<T>) {
    log.Then? ==> NoSkipping(log.past) && !Skips(Run(log.past).view, log.last)
  }

  lemma {:induction false} UnbrokenParts<T>(log: Log<T>)
    ensures Unbroken(log) <==> NoCutDrain(log) && NoOvertaking(log) && NoSkipping(log)
  {
    if log.Then? {
      UnbrokenParts(log.past);
    }
  }

  /** Nothing lost, doubled or reordered: the bytes read, then the bytes held, are the bytes written. */
  ghost predicate Faithful<T>(h: History<T>) {
    h.Flow() == h.written
  }

  lemma DrainKeepsTotal<T>(v: View<T>, accepted: nat)
    requires accepted == 0 || !Short(v, accepted)
    ensures Drain(v, accepted).Total() == v.Total()
  {
  }

  lemma ReadKeepsFlow<T>(v: View<T>, e: Event<T>)
    requires e.Refill? || e.Consume? || (e.RawRead? && !Skips(v, e))
    ensures Got(v, e) + Apply(v, e).Total() == v.Total()
  {
  }

  lemma StepFaithful<T>(h: History<T>, e: Event<T>)
    requires !Breaks(h.view, e)
    ensures Step(h, e).Flow() == h.Flow() + Written(h.view, e)
  {
    var v := h.view;
    if e.Refill? || e.Consume? || e.RawRead? {
      ReadKeepsFlow(v, e);
      ConcatAssoc(h.got, Got(v, e), Apply(v, e).Total());
    } else {
      ConcatAssoc(h.got, v.Total(), Written(v, e));
      assert Apply(v, e).Total() == v.Total() + Written(v, e) by {
        if e.Bypass? {
          assert v.pending == [] || e.data == [];
        } else if !e.Put? || NeedsDrain(v) {
          DrainKeepsTotal(v, e.accepted);
        }
      }
    }
  }

  /** Conservation and order, for every run and every choice of the host: as long as no event breaks the
      stream, what was read, then the get area, the host body and the put area, is exactly what was written. */
  lemma {:induction false} Conservation<T>(log: Log<T>)
    requires Unbroken(log)
    ensures Faithful(Run(log))
  {
    if log.Then? {
      Conservation(log.past);
      StepFaithful(Run(log.past), log.last);
    }
  }

  /** For runs with distinct elements: everything held was written, the put area repeats nothing, and its last
      element is nowhere else. */
  ghost predicate Shape<T(!new)>(h: History<T>) {
    var front := h.got + h.view.unread + h.view.queue;
    var p := h.view.pending;
    && (forall x :: x in front || x in p ==> x in h.written)
    && Distinct(p)
    && (p != [] ==> p[|p| - 1] !in front)
  }

  lemma NewElements<T(!new)>(w: seq<T>, d: seq<T>)
    requires Distinct(w + d)
    ensures forall x :: x in d ==> x !in w
  {
    forall x | x in d ensures x !in w {
      var i :| 0 <= i < |d| && d[i] == x;
      assert (w + d)[|w| + i] == x;
      assert forall j :: 0 <= j < |w| ==> (w + d)[j] == w[j];
    }
  }

  /** The front after an event that drains or bypasses is the old front with some sequence behind it. */
  lemma ShapeStep<T(!new)>(h: History<T>, e: Event<T>)
    requires Shape(h) && Distinct(Step(h, e).written)
    ensures Shape(Step(h, e))
  {
    NewElements(h.written, Written(h.view, e));
    match e
    case Put(x, _) =>
      if NeedsDrain(h.view) { ShapeDrain(h, e); } else { ShapePut(h, x, e); }
    case Flush(_) => ShapeDrain(h, e);
    case Move(_) => ShapeDrain(h, e);
    case Bypass(data) => ShapeBypass(h, data);
    case Refill(_) => ShapeRead(h, e);
    case Consume => ShapeRead(h, e);
    case RawRead(_) => ShapeRead(h, e);
  }

  lemma ShapeRead<T(!new)>(h: History<T>, e: Event<T>)
    requires Shape(h) && (e.Refill? || e.Consume? || e.RawRead?)
    ensures Shape(Step(h, e))
  {
    var v, w := h.view, Step(h, e);
    var front, front' := h.got + v.unread + v.queue, w.got + w.view.unread + w.view.queue;
    if e.RawRead? {
      if e.n <= |v.queue| {
        SkipKeepsElements(h.got, v.unread, v.queue, e.n);
      }
    } else {
      assert front' == front;
    }
  }

  lemma SkipKeepsElements<T(!new)>(got: seq<T>, unread: seq<T>, queue: seq<T>, n: nat)
    requires n <= |queue|
    ensures forall x :: x in got + queue[..n] + unread + queue[n..] <==> x in got + unread + queue
  {
    assert queue == queue[..n] + queue[n..];
  }

  lemma ShapePut<T(!new)>(h: History<T>, x: T, e: Event<T>)
    requires Shape(h) && e.Put? && e.x == x && !NeedsDrain(h.view) && x !in h.written
    ensures Shape(Step(h, e))
  {
    assert x in [x];
  }

  lemma ShapeBypass<T(!new)>(h: History<T>, data: seq<T>)
    requires Shape(h) && forall x :: x in data ==> x !in h.written
    ensures Shape(Step(h, Bypass(data)))
  {
    var v, w := h.view, Step(h, Bypass(data));
    assert w.got + w.view.unread + w.view.queue == h.got + v.unread + v.queue + data;
    if v.pending != [] {
      assert v.pending[|v.pending| - 1] in v.pending;
    }
  }

  lemma ShapeDrain<T(!new)>(h: History<T>, e: Event<T>)
    requires Shape(h) && (e.Flush? || e.Move? || (e.Put? && NeedsDrain(h.view)))
    requires forall x :: x in Written(h.view, e) ==> x !in h.written
    ensures Shape(Step(h, e))
  {
    var v, w := h.view, Step(h, e);
    var p := v.pending;
    var taken := p[..if Short(v, e.accepted) then e.accepted else |p|];
    var front := h.got + v.unread + v.queue;
    assert w.got + w.view.unread + w.view.queue == front + taken;
    if e.Put? && !Short(v, e.accepted) {
      assert e.x in Written(v, e);
    }
  }

  lemma DistinctPrefix<T>(w: seq<T>, d: seq<T>)
    requires Distinct(w + d)
    ensures Distinct(w)
  {
    assert forall i :: 0 <= i < |w| ==> (w + d)[i] == w[i];
  }

  /** Every written element is read or held exactly once, in whatever order. */
  ghost predicate Once<T>(h: History<T>) {
    multiset(h.Flow()) == multiset(h.written)
  }

  lemma AtMostOnce<T(!new)>(s: seq<T>, x: T)
    requires Distinct(s)
    ensures multiset(s)[x] <= 1
  {
    if x in s {
      var i :| 0 <= i < |s| && s[i] == x;
      assert s == s[..i] + [x] + s[i + 1..];
      assert x !in s[..i] && x !in s[i + 1..];
      assert multiset(s) == multiset(s[..i]) + multiset{x} + multiset(s[i + 1..]);
    }
  }

  /** A sequence that has an element on both sides of a cut is no rearrangement of distinct elements. */
  lemma Doubled<T(!new)>(front: seq<T>, back: seq<T>, x: T, written: seq<T>)
    requires x in front && x in back && Distinct(written)
    ensures multiset(front + back) != multiset(written)
  {
    AtMostOnce(written, x);
    assert multiset(front + back)[x] == multiset(front)[x] + multiset(back)[x];
  }

  lemma Dropped<T(!new)>(flow: seq<T>, x: T, written: seq<T>)
    requires x !in flow && x in written
    ensures multiset(flow) != multiset(written)
  {
    assert x in multiset(written) && x !in multiset(flow);
  }

  lemma CutIsFelt<T(!new)>(h: History<T>, e: Event<T>)
    requires Shape(h) && Distinct(Step(h, e).written) && CutsDrain(h.view, e)
    ensures !Once(Step(h, e))
  {
    var flow, written := Step(h, e).Flow(), Step(h, e).written;
    var p, front := h.view.pending, h.got + h.view.unread + h.view.queue;
    assert written == h.written;
    if e.Move? {
      assert flow == front + p[..e.accepted];
      assert p[|p| - 1] in p && p[|p| - 1] !in p[..e.accepted];
      Dropped(flow, p[|p| - 1], written);
    } else {
      assert flow == (front + p[..e.accepted]) + p;
      assert p[..e.accepted][0] == p[0];
      Doubled(front + p[..e.accepted], p, p[0], written);
    }
  }

  lemma StepExact<T(!new)>(h: History<T>, e: Event<T>)
    requires Shape(h) && Distinct(Step(h, e).written) && !Skips(h.view, e)
    ensures Faithful(Step(h, e)) <==> Faithful(h) && !Breaks(h.view, e)
  {
    if Breaks(h.view, e) {
      BrokenForGood(h, e);
    } else {
      StepFaithful(h, e);
      var d := Written(h.view, e);
      if h.Flow() + d == h.written + d {
        assert h.Flow() == (h.Flow() + d)[..|h.Flow()|];
        assert h.written == (h.written + d)[..|h.written|];
      }
    }
  }

  lemma BrokenForGood<T(!new)>(h: History<T>, e: Event<T>)
    requires Shape(h) && Distinct(Step(h, e).written) && Breaks(h.view, e) && !Skips(h.view, e)
    ensures !Faithful(Step(h, e))
  {
    if CutsDrain(h.view, e) {
      CutIsFelt(h, e);
    } else {
      OvertakingIsFelt(h, e);
    }
  }

  /** After an overtaking write an element written earlier comes last. */
  lemma OvertakingIsFelt<T(!new)>(h: History<T>, e: Event<T>)
    requires Shape(h) && Distinct(Step(h, e).written) && Overtakes(h.view, e)
    ensures !Faithful(Step(h, e))
  {
    var flow, written, p := Step(h, e).Flow(), Step(h, e).written, h.view.pending;
    NewElements(h.written, e.data);
    assert flow == h.got + h.view.unread + h.view.queue + e.data + p;
    assert flow[|flow| - 1] == p[|p| - 1] && p[|p| - 1] in p;
    assert written[|written| - 1] == e.data[|e.data| - 1] && e.data[|e.data| - 1] in e.data;
  }

  lemma {:induction false} RunShape<T(!new)>(log: Log<T>)
    requires Distinct(Run(log).written)
    ensures Shape(Run(log))
  {
    if log.Then? {
      var before := Run(log.past);
      DistinctPrefix(before.written, Written(before.view, log.last));
      RunShape(log.past);
      ShapeStep(before, log.last);
    }
  }

  lemma {:induction false} WriterExact<T(!new)>(log: Log<T>)
    requires Distinct(Run(log).written) && NoSkipping(log)
    ensures Faithful(Run(log)) <==> Unbroken(log)
  {
    if log.Then? {
      var before := Run(log.past);
      DistinctPrefix(before.written, Written(before.view, log.last));
      WriterExact(log.past);
      RunShape(log.past);
      StepExact(before, log.last);
    }
  }

  lemma CancelMultiset<T(!new)>(a: multiset<T>, b: multiset<T>, c: multiset<T>)
    ensures a + c == b + c <==> a == b
  {
    if a + c == b + c {
      forall x ensures a[x] == b[x] {
        assert (a + c)[x] == (b + c)[x];
      }
    }
  }

  lemma SkipPermutes<T>(got: seq<T>, u: seq<T>, q1: seq<T>, q2: seq<T>, p: seq<T>)
    ensures multiset((got + q1) + (u + q2 + p)) == multiset(got + (u + (q1 + q2) + p))
  {
  }

  lemma SkipKeepsFlow<T>(h: History<T>, e: Event<T>)
    requires Skips(h.view, e)
    ensures multiset(Step(h, e).Flow()) == multiset(h.Flow())
  {
    var v := h.view;
    assert v.queue == v.queue[..e.n] + v.queue[e.n..];
    SkipPermutes(h.got, v.unread, v.queue[..e.n], v.queue[e.n..], v.pending);
  }

  lemma OvertakePermutes<T>(front: seq<T>, data: seq<T>, p: seq<T>)
    ensures multiset(front + data + p) == multiset(front + p) + multiset(data)
  {
  }

  lemma OvertakingGrows<T>(h: History<T>, e: Event<T>)
    requires Overtakes(h.view, e)
    ensures multiset(Step(h, e).Flow()) == multiset(h.Flow()) + multiset(Written(h.view, e))
  {
    var front := h.got + h.view.unread + h.view.queue;
    OvertakePermutes(front, e.data, h.view.pending);
    assert h.Flow() == front + h.view.pending;
    assert Step(h, e).Flow() == front + e.data + h.view.pending;
  }

  /** An event that cuts no drain adds what it takes from the writer, and nothing else. */
  lemma FlowGrows<T>(h: History<T>, e: Event<T>)
    requires !CutsDrain(h.view, e)
    ensures multiset(Step(h, e).Flow()) == multiset(h.Flow()) + multiset(Written(h.view, e))
  {
    if !Breaks(h.view, e) {
      StepFaithful(h, e);
    } else if Skips(h.view, e) {
      SkipKeepsFlow(h, e);
    } else {
      OvertakingGrows(h, e);
    }
  }

  /** Loss and doubling, exactly. When every written element is different from the others, then in any run, with
      overtaking writes and skipping reads too, each is read or held exactly once if and only if no drain was
      cut off half-way. */
  lemma {:induction false} DistinctOnce<T(!new)>(log: Log<T>)
    requires Distinct(Run(log).written)
    ensures Once(Run(log)) <==> NoCutDrain(log)
  {
    if log.Then? {
      var h, e := Run(log.past), log.last;
      DistinctPrefix(h.written, Written(h.view, e));
      DistinctOnce(log.past);
      RunShape(log.past);
      if CutsDrain(h.view, e) {
        CutIsFelt(h, e);
      } else {
        FlowGrows(h, e);
        CancelMultiset(multiset(h.Flow()), multiset(h.written), multiset(Written(h.view, e)));
        assert multiset(Step(h, e).written) == multiset(h.written) + multiset(Written(h.view, e));
      }
    }
  }

  lemma GotNotLonger<T>(h: History<T>)
    requires Once(h)
    ensures |h.got| <= |h.written|
  {
    assert |multiset(h.Flow())| == |h.Flow()| && |multiset(h.written)| == |h.written|;
  }

  lemma SkipIsFelt<T>(h: History<T>, e: Event<T>)
    requires Faithful(h) && Distinct(h.written) && Skips(h.view, e)
    ensures !(Step(h, e).got <= Step(h, e).written)
  {
    var v, i := h.view, |h.got|;
    assert h.written[i] == v.unread[0];
    assert h.written[i + |v.unread|] == v.queue[0];
    assert Step(h, e).got[i] == v.queue[0];
  }

  /** Once a read has skipped bytes, what was read is no longer what was written first. */
  lemma {:induction false} DistinctSkipped<T(!new)>(log: Log<T>)
    requires Distinct(Run(log).written) && NoCutDrain(log) && NoOvertaking(log)
    ensures Run(log).got <= Run(log).written <==> NoSkipping(log)
  {
    if log.Then? {
      var h, e := Run(log.past), log.last;
      DistinctPrefix(h.written, Written(h.view, e));
      DistinctSkipped(log.past);
      UnbrokenParts(log);
      UnbrokenParts(log.past);
      if NoSkipping(log) {
        Conservation(log);
      } else if NoSkipping(log.past) {
        Conservation(log.past);
        SkipIsFelt(h, e);
      } else {
        DistinctOnce(log.past);
        GotNotLonger(h);
        NotPrefixStays(h.got, Got(h.view, e), h.written, Written(h.view, e));
      }
    }
  }

  lemma NotPrefixStays<T>(got: seq<T>, more: seq<T>, written: seq<T>, extra: seq<T>)
    requires |got| <= |written| && !(got <= written)
    ensures !(got + more <= written + extra)
  {
    var i :| 0 <= i < |got| && got[i] != written[i];
    assert (got + more)[i] == got[i] && (written + extra)[i] == written[i];
  }

  /** The exact condition. When every written element is different from the others, a run delivers them in the
      order written if and only if no event of it broke the stream, in every run that does not have both kinds
      of reordering: with one kind alone no break is made good by a later event. */
  lemma DistinctConservation<T(!new)>(log: Log<T>)
    requires Distinct(Run(log).written) && (NoSkipping(log) || NoOvertaking(log))
    ensures Faithful(Run(log)) <==> Unbroken(log)
  {
    if NoSkipping(log) {
      WriterExact(log);
    } else {
      UnbrokenParts(log);
      DistinctOnce(log);
      if Faithful(Run(log)) {
        DistinctSkipped(log);
      }
    }
  }

  lemma NextView(past: Log<int>, e: Event<int>, w: seq<int>, g: seq<int>, v: View<int>, h: History<int>)
    requires Run(past) == History(w, g, v)
    requires h == History(w + Written(v, e), g + Got(v, e), Apply(v, e))
    ensures Run(Then(past, e)) == h
  {
  }

  /** With both kinds of reordering two breaks can cancel out, so there the condition is not local to an event:
      an append overtakes a byte, and a raw read brings the byte back to the front. */
  lemma ReorderingsCanCancel()
    ensures var log := Then(Then(Then(Then(Then(Start, Put(1, 0)), Bypass([2])), Refill(1)), Flush(1)), RawRead(1));
            Faithful(Run(log)) && !Unbroken(log) && Distinct(Run(log).written)
  {
    var a := Then(Start, Put(1, 0));
    var b := Then(a, Bypass([2]));
    var c := Then(b, Refill(1));
    var d := Then(c, Flush(1));
    NextView(Start, Put(1, 0), [], [], View([], [], []), History([1], [], View([], [], [1])));
    assert !Unbroken(b);
    NextView(a, Bypass([2]), [1], [], View([], [], [1]), History([1, 2], [], View([], [2], [1])));
    NextView(b, Refill(1), [1, 2], [], View([], [2], [1]), History([1, 2], [], View([2], [], [1])));
    NextView(c, Flush(1), [1, 2], [], View([2], [], [1]), History([1, 2], [], View([2], [1], [])));
    NextView(d, RawRead(1), [1, 2], [], View([2], [1], []), History([1, 2], [1], View([2], [], [])));
  }

  predicate NoShortMove<T>(log: Log<T>) {
    log.Then? ==>
      NoShortMove(log.past) && (log.last.Move? ==> !Short(Run(log.past).view, log.last.accepted))
  }

  /** Whatever the host does to the drains, and wherever raw writes and appends come in between, nothing that
      was written is ever lost unless a move happens whose drain falls short. */
  lemma {:induction false} NothingLost<T>(log: Log<T>)
    requires NoShortMove(log)
    ensures multiset(Run(log).written) <= multiset(Run(log).Flow())
  {
    if log.Then? {
      NothingLost(log.past);
      NothingLostStep(Run(log.past), log.last);
    }
  }

  lemma NothingLostStep<T>(h: History<T>, e: Event<T>)
    requires multiset(h.written) <= multiset(h.Flow())
    requires e.Move? ==> !Short(h.view, e.accepted)
    ensures multiset(Step(h, e).written) <= multiset(Step(h, e).Flow())
  {
    var d := Written(h.view, e);
    if !CutsDrain(h.view, e) {
      FlowGrows(h, e);
      assert multiset(h.written + d) == multiset(h.written) + multiset(d);
    } else {
      var front, back := h.got + h.view.unread + h.view.queue, h.view.pending;
      var extra := FlowOfBreak(h, e);
      assert h.Flow() == front + back;
      KeepsAll(h.written, front, extra, back, d);
    }
  }

  /** An element that was written and is neither read nor held. */
  ghost predicate Gone<T>(h: History<T>, x: T) {
    x in h.written && x !in h.Flow()
  }

  lemma GoneStays<T(!new)>(h: History<T>, e: Event<T>, x: T)
    requires Gone(h, x) && Distinct(Step(h, e).written)
    ensures Gone(Step(h, e), x)
  {
    var w := Step(h, e);
    NewElements(h.written, Written(h.view, e));
    assert x !in h.got && x !in h.view.unread && x !in h.view.queue && x !in h.view.pending;
    assert x !in Written(h.view, e);
    assert x !in w.got && x !in w.view.unread && x !in w.view.queue && x !in w.view.pending;
  }

  lemma ShortMoveDrops<T(!new)>(h: History<T>, e: Event<T>) returns (x: T)
    requires Shape(h) && e.Move? && Short(h.view, e.accepted)
    ensures Gone(Step(h, e), x)
  {
    var p, front := h.view.pending, h.got + h.view.unread + h.view.queue;
    x := p[|p| - 1];
    assert x in p && x !in p[..e.accepted];
    assert Step(h, e).Flow() == front + p[..e.accepted];
  }

  /** The last element buffered at a short move is lost for good. */
  lemma {:induction false} ShortMoveLoses<T(!new)>(log: Log<T>) returns (x: T)
    requires Distinct(Run(log).written) && !NoShortMove(log)
    ensures Gone(Run(log), x)
  {
    var h, e := Run(log.past), log.last;
    DistinctPrefix(h.written, Written(h.view, e));
    if NoShortMove(log.past) {
      RunShape(log.past);
      x := ShortMoveDrops(h, e);
    } else {
      x := ShortMoveLoses(log.past);
      GoneStays(h, e, x);
    }
  }

  /** Loss, exactly, when every written element is different from the others. */
  lemma DistinctNothingLost<T(!new)>(log: Log<T>)
    requires Distinct(Run(log).written)
    ensures multiset(Run(log).written) <= multiset(Run(log).Flow()) <==> NoShortMove(log)
  {
    if NoShortMove(log) {
      NothingLost(log);
    } else {
      var x := ShortMoveLoses(log);
      assert x in multiset(Run(log).written) && x !in multiset(Run(log).Flow());
    }
  }

  /** What a cut drain slips in before the bytes still buffered. */
  lemma FlowOfBreak<T>(h: History<T>, e: Event<T>) returns (extra: seq<T>)
    requires CutsDrain(h.view, e) && !e.Move?
    ensures Step(h, e).Flow() == h.got + h.view.unread + h.view.queue + extra + h.view.pending
    ensures Written(h.view, e) == []
  {
    extra := h.view.pending[..e.accepted];
  }

  lemma KeepsAll<T>(w: seq<T>, front: seq<T>, extra: seq<T>, back: seq<T>, d: seq<T>)
    requires multiset(w) <= multiset(front + back)
    requires d == [] || d == extra
    ensures multiset(w + d) <= multiset(front + extra + back)
  {
    assert multiset(front + extra + back) == multiset(front + back) + multiset(extra);
  }

  /** The breaks do happen: a raw read skips what is in the get area, an append overtakes what is still buffered,
      a flush that gives up half-way and is tried again doubles its prefix, and a move whose drain gives up drops
      a byte. */
  lemma StreamsThatBreak()
    ensures Run(Then(Then(Then(Start, Bypass([1, 2])), Refill(1)), RawRead(1))).Flow() == [2, 1]
    ensures Run(Then(Then(Start, Put(1, 0)), Bypass([2]))).Flow() == [2, 1]
    ensures Run(Then(Then(Then(Then(Start, Put(1, 0)), Put(2, 0)), Flush(1)), Flush(2))).Flow() == [1, 1, 2]
    ensures Run(Then(Then(Then(Start, Put(1, 0)), Put(2, 0)), Move(1))).Flow() == [1]
  {
    assert Run(Then(Then(Start, Bypass([1, 2])), Refill(1))).view == View([1], [2], []);
    var one := Then(Start, Put(1, 0));
    var two := Then(one, Put(2, 0));
    assert Run(one).view == View([], [], [1]);
    assert Run(two).view == View([], [], [1, 2]);
    assert Run(Then(two, Flush(1))).view == View([], [1], [1, 2]);
  }

  /** A drain that fell short and is then tried again: the retry hands over the whole buffer, so the part
      already taken arrives twice, and nothing is missing. */
  lemma RetryAfterShort<T>(v: View<T>, accepted: nat, again: nat)
    requires Short(v, accepted) && !Short(v, again)
    ensures var w := Apply(Apply(v, Flush(accepted)), Flush(again));
            w == v.(queue := v.queue + v.pending[..accepted] + v.pending, pending := [])
  {
  }

  /** The put area never outgrows its array. */
  lemma {:induction false} PendingBounded<T>(log: Log<T>)
    ensures |Run(log).view.pending| <= 512
  {
    if log.Then? {
      PendingBounded(log.past);
    }
  }

  /** The second log is the first one followed by puts of the elements of `s`, in order. */
  ghost predicate Puts<T(!new)>(from: Log<T>, to: Log<T>, s: seq<T>) {
    if s == [] then to == from
    else to.Then? && to.last.Put? && to.last.x == s[|s| - 1] && Puts(from, to.past, s[..|s| - 1])
  }

  /** Puts alone never touch the reading side. */
  lemma {:induction false} PutsReadNothing<T(!new)>(from: Log<T>, to: Log<T>, s: seq<T>)
    requires Puts(from, to, s)
    ensures Run(to).got == Run(from).got && Run(to).view.unread == Run(from).view.unread
  {
    if s != [] {
      PutsReadNothing(from, to.past, s[..|s| - 1]);
    }
  }

  /** The first 512 bytes put are all buffered, whatever the host would do. */
  lemma {:induction false} PutsFill<T(!new)>(to: Log<T>, s: seq<T>)
    requires Puts(Start, to, s) && |s| <= 512
    ensures Run(to).view == View([], [], s) && Run(to).written == s
  {
    if s != [] {
      PutsFill(to.past, s[..|s| - 1]);
      assert s[..|s| - 1] + [s[|s| - 1]] == s;
    }
  }

  function Moved<T>(v: View<T>, moves: seq<nat>): View<T>
    decreases |moves|
  {
    if moves == [] then v else Moved(Apply(v, Move(moves[0])), moves[1..])
  }

  lemma {:induction false} MovedEmpty<T>(v: View<T>, moves: seq<nat>)
    requires v.pending == []
    ensures Moved(v, moves) == v
    decreases |moves|
  {
    if moves != [] {
      MovedEmpty(Apply(v, Move(moves[0])), moves[1..]);
    }
  }

  /** Move transparency, exactly: any chain of moves keeps the unread bytes, and it keeps everything the body
      holds if and only if nothing was buffered or the drain of the first move did not fall short. */
  lemma MovesTransparentExact<T(!new)>(v: View<T>, moves: seq<nat>)
    ensures Moved(v, moves).unread == v.unread
    ensures Moved(v, moves).Total() == v.Total() <==> moves == [] || !Short(v, moves[0])
  {
    if moves != [] {
      var w := Apply(v, Move(moves[0]));
      MovedEmpty(w, moves[1..]);
      assert |w.Total()| == |v.Total()| <==> !Short(v, moves[0]);
      if !Short(v, moves[0]) {
        DrainKeepsTotal(v, moves[0]);
      }
    }
  }

  /** What an append takes from its argument: the host body, after the flush that a stream gone bad skips. */
  function AppendedBytes<T>(v: View<T>, bad: bool, accepted: nat): seq<T> {
    if bad then v.queue else Drain(v, accepted).queue
  }

  /** All the argument holds arrives exactly when its get area is empty and its flush took place in full. */
  lemma AppendsAllExact<T>(v: View<T>, bad: bool, accepted: nat)
    ensures AppendedBytes(v, bad, accepted) == v.Total() <==>
            v.unread == [] && (v.pending == [] || (!bad && !Short(v, accepted)))
  {
    assert |v.Total()| == |v.unread| + |v.queue| + |v.pending|;
  }
}

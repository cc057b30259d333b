/** The exact conditions for every run of a body, whatever bytes are written. Each written element is given its
    number in the order of writing; the run with numbers does what the run without them does, and in it one can
    tell equal bytes apart. */
module StreamTags {
  import opened Basics
  import opened StreamLog

  function TagData<T>(data: seq<T>, n: nat): seq<(T, nat)> {
    seq(|data|, i requires 0 <= i < |data| => (data[i], n + i))
  }

  /** The event, with the elements it offers numbered from `n` on. */
  function TagEvent<T>(e: Event<T>, n: nat): Event<(T, nat)> {
    match e
    case Put(x, accepted) => Put((x, n), accepted)
    case Flush(accepted) => Flush(accepted)
    case Move(accepted) => Move(accepted)
    case Bypass(data) => Bypass(TagData(data, n))
    case Refill(k) => Refill(k)
    case Consume => Consume
    case RawRead(k) => RawRead(k)
  }

  /** The log in which each written element carries its number. */
  function Tag<T>(log: Log<T>): Log<(T, nat)> {
    match log
    case Start => Start
    case Then(past, last) => Then(Tag(past), TagEvent(last, |Run(past).written|))
  }

  /** The elements without their numbers. */
  function Bare<T>(s: seq<(T, nat)>): seq<T> {
    seq(|s|, i requires 0 <= i < |s| => s[i].0)
  }

  lemma BareConcat<T>(a: seq<(T, nat)>, b: seq<(T, nat)>)
    ensures Bare(a + b) == Bare(a) + Bare(b)
  {
  }

  lemma BareSlice<T>(s: seq<(T, nat)>, i: nat, j: nat)
    requires i <= j <= |s|
    ensures Bare(s[i..j]) == Bare(s)[i..j]
    ensures j == |s| ==> Bare(s[i..]) == Bare(s)[i..]
    ensures i == 0 ==> Bare(s[..j]) == Bare(s)[..j]
  {
  }

  ghost predicate SameView<T>(v: View<(T, nat)>, w: View<T>) {
    Bare(v.unread) == w.unread && Bare(v.queue) == w.queue && Bare(v.pending) == w.pending
  }

  ghost predicate SameHistory<T>(h: History<(T, nat)>, g: History<T>) {
    Bare(h.written) == g.written && Bare(h.got) == g.got && SameView(h.view, g.view)
  }

  lemma DrainTagged<T>(v: View<(T, nat)>, w: View<T>, accepted: nat)
    requires SameView(v, w)
    ensures SameView(Drain(v, accepted), Drain(w, accepted))
  {
    if Short(v, accepted) {
      BareSlice(v.pending, 0, accepted);
      BareConcat(v.queue, v.pending[..accepted]);
    } else {
      BareConcat(v.queue, v.pending);
    }
  }

  lemma ApplyTagged<T>(v: View<(T, nat)>, w: View<T>, e: Event<T>, n: nat)
    requires SameView(v, w)
    ensures SameView(Apply(v, TagEvent(e, n)), Apply(w, e))
  {
    match e
    case Put(x, accepted) =>
      DrainTagged(v, w, accepted);
      BareConcat(v.pending, [(x, n)]);
    case Flush(accepted) => DrainTagged(v, w, accepted);
    case Move(accepted) => DrainTagged(v, w, accepted);
    case Bypass(data) => BareConcat(v.queue, TagData(data, n));
    case Refill(k) =>
      if k <= |v.queue| {
        BareSlice(v.queue, 0, k);
        BareSlice(v.queue, k, |v.queue|);
      }
    case Consume =>
      if v.unread != [] {
        BareSlice(v.unread, 1, |v.unread|);
      }
    case RawRead(k) =>
      if k <= |v.queue| {
        BareSlice(v.queue, k, |v.queue|);
      }
  }

  lemma FlowTagged<T>(v: View<(T, nat)>, w: View<T>, e: Event<T>, n: nat)
    requires SameView(v, w)
    ensures Bare(Written(v, TagEvent(e, n))) == Written(w, e) && Bare(Got(v, TagEvent(e, n))) == Got(w, e)
  {
  }

  lemma StepTagged<T>(h: History<(T, nat)>, g: History<T>, e: Event<T>, n: nat)
    requires SameHistory(h, g)
    ensures SameHistory(Step(h, TagEvent(e, n)), Step(g, e))
  {
    ApplyTagged(h.view, g.view, e, n);
    FlowTagged(h.view, g.view, e, n);
    BareConcat(h.written, Written(h.view, TagEvent(e, n)));
    BareConcat(h.got, Got(h.view, TagEvent(e, n)));
  }

  /** The written elements are numbered in order, so no two of them are the same. */
  ghost predicate Numbered<T>(s: seq<(T, nat)>) {
    forall i :: 0 <= i < |s| ==> s[i].1 == i
  }

  /** Numbering changes nothing: without the numbers the numbered run is the run itself. */
  lemma {:induction false} TagRun<T>(log: Log<T>)
    ensures SameHistory(Run(Tag(log)), Run(log)) && Numbered(Run(Tag(log)).written)
  {
    if log.Then? {
      TagRun(log.past);
      StepTagged(Run(Tag(log.past)), Run(log.past), log.last, |Run(log.past).written|);
    }
  }

  lemma TaggedDistinct<T>(log: Log<T>)
    ensures Distinct(Run(Tag(log)).written)
  {
    TagRun(log);
  }

  /** Numbering keeps every break where it is. */
  lemma {:induction false} TagBreaks<T>(log: Log<T>)
    ensures NoCutDrain(Tag(log)) <==> NoCutDrain(log)
    ensures NoOvertaking(Tag(log)) <==> NoOvertaking(log)
    ensures NoSkipping(Tag(log)) <==> NoSkipping(log)
    ensures NoShortMove(Tag(log)) <==> NoShortMove(log)
  {
    if log.Then? {
      TagBreaks(log.past);
      TagRun(log.past);
      EventBreaks(Run(Tag(log.past)).view, Run(log.past).view, log.last, |Run(log.past).written|);
    }
  }

  lemma EventBreaks<T>(v: View<(T, nat)>, w: View<T>, e: Event<T>, n: nat)
    requires SameView(v, w)
    ensures CutsDrain(v, TagEvent(e, n)) <==> CutsDrain(w, e)
    ensures Overtakes(v, TagEvent(e, n)) <==> Overtakes(w, e)
    ensures Skips(v, TagEvent(e, n)) <==> Skips(w, e)
    ensures TagEvent(e, n).Move? <==> e.Move?
    ensures e.Move? ==> (Short(v, TagEvent(e, n).accepted) <==> Short(w, e.accepted))
  {
    assert |v.unread| == |w.unread| && |v.queue| == |w.queue| && |v.pending| == |w.pending|;
    if e.Bypass? {
      assert |TagData(e.data, n)| == |e.data|;
    }
  }

  /** Loss and doubling, exactly: in any run, with overtaking writes and skipping reads too, each written element
      is read or held exactly once if and only if no drain was cut off half-way. */
  lemma OnceExact<T(!new)>(log: Log<T>)
    ensures Once(Run(Tag(log))) <==> NoCutDrain(log)
  {
    TaggedDistinct(log);
    TagBreaks(log);
    DistinctOnce(Tag(log));
  }

  /** Loss, exactly: in any run each written element is still read or held at least once if and only if no
      move's drain fell short. */
  lemma NothingLostExact<T(!new)>(log: Log<T>)
    ensures multiset(Run(Tag(log)).written) <= multiset(Run(Tag(log)).Flow()) <==> NoShortMove(log)
  {
    TaggedDistinct(log);
    TagBreaks(log);
    DistinctNothingLost(Tag(log));
  }

  /** Once a read has skipped elements, what was read is no longer what was written first. */
  lemma SkippedForGood<T(!new)>(log: Log<T>)
    requires NoCutDrain(log) && NoOvertaking(log)
    ensures Run(Tag(log)).got <= Run(Tag(log)).written <==> NoSkipping(log)
  {
    TaggedDistinct(log);
    TagBreaks(log);
    DistinctSkipped(Tag(log));
  }

  /** Order, exactly: in every run that does not have both kinds of reordering, the elements written come out in
      the order written if and only if no event broke it; no break is made good by a later event. */
  lemma ConservationExact<T(!new)>(log: Log<T>)
    requires NoSkipping(log) || NoOvertaking(log)
    ensures Faithful(Run(Tag(log))) <==> Unbroken(log)
  {
    TaggedDistinct(log);
    TagBreaks(log);
    UnbrokenParts(log);
    UnbrokenParts(Tag(log));
    DistinctConservation(Tag(log));
  }

  /** What holds of the numbered elements holds of the elements. */
  lemma FaithfulUntagged<T>(log: Log<T>)
    requires Faithful(Run(Tag(log)))
    ensures Faithful(Run(log))
  {
    TagRun(log);
    var h := Run(Tag(log));
    BareConcat(h.got, h.view.Total());
    BareConcat(h.view.unread + h.view.queue, h.view.pending);
    BareConcat(h.view.unread, h.view.queue);
  }

  /** Equal bytes hide a break, the numbers do not: a write overtakes a buffered byte that is equal to it. */
  lemma EqualBytesHide()
    ensures var log := Then(Then(Start, Put(97, 0)), Bypass([97]));
            Faithful(Run(log)) && !Faithful(Run(Tag(log)))
  {
    var log := Then(Start, Put(97, 0));
    assert Run(log).view == View([], [], [97]);
    assert Run(Then(log, Bypass([97]))) == History([97, 97], [], View([], [97], [97]));
    ConservationExact(Then(log, Bypass([97])));
    assert Overtakes(Run(log).view, Bypass([97]));
  }
}

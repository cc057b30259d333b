/** The host side of a body, as the classes above it see it: a queue of bytes that takes any part of what it is
    offered and hands out any non-zero part of what it holds. Which part is the host's free choice. */
module HostIo {
  import opened Basics

  datatype HostError = HostError(code: nat)

  /** A call to the host and its answer. */
  datatype HostCall =
    | Offered(data: seq<byte>, taken: Result<nat, HostError>)
    | Asked(max: nat, got: Result<nat, HostError>)
    | Spliced(data: seq<byte>)
    | Ended(how: Result<(), HostError>)

  class HostBody {
    var queue: seq<byte>
    /** The calls made, in order. */
    ghost var calls: seq<HostCall>
    /** How many reads and writes have failed. */
    ghost var failures: nat
    /** How many non-empty writes were answered with a length of zero. */
    ghost var refusals: nat

    constructor ()
      ensures queue == [] && calls == [] && failures == refusals == 0
    {
      queue, calls, failures, refusals := [], [], 0, 0;
    }

    constructor FromHandle(content: seq<byte>)
      ensures queue == content && calls == [] && failures == refusals == 0
    {
      queue, calls, failures, refusals := content, [], 0, 0;
    }

    /** Takes a prefix of `src[lo..hi]`, possibly an empty one, or fails and takes nothing. */
    method Write(src: array<byte>, lo: nat, hi: nat) returns (r: Result<nat, HostError>)
      requires lo <= hi <= src.Length
      modifies this
      ensures r.Ok? ==> r.value <= hi - lo && queue == old(queue) + src[lo..lo + r.value]
      ensures r.Err? ==> queue == old(queue)
      ensures calls == old(calls) + [Offered(src[lo..hi], r)]
      ensures failures == old(failures) + if r.Err? then 1 else 0
      ensures refusals == old(refusals) + if r == Ok(0) && lo < hi then 1 else 0
    {
      if * {
        var e: HostError := *;
        calls, failures := calls + [Offered(src[lo..hi], Err(e))], failures + 1;
        return Err(e);
      }
      var n: nat :| n <= hi - lo;
      queue := queue + src[lo..lo + n];
      calls := calls + [Offered(src[lo..hi], Ok(n))];
      if n == 0 && lo < hi {
        refusals := refusals + 1;
      }
      return Ok(n);
    }

    /** Hands out a prefix of the queue, empty only when nothing was asked for or nothing is left, or fails. */
    method Read(dst: array<byte>, max: nat) returns (r: Result<nat, HostError>)
      requires max <= dst.Length
      modifies this, dst
      ensures r.Ok? ==> r.value <= max && r.value <= |old(queue)| && queue == old(queue)[r.value..]
      ensures r.Ok? ==> dst[..] == old(queue)[..r.value] + old(dst[..])[r.value..]
      ensures r.Ok? && r.value == 0 ==> max == 0 || old(queue) == []
      ensures r.Err? ==> queue == old(queue) && dst[..] == old(dst[..])
      ensures calls == old(calls) + [Asked(max, r)]
      ensures failures == old(failures) + (if r.Err? then 1 else 0) && refusals == old(refusals)
    {
      if * {
        var e: HostError := *;
        calls, failures := calls + [Asked(max, Err(e))], failures + 1;
        return Err(e);
      }
      var n: nat := 0;
      if max > 0 && queue != [] {
        n :| 1 <= n <= max && n <= |queue|;
      }
      forall i | 0 <= i < n {
        dst[i] := queue[i];
      }
      queue := queue[n..];
      calls := calls + [Asked(max, Ok(n))];
      return Ok(n);
    }

    /** Ends a streaming body; whatever it was handed before is what the receiver gets. */
    method Finish() returns (r: Result<(), HostError>)
      modifies this`calls
      ensures calls == old(calls) + [Ended(r)]
    {
      r := *;
      calls := calls + [Ended(r)];
    }

    /** Splices the other body's bytes onto the end. */
    method Append(other: HostBody)
      modifies this`queue, this`calls
      ensures queue == old(queue) + old(other.queue)
      ensures calls == old(calls) + [Spliced(old(other.queue))]
    {
      calls := calls + [Spliced(other.queue)];
      queue := queue + other.queue;
    }
  }

  /** The offers of a loop that hands over `data` from the front, and has handed over its first `pos` bytes: each
      offer is all that was left, and each was taken in part. */
  ghost predicate Offers(calls: seq<HostCall>, data: seq<byte>, pos: nat) {
    if calls == [] then pos == 0
    else
      var last := calls[|calls| - 1];
      && last.Offered? && last.taken.Ok? && 0 < last.taken.value <= pos <= |data|
      && last.data == data[pos - last.taken.value..]
      && Offers(calls[..|calls| - 1], data, pos - last.taken.value)
  }

  /** How such a loop ends: everything was handed over, or it stopped after `accepted` bytes because the host
      took nothing of the rest, or failed. */
  ghost predicate Drained(calls: seq<HostCall>, data: seq<byte>, accepted: nat, full: Outcome<bool>) {
    if full == Returned(true) then accepted == |data| && Offers(calls, data, accepted)
    else
      && accepted < |data| && calls != [] && Offers(calls[..|calls| - 1], data, accepted)
      && calls[|calls| - 1].Offered? && calls[|calls| - 1].data == data[accepted..]
      && if full.Aborted? then calls[|calls| - 1].taken.Err? else calls[|calls| - 1].taken == Ok(0)
  }

  /** One more offer, of all that was left, that was taken in part. */
  lemma OffersNext(calls: seq<HostCall>, data: seq<byte>, pos: nat, n: nat)
    requires Offers(calls, data, pos) && 0 < n && pos + n <= |data|
    ensures Offers(calls + [Offered(data[pos..], Ok(n))], data, pos + n)
  {
    var more := calls + [Offered(data[pos..], Ok(n))];
    assert more[..|more| - 1] == calls;
  }

  /** The last offer, of which nothing was taken. */
  lemma OffersEnd(calls: seq<HostCall>, data: seq<byte>, pos: nat, last: Result<nat, HostError>)
    requires Offers(calls, data, pos) && pos < |data| && (last.Err? || last == Ok(0))
    ensures Drained(calls + [Offered(data[pos..], last)], data, pos, if last.Err? then Aborted else Returned(false))
  {
    var more := calls + [Offered(data[pos..], last)];
    assert more[..|more| - 1] == calls;
  }
}

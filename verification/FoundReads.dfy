/** Reading a found item: its user metadata, and ranges of its body. */
module FoundReads {
  import opened Basics
  import opened CacheProtocol

  datatype Status = StatusOk | BufferLen | OtherStatus(code: nat)

  /** What reading a stream yields: some bytes, and then the end or a read error. */
  datatype Stream = Stream(bytes: seq<byte>, broken: bool)

  /** The host side of one found item. A metadata call that does not fail for another reason either fills the
      buffer and reports the length, or reports the length it would need. */
  class HostItem {
    const metadata: seq<byte>
    const body: seq<byte>
    const lengthKnown: bool
    /** It was looked up with `always_use_requested_range`. */
    const always: bool
    /** The host never fails for a reason of its own. */
    const healthy: bool
    var calls: nat

    constructor (metadata: seq<byte>, body: seq<byte>, lengthKnown: bool, always: bool, healthy: bool)
      ensures this.metadata == metadata && this.body == body && calls == 0
      ensures this.lengthKnown == lengthKnown && this.always == always && this.healthy == healthy
    {
      this.metadata, this.body, this.healthy := metadata, body, healthy;
      this.lengthKnown, this.always, calls := lengthKnown, always, 0;
    }

    method GetUserMetadata(buffer: array<byte>, size: nat) returns (status: Status, nwritten: nat)
      requires size <= buffer.Length
      modifies this, buffer
      ensures calls == old(calls) + 1
      ensures healthy ==> status == if |metadata| <= size then StatusOk else BufferLen
      ensures status == StatusOk ==> nwritten == |metadata| <= size && buffer[..nwritten] == metadata
      ensures status == BufferLen ==> nwritten == |metadata| > size
    {
      calls, nwritten := calls + 1, |metadata|;
      var fails: bool := *;
      if !healthy && fails {
        return OtherStatus(1), 0;
      }
      if |metadata| > size {
        return BufferLen, nwritten;
      }
      forall i | 0 <= i < |metadata| {
        buffer[i] := metadata[i];
      }
      return StatusOk, nwritten;
    }

    /** What `get_body` streams for the range options that are set, as the header documents it. By default a range
        counts only within a body of known length. With `always_use_requested_range` it always counts, and a
        stream that runs out of data ends in a read error. */
    function Serve(from: Option<nat>, to: Option<nat>): Stream {
      var n := |body|;
      if !lengthKnown && !always then Stream(body, false)
      else
        match (from, to)
        case (None, None) => Stream(body, false)
        case (Some(a), None) =>
          if a <= n then Stream(body[a..], false) else Stream(if always then [] else body, always)
        case (None, Some(b)) => if b <= n then Stream(body[n - b..], false) else Stream(body, always)
        case (Some(a), Some(b)) =>
          if a <= b < n then Stream(body[a..b + 1], false)
          else if a <= b && always then Stream(if a <= n then body[a..] else [], true)
          else if a <= b == n then Stream(body[a..], false)
          else Stream(body, false)
    }

    method GetBody(mask: set<nat>, from: nat, to: nat) returns (r: Result<Stream, CoreError>)
      ensures healthy ==> r.Ok?
      ensures r.Ok? ==> r.value == Serve(
        if 1 in mask then Some(from) else None, if 2 in mask then Some(to) else None)
    {
      var fails: bool := *;
      if !healthy && fails {
        return Err(CoreUnknown);
      }
      return Ok(Serve(
        if 1 in mask then Some(from) else None, if 2 in mask then Some(to) else None));
    }
  }

  // Bit positions, src/cpp/fastly.h:141-143.
  const MASK_FROM: nat := 1
  const MASK_TO: nat := 2

  const INITIAL_BUFFER: nat := 16 * 1024

  /** `Found::user_metadata`: whatever its size, the stored metadata comes back exactly, with at most two calls;
      a second call is made only when it did not fit, and only a failing host ends the process. */
  method UserMetadata(item: HostItem) returns (r: Outcome<seq<byte>>)
    modifies item
    ensures r.Returned? ==> r.value == item.metadata
    ensures item.healthy ==> r.Returned?
    ensures item.calls <= old(item.calls) + 2
    ensures r.Returned? ==> item.calls == old(item.calls) + if |item.metadata| <= 16384 then 1 else 2
  {
    var buffer := new byte[INITIAL_BUFFER];
    var status, nwritten := item.GetUserMetadata(buffer, buffer.Length);
    if status != StatusOk {
      if status == BufferLen {
        buffer := new byte[nwritten];
        status, nwritten := item.GetUserMetadata(buffer, buffer.Length);
        if status != StatusOk {
          return Aborted;
        }
      } else {
        return Aborted;
      }
    }
    return Returned(buffer[..nwritten]);
  }

  /** The range lies within the body. */
  predicate InRange(item: HostItem, from: Option<nat>, to: Option<nat>) {
    && (from.Some? ==> from.value <= |item.body|)
    && (to.Some? ==> to.value <= |item.body|)
    && (from.Some? && to.Some? && item.always ==> to.value < |item.body|)
  }

  /** The range is honoured at all. */
  predicate Ranged(item: HostItem, from: Option<nat>, to: Option<nat>) {
    (item.lengthKnown || item.always) && (from.Some? || to.Some?)
  }

  /** `Found::to_stream_from_range`: an error of its own exactly when `to` is before `from`; otherwise a stream of
      what the host serves. That is the range, both ends inclusive, or the last `to` bytes, when the range is
      honoured and lies within the body. It is the whole body when the range is not honoured, and by default
      also when it goes beyond the body; only with `always_use_requested_range` such a range ends in a read error,
      after what there was of it. */
  method ToStreamFromRange(item: HostItem, from: Option<nat>, to: Option<nat>)
    returns (r: Result<Stream, CoreError>)
    ensures from.Some? && to.Some? && to.value < from.value ==> r == Err(CoreInvalidOperation)
    ensures item.healthy && !(from.Some? && to.Some? && to.value < from.value) ==> r.Ok?
    ensures r.Ok? ==> r.value == item.Serve(from, to)
    ensures r.Ok? && Ranged(item, from, to) && InRange(item, from, to) ==> Sliced(item.body, from, to, r.value.bytes)
    ensures r.Ok? && (!Ranged(item, from, to) || (!item.always && !InRange(item, from, to))) ==>
      r.value.bytes == item.body
    ensures r.Ok? ==> (r.value.broken <==> item.always && Ranged(item, from, to) && !InRange(item, from, to))
    ensures r.Ok? && r.value.broken && from.Some? && from.value <= |item.body| ==>
      item.body[..from.value] + r.value.bytes == item.body
  {
    if from.Some? && to.Some? && to.value < from.value {
      return Err(CoreInvalidOperation);
    }
    var mask: set<nat>, optionsFrom, optionsTo := {}, 0, 0;
    if from.Some? {
      optionsFrom := from.value;
      mask := mask + {MASK_FROM};
    }
    if to.Some? {
      optionsTo := to.value;
      mask := mask + {MASK_TO};
    }
    r := item.GetBody(mask, optionsFrom, optionsTo);
  }

  /** The bytes are the documented part of the body. */
  ghost predicate Sliced(body: seq<byte>, from: Option<nat>, to: Option<nat>, bytes: seq<byte>) {
    var n := |body|;
    && (from.Some? && to.Some? && from.value <= to.value < n ==>
          |bytes| == to.value - from.value + 1 &&
          forall i :: 0 <= i < |bytes| ==> bytes[i] == body[from.value + i])
    && (from.Some? && from.value <= n && (to == None || to == Some(n)) ==> body[..from.value] + bytes == body)
    && (from.None? && to.Some? && to.value <= n ==> |bytes| == to.value && body[..n - to.value] + bytes == body)
  }
}

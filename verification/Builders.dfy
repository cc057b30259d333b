/** Chains of builder calls. Each setter consumes the builder and hands it back, so a chain is a list of setter
    calls on one options record; the encoded record must give the host the last effective value of each field. */
module Builders {
  import opened Basics
  import opened ListEncoding
  import opened AbiOptions

  datatype WriteSetter =
    | MaxAge(ns: int64)
    | HeaderValues(handle: nat)            // `handle`: what `http_req_new` would return in this call
    | VaryBy(headers: seq<string>)
    | InitialAge(ns: int64)
    | StaleWhileRevalidate(ns: int64)
    | SurrogateKeyList(keys: seq<string>)
    | KnownLength(length: uint64)
    | UserMetadata(bytes: seq<byte>)
    | SensitiveData(flag: bool)
    | DeliverNodeMaxAge(ns: int64)
    | OnBehalfOf(service: string)

  function NewWrite(maxAge: int64): WriteOptions {
    WriteOptions(maxAge, None, None, None, None, None, None, None, false, None, None)
  }

  function Effect(o: WriteOptions, t: WriteSetter): WriteOptions {
    match t
    case MaxAge(ns) => o.(maxAge := ns)
    case HeaderValues(handle) => if o.requestHeaders.Some? then o else o.(requestHeaders := Some(handle))
    case VaryBy(headers) => if headers == [] then o else o.(varyRule := Some(Join(headers, ' ')))
    case InitialAge(ns) => o.(initialAge := Some(ns))
    case StaleWhileRevalidate(ns) => o.(staleWhileRevalidate := Some(ns))
    case SurrogateKeyList(keys) => if keys == [] then o else o.(surrogateKeys := Some(Join(keys, ' ')))
    case KnownLength(length) => o.(length := Some(length))
    case UserMetadata(bytes) => o.(userMetadata := Some(bytes))
    case SensitiveData(flag) => o.(sensitiveData := flag)
    case DeliverNodeMaxAge(ns) => o.(edgeMaxAge := Some(ns))
    case OnBehalfOf(service) => o.(service := Some(service))
  }

  /** The insert, update and replace builders: all of them hold write options and have some of these setters. */
  class WriteBuilder {
    var options: WriteOptions

    constructor (maxAge: int64)
      ensures options == NewWrite(maxAge)
    {
      options := NewWrite(maxAge);
    }

    method Set(t: WriteSetter)
      modifies this
      ensures options == Effect(old(options), t)
    {
      match t
      case MaxAge(ns) => options := options.(maxAge := ns);
      case HeaderValues(handle) =>
        if options.requestHeaders.None? {
          options := options.(requestHeaders := Some(handle));
        }
      case VaryBy(headers) =>
        if headers != [] {
          var rule := JoinStrings(headers, ' ');
          options := options.(varyRule := Some(rule));
        }
      case InitialAge(ns) => options := options.(initialAge := Some(ns));
      case StaleWhileRevalidate(ns) => options := options.(staleWhileRevalidate := Some(ns));
      case SurrogateKeyList(keys) =>
        if keys != [] {
          var joined := JoinStrings(keys, ' ');
          options := options.(surrogateKeys := Some(joined));
        }
      case KnownLength(length) => options := options.(length := Some(length));
      case UserMetadata(bytes) => options := options.(userMetadata := Some(bytes));
      case SensitiveData(flag) => options := options.(sensitiveData := flag);
      case DeliverNodeMaxAge(ns) => options := options.(edgeMaxAge := Some(ns));
      case OnBehalfOf(service) => options := options.(service := Some(service));
    }
  }

  /** The value the last call with an effect on a field gave it. */
  function Last<S, T>(calls: seq<S>, pick: S -> Option<T>): Option<T> {
    if calls == [] then None
    else if pick(calls[|calls| - 1]).Some? then pick(calls[|calls| - 1])
    else Last(calls[..|calls| - 1], pick)
  }

  function First<S, T>(calls: seq<S>, pick: S -> Option<T>): Option<T> {
    if calls == [] then None
    else if pick(calls[0]).Some? then pick(calls[0])
    else First(calls[1..], pick)
  }

  lemma {:induction false} FirstSnoc<S, T>(calls: seq<S>, last: S, pick: S -> Option<T>)
    ensures First(calls + [last], pick) == if First(calls, pick).Some? then First(calls, pick) else pick(last)
  {
    if calls != [] {
      assert (calls + [last])[1..] == calls[1..] + [last];
      FirstSnoc(calls[1..], last, pick);
    }
  }

  lemma LastSnoc<S, T>(calls: seq<S>, last: S, pick: S -> Option<T>)
    ensures Last(calls + [last], pick) == if pick(last).Some? then pick(last) else Last(calls, pick)
  {
    assert (calls + [last])[..|calls|] == calls;
  }

  // Which call gives which field a value.
  function MaxAgeOf(t: WriteSetter): Option<int64> { if t.MaxAge? then Some(t.ns) else None }
  function HeadersOf(t: WriteSetter): Option<nat> { if t.HeaderValues? then Some(t.handle) else None }
  function VaryOf(t: WriteSetter): Option<string> {
    if t.VaryBy? && t.headers != [] then Some(Join(t.headers, ' ')) else None
  }
  function AgeOf(t: WriteSetter): Option<int64> { if t.InitialAge? then Some(t.ns) else None }
  function StaleOf(t: WriteSetter): Option<int64> { if t.StaleWhileRevalidate? then Some(t.ns) else None }
  function KeysOf(t: WriteSetter): Option<string> {
    if t.SurrogateKeyList? && t.keys != [] then Some(Join(t.keys, ' ')) else None
  }
  function LengthOf(t: WriteSetter): Option<uint64> { if t.KnownLength? then Some(t.length) else None }
  function MetadataOf(t: WriteSetter): Option<seq<byte>> { if t.UserMetadata? then Some(t.bytes) else None }
  function SensitiveOf(t: WriteSetter): Option<bool> { if t.SensitiveData? then Some(t.flag) else None }
  function EdgeOf(t: WriteSetter): Option<int64> { if t.DeliverNodeMaxAge? then Some(t.ns) else None }
  function ServiceOf(t: WriteSetter): Option<string> { if t.OnBehalfOf? then Some(t.service) else None }

  /** What a chain of calls asks for, field by field. The first header call makes the request handle the later
      ones reuse; of every other field the last effective call counts. */
  function Requested(maxAge: int64, calls: seq<WriteSetter>): WriteOptions {
    WriteOptions(
      Given(Last(calls, MaxAgeOf), maxAge),
      First(calls, HeadersOf),
      Last(calls, VaryOf),
      Last(calls, AgeOf),
      Last(calls, StaleOf),
      Last(calls, KeysOf),
      Last(calls, LengthOf),
      Last(calls, MetadataOf),
      Given(Last(calls, SensitiveOf), false),
      Last(calls, EdgeOf),
      Last(calls, ServiceOf))
  }

  lemma RequestedSnoc(maxAge: int64, calls: seq<WriteSetter>, t: WriteSetter)
    ensures Requested(maxAge, calls + [t]) == Effect(Requested(maxAge, calls), t)
  {
    LastSnoc(calls, t, MaxAgeOf);
    FirstSnoc(calls, t, HeadersOf);
    LastSnoc(calls, t, VaryOf);
    LastSnoc(calls, t, AgeOf);
    LastSnoc(calls, t, StaleOf);
    LastSnoc(calls, t, KeysOf);
    LastSnoc(calls, t, LengthOf);
    LastSnoc(calls, t, MetadataOf);
    LastSnoc(calls, t, SensitiveOf);
    LastSnoc(calls, t, EdgeOf);
    LastSnoc(calls, t, ServiceOf);
  }

  /** A whole chain: any list of setter calls on a new builder, then the encoding `execute` sends. What the host
      decodes is exactly what the chain asks for. */
  method BuildAndEncode(maxAge: int64, calls: seq<WriteSetter>) returns (r: WriteRecord, mask: Mask)
    ensures DecodeWrite(r, mask) == Requested(maxAge, calls)
    ensures WriteLayout(Requested(maxAge, calls), r, mask)
  {
    var builder := new WriteBuilder(maxAge);
    for i := 0 to |calls|
      invariant builder.options == Requested(maxAge, calls[..i])
    {
      assert calls[..i + 1] == calls[..i] + [calls[i]];
      RequestedSnoc(maxAge, calls[..i], calls[i]);
      builder.Set(calls[i]);
    }
    assert calls[..|calls|] == calls;
    r, mask := AsAbiWrite(builder.options);
  }

  function FieldOf(t: WriteSetter): nat {
    match t
    case MaxAge(_) => 0
    case HeaderValues(_) => 1
    case VaryBy(_) => 2
    case InitialAge(_) => 3
    case StaleWhileRevalidate(_) => 4
    case SurrogateKeyList(_) => 5
    case KnownLength(_) => 6
    case UserMetadata(_) => 7
    case SensitiveData(_) => 8
    case DeliverNodeMaxAge(_) => 9
    case OnBehalfOf(_) => 10
  }

  /** Setters of different fields commute. */
  lemma SettersCommute(o: WriteOptions, t: WriteSetter, u: WriteSetter)
    requires FieldOf(t) != FieldOf(u)
    ensures Effect(Effect(o, t), u) == Effect(Effect(o, u), t)
  {
  }

  datatype LookupSetter = LookupHeaders(handle: nat) | LookupService(service: string) | LookupAlwaysRange

  function LookupHeadersOf(t: LookupSetter): Option<nat> { if t.LookupHeaders? then Some(t.handle) else None }
  function LookupServiceOf(t: LookupSetter): Option<string> { if t.LookupService? then Some(t.service) else None }

  /** A chain on a lookup builder, encoded and decoded. */
  method LookupAndEncode(calls: seq<LookupSetter>) returns (r: LookupRecord, mask: Mask)
    ensures DecodeLookup(r, mask) ==
      LookupOptions(First(calls, LookupHeadersOf), Last(calls, LookupServiceOf), LookupAlwaysRange in calls)
    ensures OnlyDefined(mask, 3)
  {
    var o := LookupOptions(None, None, false);
    for i := 0 to |calls|
      invariant o == LookupOptions(First(calls[..i], LookupHeadersOf), Last(calls[..i], LookupServiceOf),
                                   LookupAlwaysRange in calls[..i])
    {
      assert calls[..i + 1] == calls[..i] + [calls[i]];
      FirstSnoc(calls[..i], calls[i], LookupHeadersOf);
      LastSnoc(calls[..i], calls[i], LookupServiceOf);
      match calls[i]
      case LookupHeaders(handle) =>
        if o.requestHeaders.None? {
          o := o.(requestHeaders := Some(handle));
        }
      case LookupService(service) => o := o.(service := Some(service));
      case LookupAlwaysRange => o := o.(alwaysRange := true);
    }
    assert calls[..|calls|] == calls;
    r, mask := AsAbiLookup(o);
  }

  datatype ReplaceSetter = Strategy(strategy: ReplaceStrategy) | ReplaceAlwaysRange

  function StrategyOfCall(t: ReplaceSetter): Option<ReplaceStrategy> {
    if t.Strategy? then Some(t.strategy) else None
  }

  /** A chain on a replace builder, encoded and decoded. It has no setters for headers or service. */
  method ReplaceAndEncode(calls: seq<ReplaceSetter>) returns (r: ReplaceRecord, mask: Mask)
    ensures DecodeReplace(r, mask) ==
      ReplaceOptions(None, Given(Last(calls, StrategyOfCall), Immediate), None, ReplaceAlwaysRange in calls)
    ensures OnlyDefined(mask, 4) && 2 in mask
  {
    var o := ReplaceOptions(None, Immediate, None, false);
    for i := 0 to |calls|
      invariant o == ReplaceOptions(None, Given(Last(calls[..i], StrategyOfCall), Immediate), None,
                                    ReplaceAlwaysRange in calls[..i])
    {
      assert calls[..i + 1] == calls[..i] + [calls[i]];
      LastSnoc(calls[..i], calls[i], StrategyOfCall);
      match calls[i]
      case Strategy(strategy) => o := o.(strategy := strategy);
      case ReplaceAlwaysRange => o := o.(alwaysRange := true);
    }
    assert calls[..|calls|] == calls;
    r, mask := AsAbiReplace(o);
  }
}

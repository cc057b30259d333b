/** The option records of the cache builders and their encoding for the host: a record of plain fields plus a
    mask of the options that are set. */
module AbiOptions {
  import opened Basics

  newtype int64 = x: int | -0x8000_0000_0000_0000 <= x < 0x8000_0000_0000_0000
  newtype uint64 = x: int | 0 <= x < 0x1_0000_0000_0000_0000

  /** A duration's `count()` stored in an unsigned field, and read back. */
  function ToUnsigned(ns: int64): (u: uint64)
    ensures ToSigned(u) == ns
    ensures u as int == ns as int + if ns < 0 then 18446744073709551616 else 0
  {
    (ns as int % 0x1_0000_0000_0000_0000) as uint64
  }

  function ToSigned(ns: uint64): int64 {
    if ns < 0x8000_0000_0000_0000 then ns as int64 else (ns as int - 0x1_0000_0000_0000_0000) as int64
  }

  datatype WriteOptions = WriteOptions(
    maxAge: int64,
    requestHeaders: Option<nat>,
    varyRule: Option<string>,
    initialAge: Option<int64>,
    staleWhileRevalidate: Option<int64>,
    surrogateKeys: Option<string>,
    length: Option<uint64>,
    userMetadata: Option<seq<byte>>,
    sensitiveData: bool,
    edgeMaxAge: Option<int64>,
    service: Option<string>)

  /** The host's record; a pointer and its length are the bytes they denote. */
  datatype WriteRecord = WriteRecord(
    maxAgeNs: uint64,
    requestHeaders: nat,
    varyRule: string,
    initialAgeNs: uint64,
    staleWhileRevalidateNs: uint64,
    surrogateKeys: string,
    length: uint64,
    userMetadata: seq<byte>,
    edgeMaxAgeNs: uint64,
    service: string)

  datatype ReplaceStrategy = Immediate | ImmediateForceMiss | Wait

  datatype LookupOptions = LookupOptions(requestHeaders: Option<nat>, service: Option<string>, alwaysRange: bool)

  datatype LookupRecord = LookupRecord(requestHeaders: nat, service: string)

  datatype ReplaceOptions = ReplaceOptions(
    requestHeaders: Option<nat>, strategy: ReplaceStrategy, service: Option<string>, alwaysRange: bool)

  datatype ReplaceRecord = ReplaceRecord(requestHeaders: nat, strategy: nat, service: string)

  /** An options mask, as the set of the positions of its one bits: every constant of src/cpp/fastly.h:91-125 is
      a single bit `1 << n`, or-ing one in adds its position, and a test of one looks its position up. */
  type Mask = set<nat>

  const W_REQUEST_HEADERS: nat := 1
  const W_VARY_RULE: nat := 2
  const W_INITIAL_AGE_NS: nat := 3
  const W_STALE_WHILE_REVALIDATE_NS: nat := 4
  const W_SURROGATE_KEYS: nat := 5
  const W_LENGTH: nat := 6
  const W_USER_METADATA: nat := 7
  const W_SENSITIVE_DATA: nat := 8
  const W_EDGE_MAX_AGE_NS: nat := 9
  const W_SERVICE: nat := 10

  const L_REQUEST_HEADERS: nat := 1
  const L_SERVICE: nat := 2
  const L_ALWAYS_USE_REQUESTED_RANGE: nat := 3

  const R_REQUEST_HEADERS: nat := 1
  const R_REPLACE_STRATEGY: nat := 2
  const R_SERVICE: nat := 3
  const R_ALWAYS_USE_REQUESTED_RANGE: nat := 4

  /** Position 0 is reserved in every layout; positions above the last defined one mean nothing. */
  predicate OnlyDefined(mask: Mask, last: nat) {
    forall bit :: bit in mask ==> 1 <= bit <= last
  }

  predicate Has(mask: Mask, bit: nat) {
    bit in mask
  }

  function Field<T>(mask: Mask, bit: nat, value: T): Option<T> {
    if Has(mask, bit) then Some(value) else None
  }

  function DurationField(mask: Mask, bit: nat, value: uint64): Option<int64> {
    if Has(mask, bit) then Some(ToSigned(value)) else None
  }

  // The host's side: how it reads a record, by the numbers of its interface.

  function DecodeWrite(r: WriteRecord, mask: Mask): WriteOptions {
    WriteOptions(
      ToSigned(r.maxAgeNs),
      Field(mask, 1, r.requestHeaders),
      Field(mask, 2, r.varyRule),
      DurationField(mask, 3, r.initialAgeNs),
      DurationField(mask, 4, r.staleWhileRevalidateNs),
      Field(mask, 5, r.surrogateKeys),
      Field(mask, 6, r.length),
      Field(mask, 7, r.userMetadata),
      Has(mask, 8),
      DurationField(mask, 9, r.edgeMaxAgeNs),
      Field(mask, 10, r.service))
  }

  function Given<T>(option: Option<T>, default: T): T {
    if option.Some? then option.value else default
  }

  /** The mask of a write record, bit by bit, and the fields, which are zero without their bit. */
  ghost predicate WriteLayout(o: WriteOptions, r: WriteRecord, mask: Mask) {
    && (forall bit :: bit in mask ==> 1 <= bit <= 10)
    && r.maxAgeNs == ToUnsigned(o.maxAge)
    && (1 in mask <==> o.requestHeaders.Some?) && r.requestHeaders == Given(o.requestHeaders, 0)
    && (2 in mask <==> o.varyRule.Some?) && r.varyRule == Given(o.varyRule, "")
    && (3 in mask <==> o.initialAge.Some?) && r.initialAgeNs == ToUnsigned(Given(o.initialAge, 0))
    && (4 in mask <==> o.staleWhileRevalidate.Some?)
    && r.staleWhileRevalidateNs == ToUnsigned(Given(o.staleWhileRevalidate, 0))
    && (5 in mask <==> o.surrogateKeys.Some?) && r.surrogateKeys == Given(o.surrogateKeys, "")
    && (6 in mask <==> o.length.Some?) && r.length == Given(o.length, 0)
    && (7 in mask <==> o.userMetadata.Some?) && r.userMetadata == Given(o.userMetadata, [])
    && (8 in mask <==> o.sensitiveData)
    && (9 in mask <==> o.edgeMaxAge.Some?) && r.edgeMaxAgeNs == ToUnsigned(Given(o.edgeMaxAge, 0))
    && (10 in mask <==> o.service.Some?) && r.service == Given(o.service, "")
  }

  /** The block all three encoders repeat for an optional field: if it has a value, store the value in the
      record and set the field's bit. The record starts out zeroed. */
  method SetOption<T>(mask: Mask, bit: nat, option: Option<T>, zero: T) returns (mask': Mask, field: T)
    ensures forall other :: other in mask' <==> other in mask || (other == bit && option.Some?)
    ensures field == if option.Some? then option.value else zero
  {
    mask', field := mask, zero;
    if option.Some? {
      field := option.value;
      mask' := mask' + {bit};
    }
  }

  function Nanoseconds(duration: Option<int64>): Option<uint64> {
    if duration.Some? then Some(ToUnsigned(duration.value)) else None
  }

  /** `as_abi(WriteOptions &)`, src/cpp/cache/core.cpp:107-137. */
  method FirstWriteFields(options: WriteOptions)
    returns (mask: Mask, requestHeaders: nat, varyRule: string, initialAge: uint64, stale: uint64, surrogates: string)
    ensures OnlyDefined(mask, 5)
    ensures Field(mask, 1, requestHeaders) == options.requestHeaders
    ensures Field(mask, 2, varyRule) == options.varyRule
    ensures DurationField(mask, 3, initialAge) == options.initialAge
    ensures DurationField(mask, 4, stale) == options.staleWhileRevalidate
    ensures requestHeaders == Given(options.requestHeaders, 0) && varyRule == Given(options.varyRule, "")
    ensures initialAge == ToUnsigned(Given(options.initialAge, 0))
    ensures stale == ToUnsigned(Given(options.staleWhileRevalidate, 0))
    ensures surrogates == Given(options.surrogateKeys, "")
    ensures Field(mask, 5, surrogates) == options.surrogateKeys
  {
    mask := {};
    mask, requestHeaders := SetOption(mask, W_REQUEST_HEADERS, options.requestHeaders, 0);
    mask, varyRule := SetOption(mask, W_VARY_RULE, options.varyRule, "");
    mask, initialAge := SetOption(mask, W_INITIAL_AGE_NS, Nanoseconds(options.initialAge), 0);
    mask, stale := SetOption(mask, W_STALE_WHILE_REVALIDATE_NS, Nanoseconds(options.staleWhileRevalidate), 0);
    mask, surrogates := SetOption(mask, W_SURROGATE_KEYS, options.surrogateKeys, "");
  }

  /** The rest of it, src/cpp/cache/core.cpp:139-163. */
  method LastWriteFields(options: WriteOptions, start: Mask)
    returns (mask: Mask, length: uint64, metadata: seq<byte>, edgeMaxAge: uint64, service: string)
    requires OnlyDefined(start, 5)
    ensures OnlyDefined(mask, 10)
    ensures forall bit :: bit <= 5 ==> (bit in mask <==> bit in start)
    ensures Field(mask, 6, length) == options.length
    ensures Field(mask, 7, metadata) == options.userMetadata
    ensures Has(mask, 8) == options.sensitiveData
    ensures DurationField(mask, 9, edgeMaxAge) == options.edgeMaxAge
    ensures length == Given(options.length, 0) && metadata == Given(options.userMetadata, [])
    ensures edgeMaxAge == ToUnsigned(Given(options.edgeMaxAge, 0)) && service == Given(options.service, "")
    ensures Field(mask, 10, service) == options.service
  {
    mask := start;
    mask, length := SetOption(mask, W_LENGTH, options.length, 0);
    mask, metadata := SetOption(mask, W_USER_METADATA, options.userMetadata, []);
    ghost var before := mask;
    if options.sensitiveData {
      mask := mask + {W_SENSITIVE_DATA};
    }
    assert forall bit :: bit in mask <==> bit in before || (bit == W_SENSITIVE_DATA && options.sensitiveData);
    mask, edgeMaxAge := SetOption(mask, W_EDGE_MAX_AGE_NS, Nanoseconds(options.edgeMaxAge), 0);
    mask, service := SetOption(mask, W_SERVICE, options.service, "");
  }

  /** `as_abi(WriteOptions &)`. */
  method AsAbiWrite(options: WriteOptions) returns (r: WriteRecord, mask: Mask)
    ensures DecodeWrite(r, mask) == options
    ensures WriteLayout(options, r, mask)
  {
    var requestHeaders, varyRule, initialAge, stale, surrogates, length, metadata, edgeMaxAge, service;
    var maxAge := ToUnsigned(options.maxAge);
    mask, requestHeaders, varyRule, initialAge, stale, surrogates := FirstWriteFields(options);
    mask, length, metadata, edgeMaxAge, service := LastWriteFields(options, mask);
    r := WriteRecord(maxAge, requestHeaders, varyRule, initialAge, stale, surrogates, length, metadata, edgeMaxAge,
                     service);
  }

  function DecodeLookup(r: LookupRecord, mask: Mask): LookupOptions {
    LookupOptions(
      Field(mask, 1, r.requestHeaders),
      Field(mask, 2, r.service),
      Has(mask, 3))
  }

  /** `as_abi(LookupOptions &)`. */
  method AsAbiLookup(options: LookupOptions) returns (r: LookupRecord, mask: Mask)
    ensures DecodeLookup(r, mask) == options
    ensures OnlyDefined(mask, 3)
    ensures (1 in mask <==> options.requestHeaders.Some?) && (2 in mask <==> options.service.Some?)
    ensures 3 in mask <==> options.alwaysRange
    ensures r.requestHeaders == Given(options.requestHeaders, 0) && r.service == Given(options.service, "")
  {
    r, mask := LookupRecord(0, ""), {};
    if options.requestHeaders.Some? {
      r := r.(requestHeaders := options.requestHeaders.value);
      mask := mask + {L_REQUEST_HEADERS};
    }
    if options.service.Some? {
      r := r.(service := options.service.value);
      mask := mask + {L_SERVICE};
    }
    if options.alwaysRange {
      mask := mask + {L_ALWAYS_USE_REQUESTED_RANGE};
    }
  }

  function StrategyCode(s: ReplaceStrategy): (code: nat)
    ensures (code == 0 <==> s == Immediate) && (code == 1 <==> s == ImmediateForceMiss) && (code == 2 <==> s == Wait)
  {
    match s
    case Immediate => 0
    case ImmediateForceMiss => 1
    case Wait => 2
  }

  function StrategyOf(code: nat): ReplaceStrategy {
    if code == 0 then Immediate else if code == 1 then ImmediateForceMiss else Wait
  }

  function DecodeReplace(r: ReplaceRecord, mask: Mask): ReplaceOptions {
    ReplaceOptions(
      Field(mask, 1, r.requestHeaders),
      if Has(mask, 2) then StrategyOf(r.strategy) else Immediate,
      Field(mask, 3, r.service),
      Has(mask, 4))
  }

  /** `as_abi(ReplaceOptions &)`; the strategy is always sent. */
  method AsAbiReplace(options: ReplaceOptions) returns (r: ReplaceRecord, mask: Mask)
    ensures DecodeReplace(r, mask) == options
    ensures OnlyDefined(mask, 4)
    ensures 2 in mask && 0 <= r.strategy <= 2
    ensures (r.strategy == 0 <==> options.strategy == Immediate) && (r.strategy == 2 <==> options.strategy == Wait)
    ensures (1 in mask <==> options.requestHeaders.Some?) && (3 in mask <==> options.service.Some?)
    ensures 4 in mask <==> options.alwaysRange
    ensures r.requestHeaders == Given(options.requestHeaders, 0) && r.service == Given(options.service, "")
  {
    r, mask := ReplaceRecord(0, 0, ""), {};
    if options.requestHeaders.Some? {
      r := r.(requestHeaders := options.requestHeaders.value);
      mask := mask + {R_REQUEST_HEADERS};
    }
    r := r.(strategy := StrategyCode(options.strategy));
    mask := mask + {R_REPLACE_STRATEGY};
    if options.service.Some? {
      r := r.(service := options.service.value);
      mask := mask + {R_SERVICE};
    }
    if options.alwaysRange {
      mask := mask + {R_ALWAYS_USE_REQUESTED_RANGE};
    }
  }
}

/** `Body` and `StreamingBody`: the 512-byte put and get areas in front of a host body. Every method adds the
    events it performed to a ghost log, and an object is valid only while the log explains its fields, so each
    theorem of module StreamLog about logs is a theorem about every object that these methods can build. */
module Bodies {
  import opened Basics
  import opened HostIo
  import opened StreamLog
  import opened ReadRuns

  /** `traits_type::eof()`. */
  const EOF: int := -1

  /** A byte read as a plain, signed `char`. */
  function SignedChar(b: byte): (c: int)
    ensures -128 <= c < 128 && (c == b as int || c + 256 == b as int)
    ensures c == EOF <==> b == 0xFF
  {
    if b < 128 then b as int else b as int - 256
  }

  /** `to_char_type`. */
  function ToChar(i: int): byte {
    (i % 256) as byte
  }

  lemma ToCharUndoes(b: byte)
    ensures ToChar(b as int) == b
  {
  }

  lemma ConsumeTakes(log: Log<byte>)
    requires Run(log).view.unread != []
    ensures var v := Run(log).view; Run(Then(log, Consume)).view == v.(unread := v.unread[1..])
  {
  }

  /** The loop both `overflow` functions share: offer the rest of the buffer to the host until it is all gone
      or the host answers with a zero-length write. The out-parameter `full` is false in the second case; a
      host error ends the process. */
  method DrainLoop(pbuf: array<byte>, len: nat, bod: HostBody)
    returns (full: Outcome<bool>, ghost accepted: nat)
    requires len <= pbuf.Length
    modifies bod
    ensures accepted <= len && bod.queue == old(bod.queue) + pbuf[..accepted]
    ensures full.Returned? ==> (full.value <==> accepted == len)
    ensures old(bod.calls) <= bod.calls && Drained(bod.calls[|old(bod.calls)|..], pbuf[..len], accepted, full)
    ensures bod.failures == old(bod.failures) + if full.Aborted? then 1 else 0
    ensures bod.refusals == old(bod.refusals) + if full == Returned(false) then 1 else 0
  {
    var pos := 0;
    ghost var before, q, data := bod.calls, bod.queue, pbuf[..len];
    ghost var made: seq<HostCall> := [];
    while pos < len
      invariant pos <= len && bod.queue == q + data[..pos]
      invariant bod.calls == before + made && Offers(made, data, pos)
      invariant bod.failures == old(bod.failures) && bod.refusals == old(bod.refusals)
      decreases len - pos
    {
      accepted := pos;
      var written;
      written, made := Offer(pbuf, pos, len, bod, data, q, before, made);
      if written.Err? {
        BehindPrefix(before, made);
        return Aborted, accepted;
      }
      if written.value == 0 {
        BehindPrefix(before, made);
        return Returned(false), accepted;
      }
      pos := pos + written.value;
    }
    assert data[..len] == data;
    BehindPrefix(before, made);
    return Returned(true), len;
  }

  /** One write of the loop, of what is left of the buffer, after the calls `made`. */
  method Offer(pbuf: array<byte>, pos: nat, len: nat, bod: HostBody, ghost data: seq<byte>, ghost q: seq<byte>,
               ghost before: seq<HostCall>, ghost made: seq<HostCall>)
    returns (written: Result<nat, HostError>, ghost made': seq<HostCall>)
    requires pos < len <= pbuf.Length && data == pbuf[..len] && bod.queue == q + data[..pos]
    requires bod.calls == before + made && Offers(made, data, pos)
    modifies bod
    ensures bod.calls == before + made'
    ensures written.Ok? ==> pos + written.value <= len && bod.queue == q + data[..pos + written.value]
    ensures written.Ok? && written.value > 0 ==> Offers(made', data, pos + written.value)
    ensures written == Ok(0) ==> Drained(made', data, pos, Returned(false))
    ensures written.Err? ==> bod.queue == q + data[..pos] && Drained(made', data, pos, Aborted)
    ensures bod.failures == old(bod.failures) + if written.Err? then 1 else 0
    ensures bod.refusals == old(bod.refusals) + if written == Ok(0) then 1 else 0
  {
    written := WriteRest(pbuf, pos, len, bod, data);
    ghost var call := Offered(data[pos..], written);
    made' := made + [call];
    ConcatAssoc(before, made, [call]);
    if written.Ok? {
      ExtendSlice(q, data, pos, written.value);
    }
    if written.Ok? && written.value > 0 {
      OffersNext(made, data, pos, written.value);
    } else {
      OffersEnd(made, data, pos, written);
    }
  }

  method WriteRest(pbuf: array<byte>, pos: nat, len: nat, bod: HostBody, ghost data: seq<byte>)
    returns (written: Result<nat, HostError>)
    requires pos < len <= pbuf.Length && data == pbuf[..len]
    modifies bod
    ensures bod.calls == old(bod.calls) + [Offered(data[pos..], written)]
    ensures written.Ok? ==>
      pos + written.value <= len && bod.queue == old(bod.queue) + data[pos..pos + written.value]
    ensures written.Err? ==> bod.queue == old(bod.queue)
    ensures bod.failures == old(bod.failures) + if written.Err? then 1 else 0
    ensures bod.refusals == old(bod.refusals) + if written == Ok(0) then 1 else 0
  {
    written := bod.Write(pbuf, pos, len);
    assert data[pos..] == pbuf[pos..len];
    assert written.Ok? ==> data[pos..pos + written.value] == pbuf[pos..pos + written.value];
  }

  class Body {
    const pbuf: array<byte>
    const gbuf: array<byte>
    // Offsets of pptr from pbase, and of gptr and egptr from eback.
    var pptr: nat
    var gptr: nat
    var egptr: nat
    /** The host body; null once it was moved out. */
    var bod: HostBody?
    /** The stream the body also is no longer good, so insertions and flushes do nothing. */
    var bad: bool
    ghost var log: Log<byte>

    ghost predicate Areas()
      reads this
    {
      && pbuf.Length == gbuf.Length == CAPACITY && pbuf != gbuf
      && pptr <= CAPACITY && gptr <= egptr <= CAPACITY
    }

    ghost function View(): View<byte>
      requires Areas() && bod != null
      reads this, pbuf, gbuf, bod
    {
      StreamLog.View(gbuf[gptr..egptr], bod.queue, pbuf[..pptr])
    }

    ghost predicate Valid()
      reads this, pbuf, gbuf, bod
    {
      Areas() && bod != null && View() == Run(log).view
    }

    constructor ()
      ensures Valid() && log == Start && !bad && fresh(bod) && fresh(pbuf) && fresh(gbuf)
      ensures bod.failures == bod.refusals == 0
    {
      pbuf, gbuf := new byte[CAPACITY], new byte[CAPACITY];
      pptr, gptr, egptr, bad := 0, 0, 0, false;
      bod := new HostBody();
      log := Start;
    }

    /** A body around a host handle that may already hold bytes. */
    constructor FromHandle(handle: HostBody)
      ensures Valid() && bod == handle && !bad && fresh(pbuf) && fresh(gbuf)
      ensures log == Then(Start, Bypass(handle.queue)) && View() == StreamLog.View([], handle.queue, [])
    {
      pbuf, gbuf := new byte[CAPACITY], new byte[CAPACITY];
      pptr, gptr, egptr, bad := 0, 0, 0, false;
      bod := handle;
      log := Then(Start, Bypass(handle.queue));
    }

    /** `overflow(val)`: drains the put area, then buffers `val` unless it is EOF. Returns `not_eof(val)`, or
        EOF with the put area left as it was when the host stopped accepting. */
    method Overflow(val: int) returns (r: Outcome<int>, ghost accepted: nat)
      requires Areas() && bod != null && EOF <= val < 256
      modifies this`pptr, pbuf, bod
      ensures Areas() && gbuf[..] == old(gbuf[..])
      ensures r.Returned? ==>
        var drained := Drain(old(View()), accepted);
        View() == if Short(old(View()), accepted) || val == EOF then drained
                  else drained.(pending := [val as byte])
      ensures r.Returned? ==>
        r.value == if Short(old(View()), accepted) then EOF else if val == EOF then 0 else val
      ensures old(bod.calls) <= bod.calls
      ensures Drained(bod.calls[|old(bod.calls)|..], old(View()).pending, accepted,
                      if r.Aborted? then Aborted else Returned(r.value != EOF))
      ensures bod.failures == old(bod.failures) + if r.Aborted? then 1 else 0
      ensures bod.refusals == old(bod.refusals) + if r == Returned(EOF) then 1 else 0
    {
      var full: Outcome<bool>;
      ghost var was := View();
      full, accepted := DrainLoop(pbuf, pptr, bod);
      assert pbuf[..accepted] == was.pending[..accepted];
      if full.Aborted? {
        return Aborted, accepted;
      }
      if !full.value {
        return Returned(EOF), accepted;
      }
      pptr := 0;
      if val != EOF {
        StoreAtPptr(val as byte);
      }
      return Returned(if val == EOF then 0 else val), accepted;
    }

    /** `sputc` on a put area with room: what the `sputc` inside `overflow` comes down to. */
    method StoreAtPptr(c: byte)
      requires Areas() && pptr < CAPACITY
      modifies this`pptr, pbuf
      ensures pptr == old(pptr) + 1
      ensures pbuf[..pptr] == old(pbuf[..pptr]) + [c]
    {
      pbuf[pptr] := c;
      pptr := pptr + 1;
    }

    /** `sputc(c)`: returns the byte, or EOF when it was refused. */
    method Sputc(c: byte) returns (r: Outcome<int>, ghost accepted: nat)
      requires Valid()
      modifies this`pptr, this`log, pbuf, bod
      ensures r.Returned? ==> Valid() && log == Then(old(log), Put(c, accepted))
      ensures r.Returned? ==>
        r.value == if Written(old(View()), Put(c, accepted)) == [] then EOF else c as int
      ensures old(pptr) < CAPACITY ==> r.Returned? && bod.calls == old(bod.calls)
      ensures bod.failures == old(bod.failures) + if r.Aborted? then 1 else 0
      ensures bod.refusals == old(bod.refusals) + if r == Returned(EOF) then 1 else 0
    {
      accepted := 0;
      if pptr < CAPACITY {
        StoreAtPptr(c);
        r := Returned(c as int);
      } else {
        r, accepted := Overflow(c as int);
      }
      log := Then(log, Put(c, accepted));
    }

    /** `sync`: -1 when the drain fell short, else 0. */
    method Sync() returns (r: Outcome<int>, ghost accepted: nat)
      requires Valid()
      modifies this`pptr, this`log, pbuf, bod
      ensures Areas() && gbuf[..] == old(gbuf[..])
      ensures r.Returned? ==> Valid() && log == Then(old(log), Flush(accepted))
      ensures r.Returned? ==> r.value == if Short(old(View()), accepted) then -1 else 0
      ensures bod.failures == old(bod.failures) + if r.Aborted? then 1 else 0
      ensures bod.refusals == old(bod.refusals) + if r == Returned(-1) then 1 else 0
    {
      var o: Outcome<int>;
      o, accepted := Overflow(EOF);
      if o.Aborted? {
        return Aborted, accepted;
      }
      log := Then(log, Flush(accepted));
      return Returned(if o.value == EOF then -1 else 0), accepted;
    }

    /** `std::flush`: does nothing at all on a stream that is already bad. */
    method FlushStream() returns (r: Outcome<()>, ghost accepted: nat)
      requires Valid()
      modifies this`pptr, this`log, this`bad, pbuf, bod
      ensures old(bad) ==> r.Returned? && Valid() && bad && log == old(log) && View() == old(View())
      ensures r.Returned? ==> Valid()
      ensures r.Returned? && !old(bad) ==>
        log == Then(old(log), Flush(accepted)) && (bad <==> Short(old(View()), accepted))
      ensures old(bad) ==> bod.calls == old(bod.calls)
      ensures bod.failures == old(bod.failures) + if r.Aborted? then 1 else 0
      ensures bod.refusals == old(bod.refusals) + if r.Returned? && bad && !old(bad) then 1 else 0
    {
      accepted := 0;
      if bad {
        return Returned(()), accepted;
      }
      var v: Outcome<int>;
      v, accepted := Sync();
      if v.Aborted? {
        return Aborted, accepted;
      }
      bad := v.value == -1;
      return Returned(()), accepted;
    }

    /** `*this << s`: puts the bytes one after the other and turns bad at the first one that is refused. */
    method Insert(s: seq<byte>) returns (r: Outcome<()>, ghost tried: nat)
      requires Valid()
      modifies this`pptr, this`log, this`bad, pbuf, bod
      ensures old(bad) ==> r.Returned? && Valid() && bad && log == old(log) && View() == old(View())
      ensures r.Returned? ==> Valid() && tried <= |s| && Puts(old(log), log, s[..tried])
      ensures r.Returned? && !bad ==> Run(log).written == Run(old(log)).written + s
      ensures r.Returned? && !old(bad) && bad ==>
        0 < tried && Run(log).written == Run(old(log)).written + s[..tried - 1]
      ensures r.Returned? && !bad && Unbroken(old(log)) ==> Unbroken(log)
      ensures r.Returned? && !old(bad) && bad && Unbroken(old(log)) ==> RefusedAfter(log)
      ensures old(bad) ==> bod.calls == old(bod.calls)
      ensures bod.failures == old(bod.failures) + if r.Aborted? then 1 else 0
      ensures bod.refusals == old(bod.refusals) + if r.Returned? && bad && !old(bad) then 1 else 0
    {
      tried := 0;
      if bad {
        return Returned(()), tried;
      }
      ghost var start, before := log, Run(log).written;
      var i := 0;
      while i < |s|
        invariant Valid() && !bad && i <= |s|
        invariant Puts(start, log, s[..i])
        invariant Run(log).written == before + s[..i]
        invariant Unbroken(start) ==> Unbroken(log)
        invariant bod.failures == old(bod.failures) && bod.refusals == old(bod.refusals)
      {
        var o: Outcome<int>;
        ghost var accepted;
        o, accepted := Sputc(s[i]);
        tried := i + 1;
        if o.Aborted? {
          return Aborted, tried;
        }
        assert s[..tried][..i] == s[..i];
        if o.value == EOF {
          bad := true;
          assert Unbroken(start) ==> RefusedAfter(log);
          return Returned(()), tried;
        }
        ExtendTake(before, s, i);
        i := i + 1;
      }
      tried := i;
      assert s[..i] == s;
      return Returned(()), tried;
    }

    /** `underflow`: refills an empty get area, and returns its first byte as a plain `char`. */
    method Underflow() returns (r: Outcome<int>, ghost n: nat)
      requires Valid()
      modifies this`gptr, this`egptr, this`log, gbuf, bod
      ensures r.Returned? ==> Valid() && Refilling(old(log), log, n)
      ensures r.Returned? ==> r.value == if gptr == egptr then EOF else SignedChar(gbuf[gptr])
      ensures old(gptr < egptr) ==> bod.calls == old(bod.calls)
      ensures old(gptr == egptr) ==> AskedOnce(old(bod.calls), bod.calls, n, r.Aborted?)
      ensures bod.failures == old(bod.failures) + if r.Aborted? then 1 else 0
      ensures bod.refusals == old(bod.refusals)
    {
      n := 0;
      ghost var was := View();
      if gptr == egptr {
        var read := bod.Read(gbuf, CAPACITY);
        if read.Err? {
          return Aborted, n;
        }
        if read.value == 0 {
          return Returned(EOF), n;
        }
        gptr, egptr, n := 0, read.value, read.value;
        assert gbuf[gptr..egptr] == was.queue[..n];
        log := Then(log, Refill(n));
      }
      return Returned(SignedChar(gbuf[gptr])), n;
    }

    /** `sgetc`: the next byte as an unsigned value, except that a refill answers through `underflow`. */
    method Sgetc() returns (r: Outcome<int>, ghost n: nat)
      requires Valid()
      modifies this`gptr, this`egptr, this`log, gbuf, bod
      ensures r.Returned? ==> Valid() && Refilling(old(log), log, n)
      ensures r.Returned? ==>
        r.value == if gptr == egptr then EOF
                   else if old(gptr < egptr) then gbuf[gptr] as int else SignedChar(gbuf[gptr])
      ensures old(gptr < egptr) ==> r.Returned? && bod.calls == old(bod.calls)
      ensures bod.failures == old(bod.failures) + if r.Aborted? then 1 else 0
      ensures bod.refusals == old(bod.refusals)
    {
      if gptr < egptr {
        return Returned(gbuf[gptr] as int), 0;
      }
      r, n := Underflow();
    }

    /** `sbumpc`: takes the next byte; on an empty get area it goes through the default `uflow`, which takes
        nothing when `underflow` answered EOF. */
    method Sbumpc() returns (r: Outcome<int>, ghost n: nat)
      requires Valid()
      modifies this`gptr, this`egptr, this`log, gbuf, bod
      ensures r.Returned? ==> Valid()
      ensures r.Returned? && r.value == EOF ==>
        && Refilling(old(log), log, n)
        && (gptr == egptr || (log != old(log) && gbuf[gptr] == 0xFF))
      ensures r.Returned? && r.value != EOF ==>
        && log.Then? && log.last == Consume && Refilling(old(log), log.past, n)
        && Run(log.past).view.unread != [] && r.value == Run(log.past).view.unread[0] as int
      ensures old(gptr < egptr) ==> r.Returned? && r.value != EOF && log == Then(old(log), Consume)
      ensures bod.failures == old(bod.failures) + if r.Aborted? then 1 else 0
      ensures bod.refusals == old(bod.refusals)
    {
      n := 0;
      if gptr == egptr {
        var u: Outcome<int>;
        u, n := Underflow();
        if u.Aborted? {
          return Aborted, n;
        }
        if u.value == EOF {
          return Returned(EOF), n;
        }
      }
      var c := gbuf[gptr];
      assert View().unread[0] == c;
      gptr := gptr + 1;
      log := Then(log, Consume);
      return Returned(c as int), n;
    }

    /** The raw `write`: straight to the host, past the put area. */
    method Write(src: array<byte>, size: nat) returns (r: Result<nat, HostError>)
      requires Valid() && size <= src.Length
      modifies this`log, bod
      ensures Valid()
      ensures r.Ok? ==> r.value <= size && log == Then(old(log), Bypass(src[..r.value]))
      ensures r.Err? ==> log == old(log) && View() == old(View())
      ensures bod.calls == old(bod.calls) + [Offered(src[..size], r)]
      ensures bod.failures == old(bod.failures) + if r.Err? then 1 else 0
    {
      r := bod.Write(src, 0, size);
      if r.Ok? {
        log := Then(log, Bypass(src[..r.value]));
      }
    }

    /** The raw `read`: straight from the host, past the get area. */
    method Read(dst: array<byte>, size: nat) returns (r: Result<nat, HostError>)
      requires Valid() && size <= dst.Length && dst != pbuf && dst != gbuf
      modifies this`log, bod, dst
      ensures Valid()
      ensures r.Ok? ==>
        && r.value <= size && (r.value == 0 ==> size == 0 || old(bod.queue) == [])
        && log == Then(old(log), RawRead(r.value))
        && r.value <= |old(bod.queue)|
        && dst[..] == old(bod.queue)[..r.value] + old(dst[..])[r.value..]
      ensures r.Err? ==> log == old(log) && View() == old(View()) && dst[..] == old(dst[..])
      ensures bod.calls == old(bod.calls) + [Asked(size, r)]
      ensures bod.failures == old(bod.failures) + if r.Err? then 1 else 0
    {
      r := bod.Read(dst, size);
      if r.Ok? {
        log := Then(log, RawRead(r.value));
      }
    }

    /** The move constructor: the old body is synced and that result ignored; the new one takes over the host
        body and the get area, with its get pointers at the same offsets in its own array. */
    static method MoveFrom(other: Body) returns (r: Outcome<Body>, ghost accepted: nat)
      requires other.Valid()
      modifies other, other.pbuf, other.bod
      ensures r.Returned? ==>
        var b := r.value;
        && fresh(b) && fresh(b.pbuf) && fresh(b.gbuf) && b.Valid() && !b.bad
        && b.bod == old(other.bod) && other.bod == null
        && b.log == Then(old(other.log), Move(accepted))
      ensures old(other.bod).failures == old(other.bod.failures) + if r.Aborted? then 1 else 0
    {
      ghost var log := other.log;
      var s: Outcome<int>;
      s, accepted := other.Sync();
      if s.Aborted? {
        return Aborted, accepted;
      }
      var b := new Body.Rebased(other);
      b.log := Then(log, Move(accepted));
      other.bod := null;
      return Returned(b), accepted;
    }

    /** The memberwise part of the move: both arrays copied, the get pointers rebased, the put area emptied. */
    constructor Rebased(other: Body)
      requires other.Areas() && other.bod != null
      ensures Areas() && bod == other.bod && !bad
      ensures fresh(pbuf) && fresh(gbuf)
      ensures View() == other.View().(pending := [])
      ensures pbuf[..] == other.pbuf[..] && gbuf[..] == other.gbuf[..]
    {
      var p, g := new byte[CAPACITY], new byte[CAPACITY];
      forall i | 0 <= i < CAPACITY {
        p[i] := other.pbuf[i];
      }
      forall i | 0 <= i < CAPACITY {
        g[i] := other.gbuf[i];
      }
      pbuf, gbuf := p, g;
      gptr, egptr, pptr := other.gptr, other.egptr, 0;
      bod, bad := other.bod, false;
      log := Start;
      new;
      assert gbuf[gptr..egptr] == other.gbuf[gptr..egptr];
    }

    /** `append(Body other)`: flushes the argument, then splices its host body onto this one. Bytes still
        buffered here stay behind the appended ones; the argument's get area is dropped with it. */
    method Append(other: Body) returns (r: Outcome<()>, ghost accepted: nat)
      requires Valid() && other.Valid() && other != this
      requires other.bod != bod && {other.pbuf, other.gbuf} !! {pbuf, gbuf}
      modifies this`log, bod, other, other.pbuf, other.bod
      ensures r.Returned? ==> Valid() && other.bod == null
      ensures r.Returned? ==>
        other.log == if old(other.bad) then old(other.log) else Then(old(other.log), Flush(accepted))
      ensures r.Returned? ==> log == Then(old(log), Bypass(Run(other.log).view.queue))
      ensures old(other.bod).failures == old(other.bod.failures) + if r.Aborted? then 1 else 0
      ensures bod.failures == old(bod.failures)
    {
      r, accepted := other.FlushStream();
      if r.Aborted? {
        return;
      }
      ghost var data := other.bod.queue;
      bod.Append(other.bod);
      other.bod := null;
      log := Then(log, Bypass(data));
    }

    /** `Body(std::string)`: a new body, the string inserted, and a flush. */
    static method FromString(s: seq<byte>) returns (r: Outcome<Body>, ghost host: HostBody)
      ensures fresh(host) && host.failures == if r.Aborted? then 1 else 0
      ensures r.Returned? ==>
        var b := r.value;
        && fresh(b) && fresh(b.pbuf) && fresh(b.gbuf) && b.Valid() && fresh(b.bod)
        && b.View().unread == [] && Run(b.log).written <= s
        && (!b.bad ==> Unbroken(b.log) && Run(b.log).written == s && b.View() == StreamLog.View([], s, []))
        && (b.bad ==> |b.View().queue| < |s|)
        && b.bod == host && (b.bad <==> host.refusals > 0)
    {
      var b := new Body();
      host := b.bod;
      var o: Outcome<()>;
      ghost var tried, accepted;
      o, tried := b.Insert(s);
      if o.Aborted? {
        return Aborted, host;
      }
      ghost var inserted := b.log;
      ghost var refused := b.bad;
      InsertedPart(inserted, s, tried);
      o, accepted := b.FlushStream();
      if o.Aborted? {
        return Aborted, host;
      }
      if !b.bad {
        FlushedString(inserted, s, tried, accepted);
      } else if refused {
        RefusedShort(inserted, s, tried);
      } else {
        FlushedShort(inserted, s, tried, accepted);
      }
      return Returned(b), host;
    }

    /** `*first` and `++first` of an `istreambuf_iterator` with a byte in the get area. */
    method DerefAndAdvance() returns (r: Outcome<byte>)
      requires Valid() && View().unread != []
      modifies this`gptr, this`egptr, this`log, gbuf, bod
      ensures r.Returned? ==> Valid() && r.value == old(View()).unread[0]
      ensures r.Returned? ==> View() == old(View()).(unread := old(View()).unread[1..])
      ensures r.Returned? && bod.failures == old(bod.failures) && bod.refusals == old(bod.refusals)
    {
      var deref, bump: Outcome<int>;
      ghost var n;
      assert View().unread[0] == gbuf[gptr];
      ghost var was := log;
      deref, n := Sgetc();
      assert log == was;
      bump, n := Sbumpc();
      ConsumeTakes(was);
      ToCharUndoes(Run(was).view.unread[0]);
      return Returned(ToChar(deref.value));
    }

    /** One turn of the loop that copies an `istreambuf_iterator` range: the comparison with the end iterator
        and the dereference are `sgetc`s, the increment is an `sbumpc`. */
    method TakeOne() returns (r: Outcome<Option<byte>>, ghost n: nat)
      requires Valid()
      modifies this`gptr, this`egptr, this`log, gbuf, bod
      ensures r.Returned? ==> Valid() && Refillable(old(View()), n)
      ensures r.Returned? ==> TookOne(old(View()), View(), n, r.value)
      ensures bod.failures == old(bod.failures) + if r.Aborted? then 1 else 0
      ensures bod.refusals == old(bod.refusals)
    {
      var test: Outcome<int>;
      ghost var was := View();
      test, n := Sgetc();
      if test.Aborted? {
        return Aborted, n;
      }
      assert View() == Refilled(was, n);
      assert gptr < egptr ==> View().unread[0] == gbuf[gptr];
      if test.value == EOF {
        return Returned(None), n;
      }
      var c := DerefAndAdvance();
      return if c.Aborted? then Aborted else Returned(Some(c.value)), n;
    }

    /** `take_body_string`. */
    method TakeBodyString() returns (r: Outcome<seq<byte>>, ghost refills: seq<seq<byte>>)
      requires Valid()
      modifies this`gptr, this`egptr, this`log, gbuf, bod
      ensures r.Returned? ==> Valid() && ReadRun(refills, old(View()).queue)
      ensures r.Returned? ==> r.value == old(View()).unread + Taken(refills)
      ensures r.Returned? ==> r.value + View().unread + View().queue == old(View()).unread + old(View()).queue
      ensures bod.failures == old(bod.failures) + if r.Aborted? then 1 else 0
      ensures bod.refusals == old(bod.refusals)
    {
      var res: seq<byte> := [];
      refills := [];
      ghost var v := View();
      ghost var u0, q0 := v.unread, v.queue;
      while true
        invariant Valid() && v == View()
        invariant Reading(res, v, refills, u0, q0)
        invariant bod.failures == old(bod.failures) && bod.refusals == old(bod.refusals)
        decreases |v.unread| + |v.queue|
      {
        var o: Outcome<Option<byte>>;
        ghost var n;
        o, n := TakeOne();
        if o.Aborted? {
          return Aborted, refills;
        }
        if o.value.None? {
          refills := ReadingEnds(res, v, View(), refills, u0, q0, n);
          return Returned(res), refills;
        }
        refills := ReadingGoesOn(res, v, View(), refills, u0, q0, n, o.value.value);
        res := res + [o.value.value];
        v := View();
      }
    }

    /** The string round trip of the tests: build a body from a string and take it back. The result is the whole
        string exactly if the stream did not go bad and no refill started with 0xFF. */
    static method StringRoundTrip(s: seq<byte>)
      returns (r: Outcome<seq<byte>>, bad: bool, ghost refills: seq<seq<byte>>, ghost host: HostBody)
      ensures fresh(host) && host.failures == if r.Aborted? then 1 else 0
      ensures r.Returned? ==> (bad <==> host.refusals > 0)
      ensures r.Returned? && !bad ==> ReadRun(refills, s) && r.value == Taken(refills)
      ensures r.Returned? ==> (r.value == s <==> !bad && forall c :: c in refills ==> !LooksLikeEof(c))
      ensures r.Returned? && bad ==> |r.value| < |s|
      ensures r.Returned? && !bad && 0xFF !in s ==> r.value == s
    {
      bad, refills := true, [];
      var made: Outcome<Body>;
      made, host := FromString(s);
      if made.Aborted? {
        return Aborted, bad, refills, host;
      }
      var b := made.value;
      bad := b.bad;
      r, refills := b.TakeBodyString();
      if r.Returned? && !bad {
        TakenAllExact(refills, s);
        if 0xFF !in s {
          SafeContentExact(s);
        }
      }
    }
  }

  /** The write-only body of an insertion or of a streamed request. Its put side is that of `Body`; it has no
      get area, so its logs never refill or consume. */
  class StreamingBody {
    const pbuf: array<byte>
    var pptr: nat
    var bod: HostBody?
    var bad: bool
    ghost var log: Log<byte>

    ghost function View(): View<byte>
      requires pptr <= pbuf.Length && bod != null
      reads this, pbuf, bod
    {
      StreamLog.View([], bod.queue, pbuf[..pptr])
    }

    ghost predicate Valid()
      reads this, pbuf, bod
    {
      pbuf.Length == CAPACITY && pptr <= CAPACITY && bod != null && View() == Run(log).view
    }

    constructor FromHandle(handle: HostBody)
      ensures Valid() && bod == handle && !bad && fresh(pbuf)
      ensures log == Then(Start, Bypass(handle.queue)) && View() == StreamLog.View([], handle.queue, [])
    {
      pbuf, pptr, bad, bod := new byte[CAPACITY], 0, false, handle;
      log := Then(Start, Bypass(handle.queue));
    }

    method Overflow(val: int) returns (r: Outcome<int>, ghost accepted: nat)
      requires pbuf.Length == CAPACITY && pptr <= CAPACITY && bod != null && EOF <= val < 256
      modifies this`pptr, pbuf, bod
      ensures pptr <= CAPACITY
      ensures r.Returned? ==>
        var drained := Drain(old(View()), accepted);
        View() == if Short(old(View()), accepted) || val == EOF then drained
                  else drained.(pending := [val as byte])
      ensures r.Returned? ==>
        r.value == if Short(old(View()), accepted) then EOF else if val == EOF then 0 else val
      ensures old(bod.calls) <= bod.calls
      ensures Drained(bod.calls[|old(bod.calls)|..], old(View()).pending, accepted,
                      if r.Aborted? then Aborted else Returned(r.value != EOF))
      ensures bod.failures == old(bod.failures) + if r.Aborted? then 1 else 0
      ensures bod.refusals == old(bod.refusals) + if r == Returned(EOF) then 1 else 0
    {
      var full: Outcome<bool>;
      ghost var was := View();
      full, accepted := DrainLoop(pbuf, pptr, bod);
      assert pbuf[..accepted] == was.pending[..accepted];
      if full.Aborted? {
        return Aborted, accepted;
      }
      if !full.value {
        return Returned(EOF), accepted;
      }
      pptr := 0;
      if val != EOF {
        pbuf[0] := val as byte;
        pptr := 1;
      }
      return Returned(if val == EOF then 0 else val), accepted;
    }

    method Sputc(c: byte) returns (r: Outcome<int>, ghost accepted: nat)
      requires Valid()
      modifies this`pptr, this`log, pbuf, bod
      ensures r.Returned? ==> Valid() && log == Then(old(log), Put(c, accepted))
      ensures r.Returned? ==>
        r.value == if Written(old(View()), Put(c, accepted)) == [] then EOF else c as int
      ensures old(pptr) < CAPACITY ==> r.Returned? && bod.calls == old(bod.calls)
      ensures bod.failures == old(bod.failures) + if r.Aborted? then 1 else 0
      ensures bod.refusals == old(bod.refusals) + if r == Returned(EOF) then 1 else 0
    {
      accepted := 0;
      if pptr < CAPACITY {
        pbuf[pptr] := c;
        pptr := pptr + 1;
        r := Returned(c as int);
      } else {
        r, accepted := Overflow(c as int);
      }
      log := Then(log, Put(c, accepted));
    }

    method Sync() returns (r: Outcome<int>, ghost accepted: nat)
      requires Valid()
      modifies this`pptr, this`log, pbuf, bod
      ensures r.Returned? ==> Valid() && log == Then(old(log), Flush(accepted))
      ensures r.Returned? ==> r.value == if Short(old(View()), accepted) then -1 else 0
      ensures bod.failures == old(bod.failures) + if r.Aborted? then 1 else 0
      ensures bod.refusals == old(bod.refusals) + if r == Returned(-1) then 1 else 0
    {
      var o: Outcome<int>;
      o, accepted := Overflow(EOF);
      if o.Aborted? {
        return Aborted, accepted;
      }
      log := Then(log, Flush(accepted));
      return Returned(if o.value == EOF then -1 else 0), accepted;
    }

    method FlushStream() returns (r: Outcome<()>, ghost accepted: nat)
      requires Valid()
      modifies this`pptr, this`log, this`bad, pbuf, bod
      ensures old(bad) ==> r.Returned? && Valid() && bad && log == old(log) && View() == old(View())
      ensures r.Returned? ==> Valid()
      ensures r.Returned? && !old(bad) ==>
        log == Then(old(log), Flush(accepted)) && (bad <==> Short(old(View()), accepted))
      ensures old(bad) ==> bod.calls == old(bod.calls)
      ensures bod.failures == old(bod.failures) + if r.Aborted? then 1 else 0
      ensures bod.refusals == old(bod.refusals) + if r.Returned? && bad && !old(bad) then 1 else 0
    {
      accepted := 0;
      if bad {
        return Returned(()), accepted;
      }
      var v: Outcome<int>;
      v, accepted := Sync();
      if v.Aborted? {
        return Aborted, accepted;
      }
      bad := v.value == -1;
      return Returned(()), accepted;
    }

    method Write(src: array<byte>, size: nat) returns (r: Result<nat, HostError>)
      requires Valid() && size <= src.Length
      modifies this`log, bod
      ensures Valid()
      ensures r.Ok? ==> r.value <= size && log == Then(old(log), Bypass(src[..r.value]))
      ensures r.Err? ==> log == old(log) && View() == old(View())
      ensures bod.calls == old(bod.calls) + [Offered(src[..size], r)]
      ensures bod.failures == old(bod.failures) + if r.Err? then 1 else 0
    {
      r := bod.Write(src, 0, size);
      if r.Ok? {
        log := Then(log, Bypass(src[..r.value]));
      }
    }

    /** `append(Body other)`: unlike `Body::append` it does not flush the argument, so what the argument still
        has buffered is dropped along with its get area. */
    method Append(other: Body)
      requires Valid() && other.Valid() && other.bod != bod && other.pbuf != pbuf && other.gbuf != pbuf
      modifies this`log, bod, other`bod
      ensures Valid() && other.bod == null
      ensures log == Then(old(log), Bypass(old(other.View()).queue))
      ensures bod.calls == old(bod.calls) + [Spliced(old(other.View()).queue)] && bod.failures == old(bod.failures)
    {
      ghost var data := other.bod.queue;
      bod.Append(other.bod);
      other.bod := null;
      log := Then(log, Bypass(data));
    }

    /** `finish`: flushes, then ends the host body whatever the flush did. The receiver gets `sent`. */
    method Finish() returns (r: Outcome<Result<(), HostError>>, ghost accepted: nat, ghost sent: seq<byte>)
      requires Valid()
      modifies this, pbuf, bod
      ensures r.Returned? ==> bod == null && sent == old(bod).queue == Run(log).view.queue
      ensures r.Returned? ==> log == if old(bad) then old(log) else Then(old(log), Flush(accepted))
      ensures r.Returned? ==>
        (sent == old(View()).Total() <==>
         old(View()).pending == [] || (!old(bad) && !Short(old(View()), accepted)))
      ensures r.Returned? ==>
        old(bod).calls != [] && old(bod).calls[|old(bod).calls| - 1] == Ended(r.value)
      ensures r.Returned? && old(bad) ==> old(bod).calls == old(bod.calls) + [Ended(r.value)]
      ensures old(bod).failures == old(bod.failures) + if r.Aborted? then 1 else 0
    {
      ghost var was, before := View(), log;
      var flushed: Outcome<()>;
      flushed, accepted := FlushStream();
      sent := bod.queue;
      if flushed.Aborted? {
        return Aborted, accepted, sent;
      }
      assert |was.Total()| == |was.queue| + |was.pending|;
      var ended := bod.Finish();
      bod := null;
      return Returned(ended), accepted, sent;
    }

    /** The move constructor of a streaming body. */
    static method MoveFrom(other: StreamingBody) returns (r: Outcome<StreamingBody>, ghost accepted: nat)
      requires other.Valid()
      modifies other, other.pbuf, other.bod
      ensures r.Returned? ==>
        var b := r.value;
        && fresh(b) && fresh(b.pbuf) && b.Valid() && !b.bad
        && b.bod == old(other.bod) && other.bod == null
        && b.log == Then(old(other.log), Move(accepted))
      ensures old(other.bod).failures == old(other.bod.failures) + if r.Aborted? then 1 else 0
    {
      ghost var log := other.log;
      var s: Outcome<int>;
      s, accepted := other.Sync();
      if s.Aborted? {
        return Aborted, accepted;
      }
      ghost var synced := other.View();
      var b := new StreamingBody.FromHandle(other.bod);
      assert b.View() == synced.(pending := []);
      b.log := Then(log, Move(accepted));
      other.bod := null;
      return Returned(b), accepted;
    }
  }

  /** The way of a cache entry into the cache: its body is moved into the closure, into `CacheEntry` and into
      the parameter of `append`, spliced onto the insertion's streaming body, and that is finished. What had been
      read into the entry's get area never reaches the host; the rest of what the entry holds reaches it exactly
      when the first move's drain did not fall short, and so everything does when, besides, nothing had been. */
  method DeliverEntry(entry: Body, moves: nat, target: StreamingBody)
    returns (r: Outcome<Result<(), HostError>>, ghost first: nat, ghost sent: seq<byte>)
    requires entry.Valid() && target.Valid() && entry.bod != target.bod && moves > 0
    requires entry.pbuf != target.pbuf && entry.gbuf != target.pbuf
    requires target.View() == StreamLog.View([], [], [])
    modifies entry, entry.pbuf, entry.bod, target, target.pbuf, target.bod
    ensures r.Returned? ==>
      (sent == old(entry.View()).queue + old(entry.View()).pending <==> !Short(old(entry.View()), first))
    ensures r.Returned? ==> sent == Drain(old(entry.View()), first).queue
    ensures r.Returned? ==>
      (sent == old(entry.View()).Total() <==> old(entry.View()).unread == [] && !Short(old(entry.View()), first))
    ensures r.Returned? ==> old(target.bod).calls != [] &&
                            old(target.bod).calls[|old(target.bod).calls| - 1] == Ended(r.value)
    ensures old(entry.bod).failures + old(target.bod).failures ==
            old(entry.bod.failures) + old(target.bod.failures) + if r.Aborted? then 1 else 0
  {
    ghost var was := entry.View();
    sent := [];
    var moved: Outcome<Body>;
    moved, first := MoveTimes(entry, moves);
    if moved.Aborted? {
      return Aborted, first, sent;
    }
    assert moved.value.View().queue == Drain(was, first).queue;
    r, sent := AppendAndFinish(moved.value, target);
    assert r.Returned? ==> sent == Drain(was, first).queue;
    DrainedExact(was, first);
  }

  /** The end of the way: the entry's host body spliced onto the empty insertion, and that finished. */
  method AppendAndFinish(b: Body, target: StreamingBody)
    returns (r: Outcome<Result<(), HostError>>, ghost sent: seq<byte>)
    requires b.Valid() && target.Valid() && b.bod != target.bod
    requires b.pbuf != target.pbuf && b.gbuf != target.pbuf && target.View() == StreamLog.View([], [], [])
    modifies b`bod, target, target.pbuf, target.bod
    ensures r.Returned? ==> sent == old(b.View()).queue
    ensures r.Returned? ==> old(target.bod).calls != [] &&
                            old(target.bod).calls[|old(target.bod).calls| - 1] == Ended(r.value)
    ensures old(target.bod).failures == old(target.bod.failures) + if r.Aborted? then 1 else 0
  {
    target.Append(b);
    ghost var accepted;
    r, accepted, sent := target.Finish();
  }

  /** Any number of moves, one after the other: the first drains the body, the others find nothing to drain. */
  method MoveTimes(entry: Body, moves: nat) returns (r: Outcome<Body>, ghost first: nat)
    requires entry.Valid() && moves > 0
    modifies entry, entry.pbuf, entry.bod
    ensures r.Returned? ==>
      var b := r.value;
      && fresh(b) && fresh(b.pbuf) && fresh(b.gbuf) && b.Valid() && b.bod == old(entry.bod)
      && b.View() == Apply(old(entry.View()), Move(first))
    ensures old(entry.bod).failures == old(entry.bod.failures) + if r.Aborted? then 1 else 0
  {
    r, first := Body.MoveFrom(entry);
    if r.Aborted? {
      return;
    }
    var b := r.value;
    ghost var kept := b.View();
    var i := 1;
    while i < moves
      invariant fresh(b) && fresh(b.pbuf) && fresh(b.gbuf) && b.bod == old(entry.bod)
      invariant b.Valid() && b.View() == kept && kept.pending == []
      invariant b.bod.failures == old(entry.bod.failures)
    {
      ghost var accepted;
      r, accepted := Body.MoveFrom(b);
      if r.Aborted? {
        return;
      }
      b := r.value;
      i := i + 1;
    }
    r := Returned(b);
  }

  lemma DrainedExact(v: View<byte>, accepted: nat)
    ensures Drain(v, accepted).queue == v.queue + v.pending <==> !Short(v, accepted)
    ensures Drain(v, accepted).queue == v.Total() <==> v.unread == [] && !Short(v, accepted)
  {
    AppendsAllExact(v, false, accepted);
    assert |Drain(v, accepted).queue| == |v.queue + v.pending| <==> !Short(v, accepted);
  }

  /** Putting a string reads nothing. */
  lemma InsertedPart(log: Log<byte>, s: seq<byte>, tried: nat)
    requires tried <= |s| && Puts(Start, log, s[..tried])
    ensures Run(log).got == [] && Run(log).view.unread == []
  {
    PutsReadNothing(Start, log, s[..tried]);
  }

  /** The run was unbroken until a put was refused. */
  ghost predicate RefusedAfter(log: Log<byte>) {
    && log.Then? && Unbroken(log.past) && log.last.Put?
    && NeedsDrain(Run(log.past).view) && Short(Run(log.past).view, log.last.accepted)
  }

  lemma HeldBehind(h: History<byte>, accepted: nat)
    requires Faithful(h) && h.got == [] && h.view.unread == [] && Short(h.view, accepted)
    ensures |Drain(h.view, accepted).queue| < |h.written|
  {
    assert |h.written| == |h.view.queue| + |h.view.pending|;
  }

  /** When a put was refused, the host holds less than was written, and that is less than the string. */
  lemma RefusedShort(log: Log<byte>, s: seq<byte>, tried: nat)
    requires 0 < tried <= |s| && Puts(Start, log, s[..tried]) && RefusedAfter(log)
    ensures |Run(log).view.queue| < |s|
  {
    var before := Run(log.past);
    assert s[..tried][..tried - 1] == s[..tried - 1];
    InsertedPart(log.past, s, tried - 1);
    WrittenAtMost(log.past, s[..tried - 1]);
    Conservation(log.past);
    HeldBehind(before, log.last.accepted);
    assert Run(log).view.queue == Drain(before.view, log.last.accepted).queue;
  }

  lemma {:induction false} WrittenAtMost(log: Log<byte>, s: seq<byte>)
    requires Puts(Start, log, s)
    ensures |Run(log).written| <= |s|
  {
    if s != [] {
      WrittenAtMost(log.past, s[..|s| - 1]);
    }
  }

  /** When the flush of the whole string fell short, the host holds less than the string. */
  lemma FlushedShort(log: Log<byte>, s: seq<byte>, tried: nat, accepted: nat)
    requires tried <= |s| && Puts(Start, log, s[..tried])
    requires Unbroken(log) && Run(log).written == s && Short(Run(log).view, accepted)
    ensures |Run(Then(log, Flush(accepted))).view.queue| < |s|
  {
    InsertedPart(log, s, tried);
    Conservation(log);
    HeldBehind(Run(log), accepted);
  }

  /** After all of a string was put in an unbroken run, a flush in full hands it to the host. */
  lemma FlushedString(log: Log<byte>, s: seq<byte>, tried: nat, accepted: nat)
    requires tried <= |s| && Puts(Start, log, s[..tried])
    requires Unbroken(log) && Run(log).written == s && !Short(Run(log).view, accepted)
    ensures var flushed := Then(log, Flush(accepted));
            Unbroken(flushed) && Run(flushed).written == s && Run(flushed).view == StreamLog.View([], s, [])
  {
    InsertedPart(log, s, tried);
    Conservation(log);
    FlushedWhole(Run(log), accepted);
  }

  lemma FlushedWhole(h: History<byte>, accepted: nat)
    requires Faithful(h) && h.got == [] && h.view.unread == [] && !Short(h.view, accepted)
    ensures Drain(h.view, accepted) == StreamLog.View([], h.written, [])
  {
  }

  /** The host was asked once, for a buffer full: it failed exactly if the process ended, and else gave `n`. */
  ghost predicate AskedOnce(before: seq<HostCall>, after: seq<HostCall>, n: nat, aborted: bool) {
    && |after| == |before| + 1 && before <= after
    && var call := after[|before|];
    && call.Asked? && call.max == 512
    && if aborted then call.got.Err? else call.got == Ok(n)
  }

  ghost predicate NeedsRefill(v: View<byte>) {
    v.unread == [] && v.queue != []
  }

  ghost function Refilled(v: View<byte>, n: nat): View<byte> {
    if NeedsRefill(v) then Apply(v, Refill(n)) else v
  }

  /** The second log is the first one, plus a refill of `n` bytes exactly if there was nothing left to read
      and the host still held something. */
  ghost predicate Refilling(from: Log<byte>, to: Log<byte>, n: nat) {
    if NeedsRefill(Run(from).view)
    then 1 <= n <= CAPACITY && n <= |Run(from).view.queue| && to == Then(from, Refill(n))
    else to == from
  }

  ghost predicate Refillable(v: View<byte>, n: nat) {
    NeedsRefill(v) ==> 1 <= n <= CAPACITY && n <= |v.queue|
  }

  /** One turn of the copying loop: refill if need be, then stop or take a byte. */
  ghost predicate TookOne(v: View<byte>, w: View<byte>, n: nat, got: Option<byte>) {
    var mid := Refilled(v, n);
    if mid.unread == [] || (NeedsRefill(v) && LooksLikeEof(mid.unread)) then got.None? && w == mid
    else got == Some(mid.unread[0]) && w == mid.(unread := mid.unread[1..])
  }

  /** The state of the copying loop: `res` is what was read so far, `refills` how it came in. */
  ghost predicate Reading(res: seq<byte>, v: View<byte>, refills: seq<seq<byte>>, u0: seq<byte>, q0: seq<byte>) {
    && res + v.unread == u0 + Flatten(refills)
    && Flatten(refills) + v.queue == q0
    && Chunks(refills)
  }

  lemma ReadingGoesOn(res: seq<byte>, v: View<byte>, w: View<byte>, refills: seq<seq<byte>>, u0: seq<byte>,
                      q0: seq<byte>, n: nat, got: byte)
    returns (refills': seq<seq<byte>>)
    requires Reading(res, v, refills, u0, q0) && Refillable(v, n) && TookOne(v, w, n, Some(got))
    ensures Reading(res + [got], w, refills', u0, q0)
    ensures |w.unread| + |w.queue| < |v.unread| + |v.queue|
  {
    refills' := refills;
    var mid := Refilled(v, n);
    if NeedsRefill(v) {
      var c := v.queue[..n];
      refills' := refills + [c];
      FlattenSnoc(refills, c);
      ConcatAssoc(u0, Flatten(refills), c);
      ConcatAssoc(Flatten(refills), c, v.queue[n..]);
      assert v.queue == c + v.queue[n..];
      assert res + v.unread == res;
    }
    ConcatAssoc(res, [mid.unread[0]], mid.unread[1..]);
    assert mid.unread == [mid.unread[0]] + mid.unread[1..];
  }

  lemma ReadingEnds(res: seq<byte>, v: View<byte>, w: View<byte>, refills: seq<seq<byte>>, u0: seq<byte>,
                    q0: seq<byte>, n: nat)
    returns (refills': seq<seq<byte>>)
    requires Reading(res, v, refills, u0, q0) && Refillable(v, n) && TookOne(v, w, n, None)
    ensures ReadRun(refills', q0) && res == u0 + Taken(refills')
    ensures res + w.unread + w.queue == u0 + q0
  {
    refills' := refills;
    assert res == u0 + Flatten(refills);
    if NeedsRefill(v) {
      var c := v.queue[..n];
      refills' := refills + [c];
      FlattenSnoc(refills, c);
      assert refills'[..|refills|] == refills;
      assert v.queue == c + v.queue[n..];
      ConcatAssoc(Flatten(refills), c, v.queue[n..]);
      ConcatAssoc(u0, Flatten(refills), v.queue);
      ConcatAssoc(res, c, v.queue[n..]);
    } else if refills != [] {
      assert refills[|refills| - 1] in refills;
    }
  }
}

/** Surrogate keys of the simple cache: SHA-256 (FIPS 180-4) of the cache key, and for the POP scope of the key
    followed by the POP name, in upper-case hexadecimal. The hash function is a parameter. */
module SurrogateKeys {
  import opened Basics
  import opened ListEncoding

  type Digest = d: seq<byte> | |d| == 32 witness seq(32, _ => 0)

  datatype Scope = Pop | Global

  /** What the computation depends on besides its arguments: the hash and the name of this POP. */
  datatype Site = Site(sha: seq<byte> -> Digest, pop: seq<byte>)

  const DIGITS: string := "0123456789ABCDEF"

  /** What a character is worth as an upper-case hexadecimal digit; any other is worth nothing. */
  function Value(c: char): int {
    if '0' <= c <= '9' then c as int - '0' as int
    else if 'A' <= c <= 'F' then c as int - 'A' as int + 10
    else -1
  }

  /** The pair of digits spells the byte, the high digit first. */
  predicate Spells(high: char, low: char, b: byte) {
    0 <= Value(high) < 16 && 0 <= Value(low) < 16 && Value(high) * 16 + Value(low) == b as int
  }

  /** One byte under the format `{b:02X}`. */
  function HexByte(b: byte): (r: string)
    ensures |r| == 2 && Spells(r[0], r[1], b)
  {
    assert forall i :: 0 <= i < 16 ==> Value(DIGITS[i]) == i;
    [DIGITS[b as int / 16], DIGITS[b as int % 16]]
  }

  function Hex(bytes: seq<byte>): string {
    if bytes == [] then "" else HexByte(bytes[0]) + Hex(bytes[1..])
  }

  /** Digits 2i and 2i+1 of the text spell byte i. */
  lemma {:induction false} HexSpells(bytes: seq<byte>, i: nat)
    requires i < |bytes|
    ensures |Hex(bytes)| == 2 * |bytes| && Spells(Hex(bytes)[2 * i], Hex(bytes)[2 * i + 1], bytes[i])
  {
    HexLength(bytes);
    if i == 0 {
      assert Hex(bytes)[..2] == HexByte(bytes[0]);
    } else {
      HexSpells(bytes[1..], i - 1);
      assert Hex(bytes)[2..] == Hex(bytes[1..]);
    }
  }

  lemma {:induction false} HexLength(bytes: seq<byte>)
    ensures |Hex(bytes)| == 2 * |bytes|
  {
    if bytes != [] {
      HexLength(bytes[1..]);
    }
  }

  lemma HexInjective(a: seq<byte>, b: seq<byte>)
    requires Hex(a) == Hex(b)
    ensures a == b
  {
    HexLength(a);
    HexLength(b);
    forall i | 0 <= i < |a| ensures a[i] == b[i] {
      HexSpells(a, i);
      HexSpells(b, i);
    }
  }

  lemma {:induction false} HexPrintable(bytes: seq<byte>)
    ensures forall c :: c in Hex(bytes) ==> '0' <= c <= 'F' && ' ' != c
  {
    if bytes != [] {
      HexPrintable(bytes[1..]);
      assert forall c :: c in HexByte(bytes[0]) ==> c in DIGITS;
    }
  }

  lemma {:induction false} HexSnoc(bytes: seq<byte>, b: byte)
    ensures Hex(bytes + [b]) == Hex(bytes) + HexByte(b)
  {
    if bytes == [] {
      assert Hex([b]) == HexByte(b) + Hex([]);
    } else {
      assert (bytes + [b])[1..] == bytes[1..] + [b];
      HexSnoc(bytes[1..], b);
    }
  }

  /** What the hash is fed: nothing separates the key from the POP name. */
  function Preimage(site: Site, key: seq<byte>, scope: Scope): seq<byte> {
    key + if scope.Pop? then site.pop else []
  }

  function SurrogateKey(site: Site, key: seq<byte>, scope: Scope): string {
    Hex(site.sha(Preimage(site, key, scope)))
  }

  /** `f_cache_surrogate_key_for_cache_key`. The hasher's state is the bytes it was fed so far. */
  method SurrogateKeyForCacheKey(site: Site, key: seq<byte>, scope: Scope) returns (text: string)
    ensures text == SurrogateKey(site, key, scope)
    ensures |text| == 64 && ' ' !in text && forall c :: c in text ==> c in "0123456789ABCDEF"
    ensures var digest := site.sha(if scope == Pop then key + site.pop else key);
            forall i :: 0 <= i < 32 ==> Spells(text[2 * i], text[2 * i + 1], digest[i])
  {
    var fed: seq<byte> := [];
    fed := fed + key;
    if scope.Pop? {
      fed := fed + site.pop;
    }
    assert fed == Preimage(site, key, scope);
    var digest: seq<byte> := site.sha(fed);
    text := "";
    for i := 0 to |digest|
      invariant text == Hex(digest[..i])
      invariant forall c :: c in text ==> c in DIGITS
    {
      assert digest[..i + 1] == digest[..i] + [digest[i]];
      HexSnoc(digest[..i], digest[i]);
      text := text + HexByte(digest[i]);
    }
    assert digest[..|digest|] == digest;
    HexLength(digest);
    assert digest == site.sha(if scope == Pop then key + site.pop else key) by {
      assert key + [] == key;
    }
    forall i | 0 <= i < 32 ensures Spells(text[2 * i], text[2 * i + 1], digest[i]) {
      HexSpells(digest, i);
    }
  }

  /** The surrogate-key option of an item stored under `key`: both of its keys, joined by a space. */
  function StoredKeys(site: Site, key: seq<byte>): string {
    Join([SurrogateKey(site, key, Pop), SurrogateKey(site, key, Global)], ' ')
  }

  /** The host takes the option apart at the spaces and purges an item by any one of its keys. */
  predicate Purges(stored: string, purged: string) {
    purged in Split(stored, ' ')
  }

  /** No two of the hash inputs that belong to the given keys collide: all that is assumed of the hash. */
  ghost predicate CollisionFree(site: Site, keys: set<seq<byte>>) {
    forall a, b, i: Scope, j: Scope :: a in keys && b in keys ==>
      site.sha(Preimage(site, a, i)) == site.sha(Preimage(site, b, j)) ==> Preimage(site, a, i) == Preimage(site, b, j)
  }

  /** The keys a purge of `key` reaches besides `key` itself, because key and POP name are hashed without a
      separator. */
  predicate Confused(site: Site, key: seq<byte>, scope: Scope, other: seq<byte>) {
    if scope.Pop? then other == key + site.pop else other + site.pop == key
  }

  lemma StoredKeysSplit(site: Site, key: seq<byte>)
    ensures Split(StoredKeys(site, key), ' ') == [SurrogateKey(site, key, Pop), SurrogateKey(site, key, Global)]
  {
    HexPrintable(site.sha(Preimage(site, key, Pop)));
    HexPrintable(site.sha(Preimage(site, key, Global)));
    SplitJoinExact([SurrogateKey(site, key, Pop), SurrogateKey(site, key, Global)], ' ');
  }

  /** A purge of a key, at either scope, always reaches the item stored under that key. */
  lemma PurgeReachesItsKey(site: Site, key: seq<byte>, scope: Scope)
    ensures Purges(StoredKeys(site, key), SurrogateKey(site, key, scope))
  {
    StoredKeysSplit(site, key);
  }

  /** Exactly which items a purge reaches: as far as the hash does not collide, the item of the key itself and
      that of a key it is confused with through the POP name, and no other. */
  lemma PurgeReachExact(site: Site, key: seq<byte>, scope: Scope, other: seq<byte>)
    requires CollisionFree(site, {key, other})
    ensures Purges(StoredKeys(site, other), SurrogateKey(site, key, scope)) <==>
            other == key || Confused(site, key, scope, other)
  {
    StoredKeysSplit(site, other);
    var purged := Preimage(site, key, scope);
    forall at: Scope
      ensures SurrogateKey(site, other, at) == SurrogateKey(site, key, scope) <==> Preimage(site, other, at) == purged
    {
      if SurrogateKey(site, other, at) == SurrogateKey(site, key, scope) {
        HexInjective(site.sha(Preimage(site, other, at)), site.sha(purged));
      }
    }
    var p, g := SurrogateKey(site, other, Pop), SurrogateKey(site, other, Global);
    assert SurrogateKey(site, key, scope) in [p, g] <==>
           Preimage(site, other, Pop) == purged || Preimage(site, other, Global) == purged;
    SameTail(other, key, site.pop);
    assert other + [] == other && key + [] == key;
  }

  lemma SameTail(a: seq<byte>, b: seq<byte>, tail: seq<byte>)
    ensures a + tail == b + tail <==> a == b
  {
    if a + tail == b + tail {
      assert a == (a + tail)[..|a|] && b == (b + tail)[..|b|];
    }
  }

  /** The confusion is real: with POP name `A`, purging the key `k` in this POP also purges the key `kA`, and
      purging `kA` globally also purges `k`. */
  lemma PurgeConfusesKeys(sha: seq<byte> -> Digest)
    ensures var site := Site(sha, [65]);
            && Purges(StoredKeys(site, [107, 65]), SurrogateKey(site, [107], Pop))
            && Purges(StoredKeys(site, [107]), SurrogateKey(site, [107, 65], Global))
  {
    var site := Site(sha, [65]);
    StoredKeysSplit(site, [107, 65]);
    StoredKeysSplit(site, [107]);
    assert Preimage(site, [107], Pop) == [107, 65] == Preimage(site, [107, 65], Global);
  }
}

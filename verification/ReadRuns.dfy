/** What `take_body_string` returns, as a function of how the host cut the body into refills. */
module ReadRuns {
  import opened Basics
  import opened StreamLog

  /** A refill whose first byte reads as EOF when it comes back through `underflow`. */
  predicate LooksLikeEof(refill: seq<byte>) {
    refill != [] && refill[0] == 0xFF
  }

  ghost predicate Chunks(refills: seq<seq<byte>>) {
    forall c :: c in refills ==> 1 <= |c| <= CAPACITY && !LooksLikeEof(c)
  }

  /** The refills of one reading of the host queue `q`: reading goes on to the end of the queue, or stops at
      the first refill that looks like EOF. */
  ghost predicate ReadRun(refills: seq<seq<byte>>, q: seq<byte>) {
    || (Chunks(refills) && Flatten(refills) == q)
    || (refills != []
        && Chunks(refills[..|refills| - 1])
        && 1 <= |refills[|refills| - 1]| <= CAPACITY && LooksLikeEof(refills[|refills| - 1])
        && Flatten(refills) <= q)
  }

  /** The bytes such a reading returns: the refill it stopped at is left in the get area. */
  function Taken(refills: seq<seq<byte>>): seq<byte> {
    if refills != [] && LooksLikeEof(refills[|refills| - 1]) then Flatten(refills[..|refills| - 1])
    else Flatten(refills)
  }

  /** For one reading: everything is returned exactly when no refill started with 0xFF. */
  lemma TakenAllExact(refills: seq<seq<byte>>, q: seq<byte>)
    requires ReadRun(refills, q)
    ensures Taken(refills) <= q
    ensures Taken(refills) == q <==> forall c :: c in refills ==> !LooksLikeEof(c)
  {
    if refills != [] {
      var front, last := refills[..|refills| - 1], refills[|refills| - 1];
      assert refills == front + [last];
      FlattenSnoc(front, last);
      if LooksLikeEof(last) {
        assert last in refills;
        assert Taken(refills) == Flatten(front) == Flatten(refills)[..|Flatten(front)|];
        assert |Taken(refills)| < |q|;
      }
    }
  }

  function Singletons(s: seq<byte>): seq<seq<byte>> {
    seq(|s|, i requires 0 <= i < |s| => [s[i]])
  }

  lemma {:induction false} FlattenSingletons(s: seq<byte>)
    ensures Flatten(Singletons(s)) == s
  {
    if s != [] {
      assert Singletons(s)[1..] == Singletons(s[1..]);
      FlattenSingletons(s[1..]);
    }
  }

  lemma {:induction false} FlattenMember(refills: seq<seq<byte>>, c: seq<byte>, b: byte)
    requires c in refills && b in c
    ensures b in Flatten(refills)
  {
    if c != refills[0] {
      FlattenMember(refills[1..], c, b);
    }
  }

  /** A host that cuts the queue so that a refill starts at the first 0xFF. */
  lemma WorstReading(s: seq<byte>, i: nat) returns (refills: seq<seq<byte>>)
    requires i < |s| && s[i] == 0xFF && 0xFF !in s[..i]
    ensures ReadRun(refills, s) && Taken(refills) == s[..i]
  {
    var front := Singletons(s[..i]);
    refills := front + [[0xFF]];
    FlattenSingletons(s[..i]);
    FlattenSnoc(front, [0xFF as byte]);
    assert refills[..|refills| - 1] == front;
    forall c | c in front ensures |c| == 1 && !LooksLikeEof(c) {
      var j :| 0 <= j < |front| && front[j] == c;
      assert s[..i][j] == c[0] && c[0] in s[..i];
    }
    assert Flatten(refills) == s[..i + 1];
  }

  /** A body's content survives `take_body_string` under every behaviour of the host if and only if it holds no
      byte 0xFF. */
  lemma SafeContentExact(s: seq<byte>)
    ensures (forall refills :: ReadRun(refills, s) ==> Taken(refills) == s) <==> 0xFF !in s
  {
    if 0xFF in s {
      var i := FirstFF(s);
      var refills := WorstReading(s, i);
      assert |Taken(refills)| < |s|;
    } else {
      forall refills | ReadRun(refills, s) ensures Taken(refills) == s {
        TakenAllExact(refills, s);
        forall c | c in refills ensures !LooksLikeEof(c) {
          if LooksLikeEof(c) {
            FlattenMember(refills, c, 0xFF);
          }
        }
      }
    }
  }

  lemma {:induction false} FirstFF(s: seq<byte>) returns (i: nat)
    requires 0xFF in s
    ensures i < |s| && s[i] == 0xFF && 0xFF !in s[..i]
  {
    if s[0] == 0xFF {
      i := 0;
    } else {
      var j := FirstFF(s[1..]);
      i := j + 1;
      assert s[..i] == [s[0]] + s[1..][..j];
    }
  }
}

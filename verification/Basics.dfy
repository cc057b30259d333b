/** Types shared by every module of the project. */
module Basics {

  newtype byte = x: int | 0 <= x < 256

  datatype Option<+T> = None | Some(value: T)

  datatype Result<+T, +E> = Ok(value: T) | Err(error: E)

  /** What a call yields when one of its branches ends the process (`std::abort`, a Rust panic). */
  datatype Outcome<+T> = Aborted | Returned(value: T)

  ghost predicate Distinct<T>(s: seq<T>) {
    forall i, j :: 0 <= i < j < |s| ==> s[i] != s[j]
  }

  function Flatten<T>(parts: seq<seq<T>>): seq<T> {
    if parts == [] then [] else parts[0] + Flatten(parts[1..])
  }

  lemma {:induction false} FlattenSnoc<T>(parts: seq<seq<T>>, last: seq<T>)
    ensures Flatten(parts + [last]) == Flatten(parts) + last
  {
    if parts == [] {
      assert Flatten([last]) == last + Flatten<T>([]);
    } else {
      assert (parts + [last])[1..] == parts[1..] + [last];
      FlattenSnoc(parts[1..], last);
    }
  }

  lemma ConcatAssoc<T>(a: seq<T>, b: seq<T>, c: seq<T>)
    ensures (a + b) + c == a + (b + c)
  {
  }

  lemma ExtendTake<T>(front: seq<T>, s: seq<T>, i: nat)
    requires i < |s|
    ensures front + s[..i] + [s[i]] == front + s[..i + 1]
  {
  }

  lemma ExtendSlice<T>(front: seq<T>, s: seq<T>, i: nat, n: nat)
    requires i + n <= |s|
    ensures (front + s[..i]) + s[i..i + n] == front + s[..i + n]
  {
  }

  lemma BehindPrefix<T>(front: seq<T>, back: seq<T>)
    ensures front <= front + back && (front + back)[|front|..] == back
  {
  }

  lemma {:induction false} DistinctBounded(s: seq<nat>, n: nat)
    requires Distinct(s) && forall i :: 0 <= i < |s| ==> s[i] < n
    ensures |s| <= n
    decreases n
  {
    if n - 1 in s {
      var i :| 0 <= i < |s| && s[i] == n - 1;
      var rest := s[..i] + s[i + 1..];
      assert forall j :: 0 <= j < |rest| ==> rest[j] == s[if j < i then j else j + 1];
      DistinctBounded(rest, n - 1);
    } else if s != [] {
      assert forall j :: 0 <= j < |s| ==> s[j] in s;
      assert s[0] < n;
      DistinctBounded(s, n - 1);
    }
  }

  /** Of more numbers than there are values, two are equal. */
  lemma Pigeonhole(s: seq<nat>, n: nat) returns (i: nat, j: nat)
    requires |s| > n && forall k :: 0 <= k < |s| ==> s[k] < n
    ensures i < j < |s| && s[i] == s[j]
  {
    if Distinct(s) {
      DistinctBounded(s, n);
    }
    i, j :| 0 <= i < j < |s| && s[i] == s[j];
  }
}

/** The adapter that makes a one-shot `next()` into a C++ range, and the header ranges that use it. */
module IteratorRange {
  import opened Basics

  datatype HeaderValue = HeaderValue(bytes: seq<byte>, sensitive: bool)

  type Header = (string, HeaderValue)

  /** The Rust iterator over headers behind a box. */
  class HeadersIter {
    var rest: seq<Header>

    constructor (headers: seq<Header>)
      ensures rest == headers
    {
      rest := headers;
    }

    /** `HeadersIter::next`: appends the next name and value to what the out-parameters hold, byte by byte, and
        says whether there was one. */
    method Next(name: string, value: seq<byte>, sensitive: bool)
      returns (some: bool, name': string, value': seq<byte>, sensitive': bool)
      modifies this
      ensures some <==> old(rest) != []
      ensures some ==>
        && rest == old(rest)[1..]
        && name' == name + old(rest)[0].0
        && value' == value + old(rest)[0].1.bytes
        && sensitive' == old(rest)[0].1.sensitive
      ensures !some ==> rest == [] && name' == name && value' == value && sensitive' == sensitive
    {
      name', value', sensitive' := name, value, sensitive;
      if rest == [] {
        return false, name', value', sensitive';
      }
      var (headerName, header) := rest[0];
      rest := rest[1..];
      name' := name' + headerName;
      for i := 0 to |header.bytes|
        invariant value' == value + header.bytes[..i]
      {
        value' := value' + [header.bytes[i]];
      }
      assert header.bytes[..|header.bytes|] == header.bytes;
      return true, name', value', header.sensitive;
    }
  }

  /** What the elements of a range are made of the source's elements. */
  function Mapped<V>(convert: Header -> V, headers: seq<Header>): seq<V> {
    seq(|headers|, i requires 0 <= i < |headers| => convert(headers[i]))
  }

  lemma MappedFirst<V>(convert: Header -> V, headers: seq<Header>)
    requires headers != []
    ensures Mapped(convert, headers) == [convert(headers[0])] + Mapped(convert, headers[1..])
  {
  }

  /** A class derived from `RustIteratorRange`. The derived classes differ in the element type and in what their
      `next` makes of what the source hands out: all of it, the name or the value. */
  class Range<V> {
    const iter: HeadersIter
    const convert: Header -> V

    constructor (iter: HeadersIter, convert: Header -> V)
      ensures this.iter == iter && this.convert == convert
    {
      this.iter, this.convert := iter, convert;
    }

    /** `next`: the source fills fresh out-parameters, and the element is made of these. */
    method Next() returns (r: Option<V>)
      modifies iter
      ensures r == if old(iter.rest) == [] then None else Some(convert(old(iter.rest)[0]))
      ensures iter.rest == if old(iter.rest) == [] then [] else old(iter.rest)[1..]
    {
      ghost var was := iter.rest;
      var some, name, value, sensitive := iter.Next("", [], false);
      if some {
        assert name == was[0].0 && value == was[0].1.bytes;
        assert (name, HeaderValue(value, sensitive)) == (was[0].0, was[0].1) == was[0];
        return Some(convert((name, HeaderValue(value, sensitive))));
      }
      return None;
    }
  }

  class Iterator<V> {
    /** Null at the end. */
    var range: Range?<V>
    var cache: Option<V>

    /** `end()`. */
    constructor End()
      ensures range == null
    {
      range, cache := null, None;
    }

    /** An element can be read unless this is the end. */
    ghost predicate Valid()
      reads this
    {
      range != null ==> cache.Some?
    }

    /** The elements still to be visited: the cached one, then what the source holds. */
    ghost function Ahead(): seq<V>
      requires Valid()
      reads this, range, if range == null then {} else {range.iter}
    {
      if range == null then [] else [cache.value] + Mapped(range.convert, range.iter.rest)
    }

    /** `iterator(range)`, that is `begin()`: takes the first element already. */
    constructor Begin(range: Range<V>)
      modifies range.iter
      ensures Valid() && (this.range == range || this.range == null)
      ensures Ahead() == Mapped(range.convert, old(range.iter.rest))
      ensures this.range == null ==> range.iter.rest == []
    {
      this.range, cache := range, None;
      new;
      Increment();
    }

    /** `operator++`. */
    method Increment()
      modifies this, if range == null then {} else {range.iter}
      ensures old(range) == null ==> range == null && cache == old(cache)
      ensures old(range) != null ==> (range == old(range) || range == null) && Valid()
      ensures old(range) != null ==> Ahead() == Mapped(old(range).convert, old(range.iter.rest))
      ensures old(range) != null && range == null ==> old(range).iter.rest == []
    {
      if range == null {
        return;
      }
      ghost var left := range.iter.rest;
      if left != [] {
        MappedFirst(range.convert, left);
      }
      var val := range.Next();
      if val.Some? {
        cache := val;
      } else {
        range := null;
      }
    }

    /** `operator==`: only the range pointers are compared, so an iterator equals an end iterator exactly when
        nothing is ahead of it, and two that are not at the end are equal wherever they are in the range. */
    method Equals(other: Iterator<V>) returns (equal: bool)
      requires Valid() && other.Valid()
      ensures other.Ahead() == [] ==> (equal <==> Ahead() == [])
      ensures other.Ahead() != [] ==> (equal <==> Ahead() != [] && range == other.range)
    {
      return range == other.range;
    }
  }

  /** `for (auto &v : range)`, for any range: visits exactly what `next` makes of the elements the source had
      left, each once and in order, and ends when the source is exhausted. */
  method RangeFor<V>(range: Range<V>) returns (visited: seq<V>)
    modifies range.iter
    ensures visited == Mapped(range.convert, old(range.iter.rest)) && range.iter.rest == []
  {
    visited := [];
    var it := new Iterator.Begin(range);
    var end := new Iterator<V>.End();
    var done := it.Equals(end);
    while !done
      invariant fresh(it) && fresh(end) && end.range == null
      invariant it.Valid() && (it.range == range || it.range == null)
      invariant it.range == null ==> range.iter.rest == []
      invariant visited + it.Ahead() == Mapped(range.convert, old(range.iter.rest))
      invariant done <==> it.Ahead() == []
      decreases |it.Ahead()|
    {
      ghost var ahead := Mapped(range.convert, range.iter.rest);
      ConcatAssoc(visited, [it.cache.value], ahead);
      visited := visited + [it.cache.value];
      it.Increment();
      assert it.Ahead() == ahead;
      done := it.Equals(end);
    }
  }

  /** At the end an iterator stays at the end, however often it is incremented. */
  method StaysAtEnd<V>(it: Iterator<V>, n: nat)
    requires it.range == null
    modifies it
    ensures it.range == null && it.cache == old(it.cache)
  {
    for i := 0 to n
      invariant it.range == null && it.cache == old(it.cache)
    {
      it.Increment();
    }
  }
}

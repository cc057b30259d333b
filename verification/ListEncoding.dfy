/** The two flat encodings of a list the cache ABI uses: items joined by a delimiter, and values each closed by
    a terminator. */
module ListEncoding {
  import opened Basics

  function Join<T>(items: seq<seq<T>>, delimiter: T): seq<T> {
    if items == [] then []
    else if |items| == 1 then items[0]
    else items[0] + [delimiter] + Join(items[1..], delimiter)
  }

  /** Cuts at every delimiter; the reader's side of both encodings. */
  function Split<T(==)>(s: seq<T>, delimiter: T): (pieces: seq<seq<T>>)
    ensures pieces != []
    ensures forall p :: p in pieces ==> delimiter !in p
  {
    if s == [] then [[]]
    else
      var rest := Split(s[1..], delimiter);
      if s[0] == delimiter then [[]] + rest else [[s[0]] + rest[0]] + rest[1..]
  }

  lemma {:induction false} SplitAtFirst<T>(item: seq<T>, delimiter: T, tail: seq<T>)
    requires delimiter !in item
    ensures Split(item + [delimiter] + tail, delimiter) == [item] + Split(tail, delimiter)
  {
    if item == [] {
      assert item + [delimiter] + tail == [delimiter] + tail;
    } else {
      var s := item + [delimiter] + tail;
      assert s[1..] == item[1..] + [delimiter] + tail;
      SplitAtFirst(item[1..], delimiter, tail);
      assert [s[0]] + item[1..] == item;
    }
  }

  lemma {:induction false} SplitWhole<T>(item: seq<T>, delimiter: T)
    requires delimiter !in item
    ensures Split(item, delimiter) == [item]
  {
    if item != [] {
      SplitWhole(item[1..], delimiter);
      assert [item[0]] + item[1..] == item;
    }
  }

  lemma {:induction false} SplitJoin<T>(items: seq<seq<T>>, delimiter: T)
    requires items != [] && forall item :: item in items ==> delimiter !in item
    ensures Split(Join(items, delimiter), delimiter) == items
  {
    if |items| == 1 {
      SplitWhole(items[0], delimiter);
    } else {
      SplitJoin(items[1..], delimiter);
      SplitAtFirst(items[0], delimiter, Join(items[1..], delimiter));
    }
  }

  /** Joining is undone by splitting exactly when there is an item and no item holds the delimiter. */
  lemma SplitJoinExact<T>(items: seq<seq<T>>, delimiter: T)
    ensures Split(Join(items, delimiter), delimiter) == items <==>
            items != [] && forall item :: item in items ==> delimiter !in item
  {
    if items != [] && forall item :: item in items ==> delimiter !in item {
      SplitJoin(items, delimiter);
    }
  }

  lemma {:induction false} JoinSnoc<T>(items: seq<seq<T>>, last: seq<T>, delimiter: T)
    ensures Join(items + [last], delimiter) ==
            if items == [] then last else Join(items, delimiter) + [delimiter] + last
  {
    if |items| == 1 {
      assert (items + [last])[1..] == [last];
    } else if items != [] {
      assert (items + [last])[1..] == items[1..] + [last];
      JoinSnoc(items[1..], last, delimiter);
    }
  }

  /** `join_strings`. */
  method JoinStrings(items: seq<string>, delimiter: char) returns (oss: string)
    ensures oss == Join(items, delimiter)
    ensures (items != [] && forall item :: item in items ==> delimiter !in item) ==>
      Split(oss, delimiter) == items
  {
    oss := "";
    var first := true;
    for i := 0 to |items|
      invariant first <==> i == 0
      invariant oss == Join(items[..i], delimiter)
    {
      assert items[..i + 1] == items[..i] + [items[i]];
      JoinSnoc(items[..i], items[i], delimiter);
      if !first {
        oss := oss + [delimiter];
      }
      oss := oss + items[i];
      first := false;
    }
    assert items[..|items|] == items;
    SplitJoinExact(items, delimiter);
  }

  function Terminated<T>(values: seq<seq<T>>, terminator: T): seq<T> {
    if values == [] then [] else values[0] + [terminator] + Terminated(values[1..], terminator)
  }

  /** The pieces in front of each terminator; what follows the last one is no value. */
  function Unterminated<T(==)>(s: seq<T>, terminator: T): seq<seq<T>> {
    var pieces := Split(s, terminator);
    pieces[..|pieces| - 1]
  }

  lemma {:induction false} TerminatedUndo<T>(values: seq<seq<T>>, terminator: T)
    requires forall v :: v in values ==> terminator !in v
    ensures Split(Terminated(values, terminator), terminator) == values + [[]]
  {
    if values == [] {
      assert Split<T>([], terminator) == [[]];
    } else {
      TerminatedUndo(values[1..], terminator);
      SplitAtFirst(values[0], terminator, Terminated(values[1..], terminator));
      assert [values[0]] + (values[1..] + [[]]) == values + [[]];
    }
  }

  /** Terminated values decode to themselves exactly when none holds the terminator. */
  lemma TerminatedExact<T>(values: seq<seq<T>>, terminator: T)
    ensures Unterminated(Terminated(values, terminator), terminator) == values <==>
            forall v :: v in values ==> terminator !in v
  {
    if forall v :: v in values ==> terminator !in v {
      TerminatedUndo(values, terminator);
    } else {
      var pieces := Split(Terminated(values, terminator), terminator);
      assert forall p :: p in pieces[..|pieces| - 1] ==> p in pieces;
    }
  }

  lemma {:induction false} TerminatedSnoc<T>(values: seq<seq<T>>, last: seq<T>, terminator: T)
    ensures Terminated(values + [last], terminator) == Terminated(values, terminator) + last + [terminator]
  {
    if values == [] {
      assert Terminated([last], terminator) == last + [terminator] + Terminated<T>([], terminator);
    } else {
      assert (values + [last])[1..] == values[1..] + [last];
      TerminatedSnoc(values[1..], last, terminator);
    }
  }

  /** The byte buffer `set_request_header_values` hands to the host. */
  method HeaderValueBytes(values: seq<seq<byte>>) returns (bytes: seq<byte>)
    ensures bytes == Terminated(values, 0)
    ensures Unterminated(bytes, 0) == values <==> forall v :: v in values ==> (0 as byte) !in v
  {
    bytes := [];
    for i := 0 to |values|
      invariant bytes == Terminated(values[..i], 0)
    {
      assert values[..i + 1] == values[..i] + [values[i]];
      TerminatedSnoc(values[..i], values[i], 0);
      bytes := bytes + values[i];
      bytes := bytes + [0];
    }
    assert values[..|values|] == values;
    TerminatedExact(values, 0);
  }
}

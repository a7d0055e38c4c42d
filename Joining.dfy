/**
  The joining of strings that an engine's provenance line relies on:
  a specification function Join, its inverse Split, and a model of
  java.util.StringJoiner that accumulates its text by successive Add calls
  and is proved to produce the specified joined text.
 */
module Joining {

  /** The parts separated by the delimiter; the empty list joins to "". */
  function Join(parts: seq<string>, delimiter: string): (r: string)
    ensures parts == [] ==> r == []
    ensures |parts| == 1 ==> r == parts[0]
    ensures |parts| >= 2 ==> |r| >= |parts[0]| + |delimiter|
  {
    if parts == [] then []
    else if |parts| == 1 then parts[0]
    else parts[0] + delimiter + Join(parts[1..], delimiter)
  }

  /** The pieces of s between occurrences of sep, empty pieces included: the reading that Join undoes. */
  function Split(s: string, sep: char): (r: seq<string>)
    ensures |r| >= 1
  {
    if s == [] then [[]]
    else if s[0] == sep then [[]] + Split(s[1..], sep)
    else
      var rest := Split(s[1..], sep);
      [[s[0]] + rest[0]] + rest[1..]
  }

  /** A piece that does not contain sep is glued onto the first field of what follows. */
  lemma {:induction false} SplitPrefix(a: string, rest: string, sep: char)
    requires sep !in a
    ensures Split(a + rest, sep) == [a + Split(rest, sep)[0]] + Split(rest, sep)[1..]
  {
    if a != [] {
      assert (a + rest)[1..] == a[1..] + rest;
      SplitPrefix(a[1..], rest, sep);
      assert [a[0]] + (a[1..] + Split(rest, sep)[0]) == a + Split(rest, sep)[0];
    } else {
      var r := Split(rest, sep);
      assert a + rest == rest && a + r[0] == r[0];
      assert r == [r[0]] + r[1..];
    }
  }

  /** Splitting undoes joining, as long as no part contains the separator. */
  lemma {:induction false} SplitJoin(parts: seq<string>, sep: char)
    requires parts != []
    requires forall i :: 0 <= i < |parts| ==> sep !in parts[i]
    ensures Split(Join(parts, [sep]), sep) == parts
  {
    if |parts| == 1 {
      SplitPrefix(parts[0], [], sep);
      assert parts[0] + [] == parts[0];
    } else {
      var tail := Join(parts[1..], [sep]);
      SplitJoin(parts[1..], sep);
      assert Join(parts, [sep]) == parts[0] + ([sep] + tail);
      SplitPrefix(parts[0], [sep] + tail, sep);
      assert ([sep] + tail)[1..] == tail;
      assert Split([sep] + tail, sep) == [[]] + parts[1..];
      assert parts[0] + [] == parts[0];
    }
  }

  /** A join is empty exactly when there are no parts, or one empty part. */
  lemma {:induction false} JoinEmpty(parts: seq<string>, delimiter: string)
    requires delimiter != []
    ensures Join(parts, delimiter) == [] <==> parts == [] || (|parts| == 1 && parts[0] == [])
  {
  }

  /**
    java.util.StringJoiner without setEmptyValue: Add appends the delimiter
    before every element but the first, and ToString wraps what was added in
    prefix and suffix, so an empty joiner renders as prefix + suffix.
   */
  class StringJoiner {
    const delimiter: string
    const prefix: string
    const suffix: string
    var value: string
    var empty: bool
    ghost var parts: seq<string>

    ghost predicate Valid()
      reads this
    {
      value == Join(parts, delimiter) && (empty <==> parts == [])
    }

    constructor (delimiter: string, prefix: string, suffix: string)
      ensures Valid() && parts == []
      ensures this.delimiter == delimiter && this.prefix == prefix && this.suffix == suffix
    {
      this.delimiter := delimiter;
      this.prefix := prefix;
      this.suffix := suffix;
      value := [];
      empty := true;
      parts := [];
    }

    method Add(element: string)
      requires Valid()
      modifies this
      ensures Valid() && parts == old(parts) + [element]
    {
      if empty {
        value := element;
      } else {
        value := value + delimiter + element;
      }
      empty := false;
      JoinSnoc(parts, element, delimiter);
      parts := parts + [element];
    }

    function ToString(): (r: string)
      reads this
      requires Valid()
      ensures r == prefix + Join(parts, delimiter) + suffix
    {
      prefix + value + suffix
    }
  }

  /** Joining one more part extends the joined text by the delimiter and that part. */
  lemma {:induction false} JoinSnoc(parts: seq<string>, element: string, delimiter: string)
    ensures parts == [] ==> Join(parts + [element], delimiter) == element
    ensures parts != [] ==> Join(parts + [element], delimiter) == Join(parts, delimiter) + delimiter + element
  {
    if |parts| >= 2 {
      assert (parts + [element])[1..] == parts[1..] + [element];
      JoinSnoc(parts[1..], element, delimiter);
    } else if |parts| == 1 {
      assert (parts + [element])[1..] == [element];
    }
  }
}

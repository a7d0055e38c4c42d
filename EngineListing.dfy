/**
  The engine listing of the console launcher (displayEngines and
  displayEngine): engines are sorted by id in the order of Java's
  String.compareTo, and each is rendered as its id followed by the present
  provenance fields joined by ":" inside " (" and ")".
 */
module EngineListing {
  import opened Wrappers
  import opened Joining

  /** A registered test engine as the listing sees it: its id and its optional provenance. */
  datatype Engine = Engine(id: string, groupId: Option<string>, artifactId: Option<string>, version: Option<string>)

  // ---------------------------------------------------------------------
  // The order of ids: String.compareTo, lexicographic by character, and a
  // proper prefix comes first.
  // ---------------------------------------------------------------------

  /**
    String.compareTo(a, b) <= 0 as compareTo decides it: either a is a prefix
    of b, or at the first position where the two differ a has the smaller
    character.
   */
  ghost predicate CompareToAtMost(a: string, b: string)
  {
    a <= b || exists k :: 0 <= k < |a| && k < |b| && a[..k] == b[..k] && a[k] < b[k]
  }

  /** The id order of Comparator.comparing(TestEngine::getId), one character at a time. */
  function IdLe(a: string, b: string): (r: bool)
    ensures r <==> CompareToAtMost(a, b)
  {
    if a == [] then true
    else if b == [] then false
    else
      CompareToStep(a, b);
      if a[0] != b[0] then a[0] < b[0]
      else IdLe(a[1..], b[1..])
  }

  /** How compareTo's verdict on two non-empty strings follows from their first characters and their tails. */
  lemma CompareToStep(a: string, b: string)
    requires a != [] && b != []
    ensures a[0] != b[0] ==> (CompareToAtMost(a, b) <==> a[0] < b[0])
    ensures a[0] == b[0] ==> (CompareToAtMost(a, b) <==> CompareToAtMost(a[1..], b[1..]))
  {
    if a[0] != b[0] {
      if a[0] < b[0] {
        assert a[..0] == b[..0];
      }
      forall k | 0 < k <= |a| && k <= |b| ensures a[..k] != b[..k] {
        assert a[..k][0] != b[..k][0];
      }
    } else {
      if CompareToAtMost(a, b) {
        if a <= b {
          assert a[1..] <= b[1..];
        } else {
          var k :| 0 <= k < |a| && k < |b| && a[..k] == b[..k] && a[k] < b[k];
          assert k > 0;
          assert a[1..][..k - 1] == a[..k][1..] && b[1..][..k - 1] == b[..k][1..];
          assert a[1..][k - 1] < b[1..][k - 1];
        }
      }
      if CompareToAtMost(a[1..], b[1..]) {
        if a[1..] <= b[1..] {
          assert a == [a[0]] + a[1..] && b == [b[0]] + b[1..];
          assert a <= b;
        } else {
          var k :| 0 <= k < |a[1..]| && k < |b[1..]| && a[1..][..k] == b[1..][..k] && a[1..][k] < b[1..][k];
          assert a[..k + 1] == [a[0]] + a[1..][..k] && b[..k + 1] == [b[0]] + b[1..][..k];
          assert a[k + 1] < b[k + 1];
        }
      }
    }
  }

  lemma IdLeReflexive(a: string)
    ensures IdLe(a, a)
  {
  }

  lemma {:induction false} IdLeTotal(a: string, b: string)
    ensures IdLe(a, b) || IdLe(b, a)
  {
    if a != [] && b != [] && a[0] == b[0] { IdLeTotal(a[1..], b[1..]); }
  }

  lemma IdLeAntisymmetric(a: string, b: string)
    requires IdLe(a, b) && IdLe(b, a)
    ensures a == b
  {
  }

  lemma {:induction false} IdLeTransitive(a: string, b: string, c: string)
    requires IdLe(a, b) && IdLe(b, c)
    ensures IdLe(a, c)
  {
    if a != [] && b != [] && c != [] && a[0] == b[0] && b[0] == c[0] {
      IdLeTransitive(a[1..], b[1..], c[1..]);
    }
  }

  // ---------------------------------------------------------------------
  // Sorting by id. The insertion below is stable: it keeps an engine ahead
  // of every later one with an equal id. No lemma relies on that, since the
  // stream sorted here need not be ordered and Java then promises no
  // stability.
  // ---------------------------------------------------------------------

  /** Every engine's id is at most every later engine's id. */
  ghost predicate SortedById(s: seq<Engine>)
  {
    forall i, j :: 0 <= i < j < |s| ==> IdLe(s[i].id, s[j].id)
  }

  /** No two different engines share an id (the same engine may be handed out twice). */
  ghost predicate IdsIdentify(s: seq<Engine>)
  {
    forall x, y :: x in s && y in s && x.id == y.id ==> x == y
  }

  /** Places e in front of the first engine whose id is not below e's. */
  function Insert(e: Engine, s: seq<Engine>): (r: seq<Engine>)
    ensures |r| == |s| + 1
  {
    if s == [] then [e]
    else if IdLe(e.id, s[0].id) then [e] + s
    else [s[0]] + Insert(e, s[1..])
  }

  /** Inserting into a sorted sequence keeps it sorted and adds exactly that engine. */
  lemma {:induction false} InsertCorrect(e: Engine, s: seq<Engine>)
    requires SortedById(s)
    ensures SortedById(Insert(e, s))
    ensures multiset(Insert(e, s)) == multiset(s) + multiset{e}
  {
    if s == [] {
    } else if IdLe(e.id, s[0].id) {
      InsertFront(e, s);
    } else {
      IdLeTotal(e.id, s[0].id);
      InsertCorrect(e, s[1..]);
      assert s == [s[0]] + s[1..];
      FrontOfSorted(s[0], Insert(e, s[1..]), e);
    }
  }

  /** An engine whose id is at most the first id of a sorted sequence may go in front. */
  lemma InsertFront(e: Engine, s: seq<Engine>)
    requires SortedById(s) && s != [] && IdLe(e.id, s[0].id)
    ensures SortedById([e] + s)
  {
    forall j | 0 < j < |s| + 1
      ensures IdLe(([e] + s)[0].id, ([e] + s)[j].id)
    {
      if j > 1 { IdLeTransitive(e.id, s[0].id, s[j - 1].id); }
    }
  }

  /** The head of a sorted sequence may stay in front of the insertion into its tail. */
  lemma FrontOfSorted(x: Engine, t: seq<Engine>, e: Engine)
    requires SortedById(t) && IdLe(x.id, e.id)
    requires forall y :: y in multiset(t) && y != e ==> IdLe(x.id, y.id)
    ensures SortedById([x] + t)
  {
  }

  /** The engines in ascending id order, by insertion sort. */
  function SortById(engines: seq<Engine>): (r: seq<Engine>)
    ensures |r| == |engines|
  {
    if engines == [] then [] else Insert(engines[0], SortById(engines[1..]))
  }

  /** Sorting yields a permutation of the engines in ascending id order. */
  lemma {:induction false} SortByIdCorrect(engines: seq<Engine>)
    ensures SortedById(SortById(engines))
    ensures multiset(SortById(engines)) == multiset(engines)
  {
    if engines != [] {
      SortByIdCorrect(engines[1..]);
      InsertCorrect(engines[0], SortById(engines[1..]));
      assert engines == [engines[0]] + engines[1..];
    }
  }

  /**
    Two sorted sequences holding the same engines, no two different ones of
    which share an id, are equal: the sorted order does not depend on the order in which
    the registry hands out the engines.
   */
  lemma {:induction false} SortedUnique(a: seq<Engine>, b: seq<Engine>)
    requires SortedById(a) && SortedById(b) && IdsIdentify(a)
    requires multiset(a) == multiset(b)
    ensures a == b
  {
    if a != [] {
      assert |b| == |a| by { assert |multiset(a)| == |multiset(b)|; }
      assert a[0] in multiset(b) && b[0] in multiset(a);
      HeadIsLeast(b, a[0]);
      HeadIsLeast(a, b[0]);
      IdLeAntisymmetric(a[0].id, b[0].id);
      assert a[0] == b[0];
      TailsSameEngines(a, b);
      assert IdsIdentify(a[1..]) by {
        forall x | x in a[1..] ensures x in a { }
      }
      SortedUnique(a[1..], b[1..]);
    }
  }

  /** The head of a sorted sequence has the least id. */
  lemma HeadIsLeast(s: seq<Engine>, x: Engine)
    requires SortedById(s) && x in s
    ensures IdLe(s[0].id, x.id)
  {
    var i :| 0 <= i < |s| && s[i] == x;
    if i == 0 { IdLeReflexive(x.id); }
  }

  /** Removing equal heads from two permutations of each other leaves permutations. */
  lemma TailsSameEngines(a: seq<Engine>, b: seq<Engine>)
    requires a != [] && b != [] && a[0] == b[0] && multiset(a) == multiset(b)
    ensures multiset(a[1..]) == multiset(b[1..])
  {
    assert a == [a[0]] + a[1..] && b == [b[0]] + b[1..];
    assert multiset(a) == multiset{a[0]} + multiset(a[1..]);
    assert multiset(b) == multiset{a[0]} + multiset(b[1..]);
    assert multiset(a[1..]) == multiset(a) - multiset{a[0]};
    assert multiset(b[1..]) == multiset(b) - multiset{a[0]};
  }

  // ---------------------------------------------------------------------
  // The line of one engine, and the whole listing.
  // ---------------------------------------------------------------------

  /** The provenance fields that are present, in the order group, artifact, version. */
  function PresentFields(e: Engine): (r: seq<string>)
    ensures |r| <= 3
  {
    (if e.groupId.Some? then [e.groupId.value] else [])
    + (if e.artifactId.Some? then [e.artifactId.value] else [])
    + (if e.version.Some? then [e.version.value] else [])
  }

  /** One listing line: the id, then " (", the present fields joined by ":", and ")". */
  function EngineLine(e: Engine): string
  {
    e.id + " (" + Join(PresentFields(e), ":") + ")"
  }

  /** The listing: one line per engine, in ascending id order. */
  function Listing(engines: seq<Engine>): seq<string>
  {
    Rendered(SortById(engines))
  }

  function Rendered(s: seq<Engine>): (r: seq<string>)
    ensures |r| == |s|
  {
    seq(|s|, i requires 0 <= i < |s| => EngineLine(s[i]))
  }

  /**
    Each line of the listing belongs to exactly the engine in that position of
    the sorted order, the order is ascending by id, and the engines listed are
    exactly the input engines.
   */
  lemma ListingIsSortedPermutation(engines: seq<Engine>)
    ensures |Listing(engines)| == |engines|
    ensures exists s: seq<Engine> ::
      && multiset(s) == multiset(engines) && SortedById(s) && |s| == |Listing(engines)|
      && forall i :: 0 <= i < |s| ==> Listing(engines)[i] == EngineLine(s[i])
  {
    var s := SortById(engines);
    SortByIdCorrect(engines);
    assert |s| == |engines| by { assert |multiset(s)| == |multiset(engines)|; }
    assert forall i :: 0 <= i < |s| ==> Listing(engines)[i] == EngineLine(s[i]);
  }

  /**
    The listing depends only on the engines, not on the order the registry
    returns them in, when engine ids are distinct.
   */
  lemma ListingDeterministic(a: seq<Engine>, b: seq<Engine>)
    requires IdsIdentify(a) && multiset(a) == multiset(b)
    ensures Listing(a) == Listing(b)
  {
    var sa := SortById(a);
    SortByIdCorrect(a);
    SortByIdCorrect(b);
    assert IdsIdentify(sa) by {
      forall x | x in sa ensures x in a { assert x in multiset(sa); }
    }
    SortedUnique(sa, SortById(b));
  }

  /** An engine without provenance is listed as its id followed by " ()". */
  lemma NoProvenanceLine(e: Engine)
    requires e.groupId.None? && e.artifactId.None? && e.version.None?
    ensures EngineLine(e) == e.id + " ()"
  {
  }

  /**
    The line starts with the id and " (", ends with ")", and what lies between
    reads back, split at ":", as the present provenance fields, as long as at
    least one is present and none contains ":".
   */
  lemma {:induction false} EngineLineReadsBack(e: Engine)
    requires PresentFields(e) != []
    requires forall i :: 0 <= i < |PresentFields(e)| ==> ':' !in PresentFields(e)[i]
    ensures var line := EngineLine(e);
      && |line| >= |e.id| + 3
      && line[..|e.id|] == e.id && line[|e.id|..|e.id| + 2] == " (" && line[|line| - 1] == ')'
      && Split(line[|e.id| + 2..|line| - 1], ':') == PresentFields(e)
  {
    var details := Join(PresentFields(e), ":");
    var line := EngineLine(e);
    assert line == e.id + " (" + details + ")";
    assert line[|e.id| + 2..|line| - 1] == details;
    SplitJoin(PresentFields(e), ':');
  }

  /**
    The parenthesis is empty exactly when no provenance field is present or the
    only one present is the empty string.
   */
  lemma EmptyDetails(e: Engine)
    ensures EngineLine(e) == e.id + " ()" <==>
      PresentFields(e) == [] || (|PresentFields(e)| == 1 && PresentFields(e)[0] == [])
  {
  }
}

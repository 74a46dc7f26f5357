/** Stable sorting, as Python's list.sort does it, specified by insertion: enough to reason about
    what comes first and about sorting by one key after another. */
module StableSort {

  ghost predicate TotalPreorder<T(!new)>(le: (T, T) -> bool) {
    && (forall x, y :: le(x, y) || le(y, x))
    && (forall x, y, z :: le(x, y) && le(y, z) ==> le(x, z))
  }

  ghost predicate SortedBy<T>(le: (T, T) -> bool, s: seq<T>) {
    forall i, j | 0 <= i < j < |s| :: le(s[i], s[j])
  }

  // Before every element it may precede: an earlier element stays before a later equal one.
  function Insert<T>(le: (T, T) -> bool, x: T, s: seq<T>): seq<T> {
    if s == [] || le(x, s[0]) then [x] + s else [s[0]] + Insert(le, x, s[1..])
  }

  function Sort<T>(le: (T, T) -> bool, s: seq<T>): seq<T> {
    if s == [] then [] else Insert(le, s[0], Sort(le, s[1..]))
  }

  lemma {:induction false} InsertPermutes<T>(le: (T, T) -> bool, x: T, s: seq<T>)
    ensures multiset(Insert(le, x, s)) == multiset(s) + multiset{x}
  {
    if s == [] || le(x, s[0]) {
    } else {
      InsertPermutes(le, x, s[1..]);
      assert s == [s[0]] + s[1..];
    }
  }

  lemma {:induction false} SortPermutes<T>(le: (T, T) -> bool, s: seq<T>)
    ensures multiset(Sort(le, s)) == multiset(s)
    ensures |Sort(le, s)| == |s|
  {
    if s != [] {
      SortPermutes(le, s[1..]);
      InsertPermutes(le, s[0], Sort(le, s[1..]));
      assert s == [s[0]] + s[1..];
    }
    assert |Sort(le, s)| == |multiset(Sort(le, s))|;
  }

  lemma SameMembers<T>(s: seq<T>, t: seq<T>)
    requires multiset(s) == multiset(t)
    ensures forall x :: x in s <==> x in t
  {
    forall x
      ensures x in s <==> x in t
    {
      assert x in multiset(s) <==> x in multiset(t);
    }
  }

  lemma {:induction false} SortMembers<T>(le: (T, T) -> bool, s: seq<T>)
    ensures forall x :: x in Sort(le, s) <==> x in s
    ensures |Sort(le, s)| == |s|
  {
    SortPermutes(le, s);
    SameMembers(Sort(le, s), s);
  }

  /** x goes in front of s when it precedes, by le and then by tie, everything le does not put before it. */
  lemma {:induction false} InsertSorted<T(!new)>(le: (T, T) -> bool, tie: (T, T) -> bool, x: T, s: seq<T>)
    requires TotalPreorder(le)
    requires SortedBy(Lexicographic(le, tie), s)
    requires forall y | y in s && le(y, x) && le(x, y) :: tie(x, y)
    ensures SortedBy(Lexicographic(le, tie), Insert(le, x, s))
  {
    var lex := Lexicographic(le, tie);
    if s == [] {
    } else if le(x, s[0]) {
      forall i | 0 <= i < |s|
        ensures lex(x, s[i])
      {
        assert i > 0 ==> lex(s[0], s[i]);
      }
    } else {
      InsertSorted(le, tie, x, s[1..]);
      var rest := Insert(le, x, s[1..]);
      InsertPermutes(le, x, s[1..]);
      forall i | 0 <= i < |rest|
        ensures lex(s[0], rest[i])
      {
        assert rest[i] in multiset(rest);
        if rest[i] in s[1..] {
          var j :| 1 <= j < |s| && s[j] == rest[i];
          assert lex(s[0], s[j]);
        }
      }
    }
  }

  /** First by le, and among le-equals by tie. */
  function Lexicographic<T>(le: (T, T) -> bool, tie: (T, T) -> bool): (T, T) -> bool {
    (x, y) => le(x, y) && (le(y, x) ==> tie(x, y))
  }

  /** Stability: a list already in the order `tie` comes out in the order "le, then tie". */
  lemma {:induction false} SortRefines<T(!new)>(le: (T, T) -> bool, tie: (T, T) -> bool, s: seq<T>)
    requires TotalPreorder(le) && SortedBy(tie, s)
    ensures SortedBy(Lexicographic(le, tie), Sort(le, s))
  {
    if s != [] {
      SortRefines(le, tie, s[1..]);
      SortMembers(le, s[1..]);
      forall y | y in Sort(le, s[1..])
        ensures tie(s[0], y)
      {
        assert y in s[1..];
        var j :| 1 <= j < |s| && s[j] == y;
      }
      InsertSorted(le, tie, s[0], Sort(le, s[1..]));
    }
  }

  function Anything<T>(): (T, T) -> bool { (x, y) => true }

  lemma {:induction false} SortSorts<T(!new)>(le: (T, T) -> bool, s: seq<T>)
    requires TotalPreorder(le)
    ensures SortedBy(le, Sort(le, s))
  {
    SortRefines(le, Anything(), s);
    var r := Sort(le, s);
    forall i, j | 0 <= i < j < |r|
      ensures le(r[i], r[j])
    {
      assert Lexicographic(le, Anything())(r[i], r[j]);
    }
  }

  /** Filtering keeps order. */
  function Filter<T>(p: T -> bool, s: seq<T>): seq<T> {
    if s == [] then [] else (if p(s[0]) then [s[0]] else []) + Filter(p, s[1..])
  }

  lemma {:induction false} FilterMember<T>(p: T -> bool, s: seq<T>, x: T)
    ensures x in Filter(p, s) <==> x in s && p(x)
  {
    if s != [] {
      FilterMember(p, s[1..], x);
      assert s == [s[0]] + s[1..];
    }
  }

  lemma {:induction false} FilterSorted<T>(p: T -> bool, le: (T, T) -> bool, s: seq<T>)
    requires SortedBy(le, s)
    ensures SortedBy(le, Filter(p, s))
  {
    if s != [] {
      FilterSorted(p, le, s[1..]);
      forall x | x in Filter(p, s[1..])
        ensures le(s[0], x)
      {
        FilterMember(p, s[1..], x);
        assert x in s[1..];
        var j :| 1 <= j < |s| && s[j] == x;
      }
    }
  }

  lemma FilterStep<T>(p: T -> bool, s: seq<T>, k: nat)
    requires k < |s|
    ensures Filter(p, s[k..]) == (if p(s[k]) then [s[k]] else []) + Filter(p, s[k + 1..])
  {
    assert s[k..][1..] == s[k + 1..];
  }

  lemma {:induction false} FilterAppend<T>(p: T -> bool, s: seq<T>, t: seq<T>)
    ensures Filter(p, s + t) == Filter(p, s) + Filter(p, t)
  {
    if s == [] {
      assert s + t == t;
    } else {
      FilterAppend(p, s[1..], t);
      assert (s + t)[1..] == s[1..] + t;
      var head := if p(s[0]) then [s[0]] else [];
      assert head + (Filter(p, s[1..]) + Filter(p, t)) == head + Filter(p, s[1..]) + Filter(p, t);
    }
  }

  lemma FilterNothing<T>(p: T -> bool, s: seq<T>)
    ensures Filter(p, s[|s|..]) == []
  {
  }

  /** The head of a sorted list is least, and the earliest of the least. */
  lemma {:induction false} FirstOfSort<T(!new)>(le: (T, T) -> bool, s: seq<T>) returns (k: nat)
    requires TotalPreorder(le) && s != []
    ensures k < |s| && Sort(le, s) != [] && Sort(le, s)[0] == s[k]
    ensures forall j | 0 <= j < |s| :: le(s[k], s[j])
    ensures forall j | 0 <= j < k :: !le(s[j], s[k])
  {
    if |s| == 1 {
      k := 0;
    } else {
      var m := FirstOfSort(le, s[1..]);
      assert forall j | 1 <= j < |s| :: s[j] == s[1..][j - 1];
      k := if le(s[0], s[m + 1]) then 0 else m + 1;
    }
  }

  lemma {:induction false} InsertFirstHit<T(!new)>(le: (T, T) -> bool, p: T -> bool, x: T, s: seq<T>)
    requires TotalPreorder(le) && SortedBy(le, s)
    ensures !p(x) ==> Filter(p, Insert(le, x, s)) == Filter(p, s)
    ensures p(x) ==> Filter(p, Insert(le, x, s)) != []
    ensures p(x) ==> var rest := Filter(p, s);
                     Filter(p, Insert(le, x, s))[0] == if rest == [] || le(x, rest[0]) then x else rest[0]
  {
    if s == [] || le(x, s[0]) {
      assert ([x] + s)[1..] == s;
      FirstHitMember(p, s);
    } else {
      InsertFirstHit(le, p, x, s[1..]);
      assert ([s[0]] + Insert(le, x, s[1..]))[1..] == Insert(le, x, s[1..]);
    }
  }

  lemma {:induction false} FirstHitMember<T>(p: T -> bool, s: seq<T>)
    ensures Filter(p, s) != [] ==> exists j :: 0 <= j < |s| && s[j] == Filter(p, s)[0]
  {
    if Filter(p, s) != [] {
      FilterMember(p, s, Filter(p, s)[0]);
    }
  }

  /** The first element of a sorted list with a property is least among those that have it, and the earliest of the
      least. */
  lemma {:induction false} FirstHitOfSort<T(!new)>(le: (T, T) -> bool, p: T -> bool, s: seq<T>) returns (k: nat)
    requires TotalPreorder(le) && exists x :: x in s && p(x)
    ensures k < |s| && p(s[k]) && Filter(p, Sort(le, s)) != [] && Filter(p, Sort(le, s))[0] == s[k]
    ensures forall j | 0 <= j < |s| && p(s[j]) :: le(s[k], s[j])
    ensures forall j | 0 <= j < k && p(s[j]) :: !le(s[j], s[k])
  {
    var rest := Sort(le, s[1..]);
    SortSorts(le, s[1..]);
    InsertFirstHit(le, p, s[0], rest);
    assert forall j | 1 <= j < |s| :: s[j] == s[1..][j - 1];
    if exists x :: x in s[1..] && p(x) {
      var m := FirstHitOfSort(le, p, s[1..]);
      k := if p(s[0]) && le(s[0], s[m + 1]) then 0 else m + 1;
    } else {
      k := 0;
      FirstHitMember(p, rest);
      SortMembers(le, s[1..]);
      if Filter(p, rest) != [] {
        FilterMember(p, rest, Filter(p, rest)[0]);
        assert false;
      }
    }
  }
}

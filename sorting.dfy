/**
 * The stable sort that `Array.prototype.sort` performs (ECMAScript 2019 and later) with the
 * comparators the hub passes: values are compared through a sort key, either a number
 * (a date, a score, a day count) or a string compared code unit by code unit.
 */
module Sorting {
  import opened Seqs

  datatype SortKey = NumKey(n: int) | TextKey(s: string)

  /** JavaScript's `<` on two strings: lexicographic, a proper prefix coming first. */
  predicate TextLess(a: string, b: string)
    decreases |a|
  {
    if |a| == 0 then |b| > 0
    else if |b| == 0 then false
    else if a[0] == b[0] then TextLess(a[1..], b[1..])
    else a[0] < b[0]
  }

  lemma {:induction false} TextLessIrreflexive(a: string)
    ensures !TextLess(a, a)
    decreases |a|
  {
    if |a| > 0 { TextLessIrreflexive(a[1..]); }
  }

  lemma {:induction false} TextLessTransitive(a: string, b: string, c: string)
    requires TextLess(a, b) && TextLess(b, c)
    ensures TextLess(a, c)
    decreases |a|
  {
    if |a| > 0 && |b| > 0 && |c| > 0 && a[0] == b[0] && b[0] == c[0] {
      TextLessTransitive(a[1..], b[1..], c[1..]);
    }
  }

  /** Strict order on keys; a comparator only ever compares keys of one kind. */
  predicate KeyLess(a: SortKey, b: SortKey)
  {
    match (a, b)
    case (NumKey(x), NumKey(y)) => x < y
    case (TextKey(x), TextKey(y)) => TextLess(x, y)
    case (NumKey(_), TextKey(_)) => true
    case (TextKey(_), NumKey(_)) => false
  }

  /** `a` goes strictly before `b` under the given direction. */
  predicate Precedes(a: SortKey, b: SortKey, desc: bool)
  {
    if desc then KeyLess(b, a) else KeyLess(a, b)
  }

  lemma {:induction false} PrecedesIrreflexive(a: SortKey, desc: bool)
    ensures !Precedes(a, a, desc)
  {
    if a.TextKey? { TextLessIrreflexive(a.s); }
  }

  lemma {:induction false} PrecedesTransitive(a: SortKey, b: SortKey, c: SortKey, desc: bool)
    requires Precedes(a, b, desc) && Precedes(b, c, desc)
    ensures Precedes(a, c, desc)
  {
    if a.TextKey? && b.TextKey? && c.TextKey? {
      if desc { TextLessTransitive(c.s, b.s, a.s); } else { TextLessTransitive(a.s, b.s, c.s); }
    }
  }

  /** No later element goes strictly before an earlier one. */
  ghost predicate SortedBy<T>(s: seq<T>, key: T -> SortKey, desc: bool)
  {
    forall i, j :: 0 <= i < j < |s| ==> !Precedes(key(s[j]), key(s[i]), desc)
  }

  /** In a sorted sequence an element whose key goes strictly first sits earlier. */
  lemma {:induction false} SortedOrder<T>(s: seq<T>, key: T -> SortKey, desc: bool, i: int, j: int)
    requires SortedBy(s, key, desc) && 0 <= i < |s| && 0 <= j < |s|
    requires Precedes(key(s[i]), key(s[j]), desc)
    ensures i < j
  {
    if i == j {
      PrecedesIrreflexive(key(s[i]), desc);
    }
  }

  /** The elements whose key is `k`, in order: a stable sort keeps this subsequence unchanged. */
  function WithKey<T>(s: seq<T>, key: T -> SortKey, k: SortKey): seq<T>
  {
    Filter(s, HasKey(key, k))
  }

  function HasKey<T>(key: T -> SortKey, k: SortKey): T -> bool
  {
    x => key(x) == k
  }

  /** Puts `x` after every element it does not strictly precede. */
  function Insert<T>(x: T, s: seq<T>, key: T -> SortKey, desc: bool): seq<T>
  {
    if s == [] then [x]
    else if Precedes(key(x), key(s[0]), desc) then [x] + s
    else [s[0]] + Insert(x, s[1..], key, desc)
  }

  /** Insertion sort from the left: each element is inserted after all equal-keyed ones before it. */
  function SortBy<T>(s: seq<T>, key: T -> SortKey, desc: bool): seq<T>
  {
    if s == [] then [] else Insert(s[|s| - 1], SortBy(s[..|s| - 1], key, desc), key, desc)
  }

  lemma {:induction false} InsertMultiset<T>(x: T, s: seq<T>, key: T -> SortKey, desc: bool)
    ensures multiset(Insert(x, s, key, desc)) == multiset(s) + multiset{x}
  {
    if s != [] && !Precedes(key(x), key(s[0]), desc) {
      InsertMultiset(x, s[1..], key, desc);
      assert s == [s[0]] + s[1..];
    }
  }

  lemma {:induction false} InsertSorted<T>(x: T, s: seq<T>, key: T -> SortKey, desc: bool)
    requires SortedBy(s, key, desc)
    ensures SortedBy(Insert(x, s, key, desc), key, desc)
  {
    if s == [] {
    } else if Precedes(key(x), key(s[0]), desc) {
      var r := [x] + s;
      forall i, j | 0 <= i < j < |r| ensures !Precedes(key(r[j]), key(r[i]), desc) {
        if i == 0 {
          if Precedes(key(r[j]), key(x), desc) {
            if j == 1 {
              PrecedesTransitive(key(s[0]), key(x), key(s[0]), desc);
              PrecedesIrreflexive(key(s[0]), desc);
            } else {
              PrecedesTransitive(key(r[j]), key(x), key(s[0]), desc);
            }
          }
        }
      }
    } else {
      var t := Insert(x, s[1..], key, desc);
      InsertSorted(x, s[1..], key, desc);
      InsertMultiset(x, s[1..], key, desc);
      var r := [s[0]] + t;
      forall i, j | 0 <= i < j < |r| ensures !Precedes(key(r[j]), key(r[i]), desc) {
        if i == 0 {
          assert r[j] in multiset(t);
          assert r[j] == x || r[j] in s[1..];
        }
      }
    }
  }

  lemma {:induction false} InsertWithKey<T>(x: T, s: seq<T>, key: T -> SortKey, desc: bool, k: SortKey)
    requires SortedBy(s, key, desc)
    ensures WithKey(Insert(x, s, key, desc), key, k)
         == WithKey(s, key, k) + (if key(x) == k then [x] else [])
  {
    if s == [] {
      InsertAtFrontWithKey(x, s, key, k);
    } else if Precedes(key(x), key(s[0]), desc) {
      assert Insert(x, s, key, desc) == [x] + s;
      if key(x) == k {
        FrontKeyAbsent(x, s, key, desc, k);
      }
      InsertAtFrontWithKey(x, s, key, k);
    } else {
      assert SortedBy(s[1..], key, desc);
      InsertWithKey(x, s[1..], key, desc, k);
      InsertLaterWithKey(x, s, key, desc, k);
    }
  }

  /** The elements of a sorted list all have keys `x` does not strictly precede, when `x` precedes the first. */
  lemma {:induction false} FrontKeyAbsent<T>(x: T, s: seq<T>, key: T -> SortKey, desc: bool, k: SortKey)
    requires SortedBy(s, key, desc) && s != [] && Precedes(key(x), key(s[0]), desc) && key(x) == k
    ensures WithKey(s, key, k) == []
  {
    var p := HasKey(key, k);
    forall y | y in s ensures !p(y) {
      var j :| 0 <= j < |s| && s[j] == y;
      if j == 0 {
        PrecedesIrreflexive(key(s[0]), desc);
      }
    }
    FilterNone(s, p);
  }

  lemma {:induction false} InsertAtFrontWithKey<T>(x: T, s: seq<T>, key: T -> SortKey, k: SortKey)
    ensures WithKey([x] + s, key, k) == (if key(x) == k then [x] else []) + WithKey(s, key, k)
  {
    var p := HasKey(key, k);
    FilterAppend([x], s, p);
    assert Filter([x], p) == (if p(x) then [x] else []) + Filter([x][1..], p);
  }

  lemma {:induction false} InsertLaterWithKey<T>(x: T, s: seq<T>, key: T -> SortKey, desc: bool, k: SortKey)
    requires s != [] && !Precedes(key(x), key(s[0]), desc)
    requires WithKey(Insert(x, s[1..], key, desc), key, k)
          == WithKey(s[1..], key, k) + (if key(x) == k then [x] else [])
    ensures WithKey(Insert(x, s, key, desc), key, k)
         == WithKey(s, key, k) + (if key(x) == k then [x] else [])
  {
    assert Insert(x, s, key, desc) == [s[0]] + Insert(x, s[1..], key, desc);
    InsertAtFrontWithKey(s[0], Insert(x, s[1..], key, desc), key, k);
    InsertAtFrontWithKey(s[0], s[1..], key, k);
    assert [s[0]] + s[1..] == s;
  }

  lemma {:induction false} SortByCorrect<T>(s: seq<T>, key: T -> SortKey, desc: bool)
    ensures multiset(SortBy(s, key, desc)) == multiset(s)
    ensures SortedBy(SortBy(s, key, desc), key, desc)
  {
    if s != [] {
      var init := s[..|s| - 1];
      SortByCorrect(init, key, desc);
      InsertMultiset(s[|s| - 1], SortBy(init, key, desc), key, desc);
      InsertSorted(s[|s| - 1], SortBy(init, key, desc), key, desc);
      assert s == init + [s[|s| - 1]];
    }
  }

  /** Sorting keeps exactly the elements it was given. */
  lemma {:induction false} SortByMembers<T>(s: seq<T>, key: T -> SortKey, desc: bool)
    ensures forall x :: x in SortBy(s, key, desc) <==> x in s
  {
    SortByCorrect(s, key, desc);
    forall x ensures x in SortBy(s, key, desc) <==> x in s {
      assert x in SortBy(s, key, desc) <==> multiset(SortBy(s, key, desc))[x] > 0;
      assert x in s <==> multiset(s)[x] > 0;
    }
  }

  /** Stability: for every key, elements carrying it come out in their input order. */
  lemma {:induction false} SortByStable<T>(s: seq<T>, key: T -> SortKey, desc: bool, k: SortKey)
    ensures WithKey(SortBy(s, key, desc), key, k) == WithKey(s, key, k)
  {
    if s != [] {
      var init := s[..|s| - 1];
      var x := s[|s| - 1];
      SortByStable(init, key, desc, k);
      SortByCorrect(init, key, desc);
      InsertWithKey(x, SortBy(init, key, desc), key, desc, k);
      assert s == init + [x];
      FilterSnoc(init, x, HasKey(key, k));
    }
  }
}

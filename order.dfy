/** Orderings used by the console's sorts.  String comparison (`localeCompare`)
    is modelled by the lexicographic order on character codes, a total order;
    every sort in the source is `Array.prototype.sort` with a comparator, which
    is stable, so the model sorts with a stable insertion sort over sort keys. */
module Order {

  // ---------------------------------------------------------------------------
  // The string order standing for localeCompare

  predicate StrLe(a: string, b: string)
    decreases |a|
  {
    |a| == 0 || (|b| > 0 && (a[0] < b[0] || (a[0] == b[0] && StrLe(a[1..], b[1..]))))
  }

  lemma {:induction false} StrLeTotal(a: string, b: string)
    ensures StrLe(a, b) || StrLe(b, a)
    decreases |a|
  {
    if |a| > 0 && |b| > 0 && a[0] == b[0] {
      StrLeTotal(a[1..], b[1..]);
    }
  }

  lemma {:induction false} StrLeAntisymmetric(a: string, b: string)
    requires StrLe(a, b) && StrLe(b, a)
    ensures a == b
    decreases |a|
  {
    if |a| > 0 {
      StrLeAntisymmetric(a[1..], b[1..]);
      assert a == [a[0]] + a[1..] && b == [b[0]] + b[1..];
    }
  }

  lemma {:induction false} StrLeTransitive(a: string, b: string, c: string)
    requires StrLe(a, b) && StrLe(b, c)
    ensures StrLe(a, c)
    decreases |a|
  {
    if |a| > 0 && a[0] == b[0] && b[0] == c[0] {
      StrLeTransitive(a[1..], b[1..], c[1..]);
    }
  }

  // ---------------------------------------------------------------------------
  // Sort keys: a comparator's view of an element

  /** A key component: compared numerically (`a - b`) or as text. */
  datatype Part = Num(n: int) | Text(s: string)

  predicate PartLe(a: Part, b: Part) {
    match (a, b)
    case (Num(x), Num(y)) => x <= y
    case (Text(x), Text(y)) => StrLe(x, y)
    case (Num(_), Text(_)) => true
    case (Text(_), Num(_)) => false
  }

  /** A key compares its major part first and breaks ties on the minor number. */
  datatype Key = Key(major: Part, minor: int)

  predicate KeyLe(a: Key, b: Key) {
    if a.major == b.major then a.minor <= b.minor else PartLe(a.major, b.major)
  }

  lemma PartLeTotal(a: Part, b: Part)
    ensures PartLe(a, b) || PartLe(b, a)
  {
    if a.Text? && b.Text? {
      StrLeTotal(a.s, b.s);
    }
  }

  lemma PartLeAntisymmetric(a: Part, b: Part)
    requires PartLe(a, b) && PartLe(b, a)
    ensures a == b
  {
    if a.Text? && b.Text? {
      StrLeAntisymmetric(a.s, b.s);
    }
  }

  lemma PartLeTransitive(a: Part, b: Part, c: Part)
    requires PartLe(a, b) && PartLe(b, c)
    ensures PartLe(a, c)
  {
    if a.Text? && b.Text? && c.Text? {
      StrLeTransitive(a.s, b.s, c.s);
    }
  }

  /** KeyLe is a total preorder (a total order on keys). */
  lemma KeyLeTotal(a: Key, b: Key)
    ensures KeyLe(a, b) || KeyLe(b, a)
  {
    PartLeTotal(a.major, b.major);
  }

  lemma KeyLeAntisymmetric(a: Key, b: Key)
    requires KeyLe(a, b) && KeyLe(b, a)
    ensures a == b
  {
    if a.major != b.major {
      PartLeAntisymmetric(a.major, b.major);
    }
  }

  lemma KeyLeTransitive(a: Key, b: Key, c: Key)
    requires KeyLe(a, b) && KeyLe(b, c)
    ensures KeyLe(a, c)
  {
    if a.major != b.major && b.major != c.major {
      PartLeTransitive(a.major, b.major, c.major);
      if a.major == c.major {
        PartLeAntisymmetric(a.major, b.major);
      }
    }
  }

  // ---------------------------------------------------------------------------
  // Directions and the stable sort

  datatype Direction = Asc | Desc

  function Flip(d: Direction): Direction {
    if d == Asc then Desc else Asc
  }

  /** `a` may come before `b`: the comparator returns a value <= 0.  Descending
      swaps the arguments of the ascending comparison, as `bValue - aValue` and
      `String(bValue).localeCompare(String(aValue))` do. */
  predicate Precedes(a: Key, b: Key, d: Direction) {
    if d == Asc then KeyLe(a, b) else KeyLe(b, a)
  }

  lemma PrecedesTotal(a: Key, b: Key, d: Direction)
    ensures Precedes(a, b, d) || Precedes(b, a, d)
  {
    KeyLeTotal(a, b);
  }

  lemma PrecedesTransitive(a: Key, b: Key, c: Key, d: Direction)
    requires Precedes(a, b, d) && Precedes(b, c, d)
    ensures Precedes(a, c, d)
  {
    if d == Asc {
      KeyLeTransitive(a, b, c);
    } else {
      KeyLeTransitive(c, b, a);
    }
  }

  ghost predicate SortedBy<T>(s: seq<T>, key: T -> Key, d: Direction) {
    forall i, j :: 0 <= i < j < |s| ==> Precedes(key(s[i]), key(s[j]), d)
  }

  /** Inserts `x` before the first element it precedes. */
  function Insert<T>(x: T, s: seq<T>, key: T -> Key, d: Direction): (r: seq<T>)
    ensures multiset(r) == multiset(s) + multiset{x}
    ensures SortedBy(s, key, d) ==> SortedBy(r, key, d)
    decreases |s|
  {
    if s == [] || Precedes(key(x), key(s[0]), d) then
      InsertFrontSorted(x, s, key, d);
      [x] + s
    else
      var rest := Insert(x, s[1..], key, d);
      assert s == [s[0]] + s[1..];
      InsertBehindSorted(x, s, rest, key, d);
      [s[0]] + rest
  }

  lemma InsertFrontSorted<T>(x: T, s: seq<T>, key: T -> Key, d: Direction)
    requires s == [] || Precedes(key(x), key(s[0]), d)
    ensures SortedBy(s, key, d) ==> SortedBy([x] + s, key, d)
  {
    if SortedBy(s, key, d) && s != [] {
      var r := [x] + s;
      forall i, j | 0 <= i < j < |r| ensures Precedes(key(r[i]), key(r[j]), d) {
        if i == 0 && j > 1 {
          PrecedesTransitive(key(x), key(s[0]), key(s[j - 1]), d);
        }
      }
    }
  }

  lemma InsertBehindSorted<T>(x: T, s: seq<T>, rest: seq<T>, key: T -> Key, d: Direction)
    requires s != [] && !Precedes(key(x), key(s[0]), d)
    requires multiset(rest) == multiset(s[1..]) + multiset{x}
    requires SortedBy(s[1..], key, d) ==> SortedBy(rest, key, d)
    ensures SortedBy(s, key, d) ==> SortedBy([s[0]] + rest, key, d)
  {
    if SortedBy(s, key, d) {
      PrecedesTotal(key(x), key(s[0]), d);
      var r := [s[0]] + rest;
      forall j | 0 <= j < |rest| ensures Precedes(key(s[0]), key(rest[j]), d) {
        assert rest[j] in multiset(rest);
        if rest[j] != x {
          assert rest[j] in multiset(s[1..]);
          var k :| 0 <= k < |s[1..]| && s[1..][k] == rest[j];
          assert s[k + 1] == rest[j];
        }
      }
      forall i, j | 0 <= i < j < |r| ensures Precedes(key(r[i]), key(r[j]), d) {
        if i > 0 {
          assert r[i] == rest[i - 1] && r[j] == rest[j - 1];
        }
      }
    }
  }

  /** A stable sort of `s` by `key` in direction `d`. */
  function SortBy<T>(s: seq<T>, key: T -> Key, d: Direction): (r: seq<T>)
    ensures multiset(r) == multiset(s)
    ensures SortedBy(r, key, d)
    decreases |s|
  {
    if s == [] then []
    else
      assert s == [s[0]] + s[1..];
      Insert(s[0], SortBy(s[1..], key, d), key, d)
  }

  lemma SortByLength<T>(s: seq<T>, key: T -> Key, d: Direction)
    ensures |SortBy(s, key, d)| == |s|
  {
    assert |multiset(SortBy(s, key, d))| == |multiset(s)|;
  }

  /** The elements of `s` whose key is `k`, in their order in `s`. */
  function WithKey<T>(s: seq<T>, key: T -> Key, k: Key): seq<T>
    decreases |s|
  {
    if s == [] then [] else (if key(s[0]) == k then [s[0]] else []) + WithKey(s[1..], key, k)
  }

  /** Inserting `x` puts it in front of every element that shares its key. */
  lemma {:induction false} InsertWithKey<T>(x: T, s: seq<T>, key: T -> Key, d: Direction, k: Key)
    ensures WithKey(Insert(x, s, key, d), key, k) == (if key(x) == k then [x] else []) + WithKey(s, key, k)
    decreases |s|
  {
    if s == [] || Precedes(key(x), key(s[0]), d) {
      assert ([x] + s)[1..] == s;
    } else {
      KeyLeTotal(key(x), key(x));
      assert key(s[0]) != key(x);
      InsertWithKey(x, s[1..], key, d, k);
      var rest := Insert(x, s[1..], key, d);
      assert ([s[0]] + rest)[1..] == rest;
    }
  }

  /** The sort is stable: the elements of each key keep their input order. */
  lemma {:induction false} SortByStable<T>(s: seq<T>, key: T -> Key, d: Direction, k: Key)
    ensures WithKey(SortBy(s, key, d), key, k) == WithKey(s, key, k)
    decreases |s|
  {
    if s != [] {
      SortByStable(s[1..], key, d, k);
      InsertWithKey(s[0], SortBy(s[1..], key, d), key, d, k);
    }
  }

  /** The sorted copy holds exactly the elements of `s`. */
  lemma SortByMembers<T>(s: seq<T>, key: T -> Key, d: Direction)
    ensures forall x :: x in SortBy(s, key, d) <==> x in s
  {
    var r := SortBy(s, key, d);
    forall x ensures x in r <==> x in s {
      assert x in r <==> x in multiset(r);
      assert x in s <==> x in multiset(s);
    }
  }

  function Reverse<T>(s: seq<T>): (r: seq<T>)
    ensures |r| == |s|
    ensures forall i :: 0 <= i < |s| ==> r[i] == s[|s| - 1 - i]
    decreases |s|
  {
    if s == [] then [] else Reverse(s[1..]) + [s[0]]
  }

  lemma {:induction false} ReverseMultiset<T>(s: seq<T>)
    ensures multiset(Reverse(s)) == multiset(s)
    decreases |s|
  {
    if s != [] {
      ReverseMultiset(s[1..]);
      assert s == [s[0]] + s[1..];
    }
  }

  /** Reversing a sorted sequence sorts it the other way. */
  lemma ReverseSorted<T>(s: seq<T>, key: T -> Key, d: Direction)
    requires SortedBy(s, key, d)
    ensures SortedBy(Reverse(s), key, Flip(d))
  {
    var r := Reverse(s);
    forall i, j | 0 <= i < j < |r| ensures Precedes(key(r[i]), key(r[j]), Flip(d)) {
      assert Precedes(key(s[|s| - 1 - j]), key(s[|s| - 1 - i]), d);
    }
  }

  /** No two different elements share a key. */
  ghost predicate KeyInjective<T>(s: seq<T>, key: T -> Key) {
    forall x, y :: x in s && y in s && key(x) == key(y) ==> x == y
  }

  lemma SortedTail<T>(a: seq<T>, key: T -> Key, d: Direction)
    requires a != [] && SortedBy(a, key, d)
    ensures SortedBy(a[1..], key, d)
  {
    forall i, j | 0 <= i < j < |a[1..]| ensures Precedes(key(a[1..][i]), key(a[1..][j]), d) {
      assert a[1..][i] == a[i + 1] && a[1..][j] == a[j + 1];
    }
  }

  lemma TailMultiset<T>(a: seq<T>)
    requires a != []
    ensures multiset(a[1..]) == multiset(a) - multiset{a[0]}
    ensures forall x :: x in a[1..] ==> x in a
  {
    assert a == [a[0]] + a[1..];
  }

  /** The first element of a sorted sequence precedes every element. */
  lemma FirstPrecedes<T>(a: seq<T>, key: T -> Key, d: Direction, i: nat)
    requires i < |a| && SortedBy(a, key, d)
    ensures Precedes(key(a[0]), key(a[i]), d)
  {
    if i == 0 {
      KeyLeTotal(key(a[0]), key(a[0]));
    }
  }

  /** With distinct keys, a sequence has only one sorted arrangement. */
  lemma {:induction false} SortedUnique<T>(a: seq<T>, b: seq<T>, key: T -> Key, d: Direction)
    requires multiset(a) == multiset(b)
    requires SortedBy(a, key, d) && SortedBy(b, key, d)
    requires KeyInjective(a, key)
    ensures a == b
    decreases |a|
  {
    assert |a| == |multiset(a)| == |multiset(b)| == |b|;
    if a != [] {
      SameFirst(a, b, key, d);
      TailMultiset(a);
      TailMultiset(b);
      InjectiveTail(a, key);
      SortedTail(a, key, d);
      SortedTail(b, key, d);
      SortedUnique(a[1..], b[1..], key, d);
      HeadTailEqual(a, b);
    }
  }

  lemma InjectiveTail<T>(a: seq<T>, key: T -> Key)
    requires a != [] && KeyInjective(a, key)
    ensures KeyInjective(a[1..], key)
  {
    TailMultiset(a);
  }

  lemma HeadTailEqual<T>(a: seq<T>, b: seq<T>)
    requires a != [] && b != [] && a[0] == b[0] && a[1..] == b[1..]
    ensures a == b
  {
    assert a == [a[0]] + a[1..] && b == [b[0]] + b[1..];
  }

  /** Two sorted arrangements of the same elements with distinct keys start alike. */
  lemma SameFirst<T>(a: seq<T>, b: seq<T>, key: T -> Key, d: Direction)
    requires a != [] && b != [] && multiset(a) == multiset(b)
    requires SortedBy(a, key, d) && SortedBy(b, key, d)
    requires KeyInjective(a, key)
    ensures a[0] == b[0]
  {
    assert b[0] in multiset(a) && a[0] in multiset(b);
    var i :| 0 <= i < |a| && a[i] == b[0];
    var j :| 0 <= j < |b| && b[j] == a[0];
    FirstPrecedes(a, key, d, i);
    FirstPrecedes(b, key, d, j);
    KeyLeAntisymmetric(key(a[0]), key(b[0]));
  }

  /** When no two different elements share a key, sorting descending gives
      the ascending order reversed. */
  lemma DescendingIsReversed<T>(s: seq<T>, key: T -> Key)
    requires KeyInjective(s, key)
    ensures SortBy(s, key, Desc) == Reverse(SortBy(s, key, Asc))
  {
    var up := SortBy(s, key, Asc);
    var down := SortBy(s, key, Desc);
    ReverseSorted(up, key, Asc);
    ReverseMultiset(up);
    assert KeyInjective(down, key) by {
      forall x, y | x in down && y in down && key(x) == key(y) ensures x == y {
        assert x in multiset(down) && y in multiset(down);
        assert x in s && y in s;
      }
    }
    SortedUnique(down, Reverse(up), key, Desc);
  }

  /** With two elements of the same key, both directions keep them in input
      order, so descending is then not the reverse of ascending. */
  lemma TiesKeepInputOrder<T>(x: T, y: T, key: T -> Key)
    requires x != y && key(x) == key(y)
    ensures SortBy([x, y], key, Asc) == [x, y]
    ensures SortBy([x, y], key, Desc) == [x, y]
    ensures SortBy([x, y], key, Desc) != Reverse(SortBy([x, y], key, Asc))
  {
    KeyLeTotal(key(x), key(x));
    assert [x, y][1..] == [y];
    assert SortBy([y], key, Asc) == [y] by { assert [y][1..] == []; }
    assert SortBy([y], key, Desc) == [y] by { assert [y][1..] == []; }
    assert Reverse([x, y]) == [y, x];
  }

  // ---------------------------------------------------------------------------
  // The column-header toggle shared by both tables

  datatype SortState<F> = SortState(field: F, direction: Direction)

  /** handleSort: the current field flips its direction, another field is
      selected in ascending order. */
  function NextSort<F(==)>(s: SortState<F>, field: F): (r: SortState<F>)
    ensures r.field == field
    ensures field == s.field ==> r.direction != s.direction
    ensures field != s.field ==> r.direction == Asc
  {
    if field == s.field then SortState(field, Flip(s.direction)) else SortState(field, Asc)
  }

  /** Clicking the same header twice restores the previous state. */
  lemma NextSortTwice<F>(s: SortState<F>)
    ensures NextSort(NextSort(s, s.field), s.field) == s
  {
  }

  /** Clicking a new header twice ends in descending order on that header. */
  lemma NextSortNewFieldTwice<F>(s: SortState<F>, field: F)
    requires field != s.field
    ensures NextSort(NextSort(s, field), field) == SortState(field, Desc)
  {
  }
}

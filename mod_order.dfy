/** `sortById`: the mod list is sorted in place by id before it is displayed. */
module ModOrder {
  import opened Mods

  /** The UTF-16 code units of one character: the character itself, or a surrogate pair above U+FFFF. */
  function CodeUnits(c: char): (r: seq<int>)
    ensures |r| == 1 <==> c as int < 0x1_0000
    ensures |r| == 1 || |r| == 2
    ensures |r| == 1 ==> r[0] == c as int && (r[0] < 0xD800 || 0xE000 <= r[0])
    ensures |r| == 2 ==> 0xD800 <= r[0] < 0xDC00 && 0xDC00 <= r[1] < 0xE000
  {
    var cp := c as int;
    if cp < 0x1_0000 then [cp]
    else [0xD800 + (cp - 0x1_0000) / 0x400, 0xDC00 + (cp - 0x1_0000) % 0x400]
  }

  /** A string as JavaScript stores it: its UTF-16 code units. */
  function Utf16(s: string): seq<int>
  {
    if s == [] then [] else CodeUnits(s[0]) + Utf16(s[1..])
  }

  /** Two characters with the same code units are the same character. */
  lemma CodeUnitsInjective(x: char, y: char)
    requires CodeUnits(x) == CodeUnits(y)
    ensures x == y
  {
    if x as int >= 0x1_0000 {
      var p, q := x as int - 0x1_0000, y as int - 0x1_0000;
      assert p / 0x400 == q / 0x400 && p % 0x400 == q % 0x400;
      assert p == 0x400 * (p / 0x400) + p % 0x400;
      assert q == 0x400 * (q / 0x400) + q % 0x400;
    }
  }

  /** Different strings have different code units. */
  lemma {:induction false} Utf16Injective(a: string, b: string)
    requires Utf16(a) == Utf16(b)
    ensures a == b
    decreases |a|
  {
    if a != [] && b != [] {
      var x, y := CodeUnits(a[0]), CodeUnits(b[0]);
      assert Utf16(a) == x + Utf16(a[1..]) && Utf16(b) == y + Utf16(b[1..]);
      assert Utf16(a)[0] == x[0] && Utf16(b)[0] == y[0];
      assert |x| == |y|;
      if |x| == 2 {
        assert Utf16(a)[1] == x[1] && Utf16(b)[1] == y[1];
      }
      assert x == y;
      CodeUnitsInjective(a[0], b[0]);
      assert Utf16(a)[|x|..] == Utf16(a[1..]) && Utf16(b)[|y|..] == Utf16(b[1..]);
      Utf16Injective(a[1..], b[1..]);
      assert a == [a[0]] + a[1..] && b == [b[0]] + b[1..];
    }
  }

  /** Lexicographic order on code units, a proper prefix first. */
  predicate UnitsLess(a: seq<int>, b: seq<int>)
    decreases |a|
  {
    if |a| == 0 then |b| > 0
    else if |b| == 0 then false
    else if a[0] != b[0] then a[0] < b[0]
    else UnitsLess(a[1..], b[1..])
  }

  lemma {:induction false} UnitsLessIrreflexive(a: seq<int>)
    ensures !UnitsLess(a, a)
    decreases |a|
  {
    if |a| > 0 {
      UnitsLessIrreflexive(a[1..]);
    }
  }

  lemma {:induction false} UnitsLessAsymmetric(a: seq<int>, b: seq<int>)
    ensures UnitsLess(a, b) ==> !UnitsLess(b, a)
    decreases |a|
  {
    if |a| > 0 && |b| > 0 && a[0] == b[0] {
      UnitsLessAsymmetric(a[1..], b[1..]);
    }
  }

  lemma {:induction false} UnitsLessTotal(a: seq<int>, b: seq<int>)
    ensures a == b || UnitsLess(a, b) || UnitsLess(b, a)
    decreases |a|
  {
    if |a| > 0 && |b| > 0 && a[0] == b[0] {
      UnitsLessTotal(a[1..], b[1..]);
      if a[1..] == b[1..] {
        assert a == [a[0]] + a[1..] && b == [b[0]] + b[1..];
      }
    }
  }

  lemma {:induction false} UnitsLessTransitive(a: seq<int>, b: seq<int>, c: seq<int>)
    requires UnitsLess(a, b) && UnitsLess(b, c)
    ensures UnitsLess(a, c)
    decreases |a|
  {
    if |a| > 0 && a[0] == b[0] && b[0] == c[0] {
      UnitsLessTransitive(a[1..], b[1..], c[1..]);
    }
  }

  /** JavaScript's `a < b` on strings: UTF-16 code unit by code unit, a proper prefix first. */
  predicate IdLess(a: string, b: string)
  {
    UnitsLess(Utf16(a), Utf16(b))
  }

  lemma IdLessIrreflexive(a: string)
    ensures !IdLess(a, a)
  {
    UnitsLessIrreflexive(Utf16(a));
  }

  lemma IdLessAsymmetric(a: string, b: string)
    ensures IdLess(a, b) ==> !IdLess(b, a)
  {
    UnitsLessAsymmetric(Utf16(a), Utf16(b));
  }

  /** Two different strings are ordered one way or the other. */
  lemma IdLessTotal(a: string, b: string)
    ensures a == b || IdLess(a, b) || IdLess(b, a)
  {
    UnitsLessTotal(Utf16(a), Utf16(b));
    if Utf16(a) == Utf16(b) {
      Utf16Injective(a, b);
    }
  }

  lemma IdLessTransitive(a: string, b: string, c: string)
    requires IdLess(a, b) && IdLess(b, c)
    ensures IdLess(a, c)
  {
    UnitsLessTransitive(Utf16(a), Utf16(b), Utf16(c));
  }

  /**
   * Code units, not code points: an emoji (stored as a surrogate pair from
   * U+D83D) sorts before a fullwidth exclamation mark U+FF01.
   */
  lemma SurrogatePairSortsLow()
    ensures IdLess("\U{1F600}", "\U{FF01}")
    ensures "\U{FF01}"[0] as int < "\U{1F600}"[0] as int
  {
    assert Utf16("\U{1F600}") == [0xD83D, 0xDE00] + Utf16([]);
    assert Utf16("\U{FF01}") == [0xFF01] + Utf16([]);
  }

  /** The comparator passed to `mods.sort`. */
  function CompareById(a: Mod, b: Mod): (r: int)
    ensures r == 0 <==> a.id == b.id
    ensures r == 1 <==> IdLess(b.id, a.id)
    ensures r == -1 <==> IdLess(a.id, b.id)
  {
    IdLessIrreflexive(a.id);
    IdLessAsymmetric(a.id, b.id);
    IdLessTotal(a.id, b.id);
    if IdLess(b.id, a.id) then 1
    else if IdLess(a.id, b.id) then -1
    else 0
  }

  /** The comparator is antisymmetric, as `Array.prototype.sort` expects. */
  lemma CompareAntisymmetric(a: Mod, b: Mod)
    ensures CompareById(a, b) == -CompareById(b, a)
  {
  }

  /** The comparator's "not after" is transitive, as `Array.prototype.sort` expects. */
  lemma CompareTransitive(a: Mod, b: Mod, c: Mod)
    requires CompareById(a, b) <= 0 && CompareById(b, c) <= 0
    ensures CompareById(a, c) <= 0
  {
    if IdLess(a.id, b.id) && IdLess(b.id, c.id) {
      IdLessTransitive(a.id, b.id, c.id);
    }
  }

  /** Every mod comes no later, by the comparator, than the ones after it. */
  ghost predicate SortedById(s: seq<Mod>)
  {
    forall p, q :: 0 <= p < q < |s| ==> CompareById(s[p], s[q]) <= 0
  }

  /** The first `n` mods are in order. */
  ghost predicate SortedPrefix(s: seq<Mod>, n: nat)
  {
    forall p, q :: 0 <= p < q < n && q < |s| ==> CompareById(s[p], s[q]) <= 0
  }

  /** `sortById`, with an insertion sort standing for the engine's own sort algorithm. */
  method SortById(mods: array<Mod>)
    modifies mods
    ensures SortedById(mods[..])
    ensures multiset(mods[..]) == multiset(old(mods[..]))
  {
    var i := 0;
    while i < mods.Length
      invariant 0 <= i <= mods.Length
      invariant SortedPrefix(mods[..], i)
      invariant multiset(mods[..]) == multiset(old(mods[..]))
    {
      Insert(mods, i);
      i := i + 1;
    }
  }

  /** Moves `mods[i]` left into the sorted prefix `mods[..i]`. */
  method Insert(mods: array<Mod>, i: nat)
    requires i < mods.Length
    requires SortedPrefix(mods[..], i)
    modifies mods
    ensures SortedPrefix(mods[..], i + 1)
    ensures multiset(mods[..]) == multiset(old(mods[..]))
  {
    var j := i;
    SiftStart(mods[..], i);
    while j > 0 && CompareById(mods[j - 1], mods[j]) > 0
      invariant 0 <= j <= i < mods.Length
      invariant Sifting(mods[..], i, j)
      invariant multiset(mods[..]) == multiset(old(mods[..]))
    {
      ghost var before := mods[..];
      mods[j - 1], mods[j] := mods[j], mods[j - 1];
      assert mods[..] == Swapped(before, j);
      SiftStep(before, i, j);
      j := j - 1;
    }
    SiftDone(mods[..], i, j);
  }

  /** `s` with the mods at `j - 1` and `j` exchanged. */
  function Swapped(s: seq<Mod>, j: nat): (r: seq<Mod>)
    requires 0 < j < |s|
    ensures |r| == |s| && r[j - 1] == s[j] && r[j] == s[j - 1]
    ensures forall k :: 0 <= k < |s| && k != j - 1 && k != j ==> r[k] == s[k]
    ensures multiset(r) == multiset(s)
  {
    s[j - 1 := s[j]][j := s[j - 1]]
  }

  /** Sifting starts with the new mod where it is and nothing passed. */
  lemma SiftStart(s: seq<Mod>, i: nat)
    requires i < |s| && SortedPrefix(s, i)
    ensures Sifting(s, i, i)
  {
  }

  /**
   * Sifting the mod at `j` left through `s[..i + 1]`: the others are in order,
   * and the one at `j` comes strictly before everything it has passed.
   */
  ghost predicate Sifting(s: seq<Mod>, i: nat, j: nat)
    requires j <= i < |s|
  {
    && (forall p, q :: 0 <= p < q <= i && p != j && q != j ==> CompareById(s[p], s[q]) <= 0)
    && (forall q :: j < q <= i ==> CompareById(s[j], s[q]) < 0)
  }

  /** One swap with a left neighbour that comes after it moves the sifted mod one place left. */
  lemma SiftStep(s: seq<Mod>, i: nat, j: nat)
    requires 0 < j <= i < |s|
    requires Sifting(s, i, j) && CompareById(s[j - 1], s[j]) > 0
    ensures Sifting(Swapped(s, j), i, j - 1)
  {
    CompareAntisymmetric(s[j - 1], s[j]);
  }

  /** Sifting ends sorted once the left neighbour does not come after the sifted mod. */
  lemma SiftDone(s: seq<Mod>, i: nat, j: nat)
    requires j <= i < |s|
    requires Sifting(s, i, j) && (j == 0 || CompareById(s[j - 1], s[j]) <= 0)
    ensures SortedPrefix(s, i + 1)
  {
    forall p, q | 0 <= p < q <= i
      ensures CompareById(s[p], s[q]) <= 0
    {
      if q == j && p < j - 1 {
        CompareTransitive(s[p], s[j - 1], s[j]);
      }
    }
  }
}

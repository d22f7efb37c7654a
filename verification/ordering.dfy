/**
 * The stable sort of excel_to_json.py:167-171: surviving songs are
 * ordered by taste, then mood, then (only when some surviving song has a
 * rank) by rank with absent ranks last, and rows with equal keys keep
 * their sheet order. The sort is modelled as a stable insertion sort;
 * `Ordered` together with the permutation property pins down the unique
 * result any stable sort produces (`SortUnique`).
 */
module Ordering {
  import opened Wrappers
  import opened Strings
  import opened Tracks

  /** Rank order with `na_position="last"`: a present rank comes before an absent one. */
  predicate RankLess(a: Option<int>, b: Option<int>) {
    a.Some? && (b.None? || a.value < b.value)
  }

  /** The sort key order: taste, then mood, then rank when `byRank` is set. */
  predicate Before(x: Song, y: Song, byRank: bool) {
    StrLess(x.taste, y.taste)
    || (x.taste == y.taste
        && (StrLess(x.mood, y.mood) || (x.mood == y.mood && byRank && RankLess(x.rank, y.rank))))
  }

  lemma StrLessAsymmetric(a: string, b: string)
    requires StrLess(a, b)
    ensures !StrLess(b, a)
  {
    if StrLess(b, a) {
      StrLessTransitive(a, b, a);
      StrLessIrreflexive(a);
    }
  }

  lemma BeforeAsymmetric(x: Song, y: Song, byRank: bool)
    requires Before(x, y, byRank)
    ensures !Before(y, x, byRank)
  {
    if StrLess(x.taste, y.taste) {
      StrLessAsymmetric(x.taste, y.taste);
      StrLessIrreflexive(x.taste);
    } else if StrLess(x.mood, y.mood) {
      StrLessAsymmetric(x.mood, y.mood);
      StrLessIrreflexive(x.taste);
    } else {
      StrLessIrreflexive(x.taste);
      StrLessIrreflexive(x.mood);
    }
  }

  /** For a strict total order on strings: whatever `b` is, `a < c` puts `b` above `a` or below `c`. */
  lemma StrLessSplit(a: string, b: string, c: string)
    requires StrLess(a, c)
    ensures StrLess(a, b) || StrLess(b, c)
  {
    StrLessTotal(a, b);
    if StrLess(b, a) {
      StrLessTransitive(b, a, c);
    }
  }

  /**
   * The key order is a strict weak order: whenever `x` sorts before `z`,
   * any `y` sorts after `x` or before `z`.
   */
  lemma BeforeSplit(x: Song, y: Song, z: Song, byRank: bool)
    requires Before(x, z, byRank)
    ensures Before(x, y, byRank) || Before(y, z, byRank)
  {
    if StrLess(x.taste, z.taste) {
      StrLessSplit(x.taste, y.taste, z.taste);
      if !StrLess(x.taste, y.taste) && !StrLess(y.taste, z.taste) {
        assert false;
      }
    } else {
      assert x.taste == z.taste;
      StrLessTotal(x.taste, y.taste);
      if x.taste == y.taste {
        if StrLess(x.mood, z.mood) {
          StrLessSplit(x.mood, y.mood, z.mood);
        } else {
          StrLessTotal(x.mood, y.mood);
        }
      }
    }
  }

  /** `!Before` is transitive: the contrapositive of `BeforeSplit`. */
  lemma NotBeforeTransitive(x: Song, y: Song, z: Song, byRank: bool)
    requires !Before(x, y, byRank) && !Before(y, z, byRank)
    ensures !Before(x, z, byRank)
  {
    if Before(x, z, byRank) {
      BeforeSplit(x, y, z, byRank);
    }
  }

  /** Inserts `x` after every element it does not sort before, so it lands after its equals. */
  function Insert(x: Song, t: seq<Song>, byRank: bool): (r: seq<Song>)
    ensures |r| == |t| + 1
    decreases |t|
  {
    if t == [] then [x]
    else if Before(x, t[|t| - 1], byRank) then Insert(x, t[..|t| - 1], byRank) + [t[|t| - 1]]
    else t + [x]
  }

  /** `sort_values(keys, kind="stable")`: each row is inserted after the rows before it in the sheet. */
  function Sort(s: seq<Song>, byRank: bool): (r: seq<Song>)
    ensures |r| == |s|
  {
    if s == [] then [] else Insert(s[|s| - 1], Sort(s[..|s| - 1], byRank), byRank)
  }

  lemma InsertBefore(x: Song, t: seq<Song>, y: Song, byRank: bool)
    requires Before(x, y, byRank)
    ensures Insert(x, t + [y], byRank) == Insert(x, t, byRank) + [y]
  {
    assert (t + [y])[..|t|] == t;
  }

  lemma InsertAfter(x: Song, t: seq<Song>, y: Song, byRank: bool)
    requires !Before(x, y, byRank)
    ensures Insert(x, t + [y], byRank) == t + [y] + [x]
  {
  }

  /** No song sorts before an earlier one. */
  predicate Sorted(r: seq<Song>, byRank: bool) {
    forall i, j | 0 <= i < j < |r| :: !Before(r[j], r[i], byRank)
  }

  /** Sorted, and songs whose keys tie keep their sheet order. */
  predicate Ordered(r: seq<Song>, byRank: bool) {
    forall i, j | 0 <= i < j < |r| :: !Before(r[j], r[i], byRank) && (Before(r[i], r[j], byRank) || r[i].pos < r[j].pos)
  }

  lemma {:induction false} InsertPermutes(x: Song, t: seq<Song>, byRank: bool)
    ensures multiset(Insert(x, t, byRank)) == multiset(t) + multiset{x}
    decreases |t|
  {
    if t != [] && Before(x, t[|t| - 1], byRank) {
      InsertPermutes(x, t[..|t| - 1], byRank);
      assert t == t[..|t| - 1] + [t[|t| - 1]];
    }
  }

  /** The sort is a permutation: no row is lost or duplicated. */
  lemma {:induction false} SortPermutes(s: seq<Song>, byRank: bool)
    ensures multiset(Sort(s, byRank)) == multiset(s)
  {
    if s != [] {
      SortPermutes(s[..|s| - 1], byRank);
      InsertPermutes(s[|s| - 1], Sort(s[..|s| - 1], byRank), byRank);
      assert s == s[..|s| - 1] + [s[|s| - 1]];
    }
  }

  lemma {:induction false} InsertSorted(x: Song, t: seq<Song>, byRank: bool)
    requires Sorted(t, byRank)
    ensures Sorted(Insert(x, t, byRank), byRank)
    decreases |t|
  {
    if t != [] {
      var y := t[|t| - 1];
      var t' := t[..|t| - 1];
      if Before(x, y, byRank) {
        InsertSorted(x, t', byRank);
        InsertPermutes(x, t', byRank);
        var r := Insert(x, t', byRank);
        forall i | 0 <= i < |r| ensures !Before(y, r[i], byRank) {
          assert r[i] in multiset(r);
          if r[i] == x {
            BeforeAsymmetric(x, y, byRank);
          } else {
            assert r[i] in t';
            var k :| 0 <= k < |t'| && t'[k] == r[i];
            assert t[k] == r[i];
          }
        }
      } else {
        forall i | 0 <= i < |t| ensures !Before(x, t[i], byRank) {
          if i < |t| - 1 {
            NotBeforeTransitive(x, y, t[i], byRank);
          }
        }
      }
    }
  }

  lemma {:induction false} SortSorted(s: seq<Song>, byRank: bool)
    ensures Sorted(Sort(s, byRank), byRank)
  {
    if s != [] {
      SortSorted(s[..|s| - 1], byRank);
      InsertSorted(s[|s| - 1], Sort(s[..|s| - 1], byRank), byRank);
    }
  }

  /** The step of `InsertOrdered` where `x` goes before the last element `y`. */
  lemma InsertOrderedBefore(x: Song, t': seq<Song>, y: Song, byRank: bool)
    requires Before(x, y, byRank)
    requires Ordered(t' + [y], byRank)
    requires Ordered(Insert(x, t', byRank), byRank)
    requires multiset(Insert(x, t', byRank)) == multiset(t') + multiset{x}
    ensures Ordered(Insert(x, t', byRank) + [y], byRank)
  {
    var t := t' + [y];
    var r := Insert(x, t', byRank);
    forall i | 0 <= i < |r|
      ensures !Before(y, r[i], byRank) && (Before(r[i], y, byRank) || r[i].pos < y.pos)
    {
      assert r[i] in multiset(r);
      if r[i] == x {
        BeforeAsymmetric(x, y, byRank);
      } else {
        assert r[i] in t';
        var k :| 0 <= k < |t'| && t'[k] == r[i];
        assert t[k] == r[i] && t[|t'|] == y;
      }
    }
    var r' := r + [y];
    forall i, j | 0 <= i < j < |r'|
      ensures !Before(r'[j], r'[i], byRank) && (Before(r'[i], r'[j], byRank) || r'[i].pos < r'[j].pos)
    {
      if j < |r| {
        assert r'[i] == r[i] && r'[j] == r[j];
      }
    }
  }

  /** The step of `InsertOrdered` where `x` goes after the last element `y`. */
  lemma InsertOrderedAfter(x: Song, t: seq<Song>, byRank: bool)
    requires t != [] && !Before(x, t[|t| - 1], byRank)
    requires Ordered(t, byRank)
    requires forall y | y in t :: y.pos < x.pos
    ensures Ordered(t + [x], byRank)
  {
    var y := t[|t| - 1];
    forall i | 0 <= i < |t| ensures !Before(x, t[i], byRank) && t[i].pos < x.pos {
      assert t[i] in t;
      if i < |t| - 1 {
        NotBeforeTransitive(x, y, t[i], byRank);
      }
    }
    var r := t + [x];
    forall i, j | 0 <= i < j < |r|
      ensures !Before(r[j], r[i], byRank) && (Before(r[i], r[j], byRank) || r[i].pos < r[j].pos)
    {
      if j < |t| {
        assert r[i] == t[i] && r[j] == t[j];
      }
    }
  }

  lemma {:induction false} InsertOrdered(x: Song, t: seq<Song>, byRank: bool)
    requires Ordered(t, byRank)
    requires forall y | y in t :: y.pos < x.pos
    ensures Ordered(Insert(x, t, byRank), byRank)
    decreases |t|
  {
    if t != [] {
      var y := t[|t| - 1];
      var t' := t[..|t| - 1];
      assert t == t' + [y];
      if Before(x, y, byRank) {
        assert Ordered(t', byRank) by {
          forall i, j | 0 <= i < j < |t'|
            ensures !Before(t'[j], t'[i], byRank) && (Before(t'[i], t'[j], byRank) || t'[i].pos < t'[j].pos)
          {
            assert t'[i] == t[i] && t'[j] == t[j];
          }
        }
        assert forall z | z in t' :: z in t;
        InsertOrdered(x, t', byRank);
        InsertPermutes(x, t', byRank);
        InsertOrderedBefore(x, t', y, byRank);
      } else {
        InsertOrderedAfter(x, t, byRank);
      }
    }
  }

  /**
   * Rows in sheet order come out sorted by key with ties in sheet order:
   * together with `SortPermutes`, the result every stable sort gives.
   */
  lemma {:induction false} SortOrdered(s: seq<Song>, byRank: bool)
    requires InSheetOrder(s)
    ensures Ordered(Sort(s, byRank), byRank)
  {
    if s != [] {
      var s' := s[..|s| - 1];
      var x := s[|s| - 1];
      SortOrdered(s', byRank);
      SortPermutes(s', byRank);
      forall y | y in Sort(s', byRank) ensures y.pos < x.pos {
        assert y in multiset(s');
        var k :| 0 <= k < |s'| && s'[k] == y;
      }
      InsertOrdered(x, Sort(s', byRank), byRank);
    }
  }

  /** Of two songs that are both `Ordered` before each other, neither exists: the order is antisymmetric. */
  lemma {:induction false} OrderedHeads(a: seq<Song>, b: seq<Song>, byRank: bool)
    requires Ordered(a, byRank) && Ordered(b, byRank) && multiset(a) == multiset(b) && a != []
    ensures b != [] && a[0] == b[0]
  {
    assert a[0] in multiset(b);
    var k :| 0 <= k < |b| && b[k] == a[0];
    assert b[0] in multiset(a);
    var m :| 0 <= m < |a| && a[m] == b[0];
    if k != 0 && m != 0 {
      assert false;
    }
  }

  lemma OrderedTail(a: seq<Song>, byRank: bool)
    requires Ordered(a, byRank) && a != []
    ensures Ordered(a[1..], byRank)
  {
    forall i, j | 0 <= i < j < |a[1..]|
      ensures !Before(a[1..][j], a[1..][i], byRank)
      ensures Before(a[1..][i], a[1..][j], byRank) || a[1..][i].pos < a[1..][j].pos
    {
      assert a[1..][i] == a[i + 1] && a[1..][j] == a[j + 1];
    }
  }

  lemma SameTails(a: seq<Song>, b: seq<Song>)
    requires a != [] && b != [] && a[0] == b[0] && multiset(a) == multiset(b)
    ensures multiset(a[1..]) == multiset(b[1..])
  {
    assert a == [a[0]] + a[1..] && b == [b[0]] + b[1..];
    assert multiset(a) == multiset{a[0]} + multiset(a[1..]);
    assert multiset(b) == multiset{b[0]} + multiset(b[1..]);
    forall x ensures multiset(a[1..])[x] == multiset(b[1..])[x] {
      assert multiset(a)[x] == multiset{a[0]}[x] + multiset(a[1..])[x];
      assert multiset(b)[x] == multiset{b[0]}[x] + multiset(b[1..])[x];
    }
  }

  /**
   * A sequence is determined by its contents and `Ordered`: any stable sort
   * of the same songs gives exactly the result of `Sort`.
   */
  lemma {:induction false} OrderedUnique(a: seq<Song>, b: seq<Song>, byRank: bool)
    requires Ordered(a, byRank) && Ordered(b, byRank) && multiset(a) == multiset(b)
    ensures a == b
    decreases |a|
  {
    if a != [] {
      OrderedHeads(a, b, byRank);
      OrderedTail(a, byRank);
      OrderedTail(b, byRank);
      SameTails(a, b);
      OrderedUnique(a[1..], b[1..], byRank);
    }
  }

  /** Every stable sort of rows in sheet order agrees with `Sort`. */
  lemma SortUnique(s: seq<Song>, r: seq<Song>, byRank: bool)
    requires InSheetOrder(s) && multiset(r) == multiset(s) && Ordered(r, byRank)
    ensures r == Sort(s, byRank)
  {
    SortOrdered(s, byRank);
    SortPermutes(s, byRank);
    OrderedUnique(r, Sort(s, byRank), byRank);
  }

  /** Does a song belong to the (taste, mood) list? */
  predicate InGroup(x: Song, taste: string, mood: string) {
    x.taste == taste && x.mood == mood
  }

  /** The songs of one (taste, mood) pair, in their order in `s`. */
  function Group(s: seq<Song>, taste: string, mood: string): (r: seq<Song>)
    ensures forall x | x in r :: x in s && InGroup(x, taste, mood)
    ensures forall x | x in s && InGroup(x, taste, mood) :: x in r
  {
    if s == [] then []
    else Group(s[..|s| - 1], taste, mood) + (if InGroup(s[|s| - 1], taste, mood) then [s[|s| - 1]] else [])
  }

  lemma GroupSnoc(s: seq<Song>, x: Song, taste: string, mood: string)
    ensures Group(s + [x], taste, mood) == Group(s, taste, mood) + (if InGroup(x, taste, mood) then [x] else [])
  {
    assert (s + [x])[..|s|] == s;
  }

  lemma SortedPrefix(u: seq<Song>, byRank: bool)
    requires u != [] && Sorted(u, byRank)
    ensures Sorted(u[..|u| - 1], byRank)
  {
    var u' := u[..|u| - 1];
    forall i, j | 0 <= i < j < |u'| ensures !Before(u'[j], u'[i], byRank) {
      assert u'[i] == u[i] && u'[j] == u[j];
    }
  }

  /** When `x` goes after all of `u`, it also goes after all of any group of `u`. */
  lemma GroupInsertAfter(x: Song, u: seq<Song>, taste: string, mood: string, byRank: bool)
    requires u != [] && Sorted(u, byRank) && !Before(x, u[|u| - 1], byRank)
    ensures Insert(x, Group(u, taste, mood), byRank) == Group(u, taste, mood) + [x]
  {
    var g := Group(u, taste, mood);
    if g != [] {
      var w := g[|g| - 1];
      assert w in g;
      var k :| 0 <= k < |u| && u[k] == w;
      if k < |u| - 1 {
        NotBeforeTransitive(x, u[|u| - 1], w, byRank);
      }
      assert g == g[..|g| - 1] + [w];
      InsertAfter(x, g[..|g| - 1], w, byRank);
    }
  }

  /** The step of `GroupInsert` where `x` goes before the last element `y`. */
  lemma GroupInsertBefore(x: Song, u': seq<Song>, y: Song, taste: string, mood: string, byRank: bool)
    requires Before(x, y, byRank)
    requires Group(Insert(x, u', byRank), taste, mood)
         == if InGroup(x, taste, mood) then Insert(x, Group(u', taste, mood), byRank) else Group(u', taste, mood)
    ensures Group(Insert(x, u', byRank) + [y], taste, mood)
         == if InGroup(x, taste, mood) then Insert(x, Group(u' + [y], taste, mood), byRank) else Group(u' + [y], taste, mood)
  {
    var g' := Group(u', taste, mood);
    GroupSnoc(Insert(x, u', byRank), y, taste, mood);
    GroupSnoc(u', y, taste, mood);
    if InGroup(y, taste, mood) {
      if InGroup(x, taste, mood) {
        InsertBefore(x, g', y, byRank);
      }
    } else {
      assert Group(u' + [y], taste, mood) == g' + [] == g';
      assert Group(Insert(x, u', byRank) + [y], taste, mood) == Group(Insert(x, u', byRank), taste, mood) + [];
    }
  }

  /** Inserting into a sorted list and then taking a group is inserting into the group. */
  lemma {:induction false} GroupInsert(x: Song, u: seq<Song>, taste: string, mood: string, byRank: bool)
    requires Sorted(u, byRank)
    ensures Group(Insert(x, u, byRank), taste, mood)
         == if InGroup(x, taste, mood) then Insert(x, Group(u, taste, mood), byRank) else Group(u, taste, mood)
    decreases |u|
  {
    if u == [] {
      GroupSnoc([], x, taste, mood);
      assert [] + [x] == [x];
    } else {
      var y := u[|u| - 1];
      var u' := u[..|u| - 1];
      assert u == u' + [y];
      if Before(x, y, byRank) {
        SortedPrefix(u, byRank);
        GroupInsert(x, u', taste, mood, byRank);
        GroupInsertBefore(x, u', y, taste, mood, byRank);
      } else {
        GroupSnoc(u, x, taste, mood);
        if InGroup(x, taste, mood) {
          GroupInsertAfter(x, u, taste, mood, byRank);
        }
      }
    }
  }

  lemma SortSnoc(t: seq<Song>, x: Song, byRank: bool)
    ensures Sort(t + [x], byRank) == Insert(x, Sort(t, byRank), byRank)
  {
    assert (t + [x])[..|t|] == t;
  }

  /** Taking one (taste, mood) list of the sorted rows is sorting that list on its own. */
  lemma {:induction false} GroupSort(s: seq<Song>, taste: string, mood: string, byRank: bool)
    ensures Group(Sort(s, byRank), taste, mood) == Sort(Group(s, taste, mood), byRank)
  {
    if s != [] {
      var s' := s[..|s| - 1];
      var x := s[|s| - 1];
      assert s == s' + [x];
      GroupSort(s', taste, mood, byRank);
      SortSorted(s', byRank);
      SortSnoc(s', x, byRank);
      GroupInsert(x, Sort(s', byRank), taste, mood, byRank);
      GroupSnoc(s', x, taste, mood);
      var g' := Group(s', taste, mood);
      if InGroup(x, taste, mood) {
        SortSnoc(g', x, byRank);
      } else {
        assert g' + [] == g';
      }
    }
  }

  /** Without rank keys, the rows of one (taste, mood) list all tie: the sort leaves them in sheet order. */
  lemma {:induction false} SortSameGroup(g: seq<Song>, taste: string, mood: string)
    requires forall x | x in g :: InGroup(x, taste, mood)
    ensures Sort(g, false) == g
  {
    if g != [] {
      var g' := g[..|g| - 1];
      assert forall x | x in g' :: x in g;
      SortSameGroup(g', taste, mood);
      StrLessIrreflexive(taste);
      StrLessIrreflexive(mood);
      var x := g[|g| - 1];
      assert g == g' + [x];
      assert x in g;
      if g' != [] {
        assert g'[|g'| - 1] in g;
        var y := g'[|g'| - 1];
        assert g' == g'[..|g'| - 1] + [y];
        assert !Before(x, y, false);
        InsertAfter(x, g'[..|g'| - 1], y, false);
      }
    }
  }

  /** Does any song carry a rank? The flag of excel_to_json.py:169. */
  predicate AnyRank(s: seq<Song>) {
    exists i | 0 <= i < |s| :: s[i].rank.Some?
  }

  lemma {:induction false} InsertFlagIrrelevant(x: Song, t: seq<Song>)
    requires x.rank.None?
    ensures Insert(x, t, true) == Insert(x, t, false)
    decreases |t|
  {
    if t != [] {
      InsertFlagIrrelevant(x, t[..|t| - 1]);
    }
  }

  /**
   * When no row has a rank, adding the rank key changes nothing, since
   * every rank is absent and absent ranks tie: the flag of
   * excel_to_json.py:169 does not affect the order.
   */
  lemma {:induction false} SortFlagIrrelevant(s: seq<Song>)
    requires !AnyRank(s)
    ensures Sort(s, true) == Sort(s, false)
  {
    if s != [] {
      var s' := s[..|s| - 1];
      assert !AnyRank(s') by {
        forall i | 0 <= i < |s'| ensures s'[i].rank.None? {
          assert s'[i] == s[i];
        }
      }
      SortFlagIrrelevant(s');
      InsertFlagIrrelevant(s[|s| - 1], Sort(s', true));
    }
  }

  lemma GroupInSheetOrder(s: seq<Song>, taste: string, mood: string)
    requires InSheetOrder(s)
    ensures InSheetOrder(Group(s, taste, mood))
  {
    if s != [] {
      var s' := s[..|s| - 1];
      GroupInSheetOrder(s', taste, mood);
      var g' := Group(s', taste, mood);
      forall y | y in g' ensures y.pos < s[|s| - 1].pos {
        var k :| 0 <= k < |s'| && s'[k] == y;
      }
    }
  }

  /**
   * One (taste, mood) list sorted with the rank key: ranked songs come
   * first in ascending rank, unranked songs last, and songs of equal rank
   * (or both unranked) keep their sheet order; no song is lost or added.
   */
  lemma RankedGroupOrder(g: seq<Song>, taste: string, mood: string)
    requires forall x | x in g :: InGroup(x, taste, mood)
    requires InSheetOrder(g)
    ensures multiset(Sort(g, true)) == multiset(g)
    ensures forall i, j | 0 <= i < j < |Sort(g, true)| ::
      var r := Sort(g, true);
      !RankLess(r[j].rank, r[i].rank) && (RankLess(r[i].rank, r[j].rank) || r[i].pos < r[j].pos)
  {
    SortPermutes(g, true);
    SortOrdered(g, true);
    var r := Sort(g, true);
    StrLessIrreflexive(taste);
    StrLessIrreflexive(mood);
    forall i | 0 <= i < |r| ensures InGroup(r[i], taste, mood) {
      assert r[i] in multiset(g);
    }
  }
}

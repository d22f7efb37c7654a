/**
 * The taste → mood → tracks index `taste_mood_tracks` of
 * excel_to_json.py:174-192, filled by appending each sorted song's track
 * to the list of its taste and mood.
 */
module Index {
  import opened Strings
  import opened Tracks
  import opened Ordering

  type TrackIndex = map<string, map<string, seq<Track>>>

  /** The tastes of the songs. */
  function TastesOf(s: seq<Song>): set<string> {
    set i | 0 <= i < |s| :: s[i].taste
  }

  /** The moods of the songs with the given taste. */
  function MoodsOf(s: seq<Song>, taste: string): set<string> {
    set i | 0 <= i < |s| && s[i].taste == taste :: s[i].mood
  }

  /**
   * What the loop builds: one entry per taste that occurs, holding one
   * list per mood that occurs with it, whose tracks are the songs of that
   * (taste, mood) pair in the order of `s`.
   */
  function IndexOf(s: seq<Song>): TrackIndex {
    map t | t in TastesOf(s) :: ByMood(s, t)
  }

  /** The lists of one taste, one per mood that occurs with it. */
  function ByMood(s: seq<Song>, taste: string): map<string, seq<Track>> {
    map m | m in MoodsOf(s, taste) :: TracksOf(Group(s, taste, m))
  }

  /** One step of the loop: `taste_mood_tracks[taste][mood].append(track)` on the defaultdict. */
  function Append(idx: TrackIndex, x: Song): TrackIndex {
    var moods := if x.taste in idx then idx[x.taste] else map[];
    var tracks := if x.mood in moods then moods[x.mood] else [];
    idx[x.taste := moods[x.mood := tracks + [MakeTrack(x)]]]
  }

  lemma TastesSnoc(s: seq<Song>, x: Song)
    ensures TastesOf(s + [x]) == TastesOf(s) + {x.taste}
  {
    var s' := s + [x];
    forall t | t in TastesOf(s') ensures t in TastesOf(s) + {x.taste} {
      var i :| 0 <= i < |s'| && s'[i].taste == t;
      if i < |s| {
        assert s[i] == s'[i];
      }
    }
    forall t | t in TastesOf(s) ensures t in TastesOf(s') {
      var i :| 0 <= i < |s| && s[i].taste == t;
      assert s'[i] == s[i];
    }
    assert s'[|s|] == x;
  }

  lemma MoodsSnoc(s: seq<Song>, x: Song, taste: string)
    ensures MoodsOf(s + [x], taste) == MoodsOf(s, taste) + (if x.taste == taste then {x.mood} else {})
  {
    var s' := s + [x];
    forall m | m in MoodsOf(s', taste) ensures m in MoodsOf(s, taste) + (if x.taste == taste then {x.mood} else {}) {
      var i :| 0 <= i < |s'| && s'[i].taste == taste && s'[i].mood == m;
      if i < |s| {
        assert s[i] == s'[i];
      }
    }
    forall m | m in MoodsOf(s, taste) ensures m in MoodsOf(s', taste) {
      var i :| 0 <= i < |s| && s[i].taste == taste && s[i].mood == m;
      assert s'[i] == s[i];
    }
    assert s'[|s|] == x;
  }

  /** A (taste, mood) pair that occurs has a non-empty group. */
  lemma GroupNonEmpty(s: seq<Song>, taste: string, mood: string)
    requires mood in MoodsOf(s, taste)
    ensures Group(s, taste, mood) != []
  {
    var i :| 0 <= i < |s| && s[i].taste == taste && s[i].mood == mood;
    assert s[i] in s;
  }

  /** A pair that does not occur has an empty group. */
  lemma GroupEmpty(s: seq<Song>, taste: string, mood: string)
    requires mood !in MoodsOf(s, taste)
    ensures Group(s, taste, mood) == []
  {
  }

  lemma ByMoodSnocOther(s: seq<Song>, x: Song, taste: string)
    requires x.taste != taste
    ensures ByMood(s + [x], taste) == ByMood(s, taste)
  {
    MoodsSnoc(s, x, taste);
    forall m | m in MoodsOf(s, taste) ensures Group(s + [x], taste, m) == Group(s, taste, m) {
      GroupSnoc(s, x, taste, m);
    }
  }

  lemma GroupSnocOwn(s: seq<Song>, x: Song)
    ensures TracksOf(Group(s + [x], x.taste, x.mood))
         == (if x.mood in ByMood(s, x.taste) then ByMood(s, x.taste)[x.mood] else []) + [MakeTrack(x)]
  {
    var g := Group(s, x.taste, x.mood);
    GroupSnoc(s, x, x.taste, x.mood);
    assert Group(s + [x], x.taste, x.mood) == g + [x];
    TracksOfAppend(g, [x]);
    assert TracksOf([x]) == [MakeTrack(x)];
    if x.mood in MoodsOf(s, x.taste) {
      assert ByMood(s, x.taste)[x.mood] == TracksOf(g);
    } else {
      GroupEmpty(s, x.taste, x.mood);
      assert TracksOf(g) == [];
    }
  }

  lemma GroupSnocOtherMood(s: seq<Song>, x: Song, mood: string)
    requires mood != x.mood
    ensures Group(s + [x], x.taste, mood) == Group(s, x.taste, mood)
  {
    GroupSnoc(s, x, x.taste, mood);
    assert Group(s, x.taste, mood) + [] == Group(s, x.taste, mood);
  }

  lemma ByMoodSnocSame(s: seq<Song>, x: Song)
    ensures ByMood(s + [x], x.taste)
         == ByMood(s, x.taste)[x.mood := (if x.mood in ByMood(s, x.taste) then ByMood(s, x.taste)[x.mood] else []) + [MakeTrack(x)]]
  {
    var a := ByMood(s + [x], x.taste);
    var b := ByMood(s, x.taste)[x.mood := (if x.mood in ByMood(s, x.taste) then ByMood(s, x.taste)[x.mood] else []) + [MakeTrack(x)]];
    MoodsSnoc(s, x, x.taste);
    forall m | m in a ensures a[m] == b[m] {
      if m == x.mood {
        GroupSnocOwn(s, x);
      } else {
        GroupSnocOtherMood(s, x, m);
      }
    }
    assert a.Keys == b.Keys;
  }

  /** The loop step keeps the index equal to the index of the songs seen so far. */
  lemma IndexSnoc(s: seq<Song>, x: Song)
    ensures IndexOf(s + [x]) == Append(IndexOf(s), x)
  {
    var a := IndexOf(s + [x]);
    var b := Append(IndexOf(s), x);
    TastesSnoc(s, x);
    forall t | t in a ensures a[t] == b[t] {
      if t == x.taste {
        ByMoodSnocSame(s, x);
        if t !in TastesOf(s) {
          assert MoodsOf(s, t) == {};
        }
      } else {
        ByMoodSnocOther(s, x, t);
      }
    }
    assert a.Keys == b.Keys;
  }

  lemma IndexStep(sorted: seq<Song>, i: nat)
    requires i < |sorted|
    ensures IndexOf(sorted[..i + 1]) == Append(IndexOf(sorted[..i]), sorted[i])
  {
    IndexSnoc(sorted[..i], sorted[i]);
    assert sorted[..i + 1] == sorted[..i] + [sorted[i]];
  }

  /** The loop of excel_to_json.py:175-192 over the sorted songs. */
  method BuildIndex(sorted: seq<Song>) returns (idx: TrackIndex)
    ensures idx == IndexOf(sorted)
  {
    idx := map[];
    var i := 0;
    while i < |sorted|
      invariant 0 <= i <= |sorted|
      invariant idx == IndexOf(sorted[..i])
    {
      idx := AddSong(idx, sorted[i]);
      IndexStep(sorted, i);
      i := i + 1;
    }
    assert sorted[..i] == sorted;
  }

  /** The body of the loop: append the song's track under its taste and mood, creating either level on first use. */
  method AddSong(idx: TrackIndex, x: Song) returns (idx': TrackIndex)
    ensures idx' == Append(idx, x)
  {
    var moods := if x.taste in idx then idx[x.taste] else map[];
    var tracks := if x.mood in moods then moods[x.mood] else [];
    idx' := idx[x.taste := moods[x.mood := tracks + [MakeTrack(x)]]];
  }

  /**
   * Reading the index: a taste has an entry exactly when some song has it,
   * a mood has a list under it exactly when some song has both, and that
   * list is never empty: it holds the pair's songs as tracks, in order.
   */
  lemma IndexSpec(s: seq<Song>, taste: string, mood: string)
    ensures taste in IndexOf(s) <==> exists i | 0 <= i < |s| :: s[i].taste == taste
    ensures taste in IndexOf(s) ==>
      (mood in IndexOf(s)[taste] <==> exists i | 0 <= i < |s| :: s[i].taste == taste && s[i].mood == mood)
    ensures taste in IndexOf(s) && mood in IndexOf(s)[taste] ==>
      IndexOf(s)[taste][mood] == TracksOf(Group(s, taste, mood)) && IndexOf(s)[taste][mood] != []
  {
    if taste in IndexOf(s) && mood in IndexOf(s)[taste] {
      GroupNonEmpty(s, taste, mood);
    }
  }
}

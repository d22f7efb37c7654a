/**
 * The pure helpers of the browser player in script.js: display labels for
 * taste and mood codes, the playable tracks of a food and mood, the choice
 * of one track, and the test that sends a uri to the audio element.
 */
module Player {
  import opened Wrappers
  import opened Strings
  import opened Cells
  import opened Vocabulary
  import opened Normalize
  import opened Tracks
  import opened Catalogue

  /** The test of script.js:65: a uri that is not empty after JavaScript's `trim`. */
  predicate HasUri(t: Track) {
    Strip(JavaScript, t.uri) != ""
  }

  /** The filter of `getTracksFor`: tracks whose uri is non-empty after JavaScript's `trim`, in order. */
  function Playable(tracks: seq<Track>): (r: seq<Track>)
    ensures |r| <= |tracks|
  {
    if tracks == [] then []
    else Playable(tracks[..|tracks| - 1]) + (if HasUri(tracks[|tracks| - 1]) then [tracks[|tracks| - 1]] else [])
  }

  /** The filter returns exactly the tracks with a uri. */
  lemma {:induction false} PlayableMembers(tracks: seq<Track>, t: Track)
    ensures t in Playable(tracks) <==> t in tracks && HasUri(t)
  {
    if tracks != [] {
      var t' := tracks[..|tracks| - 1];
      PlayableMembers(t', t);
      assert tracks == t' + [tracks[|tracks| - 1]];
    }
  }

  /** The filter keeps order: filtering a concatenation filters each part. */
  lemma {:induction false} PlayableAppend(a: seq<Track>, b: seq<Track>)
    ensures Playable(a + b) == Playable(a) + Playable(b)
    decreases |b|
  {
    if b != [] {
      var b' := b[..|b| - 1];
      assert (a + b)[..|a + b| - 1] == a + b';
      PlayableAppend(a, b');
    } else {
      assert a + b == a;
    }
  }

  /** A list whose every uri is non-blank is returned whole. */
  lemma {:induction false} PlayableAll(tracks: seq<Track>)
    requires forall t | t in tracks :: HasUri(t)
    ensures Playable(tracks) == tracks
  {
    if tracks != [] {
      var t' := tracks[..|tracks| - 1];
      var last := tracks[|tracks| - 1];
      assert tracks == t' + [last];
      assert last in tracks;
      PlayableAll(t');
    }
  }

  /**
   * `getTracksFor(food, mood)`: no tracks for an unknown food or a mood
   * without a list, otherwise the mood's playable tracks.
   */
  function GetTracksFor(foods: map<string, Food>, food: string, mood: string): (r: seq<Track>)
    ensures food !in foods || mood !in foods[food].music ==> r == []
    ensures food in foods && mood in foods[food].music ==> r == Playable(foods[food].music[mood])
  {
    if food in foods && mood in foods[food].music then Playable(foods[food].music[mood]) else []
  }

  /**
   * A uri the converter keeps but the player drops: U+FEFF is white space
   * to JavaScript's `trim` and not to Python's `strip`.
   */
  lemma ByteOrderMarkUri(t: Track)
    requires t.uri == "\U{FEFF}"
    ensures Token(Text("\U{FEFF}")) == "\U{FEFF}"
    ensures GetTracksFor(map["x" := Food("", "", [], map["calm" := [t]])], "x", "calm") == []
  {
    StripFixed(Python, "\U{FEFF}");
    assert AllSpace(JavaScript, t.uri);
    assert Playable([t]) == Playable([]) + [];
  }

  /**
   * The only converted uris the player drops are those that begin and end
   * with U+FEFF: every other character JavaScript trims, Python strips too.
   */
  lemma DroppedUriIsByteOrderMark(c: Cell)
    requires Token(c) != "" && Strip(JavaScript, Token(c)) == ""
    ensures Token(c)[0] == '\U{FEFF}' && Token(c)[|Token(c)| - 1] == '\U{FEFF}'
  {
    var u := Token(c);
    assert AllSpace(JavaScript, u);
    assert IsSpace(JavaScript, u[0]) && IsSpace(JavaScript, u[|u| - 1]);
  }

  /** `Number.isFinite(t.rank)`: the track has a rank. */
  predicate HasRank(t: Track) {
    t.rank.Some?
  }

  /**
   * The track the rank branch returns: the head of the ranked tracks after
   * the stable sort by rank, that is the earliest track of least rank.
   */
  predicate FirstLeastRank(tracks: seq<Track>, k: nat) {
    k < |tracks| && HasRank(tracks[k])
    && (forall j | 0 <= j < |tracks| && HasRank(tracks[j]) :: tracks[k].rank.value <= tracks[j].rank.value)
    && (forall j | 0 <= j < k && HasRank(tracks[j]) :: tracks[k].rank.value < tracks[j].rank.value)
  }

  /** At most one position is the earliest track of least rank. */
  lemma FirstLeastRankUnique(tracks: seq<Track>, k1: nat, k2: nat)
    requires FirstLeastRank(tracks, k1) && FirstLeastRank(tracks, k2)
    ensures k1 == k2
  {
  }

  /** The rank branch of `pickOneTrack` (script.js:73-77), as one pass over the list. */
  method LeastRank(tracks: seq<Track>) returns (k: nat)
    requires exists j | 0 <= j < |tracks| :: HasRank(tracks[j])
    ensures FirstLeastRank(tracks, k)
  {
    var best := -1;
    var i := 0;
    while i < |tracks|
      invariant 0 <= i <= |tracks| && -1 <= best < i
      invariant best == -1 <==> forall j | 0 <= j < i :: !HasRank(tracks[j])
      invariant best >= 0 ==> HasRank(tracks[best])
      invariant best >= 0 ==> forall j | 0 <= j < i && HasRank(tracks[j]) :: tracks[best].rank.value <= tracks[j].rank.value
      invariant best >= 0 ==> forall j | 0 <= j < best && HasRank(tracks[j]) :: tracks[best].rank.value < tracks[j].rank.value
    {
      if HasRank(tracks[i]) && (best == -1 || tracks[i].rank.value < tracks[best].rank.value) {
        best := i;
      }
      i := i + 1;
    }
    k := best;
  }

  /** The total weight of the first `k` tracks. */
  function Cumulative(tracks: seq<Track>, k: nat): real
    requires k <= |tracks|
  {
    if k == 0 then 0.0 else Cumulative(tracks, k - 1) + tracks[k - 1].weight
  }

  /** `weights.reduce((s, w) => s + w, 0)` (script.js:80-81). */
  method TotalWeight(tracks: seq<Track>) returns (total: real)
    ensures total == Cumulative(tracks, |tracks|)
  {
    total := 0.0;
    var i := 0;
    while i < |tracks|
      invariant 0 <= i <= |tracks|
      invariant total == Cumulative(tracks, i)
    {
      total := total + tracks[i].weight;
      i := i + 1;
    }
  }

  /**
   * Where the weighted walk stops for the value `target`: the first track
   * whose cumulative weight reaches it, or the last track when none does.
   */
  predicate Lands(tracks: seq<Track>, target: real, k: nat) {
    k < |tracks|
    && (forall j | 1 <= j <= k :: Cumulative(tracks, j) < target)
    && (k < |tracks| - 1 ==> target <= Cumulative(tracks, k + 1))
  }

  /** At most one position is where the walk stops. */
  lemma LandsUnique(tracks: seq<Track>, target: real, k1: nat, k2: nat)
    requires Lands(tracks, target, k1) && Lands(tracks, target, k2)
    ensures k1 == k2
  {
  }

  /** The loop of script.js:83-86: subtract each weight from `target` and stop at the first that brings it to zero or below. */
  method WeightedWalk(tracks: seq<Track>, target: real) returns (k: nat)
    requires tracks != []
    ensures Lands(tracks, target, k)
  {
    var rest := target;
    var i := 0;
    while i < |tracks|
      invariant 0 <= i <= |tracks|
      invariant rest == target - Cumulative(tracks, i)
      invariant forall j | 1 <= j <= i :: Cumulative(tracks, j) < target
    {
      rest := rest - tracks[i].weight;
      if rest <= 0.0 {
        return i;
      }
      i := i + 1;
    }
    k := |tracks| - 1;
  }

  /** With non-negative weights the running total never decreases. */
  lemma {:induction false} CumulativeMonotone(tracks: seq<Track>, i: nat, j: nat)
    requires i <= j <= |tracks|
    requires forall t | t in tracks :: t.weight >= 0.0
    ensures Cumulative(tracks, i) <= Cumulative(tracks, j)
    decreases j
  {
    if i < j {
      CumulativeMonotone(tracks, i, j - 1);
      assert tracks[j - 1] in tracks;
    }
  }

  /**
   * With non-negative weights and a target below the total, the walk stops
   * at track `k` exactly when the target falls in that track's window
   * (Cumulative(k), Cumulative(k + 1)], whose width is the track's weight;
   * the first track's window also takes in everything below it.
   */
  lemma LandsWindow(tracks: seq<Track>, target: real, k: nat)
    requires forall t | t in tracks :: t.weight >= 0.0
    requires k < |tracks| && target < Cumulative(tracks, |tracks|)
    ensures Lands(tracks, target, k) <==>
      (k == 0 || Cumulative(tracks, k) < target) && target <= Cumulative(tracks, k + 1)
  {
    if (k == 0 || Cumulative(tracks, k) < target) && target <= Cumulative(tracks, k + 1) {
      forall j | 1 <= j <= k ensures Cumulative(tracks, j) < target {
        CumulativeMonotone(tracks, j, k);
      }
    }
  }

  /** Away from the first and last positions, a track of weight zero is never picked. */
  lemma ZeroWeightSkipped(tracks: seq<Track>, target: real, k: nat)
    requires 0 < k < |tracks| - 1 && tracks[k].weight == 0.0
    ensures !Lands(tracks, target, k)
  {
    assert Cumulative(tracks, k + 1) == Cumulative(tracks, k) + tracks[k].weight;
  }

  /** `withRank.length > 0`: some track has a rank. */
  predicate AnyRanked(tracks: seq<Track>) {
    exists j | 0 <= j < |tracks| :: HasRank(tracks[j])
  }

  /**
   * The position `pickOneTrack` chooses for the random value `draw`: the
   * earliest track of least rank when some track has a rank, otherwise the
   * track where the weighted walk for `draw` times the total weight stops.
   */
  predicate Chosen(tracks: seq<Track>, draw: real, k: nat) {
    if AnyRanked(tracks) then FirstLeastRank(tracks, k)
    else Lands(tracks, draw * Cumulative(tracks, |tracks|), k)
  }

  /** For a non-empty list exactly one position is chosen. */
  lemma ChosenUnique(tracks: seq<Track>, draw: real, k1: nat, k2: nat)
    requires Chosen(tracks, draw, k1) && Chosen(tracks, draw, k2)
    ensures k1 == k2
  {
    if AnyRanked(tracks) {
      FirstLeastRankUnique(tracks, k1, k2);
    } else {
      LandsUnique(tracks, draw * Cumulative(tracks, |tracks|), k1, k2);
    }
  }

  lemma ScaleBelow(d: real, t: real, p: real)
    requires 0.0 <= d < 1.0 && t > 0.0 && p == d * t
    ensures p < t
  {
  }

  /**
   * Without ranks, non-negative weights and a positive total, track `k` is
   * chosen exactly when `draw` times the total falls in its window, so each
   * track's chance is its share of the total weight.
   */
  lemma WeightedChoice(tracks: seq<Track>, draw: real, k: nat)
    requires !AnyRanked(tracks) && 0.0 <= draw < 1.0 && k < |tracks|
    requires forall t | t in tracks :: t.weight >= 0.0
    requires Cumulative(tracks, |tracks|) > 0.0
    ensures Chosen(tracks, draw, k) <==>
      var target := draw * Cumulative(tracks, |tracks|);
      (k == 0 || Cumulative(tracks, k) < target) && target <= Cumulative(tracks, k + 1)
  {
    var total := Cumulative(tracks, |tracks|);
    var target := draw * total;
    ScaleBelow(draw, total, target);
    LandsWindow(tracks, target, k);
    UnrankedChoice(tracks, draw, k, target);
  }

  lemma UnrankedChoice(tracks: seq<Track>, draw: real, k: nat, target: real)
    requires !AnyRanked(tracks) && target == draw * Cumulative(tracks, |tracks|)
    ensures Chosen(tracks, draw, k) <==> Lands(tracks, target, k)
  {
  }

  /**
   * `pickOneTrack(tracks)` with `draw` standing for `Math.random()`:
   * nothing for an empty list, otherwise the chosen track, which is always
   * a track of the list.
   */
  method PickOneTrack(tracks: seq<Track>, draw: real) returns (r: Option<Track>)
    requires 0.0 <= draw < 1.0
    ensures r.None? <==> tracks == []
    ensures r.Some? ==> r.value in tracks
    ensures r.Some? ==> exists k: nat | Chosen(tracks, draw, k) :: r.value == tracks[k]
  {
    if tracks == [] {
      return None;
    }
    var k: nat;
    if exists j | 0 <= j < |tracks| :: HasRank(tracks[j]) {
      k := LeastRank(tracks);
    } else {
      var total := TotalWeight(tracks);
      k := WeightedWalk(tracks, draw * total);
    }
    assert Chosen(tracks, draw, k);
    r := Some(tracks[k]);
  }

  /** The test of script.js:94-96: a local audio file by its folder or its extension. */
  predicate IsLocalAudio(uri: string) {
    StartsWith(uri, "audio/") || EndsWith(uri, ".mp3") || EndsWith(uri, ".m4a")
    || EndsWith(uri, ".wav") || EndsWith(uri, ".ogg")
  }

  /** The test in terms of the uri's first and last characters. */
  lemma IsLocalAudioSlices(uri: string)
    ensures IsLocalAudio(uri) <==>
      (|uri| >= 6 && uri[..6] == "audio/")
      || (|uri| >= 4 && uri[|uri| - 4..] in [".mp3", ".m4a", ".wav", ".ogg"])
  {
    StartsWithSlice(uri, "audio/");
    EndsWithSlice(uri, ".mp3");
    EndsWithSlice(uri, ".m4a");
    EndsWithSlice(uri, ".wav");
    EndsWithSlice(uri, ".ogg");
  }
}

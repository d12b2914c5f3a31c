/** client/src/scene/remotes.ts: the client's view of the other players. Every snapshot from the
    server reconciles the set of tracked players and appends one timestamped sample to each
    player's short history; every rendered frame sorts that history and places the player's
    mesh by interpolating between the two samples that bracket the render time. */
module Remotes {
  import opened Vectors

  /** RemotePlayerState as the client reads it from a snapshot. */
  datatype PlayerState = PlayerState(id: string, position: Vec3, quaternion: Option<Quat>,
                                     color: int, name: string)

  /** ServerSnapshot: server time `t` in milliseconds and the player list. */
  datatype Snapshot = Snapshot(t: int, players: seq<PlayerState>)

  /** One history entry: the snapshot time and the pose it carried. */
  datatype Sample = Sample(t: int, position: Vec3, quat: Option<Quat>)

  /** A Remote record: its id, the colour it was created with, its sample history and the pose
      of its mesh. */
  datatype Remote = Remote(id: string, color: int, samples: seq<Sample>, position: Vec3,
                           quaternion: Quat)

  /** The most samples a history keeps. */
  const Capacity: nat := 10

  /** The most recently pushed sample of a record. */
  function Newest(r: Remote): Sample
    requires 0 < |r.samples|
  {
    r.samples[|r.samples| - 1]
  }

  /** `new Remote(id, color)`: no samples yet, mesh at the origin with the identity rotation. */
  function NewRemote(id: string, color: int): Remote
  {
    Remote(id, color, [], Zero, Identity)
  }

  // ---------------------------------------------------------------------------------------
  // The sample history

  /** `samples.push(x); if (samples.length > 10) samples.shift()`: the newest `Capacity`
      entries of `s + [x]`, so on overflow exactly the oldest sample is dropped. */
  function Push(s: seq<Sample>, x: Sample): seq<Sample>
  {
    var grown := s + [x];
    if |grown| > Capacity then grown[1..] else grown
  }

  /** The pushed sample is the newest, the history never grows past `Capacity`, and on overflow
      exactly the oldest sample goes: the result is the newest part of `s + [x]`. */
  lemma PushKeepsNewest(s: seq<Sample>, x: Sample)
    ensures var r := Push(s, x);
            && (|s| <= Capacity ==> |r| == if |s| < Capacity then |s| + 1 else Capacity)
            && 0 < |r| <= |s| + 1 && r == (s + [x])[|s| + 1 - |r|..]
            && r[|r| - 1] == x
  {
  }

  // ---------------------------------------------------------------------------------------
  // Sorting by time: `s.sort((a, b) => a.t - b.t)`

  predicate SortedByTime(s: seq<Sample>)
  {
    forall i, j :: 0 <= i < j < |s| ==> s[i].t <= s[j].t
  }

  /** Inserts `x` into `s` after every element whose time is at most `x.t`, scanning from the
      right as an insertion sort does. */
  function InsertByTime(s: seq<Sample>, x: Sample): (r: seq<Sample>)
    ensures |r| == |s| + 1
  {
    if |s| == 0 || s[|s| - 1].t <= x.t then s + [x]
    else InsertByTime(s[..|s| - 1], x) + [s[|s| - 1]]
  }

  /** The stable sort of `s` by time, as a left-to-right insertion sort. Array.prototype.sort is
      stable, and every stable sort produces this same sequence. */
  function SortByTime(s: seq<Sample>): (r: seq<Sample>)
    ensures |r| == |s|
  {
    if |s| == 0 then [] else InsertByTime(SortByTime(s[..|s| - 1]), s[|s| - 1])
  }

  lemma {:induction false} InsertPermutes(s: seq<Sample>, x: Sample)
    ensures multiset(InsertByTime(s, x)) == multiset(s) + multiset{x}
  {
    if |s| == 0 || s[|s| - 1].t <= x.t {
    } else {
      var n := |s| - 1;
      InsertPermutes(s[..n], x);
      assert s == s[..n] + [s[n]];
    }
  }

  lemma {:induction false} InsertSorted(s: seq<Sample>, x: Sample)
    requires SortedByTime(s)
    ensures SortedByTime(InsertByTime(s, x))
  {
    if |s| == 0 || s[|s| - 1].t <= x.t {
    } else {
      var n := |s| - 1;
      var r := InsertByTime(s[..n], x);
      InsertSorted(s[..n], x);
      InsertPermutes(s[..n], x);
      forall y | y in r
        ensures y.t <= s[n].t
      {
        assert y in multiset(r);
        if y != x {
          assert y in multiset(s[..n]);
          var i :| 0 <= i < n && s[..n][i] == y;
        }
      }
      var res := r + [s[n]];
      forall i, j | 0 <= i < j < |res|
        ensures res[i].t <= res[j].t
      {
        if j == |res| - 1 {
          assert res[i] in r;
        } else {
          assert res[i] == r[i] && res[j] == r[j];
        }
      }
    }
  }

  /** The sort yields a time-ordered sequence. */
  lemma {:induction false} SortByTimeSorted(s: seq<Sample>)
    ensures SortedByTime(SortByTime(s))
  {
    if |s| > 0 {
      SortByTimeSorted(s[..|s| - 1]);
      InsertSorted(SortByTime(s[..|s| - 1]), s[|s| - 1]);
    }
  }

  /** The sort is a permutation of its input. */
  lemma {:induction false} SortByTimePermutes(s: seq<Sample>)
    ensures multiset(SortByTime(s)) == multiset(s)
  {
    if |s| > 0 {
      var n := |s| - 1;
      SortByTimePermutes(s[..n]);
      InsertPermutes(SortByTime(s[..n]), s[n]);
      assert s == s[..n] + [s[n]];
    }
  }

  /** A history that is already in time order is left exactly as it is. */
  lemma {:induction false} SortByTimeKeepsSorted(s: seq<Sample>)
    requires SortedByTime(s)
    ensures SortByTime(s) == s
  {
    if |s| > 0 {
      var n := |s| - 1;
      SortByTimeKeepsSorted(s[..n]);
      assert s == s[..n] + [s[n]];
    }
  }

  /** The in-place sort of one history, as a stable insertion sort. */
  method SortSamples(a: array<Sample>)
    modifies a
    ensures a[..] == SortByTime(old(a[..]))
  {
    ghost var s0 := a[..];
    var i := 0;
    while i < a.Length
      invariant 0 <= i <= a.Length
      invariant a[..i] == SortByTime(s0[..i])
      invariant a[i..] == s0[i..]
    {
      InsertAt(a, i);
      assert s0[..i + 1] == s0[..i] + [s0[i]];
      assert s0[..i + 1][..i] == s0[..i];
      i := i + 1;
    }
    assert s0[..a.Length] == s0;
  }

  /** One insertion-sort pass: moves `a[i]` left past every earlier sample with a later time. */
  method InsertAt(a: array<Sample>, i: nat)
    requires i < a.Length
    modifies a
    ensures a[..i + 1] == InsertByTime(old(a[..i]), old(a[i]))
    ensures a[i + 1..] == old(a[i + 1..])
  {
    var x := a[i];
    ghost var sorted := a[..i];
    ghost var rest := a[i + 1..];
    var j := i;
    while j > 0 && a[j - 1].t > x.t
      invariant 0 <= j <= i
      invariant a[..j] == sorted[..j]
      invariant a[j + 1..i + 1] == sorted[j..i]
      invariant a[i + 1..] == rest
      invariant InsertByTime(sorted, x) == InsertByTime(sorted[..j], x) + sorted[j..]
    {
      InsertShift(sorted, j, x);
      ghost var before := a[..];
      a[j] := a[j - 1];
      assert a[..] == before[j := before[j - 1]];
      ShiftKeeps(before, sorted, i, j);
      j := j - 1;
    }
    a[j] := x;
    InsertStop(sorted, j, x);
    assert a[..i + 1] == a[..j] + [x] + a[j + 1..i + 1];
  }

  /** Copying element `j - 1` into slot `j` extends the shifted block one place to the left. */
  lemma ShiftKeeps(s: seq<Sample>, sorted: seq<Sample>, i: nat, j: nat)
    requires 0 < j <= i < |s| && |sorted| == i
    requires s[..j] == sorted[..j] && s[j + 1..i + 1] == sorted[j..i]
    ensures var s' := s[j := s[j - 1]];
            s'[..j - 1] == sorted[..j - 1] && s'[j..i + 1] == sorted[j - 1..i]
            && s'[i + 1..] == s[i + 1..]
  {
    var s' := s[j := s[j - 1]];
    assert s'[j..i + 1] == [sorted[j - 1]] + sorted[j..i];
    assert sorted[j - 1..i] == [sorted[j - 1]] + sorted[j..i];
  }

  lemma InsertShift(s: seq<Sample>, j: nat, x: Sample)
    requires 0 < j <= |s| && s[j - 1].t > x.t
    ensures InsertByTime(s[..j], x) + s[j..] == InsertByTime(s[..j - 1], x) + s[j - 1..]
  {
    assert s[..j][..j - 1] == s[..j - 1];
    assert s[j - 1..] == [s[j - 1]] + s[j..];
  }

  lemma InsertStop(s: seq<Sample>, j: nat, x: Sample)
    requires j <= |s| && (j == 0 || s[j - 1].t <= x.t)
    ensures InsertByTime(s[..j], x) == s[..j] + [x]
  {
  }

  // ---------------------------------------------------------------------------------------
  // Choosing the two samples around the render time

  /** Samples `k` and `k + 1` are adjacent and their times enclose `renderTime`. */
  predicate Brackets(s: seq<Sample>, renderTime: real, k: int)
  {
    0 <= k < |s| - 1 && s[k].t as real <= renderTime && s[k + 1].t as real >= renderTime
  }

  /** The scan from index `k`: the first bracketing pair at or after `k`, or the first and
      last samples when there is none. */
  function BracketFrom(s: seq<Sample>, renderTime: real, k: nat): (nat, nat)
    requires 0 < |s|
    decreases |s| - k
  {
    if k >= |s| - 1 then (0, |s| - 1)
    else if Brackets(s, renderTime, k) then (k, k + 1)
    else BracketFrom(s, renderTime, k + 1)
  }

  /** The indices of the samples `a` and `b` that `update` interpolates between. */
  function Bracket(s: seq<Sample>, renderTime: real): (nat, nat)
    requires 0 < |s|
  {
    BracketFrom(s, renderTime, 0)
  }

  /** The choice is the first bracketing pair when one exists, and the first and last samples
      otherwise. */
  lemma BracketChoice(s: seq<Sample>, renderTime: real)
    requires 0 < |s|
    ensures var (i, j) := Bracket(s, renderTime);
            if exists k :: Brackets(s, renderTime, k)
            then j == i + 1 && Brackets(s, renderTime, i)
                 && forall k :: 0 <= k < i ==> !Brackets(s, renderTime, k)
            else i == 0 && j == |s| - 1
  {
    BracketFromChoice(s, renderTime, 0);
  }

  lemma {:induction false} BracketFromChoice(s: seq<Sample>, renderTime: real, k: nat)
    requires 0 < |s|
    requires forall m :: 0 <= m < k ==> !Brackets(s, renderTime, m)
    decreases |s| - k
    ensures var (i, j) := BracketFrom(s, renderTime, k);
            if exists m :: Brackets(s, renderTime, m)
            then j == i + 1 && Brackets(s, renderTime, i)
                 && forall m :: 0 <= m < i ==> !Brackets(s, renderTime, m)
            else i == 0 && j == |s| - 1
  {
    if k >= |s| - 1 {
      assert forall m :: !Brackets(s, renderTime, m);
    } else if !Brackets(s, renderTime, k) {
      BracketFromChoice(s, renderTime, k + 1);
    }
  }

  /** A render time between the first and the last sample always falls in some adjacent pair,
      so no edge fallback is taken inside the history's time range. */
  lemma {:induction false} BracketWithinRange(s: seq<Sample>, renderTime: real, k: nat)
    requires k < |s| - 1
    requires s[k].t as real <= renderTime <= s[|s| - 1].t as real
    decreases |s| - k
    ensures exists m :: Brackets(s, renderTime, m)
  {
    if !Brackets(s, renderTime, k) {
      BracketWithinRange(s, renderTime, k + 1);
    }
  }

  /** The interpolation denominator `Math.max(1, b.t - a.t)`. */
  function Span(a: Sample, b: Sample): int
  {
    if 1 >= b.t - a.t then 1 else b.t - a.t
  }

  /** `clamp((renderTime - a.t) / span, 0, 1)`. */
  function Fraction(a: Sample, b: Sample, renderTime: real): (f: real)
    ensures 0.0 <= f <= 1.0
  {
    Clamp((renderTime - a.t as real) / (Span(a, b) as real), 0.0, 1.0)
  }

  /** The mesh orientation after a frame: the slerp between the chosen samples' rotations
      (each standing in for the other when missing) when either has one, the current
      orientation otherwise. */
  function Orientation(current: Quat, a: Sample, b: Sample, f: real,
                       slerp: (Quat, Quat, real) -> Quat): Quat
  {
    if a.quat.Some? || b.quat.Some? then
      slerp(a.quat.GetOr(b.quat.GetOr(Identity)), b.quat.GetOr(a.quat.GetOr(Identity)), f)
    else current
  }

  /** What one frame of `update` does to one record: the history is sorted, and the mesh is
      posed between the bracketing samples. A record without samples is skipped. */
  function Render(r: Remote, renderTime: real, slerp: (Quat, Quat, real) -> Quat): (r': Remote)
    ensures r'.id == r.id && r'.color == r.color
    ensures multiset(r'.samples) == multiset(r.samples) && SortedByTime(r'.samples)
    ensures |r'.samples| == |r.samples|
    ensures |r.samples| == 0 ==> r' == r
  {
    if |r.samples| == 0 then r
    else
      var s := SortByTime(r.samples);
      SortByTimeSorted(r.samples);
      SortByTimePermutes(r.samples);
      var (i, j) := Bracket(s, renderTime);
      BracketInRange(s, renderTime);
      var f := Fraction(s[i], s[j], renderTime);
      r.(samples := s, position := Lerp(s[i].position, s[j].position, f),
         quaternion := Orientation(r.quaternion, s[i], s[j], f, slerp))
  }

  /** Render of a non-empty record, spelled out from its sorted history and the chosen pair. */
  lemma RenderUnfold(r: Remote, sorted: seq<Sample>, a: Sample, b: Sample, renderTime: real,
                     slerp: (Quat, Quat, real) -> Quat)
    requires 0 < |r.samples| && sorted == SortByTime(r.samples)
    requires var (i, j) := Bracket(sorted, renderTime);
             i < |sorted| && j < |sorted| && a == sorted[i] && b == sorted[j]
    ensures Render(r, renderTime, slerp)
            == r.(samples := sorted, position := Lerp(a.position, b.position,
                                                     Fraction(a, b, renderTime)),
                  quaternion := Orientation(r.quaternion, a, b, Fraction(a, b, renderTime), slerp))
  {
  }

  lemma BracketInRange(s: seq<Sample>, renderTime: real)
    requires 0 < |s|
    ensures Bracket(s, renderTime).0 < |s| && Bracket(s, renderTime).1 < |s|
  {
    BracketChoice(s, renderTime);
  }

  // ---------------------------------------------------------------------------------------
  // What a rendered frame shows

  /** Inside a bracketing pair the mesh sits at `a + (b - a) * (renderTime - a.t) / span`, and
      that fraction needs no clamping: it already lies in [0, 1]. */
  lemma RenderInterpolates(r: Remote, renderTime: real, slerp: (Quat, Quat, real) -> Quat, k: nat)
    requires var s := SortByTime(r.samples);
             Brackets(s, renderTime, k) && forall m :: 0 <= m < k ==> !Brackets(s, renderTime, m)
    ensures var s := SortByTime(r.samples);
            var f := (renderTime - s[k].t as real) / (Span(s[k], s[k + 1]) as real);
            && 0.0 <= f <= 1.0
            && Render(r, renderTime, slerp).position == Lerp(s[k].position, s[k + 1].position, f)
  {
    var s := SortByTime(r.samples);
    BracketChoice(s, renderTime);
    assert Bracket(s, renderTime) == (k, k + 1);
    RenderPosition(r, renderTime, slerp);
    FractionInside(s[k], s[k + 1], renderTime);
  }

  /** Where a non-empty record's mesh ends up: between the samples Bracket picks. */
  lemma RenderPosition(r: Remote, renderTime: real, slerp: (Quat, Quat, real) -> Quat)
    requires 0 < |r.samples|
    ensures var s := SortByTime(r.samples);
            var (i, j) := Bracket(s, renderTime);
            i < |s| && j < |s|
            && Render(r, renderTime, slerp).position
               == Lerp(s[i].position, s[j].position, Fraction(s[i], s[j], renderTime))
  {
    BracketInRange(SortByTime(r.samples), renderTime);
  }

  /** Between `a.t` and `b.t` the clamp is inactive and the fraction lies in [0, 1]. */
  lemma FractionInside(a: Sample, b: Sample, renderTime: real)
    requires a.t as real <= renderTime <= b.t as real
    ensures var f := (renderTime - a.t as real) / (Span(a, b) as real);
            0.0 <= f <= 1.0 && Fraction(a, b, renderTime) == f
  {
    var x := renderTime - a.t as real;
    if 1 >= b.t - a.t {
      if x != 0.0 {
        DivUnit(x, 1.0);
      }
    } else {
      DivUnit(x, (b.t - a.t) as real);
    }
  }

  /** Every sample of a sorted history lies between the first and the last in time. */
  lemma SortedBounds(s: seq<Sample>, x: Sample)
    requires SortedByTime(s) && x in s
    ensures s[0].t <= x.t <= s[|s| - 1].t
  {
  }

  /** The samples of `r` are those of its sorted history. */
  lemma InSorted(r: Remote, x: Sample)
    ensures x in r.samples <==> x in SortByTime(r.samples)
  {
    SortByTimePermutes(r.samples);
    assert x in multiset(r.samples) <==> x in multiset(SortByTime(r.samples));
  }

  /** Hold before the start: a render time earlier than every sample shows the earliest one. */
  lemma HoldBeforeEarliest(r: Remote, renderTime: real, slerp: (Quat, Quat, real) -> Quat)
    requires 0 < |r.samples|
    requires forall x :: x in r.samples ==> renderTime < x.t as real
    ensures Render(r, renderTime, slerp).position == SortByTime(r.samples)[0].position
  {
    var s := SortByTime(r.samples);
    forall k | 0 <= k < |s|
      ensures renderTime < s[k].t as real
    {
      InSorted(r, s[k]);
    }
    BracketChoice(s, renderTime);
    var b := s[|s| - 1];
    DivNegative(renderTime - s[0].t as real, Span(s[0], b) as real);
    LerpEnds(s[0].position, b.position);
  }

  /** Hold after the end: a render time later than every sample shows the latest one, provided
      the history spans at least two distinct times (see SameInstantBlend otherwise). */
  lemma HoldAfterLatest(r: Remote, renderTime: real, slerp: (Quat, Quat, real) -> Quat)
    requires forall x :: x in r.samples ==> x.t as real < renderTime
    requires exists x, y :: x in r.samples && y in r.samples && x.t < y.t
    ensures Render(r, renderTime, slerp).position
            == SortByTime(r.samples)[|r.samples| - 1].position
  {
    var s := SortByTime(r.samples);
    SortByTimeSorted(r.samples);
    var x, y :| x in r.samples && y in r.samples && x.t < y.t;
    InSorted(r, x);
    InSorted(r, y);
    SortedBounds(s, x);
    SortedBounds(s, y);
    var a, b := s[0], s[|s| - 1];
    forall k | 0 <= k < |s|
      ensures s[k].t as real < renderTime
    {
      InSorted(r, s[k]);
    }
    BracketChoice(s, renderTime);
    DivAboveOne(renderTime - a.t as real, (b.t - a.t) as real);
    LerpEnds(a.position, b.position);
  }

  /** When every sample carries the same time `t`, the 1 ms floor on the span makes a render
      time in (t, t + 1) blend the first and last sample instead of holding the latest. */
  lemma SameInstantBlend(r: Remote, renderTime: real, slerp: (Quat, Quat, real) -> Quat, t: int)
    requires 0 < |r.samples|
    requires forall x :: x in r.samples ==> x.t == t
    requires t as real < renderTime < t as real + 1.0
    ensures var s := SortByTime(r.samples);
            Render(r, renderTime, slerp).position
            == Lerp(s[0].position, s[|s| - 1].position, renderTime - t as real)
  {
    var s := SortByTime(r.samples);
    forall k | 0 <= k < |s|
      ensures s[k].t == t
    {
      InSorted(r, s[k]);
    }
    BracketChoice(s, renderTime);
    assert Bracket(s, renderTime) == (0, |s| - 1);
    assert Span(s[0], s[|s| - 1]) == 1;
    assert Fraction(s[0], s[|s| - 1], renderTime) == renderTime - t as real;
    RenderPosition(r, renderTime, slerp);
  }

  /** A single sample is shown as it is, whatever the render time. */
  lemma SingleSampleHeld(r: Remote, renderTime: real, slerp: (Quat, Quat, real) -> Quat)
    requires |r.samples| == 1
    ensures Render(r, renderTime, slerp).position == r.samples[0].position
  {
    var s := SortByTime(r.samples);
    LerpSame(s[0].position, Fraction(s[0], s[0], renderTime));
  }

  /** A history that carries no rotation leaves the mesh orientation as it was. */
  lemma OrientationKept(r: Remote, renderTime: real, slerp: (Quat, Quat, real) -> Quat)
    requires forall x :: x in r.samples ==> x.quat == None
    ensures Render(r, renderTime, slerp).quaternion == r.quaternion
  {
    if 0 < |r.samples| {
      var s := SortByTime(r.samples);
      BracketChoice(s, renderTime);
      var (i, j) := Bracket(s, renderTime);
      InSorted(r, s[i]);
      InSorted(r, s[j]);
    }
  }

  // ---------------------------------------------------------------------------------------
  // Applying a snapshot

  /** A snapshot entry is tracked unless it is the local player (`p.id !== excludeId`). */
  predicate Tracked(p: PlayerState, excludeId: Option<string>)
  {
    excludeId != Some(p.id)
  }

  /** `new Set(snap.players.filter(p => p.id !== excludeId).map(p => p.id))`. */
  function SnapshotIds(players: seq<PlayerState>, excludeId: Option<string>): set<string>
  {
    if |players| == 0 then {}
    else
      var p := players[|players| - 1];
      SnapshotIds(players[..|players| - 1], excludeId) + if Tracked(p, excludeId) then {p.id} else {}
  }

  /** An id is in the set exactly when some tracked entry of the snapshot carries it. */
  lemma {:induction false} SnapshotIdsMembers(players: seq<PlayerState>, excludeId: Option<string>,
                                              id: string)
    ensures id in SnapshotIds(players, excludeId)
            <==> exists i :: 0 <= i < |players| && players[i].id == id
                             && Tracked(players[i], excludeId)
  {
    if |players| > 0 {
      var n := |players| - 1;
      SnapshotIdsMembers(players[..n], excludeId, id);
      if id in SnapshotIds(players[..n], excludeId) {
        var i :| 0 <= i < n && players[..n][i].id == id && Tracked(players[..n][i], excludeId);
        assert players[i] == players[..n][i];
      }
      if exists i :: 0 <= i < |players| && players[i].id == id && Tracked(players[i], excludeId) {
        var i :| 0 <= i < |players| && players[i].id == id && Tracked(players[i], excludeId);
        if i < n {
          assert players[..n][i] == players[i];
        }
      }
    }
  }

  /** Every record is filed under its own id and keeps at most `Capacity` samples. */
  ghost predicate WellFormed(m: map<string, Remote>)
  {
    forall id :: id in m ==> m[id].id == id && |m[id].samples| <= Capacity
  }

  /** The "remove stale" pass: only records whose id is in `ids` survive. */
  function Pruned(m: map<string, Remote>, ids: set<string>): map<string, Remote>
  {
    map id | id in m && id in ids :: m[id]
  }

  /** One pass of the upsert loop: create the record if needed, then push a sample. */
  function Upsert(m: map<string, Remote>, p: PlayerState, t: int): map<string, Remote>
  {
    var r := if p.id in m then m[p.id] else NewRemote(p.id, p.color);
    m[p.id := r.(samples := Push(r.samples, Sample(t, p.position, p.quaternion)))]
  }

  /** The upsert loop over `players`, in order. */
  function UpsertAll(m: map<string, Remote>, players: seq<PlayerState>, t: int,
                     excludeId: Option<string>): map<string, Remote>
  {
    if |players| == 0 then m
    else
      var prev := UpsertAll(m, players[..|players| - 1], t, excludeId);
      var p := players[|players| - 1];
      if Tracked(p, excludeId) then Upsert(prev, p, t) else prev
  }

  /** The records after `applySnapshot(snap, excludeId)`. */
  function AfterSnapshot(m: map<string, Remote>, snap: Snapshot, excludeId: Option<string>)
    : map<string, Remote>
  {
    UpsertAll(Pruned(m, SnapshotIds(snap.players, excludeId)), snap.players, snap.t, excludeId)
  }

  lemma {:induction false} UpsertAllKeys(m: map<string, Remote>, players: seq<PlayerState>,
                                         t: int, excludeId: Option<string>)
    ensures UpsertAll(m, players, t, excludeId).Keys == m.Keys + SnapshotIds(players, excludeId)
  {
    if |players| > 0 {
      UpsertAllKeys(m, players[..|players| - 1], t, excludeId);
    }
  }

  /** After a snapshot exactly its players, minus the excluded local id, are tracked: stale
      records are gone and every listed player has one. */
  lemma SnapshotKeys(m: map<string, Remote>, snap: Snapshot, excludeId: Option<string>)
    ensures AfterSnapshot(m, snap, excludeId).Keys == SnapshotIds(snap.players, excludeId)
    ensures excludeId.Some? ==> excludeId.value !in AfterSnapshot(m, snap, excludeId)
  {
    var ids := SnapshotIds(snap.players, excludeId);
    UpsertAllKeys(Pruned(m, ids), snap.players, snap.t, excludeId);
    if excludeId.Some? {
      SnapshotIdsMembers(snap.players, excludeId, excludeId.value);
    }
  }

  /** The upsert loop keeps records well formed: filed under their id, at most `Capacity`
      samples each. */
  lemma {:induction false} UpsertAllWellFormed(m: map<string, Remote>, players: seq<PlayerState>,
                                               t: int, excludeId: Option<string>)
    requires WellFormed(m)
    ensures WellFormed(UpsertAll(m, players, t, excludeId))
  {
    if |players| > 0 {
      var prev := UpsertAll(m, players[..|players| - 1], t, excludeId);
      UpsertAllWellFormed(m, players[..|players| - 1], t, excludeId);
      UpsertAllLast(m, players, t, excludeId);
      PassWellFormed(prev, players[|players| - 1], t, excludeId);
    }
  }

  /** A record that already existed keeps its colour and its mesh pose through the upsert
      loop; only its history grows. */
  lemma {:induction false} UpsertAllKeepsExisting(m: map<string, Remote>, players: seq<PlayerState>,
                                                  t: int, excludeId: Option<string>, id: string)
    requires id in m
    ensures var m' := UpsertAll(m, players, t, excludeId);
            id in m' && m'[id].color == m[id].color && m'[id].position == m[id].position
            && m'[id].quaternion == m[id].quaternion
  {
    if |players| > 0 {
      var prev := UpsertAll(m, players[..|players| - 1], t, excludeId);
      UpsertAllKeepsExisting(m, players[..|players| - 1], t, excludeId, id);
      UpsertAllLast(m, players, t, excludeId);
      PassKeepsColour(prev, players[|players| - 1], t, excludeId, id);
    }
  }

  /** A record the upsert loop creates takes the colour of the first snapshot entry with its
      id. */
  lemma {:induction false} UpsertAllNewColor(m: map<string, Remote>, players: seq<PlayerState>,
                                             t: int, excludeId: Option<string>, id: string)
    requires id !in m && id in UpsertAll(m, players, t, excludeId)
    ensures exists i :: 0 <= i < |players| && players[i].id == id
                        && UpsertAll(m, players, t, excludeId)[id].color == players[i].color
                        && forall j :: 0 <= j < i ==> players[j].id != id
  {
    var n := |players| - 1;
    var prev := UpsertAll(m, players[..n], t, excludeId);
    if id in prev {
      UpsertAllNewColor(m, players[..n], t, excludeId, id);
      var i :| 0 <= i < n && players[..n][i].id == id && prev[id].color == players[..n][i].color
               && forall j :: 0 <= j < i ==> players[..n][j].id != id;
      UpsertAllLast(m, players, t, excludeId);
      PassKeepsColour(prev, players[n], t, excludeId, id);
      FirstInPrefix(players, n, id, i);
    } else {
      NewColorFromLast(m, players, t, excludeId, id);
    }
  }

  /** A pass of the upsert loop keeps every existing record, with its colour and mesh pose. */
  lemma PassKeepsColour(m: map<string, Remote>, p: PlayerState, t: int, excludeId: Option<string>,
                        id: string)
    requires id in m
    ensures var m' := if Tracked(p, excludeId) then Upsert(m, p, t) else m;
            id in m' && m'[id].color == m[id].color && m'[id].position == m[id].position
            && m'[id].quaternion == m[id].quaternion
  {
  }

  /** A pass of the upsert loop keeps the map well formed. */
  lemma PassWellFormed(m: map<string, Remote>, p: PlayerState, t: int, excludeId: Option<string>)
    requires WellFormed(m)
    ensures WellFormed(if Tracked(p, excludeId) then Upsert(m, p, t) else m)
  {
    if Tracked(p, excludeId) {
      var r := if p.id in m then m[p.id] else NewRemote(p.id, p.color);
      var r' := r.(samples := Push(r.samples, Sample(t, p.position, p.quaternion)));
      assert r.id == p.id && |r.samples| <= Capacity;
      assert r'.id == p.id && |r'.samples| <= Capacity;
      var m' := m[p.id := r'];
      assert Upsert(m, p, t) == m';
      forall id | id in m'
        ensures m'[id].id == id && |m'[id].samples| <= Capacity
      {
        if id != p.id {
          assert m'[id] == m[id];
        }
      }
    }
  }

  /** The first entry with `id` in a prefix is the first one in the whole sequence. */
  lemma FirstInPrefix(players: seq<PlayerState>, n: nat, id: string, i: nat)
    requires i < n <= |players|
    requires players[..n][i].id == id && forall j :: 0 <= j < i ==> players[..n][j].id != id
    ensures players[i].id == id && forall j :: 0 <= j < i ==> players[j].id != id
  {
    assert players[i] == players[..n][i];
    forall j | 0 <= j < i
      ensures players[j].id != id
    {
      assert players[j] == players[..n][j];
    }
  }

  /** A record the last pass creates takes the last entry's colour, and no earlier entry carries
      its id. */
  lemma NewColorFromLast(m: map<string, Remote>, players: seq<PlayerState>, t: int,
                         excludeId: Option<string>, id: string)
    requires 0 < |players| && id !in m && id in UpsertAll(m, players, t, excludeId)
    requires id !in UpsertAll(m, players[..|players| - 1], t, excludeId)
    ensures var n := |players| - 1;
            players[n].id == id && UpsertAll(m, players, t, excludeId)[id].color == players[n].color
            && forall j :: 0 <= j < n ==> players[j].id != id
  {
    var n := |players| - 1;
    assert players[n].id == id && Tracked(players[n], excludeId);
    UpsertAllKeys(m, players[..n], t, excludeId);
    SnapshotIdsMembers(players[..n], excludeId, id);
    forall j | 0 <= j < n
      ensures players[j].id != id
    {
      assert players[..n][j] == players[j];
    }
  }

  /** The upsert loop after its first `n` passes, counted by index. */
  function UpsertUpTo(m: map<string, Remote>, players: seq<PlayerState>, n: nat, t: int,
                      excludeId: Option<string>): map<string, Remote>
    requires n <= |players|
  {
    if n == 0 then m
    else
      var prev := UpsertUpTo(m, players, n - 1, t, excludeId);
      if Tracked(players[n - 1], excludeId) then Upsert(prev, players[n - 1], t) else prev
  }

  /** Counting passes by index is running the loop over the prefix. */
  lemma {:induction false} UpsertUpToAll(m: map<string, Remote>, players: seq<PlayerState>, n: nat,
                                         t: int, excludeId: Option<string>)
    requires n <= |players|
    ensures UpsertUpTo(m, players, n, t, excludeId) == UpsertAll(m, players[..n], t, excludeId)
  {
    if n > 0 {
      UpsertUpToAll(m, players, n - 1, t, excludeId);
      assert players[..n][..n - 1] == players[..n - 1];
      assert players[..n][n - 1] == players[n - 1];
      UpsertAllLast(m, players[..n], t, excludeId);
    }
  }

  /** The upsert loop is the loop over all but the last entry, then the last entry's pass. */
  lemma UpsertAllLast(m: map<string, Remote>, players: seq<PlayerState>, t: int,
                      excludeId: Option<string>)
    requires 0 < |players|
    ensures var prev := UpsertAll(m, players[..|players| - 1], t, excludeId);
            var p := players[|players| - 1];
            Tracked(p, excludeId) ==> UpsertAll(m, players, t, excludeId) == Upsert(prev, p, t)
    ensures var prev := UpsertAll(m, players[..|players| - 1], t, excludeId);
            var p := players[|players| - 1];
            !Tracked(p, excludeId) ==> UpsertAll(m, players, t, excludeId) == prev
  {
  }

  /** The index of the last tracked snapshot entry for `id`, or -1 when there is none. */
  function LastEntry(players: seq<PlayerState>, excludeId: Option<string>, id: string): (i: int)
    ensures -1 <= i < |players|
    ensures 0 <= i ==> players[i].id == id && Tracked(players[i], excludeId)
  {
    if |players| == 0 then -1
    else
      var p := players[|players| - 1];
      if p.id == id && Tracked(p, excludeId) then |players| - 1
      else LastEntry(players[..|players| - 1], excludeId, id)
  }

  /** No tracked entry for `id` comes after the one LastEntry picks, and there is one whenever
      the id is tracked at all. */
  lemma {:induction false} LastEntryIsLast(players: seq<PlayerState>, excludeId: Option<string>,
                                           id: string)
    ensures var i := LastEntry(players, excludeId, id);
            && (id in SnapshotIds(players, excludeId) <==> 0 <= i)
            && forall j :: i < j < |players| ==> !(players[j].id == id && Tracked(players[j], excludeId))
  {
    if |players| > 0 {
      var n := |players| - 1;
      LastEntryIsLast(players[..n], excludeId, id);
      assert forall j :: 0 <= j < n ==> players[..n][j] == players[j];
    }
  }

  /** The newest sample of a tracked player carries the snapshot time and the pose of the
      last snapshot entry with that id. */
  lemma {:induction false} UpsertAllLatest(m: map<string, Remote>, players: seq<PlayerState>,
                                           t: int, excludeId: Option<string>, id: string)
    requires id in SnapshotIds(players, excludeId)
    ensures id in UpsertAll(m, players, t, excludeId)
    ensures 0 < |UpsertAll(m, players, t, excludeId)[id].samples|
    ensures 0 <= LastEntry(players, excludeId, id)
    ensures Newest(UpsertAll(m, players, t, excludeId)[id])
            == Sample(t, players[LastEntry(players, excludeId, id)].position,
                      players[LastEntry(players, excludeId, id)].quaternion)
  {
    var n := |players| - 1;
    var p := players[n];
    if Tracked(p, excludeId) && p.id == id {
      LatestAtEnd(m, players, t, excludeId);
    } else {
      var prev := UpsertAll(m, players[..n], t, excludeId);
      LatestFromPrefix(players, excludeId, id);
      UpsertAllLatest(m, players[..n], t, excludeId, id);
      UpsertAllSkips(m, players, t, excludeId, id);
      var i := LastEntry(players[..n], excludeId, id);
      assert LastEntry(players, excludeId, id) == i;
      assert players[..n][i] == players[i];
    }
  }

  /** The entry pushed last is the newest sample of its record. */
  lemma LatestAtEnd(m: map<string, Remote>, players: seq<PlayerState>, t: int,
                    excludeId: Option<string>)
    requires 0 < |players| && Tracked(players[|players| - 1], excludeId)
    ensures var p := players[|players| - 1];
            var m' := UpsertAll(m, players, t, excludeId);
            && p.id in m' && 0 < |m'[p.id].samples|
            && LastEntry(players, excludeId, p.id) == |players| - 1
            && Newest(m'[p.id]) == Sample(t, p.position, p.quaternion)
  {
    var n := |players| - 1;
    var prev := UpsertAll(m, players[..n], t, excludeId);
    var p := players[n];
    assert UpsertAll(m, players, t, excludeId) == Upsert(prev, p, t);
  }

  /** Entries for other ids, or untracked ones, leave a record as the prefix left it. */
  lemma UpsertAllSkips(m: map<string, Remote>, players: seq<PlayerState>, t: int,
                       excludeId: Option<string>, id: string)
    requires 0 < |players|
    requires !(players[|players| - 1].id == id && Tracked(players[|players| - 1], excludeId))
    ensures var prev := UpsertAll(m, players[..|players| - 1], t, excludeId);
            id in prev ==> id in UpsertAll(m, players, t, excludeId)
                           && UpsertAll(m, players, t, excludeId)[id] == prev[id]
  {
  }

  lemma LatestFromPrefix(players: seq<PlayerState>, excludeId: Option<string>, id: string)
    requires 0 < |players| && id in SnapshotIds(players, excludeId)
    requires !(players[|players| - 1].id == id && Tracked(players[|players| - 1], excludeId))
    ensures id in SnapshotIds(players[..|players| - 1], excludeId)
  {
    var n := |players| - 1;
    SnapshotIdsMembers(players, excludeId, id);
    SnapshotIdsMembers(players[..n], excludeId, id);
    var k :| 0 <= k < |players| && players[k].id == id && Tracked(players[k], excludeId);
    assert k < n && players[..n][k] == players[k];
  }

  lemma PrunedWellFormed(m: map<string, Remote>, ids: set<string>)
    requires WellFormed(m)
    ensures WellFormed(Pruned(m, ids))
  {
  }

  /** Pruning then upserting: the records after `applySnapshot`, seen id by id. */
  lemma SnapshotWellFormed(m: map<string, Remote>, snap: Snapshot, excludeId: Option<string>)
    requires WellFormed(m)
    ensures WellFormed(AfterSnapshot(m, snap, excludeId))
  {
    var ids := SnapshotIds(snap.players, excludeId);
    PrunedWellFormed(m, ids);
    UpsertAllWellFormed(Pruned(m, ids), snap.players, snap.t, excludeId);
  }

  /** A player already tracked and still listed keeps its colour and its mesh pose. */
  lemma SnapshotKeepsColour(m: map<string, Remote>, snap: Snapshot, excludeId: Option<string>,
                            id: string)
    requires id in m && id in SnapshotIds(snap.players, excludeId)
    ensures var m' := AfterSnapshot(m, snap, excludeId);
            id in m' && m'[id].color == m[id].color && m'[id].position == m[id].position
            && m'[id].quaternion == m[id].quaternion
  {
    var ids := SnapshotIds(snap.players, excludeId);
    UpsertAllKeepsExisting(Pruned(m, ids), snap.players, snap.t, excludeId, id);
  }

  /** A newly seen player gets a record with the colour of its first snapshot entry. */
  lemma SnapshotNewColour(m: map<string, Remote>, snap: Snapshot, excludeId: Option<string>,
                          id: string)
    requires id !in m && id in AfterSnapshot(m, snap, excludeId)
    ensures exists i :: 0 <= i < |snap.players| && snap.players[i].id == id
                        && AfterSnapshot(m, snap, excludeId)[id].color == snap.players[i].color
                        && forall j :: 0 <= j < i ==> snap.players[j].id != id
  {
    var ids := SnapshotIds(snap.players, excludeId);
    UpsertAllNewColor(Pruned(m, ids), snap.players, snap.t, excludeId, id);
  }

  /** Every tracked player's newest sample is stamped with the snapshot time and carries the
      pose of its last entry in the snapshot. */
  lemma SnapshotNewest(m: map<string, Remote>, snap: Snapshot, excludeId: Option<string>,
                       id: string)
    requires id in SnapshotIds(snap.players, excludeId)
    ensures var m' := AfterSnapshot(m, snap, excludeId);
            var i := LastEntry(snap.players, excludeId, id);
            && id in m' && 0 < |m'[id].samples| && 0 <= i
            && Newest(m'[id]) == Sample(snap.t, snap.players[i].position, snap.players[i].quaternion)
  {
    var ids := SnapshotIds(snap.players, excludeId);
    UpsertAllLatest(Pruned(m, ids), snap.players, snap.t, excludeId, id);
  }

  // ---------------------------------------------------------------------------------------
  // A frame

  /** The records after `update(renderTime)`: each one rendered on its own. */
  function Rendered(m: map<string, Remote>, renderTime: real, slerp: (Quat, Quat, real) -> Quat)
    : map<string, Remote>
  {
    map id | id in m :: Render(m[id], renderTime, slerp)
  }

  /** A frame tracks the same players, keeps every record well formed, and leaves every
      history sorted by time as a permutation of what it was. */
  lemma RenderedKeeps(m: map<string, Remote>, renderTime: real, slerp: (Quat, Quat, real) -> Quat)
    requires WellFormed(m)
    ensures var m' := Rendered(m, renderTime, slerp);
            && m'.Keys == m.Keys && WellFormed(m')
            && forall id :: id in m ==>
                 m'[id].color == m[id].color && SortedByTime(m'[id].samples)
                 && multiset(m'[id].samples) == multiset(m[id].samples)
  {
  }

  /** The first adjacent pair of `s` whose times enclose `renderTime`, or the first and last
      sample when there is none. */
  method FindBracket(s: array<Sample>, renderTime: real) returns (a: Sample, b: Sample)
    requires 0 < s.Length
    ensures var (i, j) := Bracket(s[..], renderTime);
            i < s.Length && j < s.Length && a == s[i] && b == s[j]
  {
    BracketInRange(s[..], renderTime);
    a, b := s[0], s[s.Length - 1];
    var i := 0;
    while i < s.Length - 1
      invariant 0 <= i <= s.Length - 1
      invariant Bracket(s[..], renderTime) == BracketFrom(s[..], renderTime, i)
    {
      if s[i].t as real <= renderTime && s[i + 1].t as real >= renderTime {
        a, b := s[i], s[i + 1];
        break;
      }
      i := i + 1;
    }
  }

  /** RemotesManager: the tracked players by id. The scene graph and name sprites are not
      modelled; each record's mesh pose is. */
  class RemotesManager {
    var remotes: map<string, Remote>

    ghost predicate Valid()
      reads this
    {
      WellFormed(remotes)
    }

    constructor ()
      ensures remotes == map[] && Valid()
    {
      remotes := map[];
    }

    method ApplySnapshot(snap: Snapshot, excludeId: Option<string>)
      requires Valid()
      modifies this
      ensures remotes == AfterSnapshot(old(remotes), snap, excludeId)
      ensures remotes.Keys == SnapshotIds(snap.players, excludeId)
      ensures Valid()
    {
      ghost var before := remotes;
      var ids := SnapshotIds(snap.players, excludeId);
      RemoveStale(ids);
      UpsertLoop(snap.players, snap.t, excludeId);
      SnapshotKeys(before, snap, excludeId);
      SnapshotWellFormed(before, snap, excludeId);
    }

    /** The upsert loop: every entry except the local player's is upserted, in order. */
    method UpsertLoop(players: seq<PlayerState>, t: int, excludeId: Option<string>)
      modifies this
      ensures remotes == UpsertAll(old(remotes), players, t, excludeId)
    {
      ghost var pruned := remotes;
      var i := 0;
      while i < |players|
        invariant 0 <= i <= |players|
        invariant remotes == UpsertUpTo(pruned, players, i, t, excludeId)
      {
        UpsertOne(players[i], t, excludeId);
        i := i + 1;
      }
      UpsertUpToAll(pruned, players, |players|, t, excludeId);
      assert players[..|players|] == players;
    }

    /** The "remove stale" loop: drops every record whose id is not in `ids`. */
    method RemoveStale(ids: set<string>)
      modifies this
      ensures remotes == Pruned(old(remotes), ids)
    {
      ghost var before := remotes;
      var stale := remotes.Keys;
      while stale != {}
        invariant stale <= before.Keys
        invariant remotes == map id | id in before && (id in ids || id in stale) :: before[id]
        decreases stale
      {
        var id :| id in stale;
        if id !in ids {
          remotes := remotes - {id};
        }
        stale := stale - {id};
      }
    }

    /** One pass of the upsert loop: the local player's entry is skipped (`continue`); any
        other creates its record if needed and pushes a sample. */
    method UpsertOne(p: PlayerState, t: int, excludeId: Option<string>)
      modifies this
      ensures !Tracked(p, excludeId) ==> remotes == old(remotes)
      ensures Tracked(p, excludeId) ==> remotes == Upsert(old(remotes), p, t)
    {
      if !Tracked(p, excludeId) {
        return;
      }
      if p.id !in remotes {
        remotes := remotes[p.id := NewRemote(p.id, p.color)];
      }
      var r := remotes[p.id];
      var samples := r.samples + [Sample(t, p.position, p.quaternion)];
      if |samples| > Capacity {
        samples := samples[1..];
      }
      remotes := remotes[p.id := r.(samples := samples)];
    }

    method Update(renderTime: real, slerp: (Quat, Quat, real) -> Quat)
      requires Valid()
      modifies this
      ensures remotes == Rendered(old(remotes), renderTime, slerp)
      ensures Valid()
    {
      ghost var before := remotes;
      var todo := remotes.Keys;
      while todo != {}
        invariant todo <= before.Keys && remotes.Keys == before.Keys
        invariant forall id :: id in before ==>
                    remotes[id] == if id in todo then before[id]
                                   else Render(before[id], renderTime, slerp)
        decreases todo
      {
        var id :| id in todo;
        RenderOne(id, renderTime, slerp);
        todo := todo - {id};
      }
      assert remotes == Rendered(before, renderTime, slerp);
      RenderedKeeps(before, renderTime, slerp);
    }

    /** The body of the `update` loop for one record. */
    method RenderOne(id: string, renderTime: real, slerp: (Quat, Quat, real) -> Quat)
      requires id in remotes
      modifies this
      ensures remotes == old(remotes)[id := Render(old(remotes)[id], renderTime, slerp)]
    {
      var r := remotes[id];
      if |r.samples| == 0 {
        assert remotes[id := Render(r, renderTime, slerp)] == remotes;
        return;
      }
      var r' := RenderRecord(r, renderTime, slerp);
      remotes := remotes[id := r'];
    }
  }

  /** Sorts a record's history in place, finds the bracketing pair and poses the mesh. */
  method RenderRecord(r: Remote, renderTime: real, slerp: (Quat, Quat, real) -> Quat)
    returns (r': Remote)
    requires 0 < |r.samples|
    ensures r' == Render(r, renderTime, slerp)
  {
    var s := new Sample[|r.samples|](k requires 0 <= k < |r.samples| => r.samples[k]);
    assert s[..] == r.samples;
    SortSamples(s);
    ghost var sorted := s[..];
    assert sorted == SortByTime(r.samples);
    var a, b := FindBracket(s, renderTime);
    ghost var ij := Bracket(sorted, renderTime);
    assert ij.0 < |sorted| && ij.1 < |sorted|;
    assert a == sorted[ij.0];
    assert b == sorted[ij.1];
    var f := Fraction(a, b, renderTime);
    var position := Lerp(a.position, b.position, f);
    var quaternion := Orientation(r.quaternion, a, b, f, slerp);
    RenderUnfold(r, sorted, a, b, renderTime, slerp);
    r' := r.(samples := s[..], position := position, quaternion := quaternion);
  }
}

/**
 The volume history tracker of app.py: a per-token list of
 (timestamp, cumulative volume) samples pruned to the last 300 seconds,
 and the windowed volume deltas derived from it. The wall clock is a
 parameter: each operation receives the `now` it would have read.
 */
module VolumeTracker {
  import opened Seqs

  /** Samples older than this many seconds are pruned on every update. */
  const Retention: real := 300.0

  /** One observation of an instrument's cumulative traded volume at time `t` (seconds). */
  datatype Sample = Sample(t: real, volume: int)

  /** The five windowed deltas, keyed vol_10s, vol_30s, vol_1m, vol_3m and vol_5m in the source. */
  datatype Spikes = Spikes(vol10s: int, vol30s: int, vol1m: int, vol3m: int, vol5m: int)

  const NoSpikes := Spikes(0, 0, 0, 0, 0)

  /** The stored list of a token, or the empty list for a token never seen. */
  function Lookup(h: map<string, seq<Sample>>, token: string): seq<Sample>
  {
    if token in h then h[token] else []
  }

  /** A sample counts for a window of `sec` seconds when it is at most `sec` seconds old. */
  predicate InWindow(x: Sample, now: real, sec: real)
  {
    now - x.t <= sec
  }

  /** The samples of `h` no older than `sec` seconds, in stored order. */
  function Within(h: seq<Sample>, now: real, sec: real): seq<Sample>
  {
    Filter(x => InWindow(x, now, sec), h)
  }

  /** Last minus first volume among the samples in the window, or 0 with fewer than two of them. */
  function Window(h: seq<Sample>, now: real, sec: real): int
  {
    var w := Within(h, now, sec);
    if |w| >= 2 then w[|w| - 1].volume - w[0].volume else 0
  }

  function SpikesOf(h: seq<Sample>, now: real): Spikes
  {
    Spikes(Window(h, now, 10.0), Window(h, now, 30.0), Window(h, now, 60.0),
           Window(h, now, 180.0), Window(h, now, 300.0))
  }

  /** Cumulative volume never decreases along the stored list (no session reset). */
  ghost predicate VolumesNondecreasing(h: seq<Sample>)
  {
    forall i, j :: 0 <= i < j < |h| ==> h[i].volume <= h[j].volume
  }

  /** Timestamps never decrease along the stored list. */
  ghost predicate TimeOrdered(h: seq<Sample>)
  {
    forall i, j :: 0 <= i < j < |h| ==> h[i].t <= h[j].t
  }

  /** The history after recording `volume` for `token` at time `now`. */
  function Recorded(h: map<string, seq<Sample>>, token: string, volume: int, now: real): map<string, seq<Sample>>
  {
    h[token := Within(Lookup(h, token) + [Sample(now, volume)], now, Retention)]
  }

  /** Recording touches only the token's own list, creating it for a token never seen. */
  lemma RecordedFrame(h: map<string, seq<Sample>>, token: string, volume: int, now: real)
    ensures Recorded(h, token, volume, now).Keys == h.Keys + {token}
    ensures forall k :: k in h && k != token ==> Recorded(h, token, volume, now)[k] == h[k]
  {
  }

  /**
   After recording, the token's list ends with the new sample and holds
   exactly the old and new samples at most 300 seconds old, every copy of
   each, in their original order.
   */
  lemma RecordedRetains(h: map<string, seq<Sample>>, token: string, volume: int, now: real)
    ensures var s := Recorded(h, token, volume, now)[token];
      && |s| > 0 && s[|s| - 1] == Sample(now, volume)
      && (forall x :: x in s <==> (x in Lookup(h, token) || x == Sample(now, volume)) && now - x.t <= Retention)
      && IsSubsequence(s, Lookup(h, token) + [Sample(now, volume)])
    ensures var s := Recorded(h, token, volume, now)[token];
      forall x: Sample :: multiset(s)[x]
        == if now - x.t <= Retention then multiset(Lookup(h, token) + [Sample(now, volume)])[x] else 0
  {
    var p := x => InWindow(x, now, Retention);
    var newest := Sample(now, volume);
    var kept := Lookup(h, token);
    FilterConcat(p, kept, [newest]);
    assert Filter(p, [newest]) == [newest];
    FilterIsSubsequence(p, kept + [newest]);
    forall x: Sample ensures multiset(Filter(p, kept + [newest]))[x]
      == if now - x.t <= Retention then multiset(kept + [newest])[x] else 0 {
      FilterCount(p, kept + [newest], x);
    }
  }

  /**
   The window delta is zero when no two stored samples lie in the window
   (app.py:86-89, the "fewer than two" branch).
   */
  lemma WindowFewerThanTwo(h: seq<Sample>, now: real, sec: real)
    requires forall i, j :: 0 <= i < j < |h| && InWindow(h[i], now, sec) ==> !InWindow(h[j], now, sec)
    ensures Window(h, now, sec) == 0
  {
    if |Within(h, now, sec)| >= 2 {
      FilterTwo(x => InWindow(x, now, sec), h);
    }
  }

  /**
   With two or more samples in the window, the delta is the volume of the
   last sample in the window minus that of the first one.
   */
  lemma WindowEnds(h: seq<Sample>, now: real, sec: real, i: nat, j: nat)
    requires i < j < |h|
    requires InWindow(h[i], now, sec) && InWindow(h[j], now, sec)
    requires forall k :: 0 <= k < i ==> !InWindow(h[k], now, sec)
    requires forall k :: j < k < |h| ==> !InWindow(h[k], now, sec)
    ensures Window(h, now, sec) == h[j].volume - h[i].volume
  {
    var p := x => InWindow(x, now, sec);
    var before, core, after := h[..i], h[i..j + 1], h[j + 1..];
    assert h == before + (core + after);
    FilterConcat(p, before, core + after);
    FilterNone(p, before);
    FilterConcat(p, core, after);
    FilterNone(p, after);
    var w := Within(h, now, sec);
    assert w == Filter(p, core);
    var mid := core[1..j - i];
    assert core[1..] == mid + [h[j]];
    FilterConcat(p, mid, [h[j]]);
    assert Filter(p, [h[j]]) == [h[j]];
    assert core[0] == h[i];
    assert w == [h[i]] + (Filter(p, mid) + [h[j]]);
  }

  /**
   Over a history whose volumes never decrease, every delta is non-negative
   and a longer window never gives a smaller delta.
   */
  lemma WindowMonotone(h: seq<Sample>, now: real, short: real, long: real)
    requires short <= long
    requires VolumesNondecreasing(h)
    ensures 0 <= Window(h, now, short) <= Window(h, now, long)
  {
    var rel := (a: Sample, b: Sample) => a.volume <= b.volume;
    var p1 := x => InWindow(x, now, short);
    var p2 := x => InWindow(x, now, long);
    assert Ordered(rel, h);
    var w1, w2 := Within(h, now, short), Within(h, now, long);
    FilterFuse(p2, p1, p1, h);
    assert w1 == Filter(p1, w2);
    FilterKeepsOrdered(rel, p2, h);
    FilterKeepsOrdered(rel, p1, w2);
    if |w2| >= 2 {
      assert rel(w2[0], w2[|w2| - 1]);
    }
    if |w1| >= 2 {
      var first, last := w1[0], w1[|w1| - 1];
      assert rel(first, last);
      assert first in w2 && last in w2;
      var a :| 0 <= a < |w2| && w2[a] == first;
      var b :| 0 <= b < |w2| && w2[b] == last;
      assert a > 0 ==> rel(w2[0], w2[a]);
      assert b < |w2| - 1 ==> rel(w2[b], w2[|w2| - 1]);
    }
  }

  /** Spike deltas over a reset-free history are non-negative and grow with the window. */
  lemma SpikesMonotone(h: seq<Sample>, now: real)
    requires VolumesNondecreasing(h)
    ensures var s := SpikesOf(h, now);
      0 <= s.vol10s <= s.vol30s <= s.vol1m <= s.vol3m <= s.vol5m
  {
    WindowMonotone(h, now, 10.0, 30.0);
    WindowMonotone(h, now, 30.0, 60.0);
    WindowMonotone(h, now, 60.0, 180.0);
    WindowMonotone(h, now, 180.0, 300.0);
  }

  /**
   Recording keeps a stored list time-ordered when the clock does not run
   backwards, and keeps its volumes non-decreasing when the new volume is
   at least every stored one.
   */
  lemma RecordedKeepsOrder(h: map<string, seq<Sample>>, token: string, volume: int, now: real)
    ensures TimeOrdered(Lookup(h, token)) && (forall x :: x in Lookup(h, token) ==> x.t <= now)
      ==> TimeOrdered(Recorded(h, token, volume, now)[token])
    ensures VolumesNondecreasing(Lookup(h, token)) && (forall x :: x in Lookup(h, token) ==> x.volume <= volume)
      ==> VolumesNondecreasing(Recorded(h, token, volume, now)[token])
  {
    var s := Lookup(h, token) + [Sample(now, volume)];
    var p := x => InWindow(x, now, Retention);
    var byTime := (a: Sample, b: Sample) => a.t <= b.t;
    var byVolume := (a: Sample, b: Sample) => a.volume <= b.volume;
    if TimeOrdered(Lookup(h, token)) && (forall x :: x in Lookup(h, token) ==> x.t <= now) {
      assert forall k :: 0 <= k < |s| - 1 ==> s[k] in Lookup(h, token);
      assert Ordered(byTime, s);
      FilterKeepsOrdered(byTime, p, s);
    }
    if VolumesNondecreasing(Lookup(h, token)) && (forall x :: x in Lookup(h, token) ==> x.volume <= volume) {
      assert forall k :: 0 <= k < |s| - 1 ==> s[k] in Lookup(h, token);
      assert Ordered(byVolume, s);
      FilterKeepsOrdered(byVolume, p, s);
    }
  }

  /** The process-wide volume history, keyed by instrument token. */
  class Tracker {
    var history: map<string, seq<Sample>>

    constructor ()
      ensures history == map[]
    {
      history := map[];
    }

    /**
     Appends (now, volume) to the token's list, creating it if absent, then
     keeps only the samples at most 300 seconds old.
     */
    method UpdateVolumeHistory(token: string, volume: int, now: real)
      modifies this
      ensures history == Recorded(old(history), token, volume, now)
    {
      if token !in history {
        history := history[token := []];
      }
      history := history[token := history[token] + [Sample(now, volume)]];
      history := history[token := Within(history[token], now, Retention)];
    }

    /** The five windowed deltas of the token at time `now`; reads the history only. */
    function CalculateSpike(token: string, now: real): (r: Spikes)
      reads this
      ensures token !in history ==> r == NoSpikes
      ensures VolumesNondecreasing(Lookup(history, token)) ==>
        0 <= r.vol10s <= r.vol30s <= r.vol1m <= r.vol3m <= r.vol5m
    {
      var h := Lookup(history, token);
      assert VolumesNondecreasing(h) ==>
        (0 <= Window(h, now, 10.0) <= Window(h, now, 30.0) <= Window(h, now, 60.0)
           <= Window(h, now, 180.0) <= Window(h, now, 300.0)) by {
        if VolumesNondecreasing(h) {
          SpikesMonotone(h, now);
        }
      }
      SpikesOf(h, now)
    }
  }
}

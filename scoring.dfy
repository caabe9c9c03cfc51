/**
 The batch scoring of app.py's option-chain engine: every factor column is
 divided by its batch maximum (or by 1 when that maximum is 0), the volume
 spike deltas are blended into a spike score, the five normalised parts are
 averaged into the composite score, a burst flag compares the deltas with
 the batch mean spike score, and the batch is ordered by score, highest
 first. Arithmetic is on exact reals.
 */
module Scoring {
  import opened Seqs
  import opened VolumeTracker

  /** One assembled contract snapshot, a row of the batch before scoring. */
  datatype Row = Row(
    symbol: string, strike: real, kind: string, ltp: real,
    volume: int, oi: int, oiChange: int, iv: real, spikes: Spikes)

  /** A row with the columns that scoring adds to it. */
  datatype Scored = Scored(
    row: Row,
    volumeScore: real, oiScore: real, oiChangeScore: real, ivScore: real,
    volSpikeScore: real, score: real, confidence: real, burst: bool)

  /** A delta above this multiple of the mean spike score is a volume burst. */
  const BurstFactor: real := 1.5

  function Max(xs: seq<real>): (m: real)
    requires |xs| > 0
    ensures m in xs
    ensures forall i :: 0 <= i < |xs| ==> xs[i] <= m
  {
    if |xs| == 1 then xs[0]
    else
      var rest := Max(xs[1..]);
      if xs[0] >= rest then xs[0] else rest
  }

  function Sum(xs: seq<real>): real
  {
    if xs == [] then 0.0 else xs[0] + Sum(xs[1..])
  }

  function Mean(xs: seq<real>): real
    requires |xs| > 0
  {
    Sum(xs) / (|xs| as real)
  }

  /** Python's `m or 1`: a zero maximum is replaced by 1 so that nothing divides by zero. */
  function Divisor(m: real): real
  {
    if m == 0.0 then 1.0 else m
  }

  /** Weighted blend of the 10 s, 30 s and 1 min deltas; the 3 min and 5 min deltas are not used. */
  function VolSpikeScore(s: Spikes): real
  {
    0.2 * (s.vol10s as real) + 0.3 * (s.vol30s as real) + 0.5 * (s.vol1m as real)
  }

  function VolumeOf(r: Row): real { r.volume as real }
  function OiOf(r: Row): real { r.oi as real }
  function OiChangeOf(r: Row): real { r.oiChange as real }
  function IvOf(r: Row): real { r.iv }
  function SpikeOf(r: Row): real { VolSpikeScore(r.spikes) }

  function Column(rows: seq<Row>, f: Row -> real): seq<real>
  {
    MapSeq(f, rows)
  }

  /** The batch-wide reductions that every row's scores depend on. */
  datatype Stats = Stats(
    volumeMax: real, oiMax: real, oiChangeMax: real, ivMax: real,
    spikeMax: real, spikeMean: real)

  function BatchStats(rows: seq<Row>): Stats
    requires |rows| > 0
  {
    Stats(Max(Column(rows, VolumeOf)), Max(Column(rows, OiOf)), Max(Column(rows, OiChangeOf)),
          Max(Column(rows, IvOf)), Max(Column(rows, SpikeOf)), Mean(Column(rows, SpikeOf)))
  }

  /** A delta of the row exceeds 1.5 times the given mean spike score. */
  predicate IsBurst(s: Spikes, spikeMean: real)
  {
    var threshold := spikeMean * BurstFactor;
    (s.vol10s as real) > threshold || (s.vol30s as real) > threshold || (s.vol1m as real) > threshold
  }

  function ScoreRow(r: Row, st: Stats): Scored
  {
    var volumeScore := VolumeOf(r) / Divisor(st.volumeMax);
    var oiScore := OiOf(r) / Divisor(st.oiMax);
    var oiChangeScore := OiChangeOf(r) / Divisor(st.oiChangeMax);
    var ivScore := IvOf(r) / Divisor(st.ivMax);
    var spikeNorm := SpikeOf(r) / Divisor(st.spikeMax);
    var score := volumeScore * 0.2 + oiScore * 0.2 + oiChangeScore * 0.2 + ivScore * 0.2 + spikeNorm * 0.2;
    Scored(r, volumeScore, oiScore, oiChangeScore, ivScore, SpikeOf(r), score, score * 100.0,
           IsBurst(r.spikes, st.spikeMean))
  }

  ghost predicate SortedByScore(s: seq<Scored>)
  {
    forall i, j :: 0 <= i < j < |s| ==> s[i].score >= s[j].score
  }

  function Insert(x: Scored, s: seq<Scored>): (r: seq<Scored>)
    requires SortedByScore(s)
    ensures SortedByScore(r)
    ensures multiset(r) == multiset(s) + multiset{x}
  {
    if s == [] then [x]
    else if x.score >= s[0].score then
      PrependSorted(x, s);
      [x] + s
    else
      SortedTail(s);
      var tail := Insert(x, s[1..]);
      HeadBoundsInsert(x, s, tail);
      assert s == [s[0]] + s[1..];
      [s[0]] + tail
  }

  lemma SortedTail(s: seq<Scored>)
    requires SortedByScore(s) && s != []
    ensures SortedByScore(s[1..])
    ensures forall z :: z in s[1..] ==> s[0].score >= z.score
  {
    forall z | z in s[1..] ensures s[0].score >= z.score {
      var k :| 0 <= k < |s[1..]| && s[1..][k] == z;
      assert s[k + 1] == z;
    }
  }

  lemma HeadBoundsInsert(x: Scored, s: seq<Scored>, tail: seq<Scored>)
    requires SortedByScore(s) && s != [] && x.score < s[0].score
    requires SortedByScore(tail) && multiset(tail) == multiset(s[1..]) + multiset{x}
    ensures SortedByScore([s[0]] + tail)
  {
    SortedTail(s);
    forall z | z in tail ensures s[0].score >= z.score {
      assert z in multiset(tail);
    }
    PrependSorted(s[0], tail);
  }

  lemma PrependSorted(y: Scored, t: seq<Scored>)
    requires SortedByScore(t)
    requires forall z :: z in t ==> y.score >= z.score
    ensures SortedByScore([y] + t)
  {
    var r := [y] + t;
    forall i, j | 0 <= i < j < |r| ensures r[i].score >= r[j].score {
      assert r[j] == t[j - 1];
      if i == 0 {
        assert t[j - 1] in t;
      } else {
        assert r[i] == t[i - 1];
      }
    }
  }

  /** Orders scored rows by score, highest first. */
  function SortByScore(s: seq<Scored>): (r: seq<Scored>)
    ensures SortedByScore(r)
    ensures multiset(r) == multiset(s)
  {
    if s == [] then []
    else
      assert s == [s[0]] + s[1..];
      Insert(s[0], SortByScore(s[1..]))
  }

  /** The scored batch; an empty batch is returned as is, with no reductions computed. */
  function ScoreBatch(rows: seq<Row>): seq<Scored>
  {
    if rows == [] then [] else SortByScore(ScoreAll(rows, BatchStats(rows)))
  }

  /** Every row scored against the same batch reductions, in input order. */
  function ScoreAll(rows: seq<Row>, st: Stats): seq<Scored>
  {
    MapSeq(r => ScoreRow(r, st), rows)
  }

  /** Raw factors and the three weighted deltas are non-negative, as in normal trading. */
  predicate NonNegative(r: Row)
  {
    && r.volume >= 0 && r.oi >= 0 && r.oiChange >= 0 && r.iv >= 0.0
    && r.spikes.vol10s >= 0 && r.spikes.vol30s >= 0 && r.spikes.vol1m >= 0
  }

  //////////////////////////////////////////////////////////////////////
  // Normalisation of one column
  //////////////////////////////////////////////////////////////////////

  /** A non-negative column normalises into [0, 1]. */
  lemma NormalisedInUnit(xs: seq<real>, i: nat)
    requires i < |xs|
    requires forall k :: 0 <= k < |xs| ==> xs[k] >= 0.0
    ensures 0.0 <= xs[i] / Divisor(Max(xs)) <= 1.0
  {
    var m := Max(xs);
    assert xs[i] <= m;
    if m != 0.0 {
      RatioInUnit(xs[i], m);
    }
  }

  lemma RatioInUnit(x: real, m: real)
    requires 0.0 <= x <= m && m > 0.0
    ensures 0.0 <= x / m <= 1.0
  {
    assert (x / m) * m == x;
  }

  /** The position achieving a non-zero maximum normalises to exactly 1. */
  lemma NormalisedMaxIsOne(xs: seq<real>, i: nat)
    requires i < |xs|
    requires xs[i] == Max(xs) && Max(xs) != 0.0
    ensures xs[i] / Divisor(Max(xs)) == 1.0
  {
    var m := Max(xs);
    assert Divisor(m) == m;
    DivSelf(m);
  }

  lemma DivSelf(m: real)
    requires m != 0.0
    ensures m / m == 1.0
  {
  }

  /** A zero maximum divides by 1, so an all-zero column stays all zero. */
  lemma NormalisedZeroMax(xs: seq<real>, i: nat)
    requires i < |xs|
    requires Max(xs) == 0.0
    ensures xs[i] / Divisor(Max(xs)) == xs[i]
    ensures (forall k :: 0 <= k < |xs| ==> xs[k] == 0.0) ==> xs[i] / Divisor(Max(xs)) == 0.0
  {
  }

  //////////////////////////////////////////////////////////////////////
  // Reductions and permutations
  //////////////////////////////////////////////////////////////////////

  lemma {:induction false} SumConcat(a: seq<real>, b: seq<real>)
    ensures Sum(a + b) == Sum(a) + Sum(b)
  {
    if a == [] {
      assert a + b == b;
    } else {
      assert (a + b)[1..] == a[1..] + b;
      SumConcat(a[1..], b);
    }
  }

  lemma {:induction false} SumPermutation(a: seq<real>, b: seq<real>)
    requires multiset(a) == multiset(b)
    ensures Sum(a) == Sum(b)
  {
    if a != [] {
      var j := PermutationSplit(a, b);
      var left, right := b[..j], b[j + 1..];
      SumPermutation(a[1..], left + right);
      assert b == left + [b[j]] + right;
      SumConcat(left + [b[j]], right);
      SumConcat(left, [b[j]]);
      SumConcat(left, right);
    } else {
      assert |b| == |multiset(b)| == 0;
    }
  }

  lemma MaxPermutation(a: seq<real>, b: seq<real>)
    requires |a| > 0 && multiset(a) == multiset(b)
    ensures |b| > 0 && Max(a) == Max(b)
  {
    assert |b| == |multiset(b)| == |multiset(a)| == |a|;
    assert Max(a) in multiset(b);
    assert Max(b) in multiset(a);
  }

  /** The batch reductions depend only on which rows there are, not on their order. */
  lemma StatsPermutation(rows: seq<Row>, others: seq<Row>)
    requires |rows| > 0 && multiset(rows) == multiset(others)
    ensures |others| > 0 && BatchStats(rows) == BatchStats(others)
  {
    assert |others| == |multiset(others)| == |multiset(rows)| == |rows|;
    MapPermutation(VolumeOf, rows, others);
    MaxPermutation(Column(rows, VolumeOf), Column(others, VolumeOf));
    MapPermutation(OiOf, rows, others);
    MaxPermutation(Column(rows, OiOf), Column(others, OiOf));
    MapPermutation(OiChangeOf, rows, others);
    MaxPermutation(Column(rows, OiChangeOf), Column(others, OiChangeOf));
    MapPermutation(IvOf, rows, others);
    MaxPermutation(Column(rows, IvOf), Column(others, IvOf));
    MapPermutation(SpikeOf, rows, others);
    MaxPermutation(Column(rows, SpikeOf), Column(others, SpikeOf));
    SumPermutation(Column(rows, SpikeOf), Column(others, SpikeOf));
  }

  //////////////////////////////////////////////////////////////////////
  // Properties of the scored batch
  //////////////////////////////////////////////////////////////////////

  /**
   The result is empty exactly when the batch is; otherwise it is a
   permutation of the batch's scored rows, ordered by non-increasing score.
   */
  lemma ScoreBatchOrdered(rows: seq<Row>)
    ensures |ScoreBatch(rows)| == |rows|
    ensures ScoreBatch(rows) == [] <==> rows == []
    ensures SortedByScore(ScoreBatch(rows))
    ensures rows != [] ==>
      multiset(ScoreBatch(rows)) == multiset(ScoreAll(rows, BatchStats(rows)))
  {
    if rows != [] {
      var scored := ScoreAll(rows, BatchStats(rows));
      var r := ScoreBatch(rows);
      assert |r| == |multiset(r)| == |multiset(scored)| == |scored|;
    }
  }

  /** The input row a scored row was computed from. */
  function RowOf(s: Scored): Row { s.row }

  /** The scored batch carries every input row exactly as often as the batch does. */
  lemma ScoreBatchRows(rows: seq<Row>)
    ensures multiset(MapSeq(RowOf, ScoreBatch(rows))) == multiset(rows)
  {
    if rows != [] {
      var scored := ScoreAll(rows, BatchStats(rows));
      ScoreBatchOrdered(rows);
      MapPermutation(RowOf, ScoreBatch(rows), scored);
      assert MapSeq(RowOf, scored) == rows;
    }
  }

  /** Every output row is an input row scored against the whole batch. */
  lemma ScoreBatchMember(rows: seq<Row>, s: Scored)
    requires s in ScoreBatch(rows)
    ensures rows != [] && s.row in rows && s == ScoreRow(s.row, BatchStats(rows))
  {
    assert rows != [];
    var st := BatchStats(rows);
    SortedMember(s, ScoreAll(rows, st));
    ScoreAllMember(rows, st, s);
  }

  lemma SortedMember(s: Scored, xs: seq<Scored>)
    requires s in SortByScore(xs)
    ensures s in xs
  {
    assert s in multiset(SortByScore(xs));
  }

  lemma ScoreAllMember(rows: seq<Row>, st: Stats, s: Scored)
    requires s in ScoreAll(rows, st)
    ensures s.row in rows && s == ScoreRow(s.row, st)
  {
    var scored := ScoreAll(rows, st);
    var i :| 0 <= i < |scored| && scored[i] == s;
    assert scored[i] == ScoreRow(rows[i], st);
  }

  /** Normalising one factor column of a non-negative batch stays within [0, 1]. */
  lemma FactorInUnit(rows: seq<Row>, f: Row -> real, r: Row)
    requires r in rows
    requires forall q :: q in rows ==> f(q) >= 0.0
    ensures 0.0 <= f(r) / Divisor(Max(Column(rows, f))) <= 1.0
  {
    var xs := Column(rows, f);
    var i :| 0 <= i < |rows| && rows[i] == r;
    assert forall k :: 0 <= k < |xs| ==> xs[k] >= 0.0 by {
      forall k | 0 <= k < |xs| ensures xs[k] >= 0.0 {
        assert rows[k] in rows;
      }
    }
    NormalisedInUnit(xs, i);
  }

  /**
   For a non-negative batch every component score and the composite score
   lie in [0, 1], and the confidence in [0, 100].
   */
  lemma ScoreBatchBounds(rows: seq<Row>)
    requires forall r :: r in rows ==> NonNegative(r)
    ensures forall s :: s in ScoreBatch(rows) ==>
      && 0.0 <= s.volumeScore <= 1.0 && 0.0 <= s.oiScore <= 1.0
      && 0.0 <= s.oiChangeScore <= 1.0 && 0.0 <= s.ivScore <= 1.0
      && 0.0 <= s.score <= 1.0 && 0.0 <= s.confidence <= 100.0
  {
    forall s | s in ScoreBatch(rows)
      ensures && 0.0 <= s.volumeScore <= 1.0 && 0.0 <= s.oiScore <= 1.0
              && 0.0 <= s.oiChangeScore <= 1.0 && 0.0 <= s.ivScore <= 1.0
              && 0.0 <= s.score <= 1.0 && 0.0 <= s.confidence <= 100.0
    {
      ScoreBatchMember(rows, s);
      var r := s.row;
      FactorInUnit(rows, VolumeOf, r);
      FactorInUnit(rows, OiOf, r);
      FactorInUnit(rows, OiChangeOf, r);
      FactorInUnit(rows, IvOf, r);
      FactorInUnit(rows, SpikeOf, r);
    }
  }

  /** The columns of an output row, spelled out against the input batch's reductions. */
  lemma ScoredColumns(rows: seq<Row>, s: Scored)
    requires s in ScoreBatch(rows)
    ensures rows != [] && s.row in rows
    ensures s.volumeScore == VolumeOf(s.row) / Divisor(Max(Column(rows, VolumeOf)))
    ensures s.oiScore == OiOf(s.row) / Divisor(Max(Column(rows, OiOf)))
    ensures s.oiChangeScore == OiChangeOf(s.row) / Divisor(Max(Column(rows, OiChangeOf)))
    ensures s.ivScore == IvOf(s.row) / Divisor(Max(Column(rows, IvOf)))
    ensures s.burst == IsBurst(s.row.spikes, Mean(Column(rows, SpikeOf)))
  {
    ScoreBatchMember(rows, s);
  }

  /** With a non-zero batch maximum, the row that holds it scores exactly 1 on that factor. */
  lemma ScoreBatchTopFactor(rows: seq<Row>)
    ensures forall s :: s in ScoreBatch(rows) ==>
      && (s.row.volume as real == Max(Column(rows, VolumeOf)) != 0.0 ==> s.volumeScore == 1.0)
      && (s.row.oi as real == Max(Column(rows, OiOf)) != 0.0 ==> s.oiScore == 1.0)
      && (s.row.oiChange as real == Max(Column(rows, OiChangeOf)) != 0.0 ==> s.oiChangeScore == 1.0)
      && (s.row.iv == Max(Column(rows, IvOf)) != 0.0 ==> s.ivScore == 1.0)
  {
    forall s | s in ScoreBatch(rows)
      ensures && (s.row.volume as real == Max(Column(rows, VolumeOf)) != 0.0 ==> s.volumeScore == 1.0)
              && (s.row.oi as real == Max(Column(rows, OiOf)) != 0.0 ==> s.oiScore == 1.0)
              && (s.row.oiChange as real == Max(Column(rows, OiChangeOf)) != 0.0 ==> s.oiChangeScore == 1.0)
              && (s.row.iv == Max(Column(rows, IvOf)) != 0.0 ==> s.ivScore == 1.0)
    {
      ScoredColumns(rows, s);
      TopIsOne(VolumeOf(s.row), Max(Column(rows, VolumeOf)));
      TopIsOne(OiOf(s.row), Max(Column(rows, OiOf)));
      TopIsOne(OiChangeOf(s.row), Max(Column(rows, OiChangeOf)));
      TopIsOne(IvOf(s.row), Max(Column(rows, IvOf)));
    }
  }

  lemma TopIsOne(x: real, m: real)
    ensures x == m != 0.0 ==> x / Divisor(m) == 1.0
  {
    if x == m != 0.0 {
      DivSelf(m);
    }
  }

  /** A column that is zero on every row scores zero on every row; nothing divides by zero. */
  lemma ScoreBatchZeroColumns(rows: seq<Row>)
    ensures (forall r :: r in rows ==> r.volume == 0) ==>
      forall s :: s in ScoreBatch(rows) ==> s.volumeScore == 0.0
    ensures (forall r :: r in rows ==> r.oi == 0) ==>
      forall s :: s in ScoreBatch(rows) ==> s.oiScore == 0.0
    ensures (forall r :: r in rows ==> r.oiChange == 0) ==>
      forall s :: s in ScoreBatch(rows) ==> s.oiChangeScore == 0.0
    ensures (forall r :: r in rows ==> r.iv == 0.0) ==>
      forall s :: s in ScoreBatch(rows) ==> s.ivScore == 0.0
  {
    forall s | s in ScoreBatch(rows)
      ensures s.row in rows
      ensures s.row.volume == 0 ==> s.volumeScore == 0.0
      ensures s.row.oi == 0 ==> s.oiScore == 0.0
      ensures s.row.oiChange == 0 ==> s.oiChangeScore == 0.0
      ensures s.row.iv == 0.0 ==> s.ivScore == 0.0
    {
      ScoredColumns(rows, s);
      ZeroOverDivisor(Max(Column(rows, VolumeOf)));
      ZeroOverDivisor(Max(Column(rows, OiOf)));
      ZeroOverDivisor(Max(Column(rows, OiChangeOf)));
      ZeroOverDivisor(Max(Column(rows, IvOf)));
    }
  }

  lemma ZeroOverDivisor(m: real)
    ensures 0.0 / Divisor(m) == 0.0
  {
  }

  /**
   A row is flagged exactly when its 10 s, 30 s or 1 min delta exceeds 1.5
   times the mean spike score of the whole batch.
   */
  lemma ScoreBatchBurst(rows: seq<Row>)
    ensures forall s :: s in ScoreBatch(rows) ==>
      |rows| > 0 &&
      (s.burst <==>
        || (s.row.spikes.vol10s as real) > 1.5 * Mean(Column(rows, SpikeOf))
        || (s.row.spikes.vol30s as real) > 1.5 * Mean(Column(rows, SpikeOf))
        || (s.row.spikes.vol1m as real) > 1.5 * Mean(Column(rows, SpikeOf)))
  {
    forall s | s in ScoreBatch(rows)
      ensures |rows| > 0 && s.burst == IsBurst(s.row.spikes, Mean(Column(rows, SpikeOf)))
    {
      ScoredColumns(rows, s);
    }
  }

  /** Reordering the input changes nothing but, possibly, the order among equal scores. */
  lemma ScoreBatchOrderInvariant(rows: seq<Row>, others: seq<Row>)
    requires multiset(rows) == multiset(others)
    ensures multiset(ScoreBatch(rows)) == multiset(ScoreBatch(others))
  {
    if rows == [] {
      assert |others| == |multiset(others)| == 0;
    } else {
      StatsPermutation(rows, others);
      var st := BatchStats(rows);
      MapPermutation(r => ScoreRow(r, st), rows, others);
      assert ScoreAll(rows, st) == MapSeq(r => ScoreRow(r, st), rows);
      assert ScoreAll(others, st) == MapSeq(r => ScoreRow(r, st), others);
    }
  }

  /** A batch of one quiet row: every score and the confidence are 0 and the row is not flagged. */
  lemma QuietSingleRow(r: Row)
    requires r.volume == 0 && r.oi == 0 && r.oiChange == 0 && r.iv == 0.0 && r.spikes == NoSpikes
    ensures ScoreBatch([r]) == [Scored(r, 0.0, 0.0, 0.0, 0.0, 0.0, 0.0, 0.0, false)]
  {
    var st := BatchStats([r]);
    assert Column([r], VolumeOf) == [0.0] && Column([r], OiOf) == [0.0] && Column([r], OiChangeOf) == [0.0];
    assert Column([r], IvOf) == [0.0] && Column([r], SpikeOf) == [0.0];
    assert Sum([0.0]) == 0.0;
    assert st == Stats(0.0, 0.0, 0.0, 0.0, 0.0, 0.0);
    assert ScoreAll([r], st) == [ScoreRow(r, st)];
  }

  /** The batch with volumes 100, 50 and 0 (other factors 0) gets volume scores 1, 0.5 and 0. */
  lemma VolumeScoresExample(a: Row, b: Row, c: Row)
    requires a.volume == 100 && b.volume == 50 && c.volume == 0
    ensures var st := BatchStats([a, b, c]);
      && ScoreRow(a, st).volumeScore == 1.0
      && ScoreRow(b, st).volumeScore == 0.5
      && ScoreRow(c, st).volumeScore == 0.0
  {
    assert Column([a, b, c], VolumeOf) == [100.0, 50.0, 0.0];
    assert Max([0.0]) == 0.0;
    assert Max([50.0, 0.0]) == 50.0;
    assert Max([100.0, 50.0, 0.0]) == 100.0;
  }
}

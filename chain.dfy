/**
 One poll cycle of app.py's `get_chain`: select the contracts, feed each
 one's quoted volume into the tracker and read back its spike deltas while
 assembling the row, then score the batch. The instrument catalogue, the
 index price, the quote response and the clock readings are inputs.
 */
module Chain {
  import opened Seqs
  import opened VolumeTracker
  import opened Selection
  import opened Scoring

  datatype Option<T> = None | Some(value: T)

  /** Python's `dict.get(key, default)` on one optional field. */
  function GetOr<T>(o: Option<T>, default: T): T
  {
    match o
    case Some(v) => v
    case None => default
  }

  /** The quote fields the engine reads; any of them may be absent from the response. */
  datatype Quote = Quote(
    lastPrice: Option<real>, volume: Option<int>, oi: Option<int>,
    oiDayHigh: Option<int>, oiDayLow: Option<int>, iv: Option<real>)

  const EmptyQuote := Quote(None, None, None, None, None, None)

  /** The quote of a token, or an empty one when the response has none for it. */
  function QuoteFor(quotes: map<string, Quote>, token: string): Quote
  {
    if token in quotes then quotes[token] else EmptyQuote
  }

  /** The two clock readings taken for one contract: by the update and by the spike calculation. */
  datatype Tick = Tick(update: real, spike: real)

  /** The row built from a catalogue entry, its quote (missing fields read as 0) and its deltas. */
  function MakeRow(x: Instrument, q: Quote, spikes: Spikes): Row
  {
    Row(x.symbol, x.strike, x.kind, GetOr(q.lastPrice, 0.0), GetOr(q.volume, 0), GetOr(q.oi, 0),
        GetOr(q.oiDayHigh, 0) - GetOr(q.oiDayLow, 0), GetOr(q.iv, 0.0), spikes)
  }

  /** The history after recording the quoted volume of each of `xs` in order, one tick each. */
  function HistoryAfter(h: map<string, seq<Sample>>, xs: seq<Instrument>, quotes: map<string, Quote>,
                        clock: seq<Tick>): map<string, seq<Sample>>
    requires |clock| == |xs|
    decreases |xs|
  {
    if xs == [] then h
    else
      var n := |xs| - 1;
      Recorded(HistoryAfter(h, xs[..n], quotes, clock[..n]), xs[n].token,
               GetOr(QuoteFor(quotes, xs[n].token).volume, 0), clock[n].update)
  }

  /** The rows built while recording `xs`, each with the deltas read just after its own update. */
  function RowsAfter(h: map<string, seq<Sample>>, xs: seq<Instrument>, quotes: map<string, Quote>,
                     clock: seq<Tick>): seq<Row>
    requires |clock| == |xs|
    decreases |xs|
  {
    if xs == [] then []
    else
      var n := |xs| - 1;
      var x := xs[n];
      var spikes := SpikesOf(Lookup(HistoryAfter(h, xs, quotes, clock), x.token), clock[n].spike);
      RowsAfter(h, xs[..n], quotes, clock[..n]) + [MakeRow(x, QuoteFor(quotes, x.token), spikes)]
  }

  /** The loop of `get_chain` that records each contract's volume and builds its row. */
  method AssembleRows(tracker: Tracker, xs: seq<Instrument>, quotes: map<string, Quote>, clock: seq<Tick>)
    returns (rows: seq<Row>)
    requires |clock| == |xs|
    modifies tracker
    ensures rows == RowsAfter(old(tracker.history), xs, quotes, clock)
    ensures tracker.history == HistoryAfter(old(tracker.history), xs, quotes, clock)
  {
    rows := [];
    var i := 0;
    while i < |xs|
      invariant 0 <= i <= |xs|
      invariant rows == RowsAfter(old(tracker.history), xs[..i], quotes, clock[..i])
      invariant tracker.history == HistoryAfter(old(tracker.history), xs[..i], quotes, clock[..i])
    {
      var x := xs[i];
      var q := QuoteFor(quotes, x.token);
      var volume := GetOr(q.volume, 0);
      tracker.UpdateVolumeHistory(x.token, volume, clock[i].update);
      var spikes := tracker.CalculateSpike(x.token, clock[i].spike);
      rows := rows + [MakeRow(x, q, spikes)];
      AfterStep(old(tracker.history), xs, quotes, clock, i);
      i := i + 1;
    }
    assert xs[..i] == xs && clock[..i] == clock;
  }

  /** Processing one more contract extends the rows by its row and records its volume. */
  lemma AfterStep(h: map<string, seq<Sample>>, xs: seq<Instrument>, quotes: map<string, Quote>,
                  clock: seq<Tick>, n: nat)
    requires |clock| == |xs| && n < |xs|
    ensures var token := xs[n].token;
      HistoryAfter(h, xs[..n + 1], quotes, clock[..n + 1])
        == Recorded(HistoryAfter(h, xs[..n], quotes, clock[..n]), token,
                    GetOr(QuoteFor(quotes, token).volume, 0), clock[n].update)
    ensures var token := xs[n].token;
      RowsAfter(h, xs[..n + 1], quotes, clock[..n + 1])
        == RowsAfter(h, xs[..n], quotes, clock[..n])
           + [MakeRow(xs[n], QuoteFor(quotes, token),
                      SpikesOf(Lookup(HistoryAfter(h, xs[..n + 1], quotes, clock[..n + 1]), token), clock[n].spike))]
  {
    assert xs[..n + 1][..n] == xs[..n] && clock[..n + 1][..n] == clock[..n];
  }

  /**
   The descriptive columns of `r` come from the catalogue entry `x` and its
   market columns from the quote `q`, a missing field counting as 0.
   */
  predicate RowFrom(r: Row, x: Instrument, q: Quote)
  {
    && r.symbol == x.symbol && r.strike == x.strike && r.kind == x.kind
    && r.ltp == GetOr(q.lastPrice, 0.0) && r.volume == GetOr(q.volume, 0) && r.oi == GetOr(q.oi, 0)
    && r.oiChange == GetOr(q.oiDayHigh, 0) - GetOr(q.oiDayLow, 0) && r.iv == GetOr(q.iv, 0.0)
  }

  /** One row per selected contract, in order, built from its catalogue entry and its quote. */
  lemma {:induction false} AssembledRows(h: map<string, seq<Sample>>, xs: seq<Instrument>,
                                         quotes: map<string, Quote>, clock: seq<Tick>)
    requires |clock| == |xs|
    ensures |RowsAfter(h, xs, quotes, clock)| == |xs|
    ensures forall i :: 0 <= i < |xs| ==> RowFrom(RowsAfter(h, xs, quotes, clock)[i], xs[i], QuoteFor(quotes, xs[i].token))
    decreases |xs|
  {
    if xs != [] {
      var n := |xs| - 1;
      AssembledRows(h, xs[..n], quotes, clock[..n]);
      var rows := RowsAfter(h, xs[..n], quotes, clock[..n]);
      var all := RowsAfter(h, xs, quotes, clock);
      var spikes := SpikesOf(Lookup(HistoryAfter(h, xs, quotes, clock), xs[n].token), clock[n].spike);
      var last := MakeRow(xs[n], QuoteFor(quotes, xs[n].token), spikes);
      assert all == rows + [last];
      assert RowFrom(last, xs[n], QuoteFor(quotes, xs[n].token));
      forall i | 0 <= i < n ensures RowFrom(all[i], xs[i], QuoteFor(quotes, xs[i].token)) {
        assert all[i] == rows[i] && xs[..n][i] == xs[i];
      }
    }
  }

  /** After a cycle exactly the processed tokens have been added to the history's keys. */
  lemma {:induction false} AssembledKeys(h: map<string, seq<Sample>>, xs: seq<Instrument>,
                                         quotes: map<string, Quote>, clock: seq<Tick>)
    requires |clock| == |xs|
    ensures HistoryAfter(h, xs, quotes, clock).Keys == h.Keys + set x | x in xs :: x.token
    decreases |xs|
  {
    if xs != [] {
      var n := |xs| - 1;
      var prefix := xs[..n];
      AssembledKeys(h, prefix, quotes, clock[..n]);
      var token := xs[n].token;
      RecordedFrame(HistoryAfter(h, prefix, quotes, clock[..n]), token,
                    GetOr(QuoteFor(quotes, token).volume, 0), clock[n].update);
      assert xs == prefix + [xs[n]];
      assert (set x | x in xs :: x.token) == (set x | x in prefix :: x.token) + {token};
    }
  }

  /** A token the cycle did not process keeps its stored list. */
  lemma {:induction false} AssembledFrame(h: map<string, seq<Sample>>, xs: seq<Instrument>,
                                          quotes: map<string, Quote>, clock: seq<Tick>, k: string)
    requires |clock| == |xs|
    requires k in h && forall i :: 0 <= i < |xs| ==> xs[i].token != k
    ensures k in HistoryAfter(h, xs, quotes, clock) && HistoryAfter(h, xs, quotes, clock)[k] == h[k]
    decreases |xs|
  {
    if xs != [] {
      var n := |xs| - 1;
      var prefix := xs[..n];
      assert forall i :: 0 <= i < |prefix| ==> prefix[i] == xs[i];
      AssembledFrame(h, prefix, quotes, clock[..n], k);
      var token := xs[n].token;
      RecordedFrame(HistoryAfter(h, prefix, quotes, clock[..n]), token,
                    GetOr(QuoteFor(quotes, token).volume, 0), clock[n].update);
    }
  }

  /** The scored batch of one cycle and the history it leaves behind. */
  function Cycle(h: map<string, seq<Sample>>, catalogue: seq<Instrument>, price: real,
                 quotes: Option<map<string, Quote>>, clock: seq<Tick>): (seq<Scored>, map<string, seq<Sample>>)
    requires |Select(catalogue, price)| <= |clock|
  {
    var chosen := Select(catalogue, price);
    if chosen == [] || quotes.None? then ([], h)
    else
      var ticks := clock[..|chosen|];
      (ScoreBatch(RowsAfter(h, chosen, quotes.value, ticks)), HistoryAfter(h, chosen, quotes.value, ticks))
  }

  /**
   `get_chain`: nothing is returned and the history is untouched when no
   contract is selected or the quote request fails; otherwise the selected
   contracts are recorded, assembled and scored.
   */
  method GetChain(tracker: Tracker, catalogue: seq<Instrument>, price: real,
                  quotes: Option<map<string, Quote>>, clock: seq<Tick>) returns (result: seq<Scored>)
    requires |Select(catalogue, price)| <= |clock|
    modifies tracker
    ensures (result, tracker.history) == Cycle(old(tracker.history), catalogue, price, quotes, clock)
  {
    var chosen := Select(catalogue, price);
    if chosen == [] {
      return [];
    }
    if quotes.None? {
      return [];
    }
    var rows := AssembleRows(tracker, chosen, quotes.value, clock[..|chosen|]);
    result := ScoreBatch(rows);
  }

  /**
   What one cycle returns: one scored row per selected contract, at most 80,
   ordered by non-increasing score, carrying exactly the assembled rows, each
   built from a selected contract and its quote; none at all when the quote
   request fails.
   */
  lemma CycleResult(h: map<string, seq<Sample>>, catalogue: seq<Instrument>, price: real,
                    quotes: Option<map<string, Quote>>, clock: seq<Tick>)
    requires |Select(catalogue, price)| <= |clock|
    ensures var result := Cycle(h, catalogue, price, quotes, clock).0;
      && |result| == (if quotes.None? then 0 else |Select(catalogue, price)|)
      && |result| <= MaxContracts
      && SortedByScore(result)
      && forall s :: s in result ==>
           exists x :: x in Select(catalogue, price) && s.row.symbol == x.symbol && s.row.strike == x.strike
    ensures var chosen := Select(catalogue, price);
      var result := Cycle(h, catalogue, price, quotes, clock).0;
      quotes.Some? ==>
        && multiset(MapSeq(RowOf, result)) == multiset(RowsAfter(h, chosen, quotes.value, clock[..|chosen|]))
        && forall s :: s in result ==>
             exists i :: 0 <= i < |chosen| && RowFrom(s.row, chosen[i], QuoteFor(quotes.value, chosen[i].token))
  {
    var chosen := Select(catalogue, price);
    SelectSpec(catalogue, price);
    if chosen != [] && quotes.Some? {
      var ticks := clock[..|chosen|];
      var rows := RowsAfter(h, chosen, quotes.value, ticks);
      AssembledRows(h, chosen, quotes.value, ticks);
      ScoreBatchOrdered(rows);
      forall s | s in ScoreBatch(rows)
        ensures exists x :: x in chosen && s.row.symbol == x.symbol && s.row.strike == x.strike
      {
        ScoreBatchMember(rows, s);
        var i :| 0 <= i < |rows| && rows[i] == s.row;
        assert chosen[i] in chosen;
      }
      forall s | s in ScoreBatch(rows)
        ensures exists i :: 0 <= i < |chosen| && RowFrom(s.row, chosen[i], QuoteFor(quotes.value, chosen[i].token))
      {
        ScoreBatchMember(rows, s);
        var i :| 0 <= i < |rows| && rows[i] == s.row;
        assert RowFrom(rows[i], chosen[i], QuoteFor(quotes.value, chosen[i].token));
      }
      ScoreBatchRows(rows);
    }
  }
}

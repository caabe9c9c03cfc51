/**
 The contract selection rule of app.py's option-chain engine: from the
 instrument catalogue keep the options on the index, then only the earliest
 expiry among them, then the strikes strictly within 800 points of the index
 price, and at most the first 80 of those, in catalogue order.
 */
module Selection {
  import opened Seqs

  const Index := "NIFTY"
  const StrikeRange: real := 800.0
  const MaxContracts: nat := 80

  /**
   One catalogue row. `expiry` is the expiry date as a day number (only its
   order matters); `token` is the instrument token already in string form.
   */
  datatype Instrument = Instrument(
    token: string, symbol: string, name: string, segment: string,
    expiry: int, strike: real, kind: string)

  /** `sub` occurs somewhere in `s` (pandas `str.contains` with a literal pattern). */
  predicate Contains(s: string, sub: string)
  {
    (|sub| <= |s| && s[..|sub|] == sub) || (|s| > 0 && Contains(s[1..], sub))
  }

  predicate IsIndexOption(x: Instrument)
  {
    x.name == Index && Contains(x.segment, "OPT")
  }

  predicate NearStrike(x: Instrument, price: real)
  {
    price - StrikeRange < x.strike < price + StrikeRange
  }

  /** The earliest expiry in a non-empty list of instruments. */
  function EarliestExpiry(xs: seq<Instrument>): (e: int)
    requires |xs| > 0
    ensures exists k :: 0 <= k < |xs| && xs[k].expiry == e
    ensures forall k :: 0 <= k < |xs| ==> e <= xs[k].expiry
  {
    if |xs| == 1 then xs[0].expiry
    else
      var rest := EarliestExpiry(xs[1..]);
      if xs[0].expiry <= rest then xs[0].expiry else rest
  }

  /** The instruments whose quotes are requested, in catalogue order. */
  function Select(xs: seq<Instrument>, price: real): seq<Instrument>
  {
    var options := Filter(IsIndexOption, xs);
    if options == [] then []
    else
      var e := EarliestExpiry(options);
      var nearest := Filter((x: Instrument) => x.expiry == e, options);
      Take(Filter(x => NearStrike(x, price), nearest), MaxContracts)
  }

  /** All three conditions at once, for the expiry `e`. */
  predicate Qualifies(x: Instrument, e: int, price: real)
  {
    IsIndexOption(x) && x.expiry == e && NearStrike(x, price)
  }

  /** `e` is the earliest expiry among the index options of `xs`. */
  ghost predicate IsEarliestOptionExpiry(xs: seq<Instrument>, e: int)
  {
    && (exists k :: 0 <= k < |xs| && IsIndexOption(xs[k]) && xs[k].expiry == e)
    && (forall k :: 0 <= k < |xs| && IsIndexOption(xs[k]) ==> e <= xs[k].expiry)
  }

  /** Without any index option in the catalogue the selection is empty. */
  lemma SelectWithoutOptions(xs: seq<Instrument>, price: real)
    requires forall k :: 0 <= k < |xs| ==> !IsIndexOption(xs[k])
    ensures Select(xs, price) == []
  {
    FilterNone(IsIndexOption, xs);
  }

  /**
   The three successive filters and the cut are one filter by the
   conjunction of the conditions, cut at 80.
   */
  lemma SelectIsOneFilter(xs: seq<Instrument>, price: real, e: int)
    requires IsEarliestOptionExpiry(xs, e)
    ensures Select(xs, price) == Take(Filter(x => Qualifies(x, e, price), xs), MaxContracts)
  {
    var options := Filter(IsIndexOption, xs);
    var k :| 0 <= k < |xs| && IsIndexOption(xs[k]) && xs[k].expiry == e;
    assert xs[k] in options;
    var found := EarliestExpiry(options);
    var m :| 0 <= m < |options| && options[m].expiry == found;
    assert options[m] in xs;
    var i :| 0 <= i < |options| && options[i] == xs[k];
    assert found <= e;
    assert found == e;
    var byExpiry := (x: Instrument) => x.expiry == e;
    var near := x => NearStrike(x, price);
    var optionAt := (x: Instrument) => IsIndexOption(x) && x.expiry == e;
    FilterFuse(IsIndexOption, byExpiry, optionAt, xs);
    FilterFuse(optionAt, near, x => Qualifies(x, e, price), xs);
  }

  /**
   What the selection contains: at most 80 index options whose strike is
   near the price and whose expiry is the earliest among all index options,
   in catalogue order; and when fewer than 80 are returned, every such
   instrument of the catalogue is among them.
   */
  lemma SelectSpec(xs: seq<Instrument>, price: real)
    ensures |Select(xs, price)| <= MaxContracts
    ensures IsSubsequence(Select(xs, price), xs)
    ensures forall x :: x in Select(xs, price) ==>
      && IsIndexOption(x) && NearStrike(x, price)
      && (forall y :: y in xs && IsIndexOption(y) ==> x.expiry <= y.expiry)
    ensures |Select(xs, price)| < MaxContracts ==>
      forall x :: x in xs && IsIndexOption(x) && NearStrike(x, price)
        && (forall y :: y in xs && IsIndexOption(y) ==> x.expiry <= y.expiry)
        ==> x in Select(xs, price)
  {
    var r := Select(xs, price);
    if forall k :: 0 <= k < |xs| ==> !IsIndexOption(xs[k]) {
      SelectWithoutOptions(xs, price);
    } else {
      var k :| 0 <= k < |xs| && IsIndexOption(xs[k]);
      var options := Filter(IsIndexOption, xs);
      assert xs[k] in options;
      var e := EarliestExpiry(options);
      assert IsEarliestOptionExpiry(xs, e) by {
        var m :| 0 <= m < |options| && options[m].expiry == e;
        assert options[m] in xs;
        forall j | 0 <= j < |xs| && IsIndexOption(xs[j]) ensures e <= xs[j].expiry {
          assert xs[j] in options;
        }
      }
      SelectIsOneFilter(xs, price, e);
      var q := x => Qualifies(x, e, price);
      var all := Filter(q, xs);
      FilterIsSubsequence(q, xs);
      SubsequencePrefix(all, xs, |r|);
      assert r == all[..|r|];
      forall x | x in r
        ensures IsIndexOption(x) && NearStrike(x, price)
        ensures forall y :: y in xs && IsIndexOption(y) ==> x.expiry <= y.expiry
      {
        assert x in all;
      }
      if |r| < MaxContracts {
        assert r == all;
        forall x | x in xs && IsIndexOption(x) && NearStrike(x, price)
            && (forall y :: y in xs && IsIndexOption(y) ==> x.expiry <= y.expiry)
          ensures x in r
        {
          var m :| 0 <= m < |xs| && IsIndexOption(xs[m]) && xs[m].expiry == e;
          assert x.expiry <= e;
          assert q(x);
        }
      }
    }
  }
}

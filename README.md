# NIFTY option contract selector: verified model of the scoring core

This project models the core of a small option-chain scanner for the NIFTY
index. Each poll cycle does the following:

1. It selects the index's option contracts nearest the money.
2. For each contract it records the cumulative traded volume in a per-token
   history that keeps only the last 300 seconds.
3. From that history it derives volume deltas over 10 s, 30 s, 1 min, 3 min
   and 5 min.
4. It normalises volume, open interest, OI change, implied volatility and a
   weighted spike score by their batch maxima.
5. It averages these five normalised parts into a composite score, flags
   volume bursts, and orders the batch by score, highest first.

Modules, one per part of `app.py`:

- `Seqs` (seqs.dfy): filters (list comprehensions), maps (column expressions),
  prefixes (`head`) and subsequences (order preserved), with their lemmas.
- `VolumeTracker` (tracker.dfy): the history tracker. It is a class
  `Tracker` holding the token → samples map. `UpdateVolumeHistory` changes
  that map in place. `CalculateSpike` only reads it. Both are specified by
  the pure functions `Recorded`, `Window` and `SpikesOf`.
- `Selection` (selection.dfy): the contract selection rule, a pure filter
  over the instrument catalogue.
- `Scoring` (scoring.dfy): batch normalisation, the composite score, the
  burst flag and the sort, all on exact reals.
- `Chain` (chain.dfy): one cycle of `get_chain`. `AssembleRows` is the loop
  that updates the tracker and builds the rows. `GetChain` composes the
  selection, that loop and the scoring.

The wall clock, the index price, the instrument catalogue and the quote
response are inputs. Each call to `time.time()` becomes a parameter. The two
clock readings taken per contract are the `Tick(update, spike)` values.

Two behaviours of the code to note:

- A batch maximum of 0 makes the code divide by 1, not return 0. Each score
  is then the raw value, which is 0 for a non-negative column.
  `NormalisedZeroMax` states both facts.
- The final sort is pandas' default quicksort, which is not stable. Only the
  non-increasing order and the permutation are claimed, not that ties keep
  their input order.

## Model

| member | source | states |
|---|---|---|
| VolumeTracker.Tracker.UpdateVolumeHistory | app.py:71-79 | the new history is the old one with the token's list (created empty if absent) extended by (now, volume) and pruned to samples with now − t ≤ 300 |
| VolumeTracker.RecordedFrame | app.py:73-76 | recording adds the token to the keys and leaves every other token's list unchanged |
| VolumeTracker.RecordedRetains | app.py:75-79 | afterwards the token's list ends with (now, volume), holds exactly the old and new samples with now − t ≤ 300, every copy of each (equal multiplicities), and keeps their original order |
| VolumeTracker.RecordedKeepsOrder | app.py:75-79 | a time-ordered list stays time-ordered when the clock does not go back, and a list with non-decreasing volumes stays so when the new volume is at least every stored one |
| VolumeTracker.Tracker.CalculateSpike | app.py:81-97 | reads the history without changing it; an unknown token gives all five deltas 0; over a reset-free history 0 ≤ vol_10s ≤ vol_30s ≤ vol_1m ≤ vol_3m ≤ vol_5m |
| VolumeTracker.WindowFewerThanTwo | app.py:85-89 | when no two stored samples are within the window, the delta is 0 |
| VolumeTracker.WindowEnds | app.py:85-88 | when samples i < j are the first and last ones within the window, the delta is volume[j] − volume[i] |
| VolumeTracker.WindowMonotone | app.py:85-89 | over a history whose volumes never decrease, every delta is ≥ 0 and a longer window never gives a smaller delta |
| VolumeTracker.SpikesMonotone | app.py:91-97 | the five deltas, for windows of 10, 30, 60, 180 and 300 s, are non-negative and non-decreasing in that order over a reset-free history |
| Selection.EarliestExpiry | app.py:140 | the chosen expiry is that of some index option, and no index option expires earlier |
| Selection.SelectWithoutOptions | app.py:132-138 | with no NIFTY option in the catalogue the selection is empty |
| Selection.SelectIsOneFilter | app.py:132-148 | the successive filters and the head(80) equal one filter by "NIFTY, segment contains OPT, earliest expiry, price − 800 < strike < price + 800", cut to its first 80 elements |
| Selection.SelectSpec | app.py:132-148 | at most 80 rows, in catalogue order, each an index option with the earliest expiry and a strike strictly within 800 of the price; with fewer than 80, every such catalogue row is included |
| Scoring.Max | app.py:185-188 | the batch maximum is an element of the column and no element exceeds it |
| Scoring.NormalisedInUnit | app.py:185-188 | x / (max or 1) lies in [0, 1] for a non-negative column |
| Scoring.NormalisedMaxIsOne | app.py:185-188 | the element equal to a non-zero maximum normalises to 1 |
| Scoring.NormalisedZeroMax | app.py:185-188 | a zero maximum is replaced by 1, so each score is its raw value, and an all-zero column stays all zero |
| Scoring.SortByScore | app.py:218 | the result is ordered by non-increasing score and is a permutation of its input |
| Scoring.ScoreBatchOrdered | app.py:182-218 | the result is empty exactly when the batch is; otherwise it keeps the batch's size and is a permutation of the scored rows, ordered by non-increasing score |
| Scoring.ScoreBatchRows | app.py:182-218 | the scored batch carries each input row exactly as often as the input does |
| Scoring.ScoreBatchMember | app.py:185-218 | every output row is an input row scored against the reductions of the whole batch |
| Scoring.ScoredColumns | app.py:185-216 | each output row's four factor scores are its raw value over the batch divisor, and its flag is the burst test against the batch mean spike score |
| Scoring.ScoreBatchBounds | app.py:185-206 | for non-negative inputs every factor score and the composite score lie in [0, 1] and the confidence in [0, 100] |
| Scoring.ScoreBatchTopFactor | app.py:185-188 | the row holding a non-zero batch maximum of a factor gets exactly 1 for that factor |
| Scoring.ScoreBatchZeroColumns | app.py:185-188 | a factor that is 0 on every row scores 0 on every row, with no division by zero |
| Scoring.ScoreBatchBurst | app.py:208-216 | a row is flagged exactly when vol_10s, vol_30s or vol_1m exceeds 1.5 × the batch mean of 0.2·vol_10s + 0.3·vol_30s + 0.5·vol_1m |
| Scoring.StatsPermutation | app.py:185-208 | the batch maxima and the mean spike score do not depend on the order of the rows |
| Scoring.ScoreBatchOrderInvariant | app.py:185-218 | reordering the input batch yields the same multiset of scored rows |
| Scoring.QuietSingleRow | app.py:185-216 | a single row with all factors and deltas 0 scores 0 everywhere, has confidence 0 and is not flagged |
| Scoring.VolumeScoresExample | app.py:185 | volumes 100, 50 and 0 give volume scores 1, 0.5 and 0 |
| Chain.AssembleRows | app.py:157-178 | the loop's rows and final history equal those of recording and reading back each selected contract in order |
| Chain.AssembledRows | app.py:159-178 | one row per selected contract, in order; symbol, strike and type come from the catalogue, and ltp, volume, oi, oi_change = day-high − day-low OI, and iv come from its quote, with a missing quote or field read as 0 |
| Chain.AssembledKeys | app.py:159-165 | after the loop the history's keys are the old ones plus the processed tokens |
| Chain.AssembledFrame | app.py:159-165 | a token the cycle did not process keeps its stored list |
| Chain.GetChain | app.py:128-218 | a cycle returns nothing and records nothing when no contract is selected or the quote request fails; otherwise it records, assembles and scores the selected contracts |
| Chain.CycleResult | app.py:128-218 | a cycle returns one scored row per selected contract (none when quotes fail), at most 80, ordered by non-increasing score; its rows are, as a multiset, exactly the assembled rows, and each one's catalogue and quote columns come from one selected contract and that contract's quote |

## Left out

- Streamlit is not modelled: secrets, page setup, auto-refresh, metrics, the table display and `st.stop` (app.py:14-16, 46-49, 223-235). They are UI code. Session state appears only as the `Tracker` object.
- The brokerage calls are not modelled: `get_price`, `load_instruments` and `kite.quote` (app.py:54-66, 152-155). They are network I/O. The price, the catalogue and the quote response are parameters. A failed quote request is `None`.
- `save_to_supabase` (app.py:102-123) is a database insert and is not modelled. Neither is any of main.py: its Supabase client, market-hours check, mock data and sleep loop are I/O and scheduling.
- Scoring.ScoreRow: confidence is score × 100 without the explicit `.round(2)` of app.py:206. That rounding changes exact values too: a score of 1/3 gives confidence 33.33 in the source and 33.333… in the model. The [0, 100] bound and the zero confidence of a quiet row hold either way.
- Scoring.SortByScore: it breaks ties by input order, but nothing proved depends on that. pandas' unstable quicksort may order ties differently (app.py:218).
- Floating point is not modelled: prices, IV and scores are exact reals. NaN values and pandas' NaN-skipping in `max` and `mean` are not represented.
- The burst label "🚀 VOLUME BURST" versus "" is the boolean `burst`.
- Instrument tokens are the strings that `str(instrument_token)` produces (app.py:150, 160). Expiry dates are day numbers, because only their order is used (app.py:140).
- `str.contains("OPT")` is modelled as literal substring search. The pattern has no regular-expression metacharacters, so this is the same.
- The clock readings are one `Tick` per selected contract. Sub-second timing and a clock that goes backwards are allowed but not constrained.

# IPL win-probability features, modelled in Dafny

The dashboard predicts the chasing side's chance of winning an IPL match. It
turns a second-innings situation into eleven features and hands them to a
classifier: target, score, overs, wickets, the two teams and the city. The
training script derives the same features from historical ball-by-ball
data. This project models both derivations and proves how they relate.

- `app.dfy` (module `App`) is the dashboard's prediction step. It covers the
  widget domains, the derivation of runs left, balls left, wickets in hand,
  current and required rate, pressure and runs per wicket, and the one-row
  record built from the dict literal. It also covers the winner headline's team and
  unrounded percentage, and the projected-score curve. The classifier's `predict_proba` is a
  function-typed parameter of `Respond`.
- `train_model.dfy` (module `Training`) is the training script's feature
  pipeline. It takes first-innings totals as targets, renames Delhi, filters
  the matches, joins them with the deliveries and keeps the second innings.
  It keeps a running score and a running wicket count per match, applies the
  row formulas and the label, then `dropna` and the final filter. The tables
  are sequences of rows, and `BuildDataset` runs the script's steps in order.
- `frames.dfy` (module `Frames`) holds the pandas and `str` operations used:
  row selection, the group-wise sum and running sum (loops over a map of
  per-match totals, proved against a per-key prefix sum), and `str.replace`.
- `schema.dfy` (module `Schema`) holds the shared feature record, frame rows
  as named cells, and column dropping.
- `parity.dfy` (module `Parity`) relates the two derivations:
  - the same team list, in another order. The training rows' team features,
    however, are the deliveries' team names, which the Delhi rename does not
    touch. They can fall outside that list: `TrainingKeepsOldDelhiName` gives
    a match whose chase rows train on "Delhi Daredevils", a name the
    dashboard never offers;
  - same columns in the same order, so the serving row equals the training
    row with `match_id` and `result` dropped;
  - identical features when the overs value stands for a whole number of
    balls;
  - for other overs values, all features except the current rate (and so
    pressure) agree. `CurrentRateSkew` gives a concrete input where the
    current rate differs.

`total_runs_x` is the first-innings total itself, not that total plus one.
The dashboard's Target slider feeds the same column.

Rates are `real`. Python's `int()` on a float is truncation toward zero
(`App.Trunc`). For the non-negative overs values here that is the floor.

Three points where the code departs from the usual way these chase features
are defined. The model follows the code:
- Runs left is usually floored at 0, balls left at 1, and the current rate
  taken as 0 before the first ball. The dashboard applies none of these
  guards. On its widget domain they are never needed: runs left lies in
  [0, target] and balls left in [3, 120] (`App.DeriveOnWidgetRange`).
- The training script divides by `max(balls bowled, 1)`, so with no ball
  bowled its current rate is six times the score, not 0.
- The column order is not read from the trained pipeline. Both files
  hard-code it, and the model proves the two hard-coded orders agree.

## Model

| member | source | states |
|---|---|---|
| `App.BowlingChoices` | app.py:89 | a team can bowl exactly when it is one of the teams and is not the batting team |
| `App.BowlingChoicesCount` | app.py:88-89 | once a batting team is chosen, exactly seven teams are offered to bowl |
| `App.Trunc` | app.py:107 | `int()` on a float truncates toward zero: the floor for non-negative values, the ceiling for negative ones |
| `App.Derive` | app.py:106-114 | the derivation raises ZeroDivisionError exactly when overs is 0 or the truncated ball count is 120; otherwise runs left plus score is the target, balls left plus balls counted is 120, and wickets in hand plus wickets fallen is 10 |
| `App.DeriveOnWidgetRange` | app.py:87-114 | on every widget value the derivation succeeds with runs left in [0, target], balls left in [3, 120] and wickets in [1, 10]; the `max(…,1)` guard is inactive; both rates are non-negative; pressure is rrr minus crr; the two teams are distinct teams of the list |
| `App.DeriveOnSliderRange` | app.py:91-114 | the numeric part of the above, which needs only the slider bounds |
| `App.BallsBowledInRange` | app.py:93-107 | an overs value in [0.1, 19.5] stands for 0 to 117 balls bowled |
| `App.VerdictFavoursLikelierSide` | app.py:130-151 | when the class probabilities sum to 1, the headline names the batting team exactly when its win probability is strictly larger (ties go to the bowling team); the headline's percentage (before rounding) is the larger one and lies in [50, 100] |
| `App.Projection` | app.py:177-178 | the projected curve has 20 points |
| `App.ProjectionShape` | app.py:177-178 | the curve starts at score + crr, rises by crr per over, ends at score + 20·crr, and never falls when crr ≥ 0 |
| `App.Respond` | app.py:104-178 | the prediction step fails exactly when the derivation does; otherwise the classifier receives the dict-literal record of the derived features, the headline's team and unrounded percentage are the winner rule applied to the classifier's two probabilities of that record, the win percentage is the class-1 probability times 100, and the curve is the projection from the score at the current rate |
| `App.RespondOnWidgetRange` | app.py:87-178 | on every widget value the page renders: an eleven-column record, a headline naming one of the two playing teams, and a non-decreasing curve; when the classifier's two probabilities are non-negative and sum to 1, the headline names the batting team exactly when its win probability is strictly larger, and the headline's unrounded percentage lies in [50, 100] |
| `App.Record` | app.py:116-128 | the one-row frame has eleven columns with pairwise distinct names, as the keys of a dict literal are |
| `App.Verdict` | app.py:150-151 | the batting team is named when its percentage is strictly larger, the bowling team otherwise (ties included); the headline's percentage, before it is rounded for display, is the larger of the two |
| `App.InWidgetRange` | app.py:87-94 | the values the widgets can produce: a listed city, a listed batting team, a bowling team that is listed and not the batting team, and the slider ranges |
| `App.InSliderRange` | app.py:91-94 | the slider ranges: target in 100..250, score in 0..target, overs in [0.1, 19.5], wickets in 0..9 |
| `Frames.Filter` | train_model.py:56-60 | a boolean-mask selection keeps exactly the rows that pass, never adding rows |
| `Frames.GroupSum` | train_model.py:27-32 | the group-wise sum has one entry per key that occurs, equal to the sum of that key's values |
| `Frames.GroupCumSum` | train_model.py:78-86 | the group-wise running sum gives each row the sum of its own group's values over the rows up to and including it, in input order |
| `Frames.SumFor` | train_model.py:78-86 | the per-key prefix sum that `groupby(...).sum()` and `groupby(...).cumsum()` are proved against: the sum of the values of the first n rows whose key matches |
| `Frames.SumForAbsent` | train_model.py:78 | a key that does not occur among the first n rows has sum 0 there |
| `Frames.CountFor` | train_model.py:84-87 | the number of the first n rows that carry a key, never more than n |
| `Frames.SumForMonotone` | train_model.py:78 | with non-negative values a per-key running sum never decreases as rows are added |
| `Frames.SumForOfFlags` | train_model.py:84-86 | summing 0/1 flags over the first n rows for a key gives a value between 0 and the number of those rows carrying the key |
| `Frames.ReplaceAll` | train_model.py:47-48 | `str.replace`: every occurrence of the pattern, scanned left to right without overlap, becomes the replacement; its behaviour on the names used is stated by `ReplaceAllWhole` and `ReplaceAllAbsent` |
| `Frames.ReplaceAllWhole` | train_model.py:47-48 | `str.replace` on a string equal to the pattern yields the replacement |
| `Frames.ReplaceAllAbsent` | train_model.py:47-48 | `str.replace` leaves a string alone when the pattern's first character does not occur in it |
| `Schema.DropNames` | train_model.py:121 | dropping columns keeps exactly the names that are not dropped |
| `Schema.DropColumns` | train_model.py:132-133 | dropping columns from a row keeps exactly the cells whose names are not dropped |
| `Schema.DropFirstAndLast` | train_model.py:121-133 | dropping the first and last columns of a row, when only they are named, leaves the columns in between in order |
| `Training.Targets` | train_model.py:27-34 | a match has a target exactly when it has an inning-1 delivery, and the target is the sum of `total_runs` over those deliveries |
| `Training.ComputeTargets` | train_model.py:27-34 | the group-by-(match, inning) sum restricted to inning 1 computes those targets |
| `Training.MergeTargets` | train_model.py:37-41 | the join of matches with targets keeps exactly the matches that have a target, each paired with its own target |
| `Training.RenameTeam` | train_model.py:47-48 | the Delhi rename as a substring replacement on a team name; what it does to the names used is stated by `RenameTeamFacts` |
| `Training.RenameTeamFacts` | train_model.py:47-54 | the rename turns "Delhi Daredevils" into "Delhi Capitals", leaves each of the eight kept names unchanged, and the old name is not a kept team |
| `Training.SelectMatches` | train_model.py:37-62 | merge, rename, filter and column selection never yield more kept matches than there are matches |
| `Training.SelectMatchesExactly` | train_model.py:37-62 | a summary is in the kept-match frame exactly when it comes from a match with a target whose renamed teams are both among the eight and with `dl_applied == 0` |
| `Training.JoinMatch` | train_model.py:68 | a kept match joins with exactly its own deliveries |
| `Training.MergeDeliveries` | train_model.py:68 | the join pairs each kept match with exactly the deliveries of the same match id |
| `Training.ChaseRows` | train_model.py:68-69 | a row survives the merge and the inning filter exactly when it pairs a kept match with one of that match's inning-2 deliveries |
| `Training.MergeTargetsDistinct` | train_model.py:37-41 | when the match table has one row per id, so does its join with the targets |
| `Training.SelectMatchesDistinct` | train_model.py:37-62 | when the match table has one row per id, so does the frame of kept matches |
| `Frames.FilterDistinctBy` | train_model.py:56-60 | a row selection from a table of distinct keys keeps the keys distinct |
| `Training.JoinMatchOrder` | train_model.py:68 | a kept match joins with its own deliveries once each, in the deliveries table's order |
| `Training.JoinChaseOrder` | train_model.py:68-69 | restricted to inning 2, those rows are the match's second-innings deliveries, once each, in the deliveries table's order |
| `Training.ChaseRowsOrder` | train_model.py:68-69 | when a kept match is the only one with its id, its rows in the chase frame are exactly its second-innings deliveries, once each, in the deliveries table's order |
| `Training.ChaseRowsExactly` | train_model.py:27-69 | exactly the inning-2 deliveries of kept matches reach feature engineering, each with its match's city, winner and first-innings total |
| `Training.RowFeatures` | train_model.py:80-94 | the row formulas carry the teams, city, target and wickets through; runs left plus the current score is the target, and balls left plus the balls bowled is 120 |
| `Training.RowRates` | train_model.py:80-94 | `runs_left` is the target minus the current score and `balls_left` is 120 minus the balls bowled; after the first ball crr is runs per six balls bowled; with balls left rrr is runs left per six balls left, and it is positive while runs remain; pressure is rrr minus crr; with a wicket in hand runs per wicket is the exact quotient; where a guard acts, `np.maximum(…, 1)` divides by 1, so before the first ball crr is six times the score, with no balls left rrr is six times the runs left, and on the ball of the tenth dismissal runs per wicket is the runs left |
| `Training.Label` | train_model.py:96 | `result` is 1 exactly when the batting team is the recorded winner, else 0 (a missing winner gives 0) |
| `Training.CurrentScore` | train_model.py:78 | the running score at a row is that ball's runs plus the runs of its match's earlier rows |
| `Training.WicketsDown` | train_model.py:84-87 | the wickets lost at a row are 1 for a ball that took a wicket plus those of its match's earlier rows, between 0 and the number of its match's rows so far |
| `Training.ToExample` | train_model.py:80-96 | an example takes its teams from the delivery, its city and target from the match; runs left plus the running score is the target, balls left plus balls bowled is 120, wickets plus wickets down is 10, and the label is 1 exactly when the delivery's batting side is the winner |
| `Training.Examples` | train_model.py:78-96 | one example per chase row, in row order, with the row's match id, runs left against its match's running score and wickets against its match's dismissals so far |
| `Training.SumForIsTally` | train_model.py:78-86 | a per-match running sum over the first n chase rows is the sum over that match's rows among them, taken in row order |
| `Training.CountForIsLength` | train_model.py:78-86 | the number of a match's rows among the first n chase rows is the length of their selection |
| `Training.RowIsBallOfItsMatch` | train_model.py:78-87 | when a match's rows in a frame carry a given run of deliveries, row k is the c-th of them, c counting that match's rows so far, and its running score and wickets down are the runs and dismissals of the first c |
| `Training.RunningTotalsFromDeliveries` | train_model.py:68-87 | when kept matches have distinct ids, chase row k is the c-th second-innings ball of its match in the deliveries table, and its running score and wickets down are the runs and dismissals of that match's first c second-innings balls there |
| `Training.CurrentScoreRestarts` | train_model.py:78 | on a match's first row the running score is that ball's runs alone |
| `Training.CurrentScoreNeverDecreases` | train_model.py:78 | with non-negative runs the running score never decreases within a match |
| `Training.WicketsNeverIncrease` | train_model.py:84-87 | the wickets column never increases within a match, is at most 10, and is at least 10 minus the number of its match's rows so far |
| `Training.LiveExamplesNeedRuns` | train_model.py:90-113 | every example with balls and runs left has a positive required rate |
| `Training.Dataset` | train_model.py:27-113 | an example is in the dataset exactly when it is the example of a chase row with a city, balls left and runs left |
| `Training.BuildDataset` | train_model.py:27-113 | the script's steps compute the dataset; every surviving row has a city, balls left > 0, runs left > 0 and rrr > 0 |
| `Training.DatasetProvenance` | train_model.py:27-113 | every dataset row is the example of one chase row. It comes from an inning-2 delivery of a kept match, its target is that match's first-innings total, its teams and balls left come from the delivery, and its label is that delivery's batting team against the match winner |
| `Training.ExampleRunningTotals` | train_model.py:68-96 | with kept matches of distinct ids, the example of chase row k stands for some c-th second-innings ball of its match in the deliveries table: balls left and batting team are that ball's, runs left is the target less the runs of the first c such balls, and wickets is 10 less their dismissals |
| `Training.DatasetRunningTotals` | train_model.py:27-113 | when the match table has one row per id, every dataset row is scored in that way against the deliveries table |
| `Training.AsRecord` | train_model.py:103-107 | a final-frame row has exactly the thirteen selected columns in the selected order |
| `Training.FinalColumnsLayout` | train_model.py:103-106 | the selected columns are `match_id`, the eleven model inputs, then `result` |
| `Training.DropLabelAndKey` | train_model.py:121-133 | dropping `result` and then `match_id` from that layout leaves the model inputs |
| `Training.ModelInputColumns` | train_model.py:103-140 | the classifier's input columns are exactly the one-hot-encoded columns followed by the passed-through numeric columns |
| `Parity.TeamListsAgree` | app.py:60-72 | the dashboard offers exactly the eight teams the training filter keeps (train_model.py:50-54), in a different order |
| `Parity.TrainingKeepsOldDelhiName` | train_model.py:47-96 | the rename touches only the match table, so a Daredevils-era match yields a dataset row whose batting-team feature is "Delhi Daredevils", a name in neither team list |
| `Parity.ServingRowIsTrainingRow` | app.py:116-128 | the dashboard's record equals the training row of the same features with `match_id` and `result` dropped: same names, order and cells |
| `Parity.ServingColumnsAreTrainingColumns` | app.py:116-128 | the dashboard's column list equals the training columns after `result` and then `match_id` are dropped |
| `Parity.ServingColumnsAreEncodedColumns` | app.py:116-128 | the dashboard's columns are the training pipeline's categorical columns followed by its numeric ones |
| `Parity.DeriveAgreesOnWholeBalls` | app.py:106-114 | when overs·6 is a whole number of balls equal to over·6 + ball, the dashboard derives exactly the training features, current rate included |
| `Parity.DeriveAgreesExceptCurrentRate` | app.py:106-114 | for any slider value, with over·6 + ball equal to the truncated ball count, runs left, balls left, wickets, target, rrr and runs per wicket agree with training |
| `Parity.SkewInputsInRange` | app.py:87-94 | the situation 41 of 180 at 10.25 overs, no wicket down, is one the widgets can produce |
| `Parity.CurrentRateSkew` | app.py:107-110 | for that situation the dashboard's current rate is 4, while training's formula for the 61 balls the dashboard counts gives 246/61 |

## Left out

- Streamlit presentation (page setup, CSS, logos, columns, images, progress bar, gauge, line chart): display only. The projection values and the headline's team and unrounded percentage are modelled.
- App.Respond: the headline prints `round(win_val, 2)` (app.py:153); `shown` is `win_val` before that rounding, which is display formatting of a binary float.
- Loading and saving the pickled pipeline, and training when it is missing: file I/O.
- Reading `matches.csv` and `deliveries.csv`: file I/O. The two tables are inputs to `Training.BuildDataset`.
- One-hot encoding, imputation, the random forest's fit, predict and `predict_proba`, the grouped train/test split and the accuracy score: library code. `predict_proba` is a parameter of `App.Respond`.
- IEEE floating point: rates and the overs value are exact reals. `int(overs*6)` is the truncation of the exact product. On the slider's 0.01 grid, overs·6 is whole only at multiples of 0.5. Those values and their products are exact in binary floating point, so the integer part is not expected to differ.
- The replacement of infinities by NaN: with the `max(…,1)` guards no modelled division is by zero, and reals have no infinity.
- `dropna` on columns other than `city`: teams and integer columns are never missing in the model.
- `str.replace` on a missing team name: team names are always present in the model.
- The merges are modelled in pandas' inner-join order: left keys in left order, right rows in right order within a key. Pandas internals are not modelled.
- Training.RunningTotalsFromDeliveries: it and `Training.DatasetRunningTotals` assume that each match id occurs once in the match table. If an id repeats, pandas' merge repeats that match's deliveries, and so does the model. The running sums then run over the repeated rows, and no statement is made about that case.
- The in-place growth of the delivery frame by column assignment: `Training.BuildDataset` computes each column into a local sequence and builds the rows from them.
- `Frames.Filter`: its contract gives membership, not order. Order preservation is stated separately by `Frames.FilterAppend`.

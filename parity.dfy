/**
 * How the dashboard's feature derivation relates to the training script's:
 * the same team list (though training's team features can fall outside it),
 * the same columns in the same order, and the same values wherever the overs
 * value stands for a whole number of balls.
 */
module Parity {
  import opened Wrappers
  import opened Schema
  import opened Frames
  import App
  import Training

  /**
   * The dashboard offers exactly the eight teams the training filter keeps,
   * listed in another order.
   */
  lemma TeamListsAgree()
    ensures forall t :: t in App.Teams <==> t in Training.Teams
    ensures App.Teams != Training.Teams
  {
    assert App.Teams[0] != Training.Teams[0];
  }

  /**
   * A Daredevils-era match: Delhi, under its old name, chases 150 against
   * Mumbai. The match table spells the old name, and so does the ball-by-ball
   * table.
   */
  const OldDelhiMatches: seq<Training.Match> :=
    [Training.Match(1, "Delhi Daredevils", "Mumbai Indians", Some("Delhi"), Some("Mumbai Indians"), 0)]

  const OldDelhiDeliveries: seq<Training.Delivery> := [
    Training.Delivery(1, 1, "Mumbai Indians", "Delhi Daredevils", 19, 6, 150, None),
    Training.Delivery(1, 2, "Delhi Daredevils", "Mumbai Indians", 0, 1, 1, None)]

  /** The example's first-innings target is 150. */
  lemma OldDelhiTargets()
    ensures Training.Targets(OldDelhiDeliveries) == map[1 := 150]
  {
    var ds := OldDelhiDeliveries;
    assert Training.HasFirstInnings(ds, 1) by {
      assert ds[0] in ds;
    }
    assert Training.InningsKeys(ds) == [(1, 1), (1, 2)];
    assert Training.RunsOf(ds) == [150, 1];
  }

  /** The match survives the cleaning, its target attached. */
  lemma OldDelhiSelected()
    ensures Training.SelectMatches(OldDelhiMatches, map[1 := 150])
         == [Training.MatchSummary(1, Some("Delhi"), Some("Mumbai Indians"), 150)]
  {
    var ms := OldDelhiMatches;
    Training.RenameTeamFacts();
    var merged := Training.MergeTargets(ms, map[1 := 150]);
    assert merged == [Training.TargetedMatch(ms[0], 150)] by {
      assert ms[1..] == [];
    }
    var renamed := Training.RenameDelhi(merged);
    assert renamed == [Training.RenameRow(merged[0])];
    assert Training.IsKept(renamed[0]);
    FilterKeepsAll(renamed, Training.IsKept);
  }

  /** Only the second-innings ball of that match reaches feature engineering. */
  lemma OldDelhiChaseRows(summary: Training.MatchSummary)
    requires summary.matchId == 1
    ensures Training.ChaseRows([summary], OldDelhiDeliveries)
         == [Training.ChaseRow(summary, OldDelhiDeliveries[1])]
  {
    var ds := OldDelhiDeliveries;
    var joined := Training.JoinMatch(summary, ds);
    assert joined == [Training.ChaseRow(summary, ds[0]), Training.ChaseRow(summary, ds[1])] by {
      var rest := ds[1..];
      assert rest[0] == ds[1] && rest[1..] == [];
      assert Training.JoinMatch(summary, rest) == [Training.ChaseRow(summary, ds[1])];
      assert joined == [Training.ChaseRow(summary, ds[0])] + Training.JoinMatch(summary, rest);
    }
    assert Training.MergeDeliveries([summary], ds) == joined by {
      assert [summary][1..] == [];
    }
    assert Filter(joined, Training.IsSecondInnings) == [joined[1]] by {
      assert joined[1..][1..] == [];
    }
  }

  /**
   * The rename reaches only the match table's team columns: the team features
   * come from the deliveries, so the training data can hold a batting team
   * that the dashboard never offers and the training filter does not list.
   */
  lemma TrainingKeepsOldDelhiName()
    ensures "Delhi Daredevils" !in App.Teams && "Delhi Daredevils" !in Training.Teams
    ensures exists e :: (e in Training.Dataset(OldDelhiMatches, OldDelhiDeliveries)
      && e.x.battingTeam == "Delhi Daredevils")
  {
    OldNameUnlisted();
    var summary := Training.MatchSummary(1, Some("Delhi"), Some("Mumbai Indians"), 150);
    var rows := [Training.ChaseRow(summary, OldDelhiDeliveries[1])];
    OldDelhiRows(summary);
    OldDelhiExample(summary);
    assert Training.Examples(rows)[0] in Training.Examples(rows);
  }

  lemma OldNameUnlisted()
    ensures "Delhi Daredevils" !in App.Teams && "Delhi Daredevils" !in Training.Teams
  {
    Training.RenameTeamFacts();
    TeamListsAgree();
  }

  /** The whole pipeline up to the chase rows, on the example tables. */
  lemma OldDelhiRows(summary: Training.MatchSummary)
    requires summary == Training.MatchSummary(1, Some("Delhi"), Some("Mumbai Indians"), 150)
    ensures Training.ChaseRows(Training.SelectMatches(OldDelhiMatches, Training.Targets(OldDelhiDeliveries)), OldDelhiDeliveries)
         == [Training.ChaseRow(summary, OldDelhiDeliveries[1])]
  {
    OldDelhiTargets();
    OldDelhiSelected();
    OldDelhiChaseRows(summary);
  }

  /** The chase row's example: 149 to get off 119 balls, batting as "Delhi Daredevils". */
  lemma OldDelhiExample(summary: Training.MatchSummary)
    requires summary == Training.MatchSummary(1, Some("Delhi"), Some("Mumbai Indians"), 150)
    ensures var e := Training.Examples([Training.ChaseRow(summary, OldDelhiDeliveries[1])])[0];
      && e.x.battingTeam == "Delhi Daredevils" && e.x.city.Some?
      && e.x.ballsLeft == 119 && e.x.runsLeft == 149
  {
    var rows := [Training.ChaseRow(summary, OldDelhiDeliveries[1])];
    assert Training.CurrentScore(rows, 0) == 1 by {
      assert Training.RunsScored(rows) == [1];
    }
  }

  /**
   * The row the dashboard hands the classifier is the training row of the
   * same features with `match_id` and `result` dropped: same names, same
   * order, same cells.
   */
  lemma ServingRowIsTrainingRow(e: Training.Example)
    ensures DropColumns(Training.AsRecord(e), {"match_id", "result"}) == App.Record(e.x)
  {
    var row := Training.AsRecord(e);
    assert forall k :: 0 < k < |row| - 1 ==> row[k].0 !in {"match_id", "result"} by {
      assert Names(row) == Training.FinalColumns;
      Training.FinalColumnsLayout();
    }
    DropFirstAndLast(row, {"match_id", "result"});
  }

  /**
   * The dashboard's record has the classifier's input columns, in the order
   * the training frame presents them once `result` and `match_id` are gone.
   */
  lemma ServingColumnsAreTrainingColumns(f: Features)
    ensures Names(App.Record(f)) == DropNames(DropNames(Training.FinalColumns, {"result"}), {"match_id"})
  {
    ServingColumnsAreEncodedColumns(f);
    Training.ModelInputColumns();
  }

  /** The dashboard's columns are the encoded ones followed by the passed-through ones. */
  lemma ServingColumnsAreEncodedColumns(f: Features)
    ensures Names(App.Record(f)) == Training.Categorical + Training.Numeric
  {
  }

  /** Scaling both sides of a quotient by the same positive amount keeps it. */
  lemma ScaledQuotient(a: real, b: real, c: real)
    requires b > 0.0 && c > 0.0
    ensures (a * c) / (b * c) == a / b
  {
    assert (a / b) * (b * c) == a * c;
  }

  /**
   * When the overs value stands for a whole number of balls and the training
   * row's over and ball numbers give that count, the dashboard derives
   * exactly the training features: `score / overs` equals
   * `score * 6 / max(120 - balls_left, 1)`, and the other formulas coincide.
   */
  lemma DeriveAgreesOnWholeBalls(i: App.Inputs, over: int, ball: int)
    requires App.InSliderRange(i)
    requires (over * 6 + ball) as real == i.overs * 6.0
    ensures App.Derive(i) == Ok(Training.RowFeatures(i.bat, i.bowl, Some(i.city), i.target, i.score,
                                                     over, ball, 10 - i.wickets))
  {
    var n := over * 6 + ball;
    App.BallsBowledInRange(i.overs);
    assert App.Trunc(i.overs * 6.0) == n;
    assert n >= 1;
    App.DeriveOnSliderRange(i);
    var f := App.Derive(i).value;
    var g := Training.RowFeatures(i.bat, i.bowl, Some(i.city), i.target, i.score, over, ball, 10 - i.wickets);
    assert Max(120 - g.ballsLeft, 1) == n;
    ScaledQuotient(i.score as real, i.overs, 6.0);
    assert g.crr == f.crr;
    assert Max(g.ballsLeft, 1) == g.ballsLeft;
  }

  /**
   * Whatever the overs value, when the training row's over and ball numbers
   * give the balls the dashboard counts (`int(overs * 6)`), both derive the
   * same runs left, balls left, wickets, target, required rate and runs per
   * wicket; only the current rate (and so pressure) can differ.
   */
  lemma DeriveAgreesExceptCurrentRate(i: App.Inputs, over: int, ball: int)
    requires App.InSliderRange(i)
    requires over * 6 + ball == App.Trunc(i.overs * 6.0)
    ensures App.Derive(i).Ok?
    ensures var f := App.Derive(i).value;
      var g := Training.RowFeatures(i.bat, i.bowl, Some(i.city), i.target, i.score, over, ball, 10 - i.wickets);
      && f.battingTeam == g.battingTeam && f.bowlingTeam == g.bowlingTeam && f.city == g.city
      && f.runsLeft == g.runsLeft && f.ballsLeft == g.ballsLeft && f.wickets == g.wickets
      && f.totalRunsX == g.totalRunsX && f.rrr == g.rrr && f.runsPerWicket == g.runsPerWicket
  {
    App.BallsBowledInRange(i.overs);
    App.DeriveOnSliderRange(i);
    var g := Training.RowFeatures(i.bat, i.bowl, Some(i.city), i.target, i.score, over, ball, 10 - i.wickets);
    assert Max(g.ballsLeft, 1) == g.ballsLeft;
  }

  /** A chase of 180 with 41 scored at 10.25 overs and no wicket down. */
  const SkewInputs: App.Inputs := App.Inputs("Mumbai", "Mumbai Indians", "Chennai Super Kings", 180, 41, 10.25, 0)

  /** The widgets can produce that situation. */
  lemma SkewInputsInRange()
    ensures App.InWidgetRange(SkewInputs)
  {
    var i := SkewInputs;
    assert App.InSliderRange(i);
    assert (i.overs * 100.0).Floor as real == i.overs * 100.0;
  }

  /**
   * The current rate does differ once the overs value is not a whole number
   * of balls: 41 runs at 10.25 overs is 4 an over on the dashboard, while the
   * training formula for the 61 balls the dashboard counts gives 246/61.
   * SkewInputsInRange shows the widgets can produce this situation.
   */
  lemma CurrentRateSkew()
    ensures App.Trunc(SkewInputs.overs * 6.0) == 61
    ensures App.Derive(SkewInputs).Ok? && App.Derive(SkewInputs).value.crr == 4.0
    ensures Training.RowFeatures(SkewInputs.bat, SkewInputs.bowl, Some(SkewInputs.city), SkewInputs.target,
                                 SkewInputs.score, 10, 1, 10 - SkewInputs.wickets).crr == 246.0 / 61.0 != 4.0
  {
    assert App.Trunc(SkewInputs.overs * 6.0) == 61;
  }
}

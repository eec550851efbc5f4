/**
 * The dashboard's prediction step (app.py): from the widget values of a chase
 * situation to the one-row frame handed to the classifier, the displayed
 * winner and the projected-score curve. Everything here is straight-line
 * arithmetic on the inputs; the classifier is a parameter.
 */
module App {
  import opened Wrappers
  import opened Schema
  import opened Frames

  /** The team choices: the keys of the logo map, in its order. */
  const Teams: seq<string> := [
    "Mumbai Indians", "Chennai Super Kings", "Royal Challengers Bangalore",
    "Sunrisers Hyderabad", "Kolkata Knight Riders", "Delhi Capitals",
    "Rajasthan Royals", "Kings XI Punjab"]

  /** The city choices. */
  const Cities: seq<string> := [
    "Mumbai", "Chennai", "Bangalore", "Hyderabad", "Delhi", "Kolkata", "Jaipur"]

  /** The bowling-team choices: every team except the batting team, in order. */
  function BowlingChoices(bat: string): (r: seq<string>)
    ensures forall t :: t in r <==> t in Teams && t != bat
  {
    Filter(Teams, t => t != bat)
  }

  /** Once a batting team is chosen, exactly the seven other teams can bowl. */
  lemma BowlingChoicesCount(bat: string)
    requires bat in Teams
    ensures |BowlingChoices(bat)| == |Teams| - 1 == 7
  {
    var k :| 0 <= k < |Teams| && Teams[k] == bat;
    FilterDropsOne(Teams, t => t != bat, k);
  }

  /** The widget values read when Predict is pressed. */
  datatype Inputs = Inputs(
    city: string,
    bat: string,
    bowl: string,
    target: int,
    score: int,
    overs: real,
    wickets: int)

  /**
   * The values the widgets can produce: selections from the lists (the
   * bowling team from BowlingChoices, whose contract gives the condition
   * used here), a target
   * slider over 100..250, a score slider over 0..target, an overs slider over
   * [0.1, 19.5] moving in steps of 0.01, and a wickets slider over 0..9.
   */
  predicate InWidgetRange(i: Inputs)
  {
    && i.city in Cities
    && i.bat in Teams
    && i.bowl in Teams && i.bowl != i.bat
    && InSliderRange(i)
    && (i.overs * 100.0).Floor as real == i.overs * 100.0
  }

  /** The bounds of the four sliders. */
  predicate InSliderRange(i: Inputs)
  {
    && 100 <= i.target <= 250
    && 0 <= i.score <= i.target
    && 0.1 <= i.overs <= 19.5
    && 0 <= i.wickets <= 9
  }

  /** Python's `int()` on a float: truncation toward zero. */
  function Trunc(x: real): (n: int)
    ensures 0.0 <= x ==> n as real <= x < n as real + 1.0
    ensures x < 0.0 ==> n as real - 1.0 < x <= n as real
  {
    if x >= 0.0 then x.Floor else -((-x).Floor)
  }

  /** The exception the derivation can raise. */
  datatype DeriveError = ZeroDivision

  /**
   * The feature derivation: runs left, balls left from the overs value, wickets
   * in hand, the current and required rates, pressure and runs per wicket.
   * `score / overs` and `runs_left * 6 / balls_left` raise on a zero divisor.
   */
  function Derive(i: Inputs): (r: Result<Features, DeriveError>)
    ensures r.Err? <==> i.overs == 0.0 || Trunc(i.overs * 6.0) == 120
    ensures r.Ok? ==> r.value.totalRunsX - r.value.runsLeft == i.score
    ensures r.Ok? ==> r.value.ballsLeft + Trunc(i.overs * 6.0) == 120
    ensures r.Ok? ==> r.value.wickets + i.wickets == 10
  {
    var runsLeft := i.target - i.score;
    var ballsLeft := 120 - Trunc(i.overs * 6.0);
    var wicketsLeft := 10 - i.wickets;
    if i.overs == 0.0 || ballsLeft == 0 then Err(ZeroDivision)
    else
      var crr := i.score as real / i.overs;
      var rrr := (runsLeft * 6) as real / ballsLeft as real;
      var pressure := rrr - crr;
      var rpw := runsLeft as real / Max(wicketsLeft, 1) as real;
      Ok(Features(i.bat, i.bowl, Some(i.city), runsLeft, ballsLeft, wicketsLeft, i.target,
                  crr, rrr, pressure, rpw))
  }

  /**
   * On every value the widgets can produce the derivation succeeds, and its
   * features stay in range: runs left in [0, target], balls left in [3, 120],
   * wickets in hand in [1, 10] (so the `max(…, 1)` guard never acts), rates
   * non-negative, and the two teams different.
   */
  lemma DeriveOnWidgetRange(i: Inputs)
    requires InWidgetRange(i)
    ensures Derive(i).Ok?
    ensures var f := Derive(i).value;
      && 0 <= f.runsLeft <= f.totalRunsX == i.target
      && 3 <= f.ballsLeft <= 120
      && 1 <= f.wickets <= 10
      && f.runsPerWicket == f.runsLeft as real / f.wickets as real
      && f.crr >= 0.0 && f.rrr >= 0.0
      && f.pressure == f.rrr - f.crr
      && f.battingTeam != f.bowlingTeam
      && f.battingTeam in Teams && f.bowlingTeam in Teams
  {
    DeriveOnSliderRange(i);
  }

  /** The numeric half of DeriveOnWidgetRange: it needs only the slider bounds. */
  lemma DeriveOnSliderRange(i: Inputs)
    requires InSliderRange(i)
    ensures Derive(i).Ok?
    ensures var f := Derive(i).value;
      && 0 <= f.runsLeft <= f.totalRunsX == i.target
      && 3 <= f.ballsLeft <= 120
      && 1 <= f.wickets <= 10
      && f.runsPerWicket == f.runsLeft as real / f.wickets as real
      && f.crr >= 0.0 && f.rrr >= 0.0
      && f.pressure == f.rrr - f.crr
      && f.battingTeam == i.bat && f.bowlingTeam == i.bowl
  {
    BallsBowledInRange(i.overs);
    var f := Derive(i).value;
    assert Max(f.wickets, 1) == f.wickets;
    RatioNonNegative(i.score as real, i.overs);
    RatioNonNegative(((i.target - i.score) * 6) as real, f.ballsLeft as real);
  }

  /** An overs value in [0.1, 19.5] stands for 0 to 117 balls bowled. */
  lemma BallsBowledInRange(overs: real)
    requires 0.1 <= overs <= 19.5
    ensures 0 <= Trunc(overs * 6.0) <= 117
  {
    assert 0.0 <= overs * 6.0 <= 117.0;
  }

  /** A non-negative amount over a positive divisor is non-negative. */
  lemma RatioNonNegative(a: real, b: real)
    requires 0.0 <= a && 0.0 < b
    ensures 0.0 <= a / b
  {
  }

  /**
   * The one-row frame built from the dict literal: its keys, in their written
   * order, are the column names.
   */
  function Record(f: Features): (r: Row)
    ensures |r| == 11
    ensures forall j, k :: 0 <= j < k < |r| ==> r[j].0 != r[k].0
  {
    [ ("batting_team", Category(f.battingTeam)),
      ("bowling_team", Category(f.bowlingTeam)),
      ("city", CategoryCell(f.city)),
      ("runs_left", Count(f.runsLeft)),
      ("balls_left", Count(f.ballsLeft)),
      ("wickets", Count(f.wickets)),
      ("total_runs_x", Count(f.totalRunsX)),
      ("crr", Rate(f.crr)),
      ("rrr", Rate(f.rrr)),
      ("pressure", Rate(f.pressure)),
      ("runs_per_wicket", Rate(f.runsPerWicket)) ]
  }

  /**
   * The headline: the batting team when its win percentage is strictly
   * larger, otherwise the bowling team, with the larger percentage.
   */
  function Verdict(bat: string, bowl: string, win: real, lose: real): (r: (string, real))
    ensures win > lose ==> r.0 == bat
    ensures win <= lose ==> r.0 == bowl
    ensures r.1 >= win && r.1 >= lose && (r.1 == win || r.1 == lose)
  {
    (if win > lose then bat else bowl, if win >= lose then win else lose)
  }

  /**
   * With the two class probabilities summing to one, the headline names the
   * batting team exactly when it is the likelier winner (ties go to the
   * bowling team), and shows a percentage in [50, 100] that is the larger of
   * the two.
   */
  lemma VerdictFavoursLikelierSide(bat: string, bowl: string, pLose: real, pWin: real)
    requires bat != bowl
    requires 0.0 <= pLose && 0.0 <= pWin && pLose + pWin == 1.0
    ensures var (winner, shown) := Verdict(bat, bowl, pWin * 100.0, pLose * 100.0);
      && (winner == bat <==> pWin > pLose)
      && (winner == bowl <==> pWin <= pLose)
      && shown >= pWin * 100.0 && shown >= pLose * 100.0
      && (shown == pWin * 100.0 || shown == pLose * 100.0)
      && 50.0 <= shown <= 100.0
  {
  }

  /** The projected-score curve: `score + i * crr` for overs `i` = 1..20. */
  function Projection(score: int, crr: real): (p: seq<real>)
    ensures |p| == 20
  {
    seq(20, k requires 0 <= k < 20 => score as real + (k + 1) as real * crr)
  }

  /**
   * The curve starts one over's worth of runs above the score, rises by `crr`
   * per over, ends at `score + 20 * crr`, and never falls when `crr >= 0`.
   */
  lemma ProjectionShape(score: int, crr: real)
    ensures Projection(score, crr)[0] == score as real + crr
    ensures Projection(score, crr)[19] == score as real + 20.0 * crr
    ensures forall k :: 0 <= k < 19 ==> Projection(score, crr)[k + 1] - Projection(score, crr)[k] == crr
    ensures crr >= 0.0 ==>
      forall j, k :: 0 <= j <= k < 20 ==> Projection(score, crr)[j] <= Projection(score, crr)[k]
  {
    var p := Projection(score, crr);
    if crr >= 0.0 {
      forall j, k | 0 <= j <= k < 20 ensures p[j] <= p[k] {
        assert p[k] - p[j] == (k - j) as real * crr;
      }
    }
  }

  /**
   * What the page shows after Predict; `shown` is the headline's percentage
   * before it is rounded to two places for display.
   */
  datatype Report = Report(record: Row, winner: string, shown: real, win: real, projection: seq<real>)

  /**
   * The prediction step: derive the features, hand the record to the
   * classifier's `predict_proba` (a parameter: it returns the probabilities
   * of the classes 0 and 1), and build the headline and the curve.
   */
  function Respond(i: Inputs, predictProba: Row -> (real, real)): (r: Result<Report, DeriveError>)
    ensures r.Ok? <==> Derive(i).Ok?
    ensures r.Ok? ==> r.value.record == Record(Derive(i).value)
    ensures r.Ok? ==>
      var p := predictProba(r.value.record);
      && (r.value.winner, r.value.shown) == Verdict(i.bat, i.bowl, p.1 * 100.0, p.0 * 100.0)
      && r.value.win == p.1 * 100.0
    ensures r.Ok? ==> r.value.projection == Projection(i.score, Derive(i).value.crr)
    ensures r.Ok? ==> |r.value.projection| == 20
  {
    match Derive(i)
    case Err(e) => Err(e)
    case Ok(f) =>
      var rec := Record(f);
      var prob := predictProba(rec);
      var win := prob.1 * 100.0;
      var lose := prob.0 * 100.0;
      var (winner, shown) := Verdict(i.bat, i.bowl, win, lose);
      Ok(Report(rec, winner, shown, win, Projection(i.score, f.crr)))
  }

  /**
   * For every value the widgets can produce the page renders: the classifier
   * sees an eleven-column record built from in-range features, the headline
   * never names a team that is not playing, and the projected curve never
   * falls. When the classifier returns two probabilities summing to one, the
   * headline names the batting team exactly when its win probability is the
   * strictly larger, and the headline's unrounded percentage is in [50, 100].
   */
  lemma RespondOnWidgetRange(i: Inputs, predictProba: Row -> (real, real))
    requires InWidgetRange(i)
    ensures Respond(i, predictProba).Ok?
    ensures var rep := Respond(i, predictProba).value;
      && |rep.record| == 11
      && (rep.winner == i.bat || rep.winner == i.bowl)
      && forall j, k :: 0 <= j <= k < 20 ==> rep.projection[j] <= rep.projection[k]
    ensures var rep := Respond(i, predictProba).value;
      var p := predictProba(rep.record);
      0.0 <= p.0 && 0.0 <= p.1 && p.0 + p.1 == 1.0 ==>
        && (rep.winner == i.bat <==> p.1 > p.0)
        && (rep.winner == i.bowl <==> p.1 <= p.0)
        && rep.win == p.1 * 100.0
        && 50.0 <= rep.shown <= 100.0
  {
    DeriveOnWidgetRange(i);
    var f := Derive(i).value;
    ProjectionShape(i.score, f.crr);
    var p := predictProba(Record(f));
    if 0.0 <= p.0 && 0.0 <= p.1 && p.0 + p.1 == 1.0 {
      VerdictFavoursLikelierSide(i.bat, i.bowl, p.0, p.1);
    }
  }
}

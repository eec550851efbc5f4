/**
 * The training script's feature pipeline (train_model.py): from the match
 * table and the ball-by-ball table to the labelled examples the classifier is
 * fitted on. The tables are sequences of rows; the script's frames are the
 * intermediate sequences, and its group-wise sums are the loops in Frames.
 */
module Training {
  import opened Wrappers
  import opened Schema
  import opened Frames

  /** One row of the match table: the columns the pipeline reads. */
  datatype Match = Match(
    id: int,
    team1: string,
    team2: string,
    city: Option<string>,
    winner: Option<string>,
    dlApplied: int)

  /** One row of the ball-by-ball table: the columns the pipeline reads. */
  datatype Delivery = Delivery(
    matchId: int,
    inning: int,
    battingTeam: string,
    bowlingTeam: string,
    over: int,
    ball: int,
    totalRuns: int,
    playerDismissed: Option<string>)

  // ---------------------------------------------------------------------------
  // Target score: the first-innings total of each match
  // ---------------------------------------------------------------------------

  /** The `(match_id, inning)` group key of every delivery. */
  function InningsKeys(ds: seq<Delivery>): seq<(int, int)>
  {
    seq(|ds|, k requires 0 <= k < |ds| => (ds[k].matchId, ds[k].inning))
  }

  /** The `total_runs` column of the deliveries. */
  function RunsOf(ds: seq<Delivery>): seq<int>
  {
    seq(|ds|, k requires 0 <= k < |ds| => ds[k].totalRuns)
  }

  /** Match `id`'s first-innings total: its inning-1 deliveries' runs, summed. */
  function FirstInningsTotal(ds: seq<Delivery>, id: int): int
  {
    SumFor(InningsKeys(ds), RunsOf(ds), |ds|, (id, 1))
  }

  /** True when match `id` has at least one inning-1 delivery. */
  predicate HasFirstInnings(ds: seq<Delivery>, id: int)
  {
    exists d :: d in ds && d.matchId == id && d.inning == 1
  }

  /**
   * The per-innings totals restricted to inning 1, as a map from match id to
   * the first-innings total (`total_runs_x`).
   */
  function Targets(ds: seq<Delivery>): (t: map<int, int>)
    ensures forall id :: id in t <==> HasFirstInnings(ds, id)
    ensures forall id :: id in t ==> t[id] == FirstInningsTotal(ds, id)
  {
    map id | id in (set d | d in ds && d.inning == 1 :: d.matchId) :: FirstInningsTotal(ds, id)
  }

  /**
   * `groupby(['match_id','inning'])['total_runs'].sum()` followed by the
   * selection of inning 1.
   */
  method ComputeTargets(ds: seq<Delivery>) returns (targets: map<int, int>)
    ensures targets == Targets(ds)
  {
    var sums := GroupSum(InningsKeys(ds), RunsOf(ds));
    targets := map p | p in sums && p.1 == 1 :: p.0 := sums[p];
    forall id | id in targets ensures HasFirstInnings(ds, id) {
      var p :| p in sums && p.1 == 1 && p.0 == id;
      var k :| 0 <= k < |ds| && InningsKeys(ds)[k] == p;
      assert ds[k] in ds;
    }
    forall id | HasFirstInnings(ds, id) ensures id in targets && targets[id] == FirstInningsTotal(ds, id) {
      var d :| d in ds && d.matchId == id && d.inning == 1;
      var k :| 0 <= k < |ds| && ds[k] == d;
      assert InningsKeys(ds)[k] == (id, 1);
      assert (id, 1) in sums;
    }
  }

  // ---------------------------------------------------------------------------
  // Match cleaning
  // ---------------------------------------------------------------------------

  /** The eight franchises whose matches are kept. */
  const Teams: seq<string> := [
    "Sunrisers Hyderabad", "Mumbai Indians", "Royal Challengers Bangalore",
    "Kolkata Knight Riders", "Kings XI Punjab", "Chennai Super Kings",
    "Rajasthan Royals", "Delhi Capitals"]

  /** The franchise's old name becomes its new one, as a substring replacement. */
  function RenameTeam(t: string): string
  {
    ReplaceAll(t, "Delhi Daredevils", "Delhi Capitals")
  }

  /**
   * The rename turns the old Delhi name into the new one, leaves every kept
   * team name as it is, and the old name is not itself a kept team.
   */
  lemma RenameTeamFacts()
    ensures RenameTeam("Delhi Daredevils") == "Delhi Capitals"
    ensures forall t :: t in Teams ==> RenameTeam(t) == t
    ensures "Delhi Daredevils" !in Teams
  {
    ReplaceAllWhole("Delhi Daredevils", "Delhi Capitals");
    forall t | t in Teams ensures RenameTeam(t) == t {
      if t != "Delhi Capitals" {
        ReplaceAllAbsent(t, "Delhi Daredevils", "Delhi Capitals");
      }
    }
  }

  /** A match row joined with its first-innings total (`total_runs`). */
  datatype TargetedMatch = TargetedMatch(m: Match, totalRuns: int)

  /**
   * The inner join of the matches with the first-innings totals on the match
   * id: every match that has a first innings, in match order.
   */
  function MergeTargets(ms: seq<Match>, targets: map<int, int>): (r: seq<TargetedMatch>)
    ensures |r| <= |ms|
    ensures forall tm :: tm in r <==> tm.m in ms && tm.m.id in targets && tm.totalRuns == targets[tm.m.id]
  {
    if ms == [] then []
    else (if ms[0].id in targets then [TargetedMatch(ms[0], targets[ms[0].id])] else [])
         + MergeTargets(ms[1..], targets)
  }

  /** The rename applied to a row's two team columns. */
  function RenameRow(tm: TargetedMatch): TargetedMatch
  {
    tm.(m := tm.m.(team1 := RenameTeam(tm.m.team1), team2 := RenameTeam(tm.m.team2)))
  }

  /** The rename applied to both team columns of every row. */
  function RenameDelhi(rows: seq<TargetedMatch>): seq<TargetedMatch>
  {
    seq(|rows|, k requires 0 <= k < |rows| => RenameRow(rows[k]))
  }

  /** The row filter: both teams among the eight, and no rain rule applied. */
  predicate IsKept(tm: TargetedMatch)
  {
    tm.m.team1 in Teams && tm.m.team2 in Teams && tm.m.dlApplied == 0
  }

  /** A kept match reduced to `match_id`, `city`, `winner` and `total_runs`. */
  datatype MatchSummary = MatchSummary(matchId: int, city: Option<string>, winner: Option<string>, target: int)

  function Summarize(tm: TargetedMatch): MatchSummary
  {
    MatchSummary(tm.m.id, tm.m.city, tm.m.winner, tm.totalRuns)
  }

  /** The frame of kept matches: merge, rename, filter, then column selection. */
  function SelectMatches(ms: seq<Match>, targets: map<int, int>): (r: seq<MatchSummary>)
    ensures |r| <= |ms|
  {
    var kept := Filter(RenameDelhi(MergeTargets(ms, targets)), IsKept);
    seq(|kept|, k requires 0 <= k < |kept| => Summarize(kept[k]))
  }

  /** The condition a raw match row meets when it survives the cleaning. */
  predicate Eligible(m: Match)
  {
    RenameTeam(m.team1) in Teams && RenameTeam(m.team2) in Teams && m.dlApplied == 0
  }

  /**
   * A summary is in the frame of kept matches exactly when it comes from a
   * match that has a first innings and whose renamed teams are both among the
   * eight with no rain rule applied, carrying that match's target.
   */
  lemma {:induction false} SelectMatchesExactly(ms: seq<Match>, targets: map<int, int>, s: MatchSummary)
    ensures s in SelectMatches(ms, targets) <==>
      exists m :: m in ms && m.id in targets && Eligible(m)
        && s == MatchSummary(m.id, m.city, m.winner, targets[m.id])
  {
    var merged := MergeTargets(ms, targets);
    var renamed := RenameDelhi(merged);
    var kept := Filter(renamed, IsKept);
    if s in SelectMatches(ms, targets) {
      var k :| 0 <= k < |kept| && s == Summarize(kept[k]);
      assert kept[k] in renamed;
      var j :| 0 <= j < |renamed| && renamed[j] == kept[k];
      assert merged[j] in merged;
      var m := merged[j].m;
      assert m in ms && m.id in targets && Eligible(m);
      assert s == MatchSummary(m.id, m.city, m.winner, targets[m.id]);
    }
    if exists m :: m in ms && m.id in targets && Eligible(m)
        && s == MatchSummary(m.id, m.city, m.winner, targets[m.id]) {
      var m :| m in ms && m.id in targets && Eligible(m)
        && s == MatchSummary(m.id, m.city, m.winner, targets[m.id]);
      var tm := TargetedMatch(m, targets[m.id]);
      assert tm in merged;
      var j :| 0 <= j < |merged| && merged[j] == tm;
      assert renamed[j] == RenameRow(tm);
      assert RenameRow(tm) in kept;
      var k :| 0 <= k < |kept| && kept[k] == RenameRow(tm);
      assert SelectMatches(ms, targets)[k] == s;
    }
  }

  /** The key columns: a match's `id`, and `match_id` after the merge. */
  function MatchKey(m: Match): int
  {
    m.id
  }

  function TargetKey(tm: TargetedMatch): int
  {
    tm.m.id
  }

  function SummaryKey(s: MatchSummary): int
  {
    s.matchId
  }

  /** The merge with the targets keeps the match ids distinct. */
  lemma {:induction false} MergeTargetsDistinct(ms: seq<Match>, targets: map<int, int>)
    requires DistinctBy(ms, MatchKey)
    ensures DistinctBy(MergeTargets(ms, targets), TargetKey)
  {
    if ms != [] {
      DistinctByTail(ms, MatchKey);
      MergeTargetsDistinct(ms[1..], targets);
      var tail := MergeTargets(ms[1..], targets);
      if ms[0].id in targets {
        DistinctByCons(TargetedMatch(ms[0], targets[ms[0].id]), tail, TargetKey);
      } else {
        assert MergeTargets(ms, targets) == tail;
      }
    }
  }

  /**
   * When the match table has one row per id, so does the frame of kept
   * matches.
   */
  lemma SelectMatchesDistinct(ms: seq<Match>, targets: map<int, int>)
    requires DistinctBy(ms, MatchKey)
    ensures DistinctBy(SelectMatches(ms, targets), SummaryKey)
  {
    var merged := MergeTargets(ms, targets);
    MergeTargetsDistinct(ms, targets);
    var renamed := RenameDelhi(merged);
    assert forall k :: 0 <= k < |renamed| ==> TargetKey(renamed[k]) == TargetKey(merged[k]);
    assert DistinctBy(renamed, TargetKey);
    FilterDistinctBy(renamed, IsKept, TargetKey);
  }

  // ---------------------------------------------------------------------------
  // Merge with the deliveries and the second-innings selection
  // ---------------------------------------------------------------------------

  /**
   * A delivery joined with its kept match. `total_runs_x` is `s.target` (the
   * match's first-innings total) and `total_runs_y` is `d.totalRuns` (the runs
   * off this ball).
   */
  datatype ChaseRow = ChaseRow(s: MatchSummary, d: Delivery)

  /** The deliveries of one kept match, in delivery order. */
  function JoinMatch(s: MatchSummary, ds: seq<Delivery>): (r: seq<ChaseRow>)
    ensures forall row :: row in r <==> row.s == s && row.d in ds && row.d.matchId == s.matchId
  {
    if ds == [] then []
    else (if ds[0].matchId == s.matchId then [ChaseRow(s, ds[0])] else []) + JoinMatch(s, ds[1..])
  }

  /**
   * The inner join of the kept matches with the deliveries on the match id:
   * match by match in the kept order, each match's deliveries in their order.
   */
  function MergeDeliveries(ss: seq<MatchSummary>, ds: seq<Delivery>): (r: seq<ChaseRow>)
    ensures forall row :: row in r <==> row.s in ss && row.d in ds && row.d.matchId == row.s.matchId
  {
    if ss == [] then [] else JoinMatch(ss[0], ds) + MergeDeliveries(ss[1..], ds)
  }

  predicate IsSecondInnings(row: ChaseRow)
  {
    row.d.inning == 2
  }

  /** The merged frame restricted to the second innings. */
  function ChaseRows(ss: seq<MatchSummary>, ds: seq<Delivery>): (r: seq<ChaseRow>)
    ensures forall row :: row in r <==>
      row.s in ss && row.d in ds && row.d.matchId == row.s.matchId && row.d.inning == 2
  {
    Filter(MergeDeliveries(ss, ds), IsSecondInnings)
  }

  /**
   * Exactly the second-innings deliveries of kept matches reach feature
   * engineering, each carrying its match's summary and first-innings total.
   */
  lemma ChaseRowsExactly(ms: seq<Match>, ds: seq<Delivery>, row: ChaseRow)
    ensures row in ChaseRows(SelectMatches(ms, Targets(ds)), ds) <==>
      && row.d in ds && row.d.inning == 2
      && exists m :: m in ms && HasFirstInnings(ds, m.id) && Eligible(m)
           && m.id == row.d.matchId
           && row.s == MatchSummary(m.id, m.city, m.winner, FirstInningsTotal(ds, m.id))
  {
    SelectMatchesExactly(ms, Targets(ds), row.s);
  }

  /** The deliveries of a run of chase rows, in row order. */
  function Dels(rows: seq<ChaseRow>): seq<Delivery>
  {
    seq(|rows|, k requires 0 <= k < |rows| => rows[k].d)
  }

  lemma DelsAppend(a: seq<ChaseRow>, b: seq<ChaseRow>)
    ensures Dels(a + b) == Dels(a) + Dels(b)
  {
    assert forall k :: 0 <= k < |a + b| ==> Dels(a + b)[k] == (Dels(a) + Dels(b))[k];
  }

  /** The chase rows of match `id`. */
  function RowOfMatch(id: int): ChaseRow -> bool
  {
    (row: ChaseRow) => row.s.matchId == id
  }

  /** The deliveries of match `id`. */
  function DeliveryOfMatch(id: int): Delivery -> bool
  {
    (d: Delivery) => d.matchId == id
  }

  /** The second-innings deliveries of match `id`. */
  function ChaseBallOf(id: int): Delivery -> bool
  {
    (d: Delivery) => d.matchId == id && d.inning == 2
  }

  /** A kept match joins with its own deliveries once each, in delivery order. */
  lemma {:induction false} JoinMatchOrder(s: MatchSummary, ds: seq<Delivery>)
    ensures Dels(JoinMatch(s, ds)) == Filter(ds, DeliveryOfMatch(s.matchId))
  {
    if ds != [] {
      var keep := DeliveryOfMatch(s.matchId);
      var head := if ds[0].matchId == s.matchId then [ChaseRow(s, ds[0])] else [];
      assert JoinMatch(s, ds) == head + JoinMatch(s, ds[1..]);
      assert Dels(head) == if keep(ds[0]) then [ds[0]] else [];
      assert Filter(ds, keep) == (if keep(ds[0]) then [ds[0]] else []) + Filter(ds[1..], keep);
      JoinMatchOrder(s, ds[1..]);
      DelsAppend(head, JoinMatch(s, ds[1..]));
    }
  }

  /** The same, restricted to the second innings. */
  lemma {:induction false} JoinChaseOrder(s: MatchSummary, ds: seq<Delivery>)
    ensures Dels(Filter(JoinMatch(s, ds), IsSecondInnings)) == Filter(ds, ChaseBallOf(s.matchId))
  {
    if ds != [] {
      var keep := ChaseBallOf(s.matchId);
      var tail := JoinMatch(s, ds[1..]);
      JoinChaseOrder(s, ds[1..]);
      assert Filter(ds, keep) == (if keep(ds[0]) then [ds[0]] else []) + Filter(ds[1..], keep);
      if ds[0].matchId == s.matchId {
        var r := ChaseRow(s, ds[0]);
        assert JoinMatch(s, ds) == [r] + tail;
        FilterCons(r, tail, IsSecondInnings);
        if ds[0].inning == 2 {
          DelsAppend([r], Filter(tail, IsSecondInnings));
          assert Dels([r]) == [ds[0]];
        } else {
          assert Filter([r] + tail, IsSecondInnings) == Filter(tail, IsSecondInnings);
        }
      } else {
        assert JoinMatch(s, ds) == [] + tail == tail;
      }
    }
  }

  /** The chase rows of the first kept match come first, then the others'. */
  lemma ChaseRowsSplit(ss: seq<MatchSummary>, ds: seq<Delivery>)
    requires ss != []
    ensures ChaseRows(ss, ds)
         == Filter(JoinMatch(ss[0], ds), IsSecondInnings) + ChaseRows(ss[1..], ds)
  {
    FilterAppend(JoinMatch(ss[0], ds), MergeDeliveries(ss[1..], ds), IsSecondInnings);
  }

  /** When no later kept match shares the first one's id, none of their rows is of that match. */
  lemma OtherMatchesRows(ss: seq<MatchSummary>, ds: seq<Delivery>)
    requires ss != []
    requires forall j :: 0 < j < |ss| ==> ss[j].matchId != ss[0].matchId
    ensures Filter(ChaseRows(ss[1..], ds), RowOfMatch(ss[0].matchId)) == []
  {
    var tail := ChaseRows(ss[1..], ds);
    forall row | row in tail ensures row.s.matchId != ss[0].matchId {
      var j :| 0 <= j < |ss[1..]| && ss[1..][j] == row.s;
      assert ss[j + 1] == row.s;
    }
    FilterKeepsNone(tail, RowOfMatch(ss[0].matchId));
  }

  /**
   * When match `ss[k]` is the only kept match with its id, its chase rows are
   * its second-innings deliveries, once each, in delivery order: the order
   * the running sums are taken in.
   */
  lemma {:induction false} ChaseRowsOrder(ss: seq<MatchSummary>, ds: seq<Delivery>, k: nat)
    requires k < |ss|
    requires forall j :: 0 <= j < |ss| && j != k ==> ss[j].matchId != ss[k].matchId
    ensures Dels(Filter(ChaseRows(ss, ds), RowOfMatch(ss[k].matchId)))
         == Filter(ds, ChaseBallOf(ss[k].matchId))
  {
    var id := ss[k].matchId;
    var head := Filter(JoinMatch(ss[0], ds), IsSecondInnings);
    var tail := ChaseRows(ss[1..], ds);
    ChaseRowsSplit(ss, ds);
    FilterAppend(head, tail, RowOfMatch(id));
    if k == 0 {
      OtherMatchesRows(ss, ds);
      FilterKeepsAll(head, RowOfMatch(id));
      JoinChaseOrder(ss[0], ds);
      assert Filter(head, RowOfMatch(id)) + [] == head;
    } else {
      assert ss[0].matchId != id;
      FilterKeepsNone(head, RowOfMatch(id));
      ChaseRowsOrder(ss[1..], ds, k - 1);
      assert [] + Filter(tail, RowOfMatch(id)) == Filter(tail, RowOfMatch(id));
    }
  }

  // ---------------------------------------------------------------------------
  // Row features and label
  // ---------------------------------------------------------------------------

  /**
   * The per-row formulas: runs left against the target, balls left from the
   * over and ball numbers, the two rates with their divisors floored at 1,
   * pressure, and runs per wicket with wickets floored at 1.
   */
  function RowFeatures(battingTeam: string, bowlingTeam: string, city: Option<string>,
                       totalRunsX: int, currentScore: int, over: int, ball: int, wickets: int): (f: Features)
    ensures f.battingTeam == battingTeam && f.bowlingTeam == bowlingTeam && f.city == city
    ensures f.totalRunsX == totalRunsX && f.wickets == wickets
    ensures f.runsLeft + currentScore == totalRunsX
    ensures f.ballsLeft + (over * 6 + ball) == 120
  {
    var runsLeft := totalRunsX - currentScore;
    var ballsLeft := 120 - (over * 6 + ball);
    var crr := (currentScore * 6) as real / Max(120 - ballsLeft, 1) as real;
    var rrr := (runsLeft * 6) as real / Max(ballsLeft, 1) as real;
    Features(battingTeam, bowlingTeam, city, runsLeft, ballsLeft, wickets, totalRunsX,
             crr, rrr, rrr - crr, runsLeft as real / Max(wickets, 1) as real)
  }

  /**
   * What the guarded formulas mean: once a ball has been bowled the current
   * rate is runs per six balls bowled; while balls remain the required rate is
   * runs left per six balls left, and it is positive while runs remain; with
   * a wicket in hand runs per wicket is an exact quotient. Where a divisor
   * would be zero or negative, `np.maximum(..., 1)` divides by 1 instead: the
   * current rate before the first ball, the required rate once no balls are
   * left, and runs per wicket on the ball of the tenth dismissal are the
   * plain numerators.
   */
  lemma RowRates(battingTeam: string, bowlingTeam: string, city: Option<string>,
                 totalRunsX: int, currentScore: int, over: int, ball: int, wickets: int)
    ensures var f := RowFeatures(battingTeam, bowlingTeam, city, totalRunsX, currentScore, over, ball, wickets);
      && f.runsLeft == totalRunsX - currentScore
      && f.ballsLeft + (over * 6 + ball) == 120
      && (over * 6 + ball >= 1 ==> f.crr == (currentScore * 6) as real / (over * 6 + ball) as real)
      && (over * 6 + ball <= 0 ==> f.crr == (currentScore * 6) as real)
      && (f.ballsLeft >= 1 ==> f.rrr == (f.runsLeft * 6) as real / f.ballsLeft as real)
      && (f.ballsLeft > 0 && f.runsLeft > 0 ==> f.rrr > 0.0)
      && f.pressure == f.rrr - f.crr
      && (wickets >= 1 ==> f.runsPerWicket == f.runsLeft as real / wickets as real)
      && (wickets <= 0 ==> f.runsPerWicket == f.runsLeft as real)
      && (f.ballsLeft <= 0 ==> f.rrr == (f.runsLeft * 6) as real)
  {
    var f := RowFeatures(battingTeam, bowlingTeam, city, totalRunsX, currentScore, over, ball, wickets);
    if f.ballsLeft > 0 && f.runsLeft > 0 {
      assert (f.runsLeft * 6) as real > 0.0;
    }
  }

  /** The label: 1 exactly when the chasing side is the recorded winner. */
  function Label(battingTeam: string, winner: Option<string>): (r: int)
    ensures r == 0 || r == 1
    ensures r == 1 <==> winner.Some? && winner.value == battingTeam
  {
    if winner == Some(battingTeam) then 1 else 0
  }

  /** A labelled training example: the group key, the features and `result`. */
  datatype Example = Example(matchId: int, x: Features, result: int)

  /** The `match_id` column of the chase rows. */
  function MatchIds(rows: seq<ChaseRow>): seq<int>
  {
    seq(|rows|, k requires 0 <= k < |rows| => rows[k].s.matchId)
  }

  /** The runs off one ball (`total_runs`). */
  function BallRuns(d: Delivery): int
  {
    d.totalRuns
  }

  /** `player_dismissed.notna().astype(int)` on one ball: 1 when it took a wicket. */
  function BallWicket(d: Delivery): int
  {
    if d.playerDismissed.Some? then 1 else 0
  }

  /** The `total_runs_y` column of the chase rows. */
  function RunsScored(rows: seq<ChaseRow>): seq<int>
  {
    seq(|rows|, k requires 0 <= k < |rows| => BallRuns(rows[k].d))
  }

  /** The dismissal-flag column of the chase rows. */
  function Dismissals(rows: seq<ChaseRow>): seq<int>
  {
    seq(|rows|, k requires 0 <= k < |rows| => BallWicket(rows[k].d))
  }

  /**
   * `current_score` at row `k`: its match's runs so far, this ball included,
   * that is this ball's runs plus those of its match's earlier rows.
   */
  function CurrentScore(rows: seq<ChaseRow>, k: nat): (r: int)
    requires k < |rows|
    ensures r == rows[k].d.totalRuns + SumFor(MatchIds(rows), RunsScored(rows), k, rows[k].s.matchId)
  {
    SumFor(MatchIds(rows), RunsScored(rows), k + 1, rows[k].s.matchId)
  }

  /**
   * The wickets its match has lost so far at row `k`, this ball included: one
   * if this ball took a wicket, plus those of its match's earlier rows, and
   * never more than the number of its match's rows so far.
   */
  function WicketsDown(rows: seq<ChaseRow>, k: nat): (r: int)
    requires k < |rows|
    ensures r == BallWicket(rows[k].d) + SumFor(MatchIds(rows), Dismissals(rows), k, rows[k].s.matchId)
    ensures 0 <= r <= CountFor(MatchIds(rows), k + 1, rows[k].s.matchId)
  {
    SumForOfFlags(MatchIds(rows), Dismissals(rows), k + 1, rows[k].s.matchId);
    SumFor(MatchIds(rows), Dismissals(rows), k + 1, rows[k].s.matchId)
  }

  /**
   * One example from a chase row, its running score and its wickets down:
   * the teams are the delivery's, city and target the match's, and the label
   * says whether the delivery's batting side won.
   */
  function ToExample(row: ChaseRow, currentScore: int, down: int): (e: Example)
    ensures e.matchId == row.s.matchId
    ensures e.x.battingTeam == row.d.battingTeam && e.x.bowlingTeam == row.d.bowlingTeam
    ensures e.x.city == row.s.city && e.x.totalRunsX == row.s.target
    ensures e.x.runsLeft + currentScore == row.s.target
    ensures e.x.ballsLeft + (row.d.over * 6 + row.d.ball) == 120
    ensures e.x.wickets + down == 10
    ensures e.result == 1 <==> row.s.winner == Some(row.d.battingTeam)
  {
    Example(row.s.matchId,
            RowFeatures(row.d.battingTeam, row.d.bowlingTeam, row.s.city, row.s.target,
                        currentScore, row.d.over, row.d.ball, 10 - down),
            Label(row.d.battingTeam, row.s.winner))
  }

  /** The example built from chase row `k`. */
  function ExampleAt(rows: seq<ChaseRow>, k: nat): Example
    requires k < |rows|
  {
    ToExample(rows[k], CurrentScore(rows, k), WicketsDown(rows, k))
  }

  /**
   * The feature frame: one example per chase row, in row order, each scored
   * against its own match's running totals.
   */
  function Examples(rows: seq<ChaseRow>): (r: seq<Example>)
    ensures |r| == |rows|
    ensures forall k :: 0 <= k < |rows| ==>
      && r[k].matchId == rows[k].s.matchId
      && r[k].x.runsLeft == rows[k].s.target - CurrentScore(rows, k)
      && r[k].x.wickets == 10 - WicketsDown(rows, k)
  {
    seq(|rows|, k requires 0 <= k < |rows| => ExampleAt(rows, k))
  }

  /**
   * The score restarts with each match: on a match's first row the running
   * score is that ball's runs alone.
   */
  lemma CurrentScoreRestarts(rows: seq<ChaseRow>, k: nat)
    requires k < |rows|
    requires forall j :: 0 <= j < k ==> rows[j].s.matchId != rows[k].s.matchId
    ensures CurrentScore(rows, k) == rows[k].d.totalRuns
  {
    SumForAbsent(MatchIds(rows), RunsScored(rows), k, rows[k].s.matchId);
  }

  /**
   * Each later row of a match adds its own runs to the score of any earlier
   * row of that match, so with no negative runs the score never decreases.
   */
  lemma CurrentScoreNeverDecreases(rows: seq<ChaseRow>, j: nat, k: nat)
    requires j <= k < |rows| && rows[j].s.matchId == rows[k].s.matchId
    requires forall i :: 0 <= i < |rows| ==> rows[i].d.totalRuns >= 0
    ensures CurrentScore(rows, j) <= CurrentScore(rows, k)
  {
    SumForMonotone(MatchIds(rows), RunsScored(rows), j + 1, k + 1, rows[k].s.matchId);
  }

  /**
   * The wickets column counts down from 10 by one per dismissal of its match:
   * it never increases within a match, and at row `k` it is at least 10 less
   * the number of its match's rows so far.
   */
  lemma WicketsNeverIncrease(rows: seq<ChaseRow>, j: nat, k: nat)
    requires j <= k < |rows| && rows[j].s.matchId == rows[k].s.matchId
    ensures 10 - WicketsDown(rows, k) <= 10 - WicketsDown(rows, j)
    ensures 10 - CountFor(MatchIds(rows), k + 1, rows[k].s.matchId) <= 10 - WicketsDown(rows, k) <= 10
  {
    SumForMonotone(MatchIds(rows), Dismissals(rows), j + 1, k + 1, rows[k].s.matchId);
  }

  /** The sum of `v` over a run of deliveries. */
  function Tally(ds: seq<Delivery>, v: Delivery -> int): int
  {
    if ds == [] then 0 else Tally(ds[..|ds| - 1], v) + v(ds[|ds| - 1])
  }

  lemma TallySnoc(ds: seq<Delivery>, d: Delivery, v: Delivery -> int)
    ensures Tally(ds + [d], v) == Tally(ds, v) + v(d)
  {
    assert (ds + [d])[..|ds|] == ds;
  }

  /**
   * A per-match running sum over the first `n` chase rows is the tally of
   * that match's deliveries among them, taken in row order.
   */
  lemma {:induction false} SumForIsTally(rows: seq<ChaseRow>, v: Delivery -> int, col: seq<int>, n: nat, id: int)
    requires |col| == |rows| && n <= |rows|
    requires forall j :: 0 <= j < |rows| ==> col[j] == v(rows[j].d)
    ensures SumFor(MatchIds(rows), col, n, id) == Tally(Dels(Filter(rows[..n], RowOfMatch(id))), v)
  {
    if n > 0 {
      SumForIsTally(rows, v, col, n - 1, id);
      TallyStep(rows, v, col, n, id);
    }
  }

  /** One more row adds its value to its own match's sum and tally alike. */
  lemma TallyStep(rows: seq<ChaseRow>, v: Delivery -> int, col: seq<int>, n: nat, id: int)
    requires |col| == |rows| && 0 < n <= |rows|
    requires col[n - 1] == v(rows[n - 1].d)
    requires SumFor(MatchIds(rows), col, n - 1, id) == Tally(Dels(Filter(rows[..n - 1], RowOfMatch(id))), v)
    ensures SumFor(MatchIds(rows), col, n, id) == Tally(Dels(Filter(rows[..n], RowOfMatch(id))), v)
  {
    var keep := RowOfMatch(id);
    var x := rows[n - 1];
    var before := Filter(rows[..n - 1], keep);
    assert MatchIds(rows)[n - 1] == x.s.matchId;
    assert rows[..n] == rows[..n - 1] + [x];
    FilterSnoc(rows[..n - 1], x, keep);
    if x.s.matchId == id {
      calc {
        Tally(Dels(Filter(rows[..n], keep)), v);
        Tally(Dels(before + [x]), v);
        { DelsAppend(before, [x]); assert Dels([x]) == [x.d]; }
        Tally(Dels(before) + [x.d], v);
        { TallySnoc(Dels(before), x.d, v); }
        Tally(Dels(before), v) + v(x.d);
      }
    } else {
      assert Filter(rows[..n], keep) == before + [] == before;
    }
  }

  /** The number of match `id`'s rows among the first `n` is their count. */
  lemma {:induction false} CountForIsLength(rows: seq<ChaseRow>, n: nat, id: int)
    requires n <= |rows|
    ensures CountFor(MatchIds(rows), n, id) == |Filter(rows[..n], RowOfMatch(id))|
  {
    if n > 0 {
      CountForIsLength(rows, n - 1, id);
      assert rows[..n] == rows[..n - 1] + [rows[n - 1]];
      FilterSnoc(rows[..n - 1], rows[n - 1], RowOfMatch(id));
    }
  }

  /**
   * The running totals are taken over the deliveries table: when each kept
   * match has its own id, chase row `k` is the `c`-th second-innings ball of
   * its match in the deliveries table, where `c` counts its match's rows so
   * far; its running score is the runs of those first `c` balls, and its
   * wickets down the dismissals among them.
   */
  lemma RunningTotalsFromDeliveries(ss: seq<MatchSummary>, ds: seq<Delivery>, k: nat)
    requires DistinctBy(ss, SummaryKey)
    requires k < |ChaseRows(ss, ds)|
    ensures var rows := ChaseRows(ss, ds);
      var balls := Filter(ds, ChaseBallOf(rows[k].s.matchId));
      var c := CountFor(MatchIds(rows), k + 1, rows[k].s.matchId);
      && 1 <= c <= |balls|
      && rows[k].d == balls[c - 1]
      && CurrentScore(rows, k) == Tally(balls[..c], BallRuns)
      && WicketsDown(rows, k) == Tally(balls[..c], BallWicket)
  {
    var rows := ChaseRows(ss, ds);
    assert rows[k] in rows;
    var i :| 0 <= i < |ss| && ss[i] == rows[k].s;
    assert forall j :: 0 <= j < |ss| && j != i ==> SummaryKey(ss[j]) != SummaryKey(ss[i]);
    ChaseRowsOrder(ss, ds, i);
    RowIsBallOfItsMatch(rows, k, Filter(ds, ChaseBallOf(rows[k].s.matchId)));
  }

  /**
   * For any frame whose rows of match `id` are `balls`, in order: row `k` is
   * the `c`-th of them, and its running totals are their first `c` tallies.
   */
  lemma RowIsBallOfItsMatch(rows: seq<ChaseRow>, k: nat, balls: seq<Delivery>)
    requires k < |rows|
    requires Dels(Filter(rows, RowOfMatch(rows[k].s.matchId))) == balls
    ensures var c := CountFor(MatchIds(rows), k + 1, rows[k].s.matchId);
      && 1 <= c <= |balls|
      && rows[k].d == balls[c - 1]
      && CurrentScore(rows, k) == Tally(balls[..c], BallRuns)
      && WicketsDown(rows, k) == Tally(balls[..c], BallWicket)
  {
    var id := rows[k].s.matchId;
    MatchRowsSoFar(rows, k);
    var upTo := Filter(rows[..k + 1], RowOfMatch(id));
    DelsPrefix(Filter(rows, RowOfMatch(id)), |upTo|);
    CountForIsLength(rows, k + 1, id);
    SumForIsTally(rows, BallRuns, RunsScored(rows), k + 1, id);
    SumForIsTally(rows, BallWicket, Dismissals(rows), k + 1, id);
  }

  /**
   * A match's rows up to row `k` are a prefix of all its rows, ending with
   * row `k` itself.
   */
  lemma MatchRowsSoFar(rows: seq<ChaseRow>, k: nat)
    requires k < |rows|
    ensures var keep := RowOfMatch(rows[k].s.matchId);
      var upTo := Filter(rows[..k + 1], keep);
      && 1 <= |upTo| <= |Filter(rows, keep)|
      && upTo == Filter(rows, keep)[..|upTo|]
      && upTo[|upTo| - 1] == rows[k]
  {
    var keep := RowOfMatch(rows[k].s.matchId);
    FilterSplit(rows, k + 1, keep);
    assert rows[..k + 1] == rows[..k] + [rows[k]];
    FilterSnoc(rows[..k], rows[k], keep);
  }

  lemma DelsPrefix(rows: seq<ChaseRow>, c: nat)
    requires c <= |rows|
    ensures Dels(rows[..c]) == Dels(rows)[..c]
  {
  }

  // ---------------------------------------------------------------------------
  // Final dataset
  // ---------------------------------------------------------------------------

  /** `dropna`: the only column that can hold NaN here is `city`. */
  predicate Complete(e: Example)
  {
    e.x.city.Some?
  }

  /** The last filter: balls and runs still left. */
  predicate Live(e: Example)
  {
    e.x.ballsLeft > 0 && e.x.runsLeft > 0
  }

  /**
   * The labelled dataset the script fits on, as a function of the two tables:
   * the examples of the chase rows that have a city and balls and runs left.
   */
  function Dataset(ms: seq<Match>, ds: seq<Delivery>): (r: seq<Example>)
    ensures forall e :: e in r <==>
      e in Examples(ChaseRows(SelectMatches(ms, Targets(ds)), ds))
      && e.x.city.Some? && e.x.ballsLeft > 0 && e.x.runsLeft > 0
  {
    var rows := ChaseRows(SelectMatches(ms, Targets(ds)), ds);
    Filter(Filter(Examples(rows), Complete), Live)
  }

  /**
   * The script's pipeline, step by step: first-innings totals, match
   * cleaning, merge and second-innings selection, the two running sums per
   * match, the row features, then `dropna` and the final filter.
   */
  method BuildDataset(ms: seq<Match>, ds: seq<Delivery>) returns (finalDf: seq<Example>)
    ensures finalDf == Dataset(ms, ds)
    ensures forall e :: e in finalDf ==>
      e.x.city.Some? && e.x.ballsLeft > 0 && e.x.runsLeft > 0 && e.x.rrr > 0.0
  {
    var targets := ComputeTargets(ds);
    var matchDf := SelectMatches(ms, targets);
    var deliveryDf := ChaseRows(matchDf, ds);
    var currentScore := GroupCumSum(MatchIds(deliveryDf), RunsScored(deliveryDf));
    var wickets := GroupCumSum(MatchIds(deliveryDf), Dismissals(deliveryDf));
    finalDf := seq(|deliveryDf|, k requires 0 <= k < |deliveryDf| =>
                 ToExample(deliveryDf[k], currentScore[k], wickets[k]));
    assert finalDf == Examples(deliveryDf);
    finalDf := Filter(finalDf, Complete);
    finalDf := Filter(finalDf, Live);
    LiveExamplesNeedRuns(deliveryDf);
  }

  /** Every example with balls and runs left has a positive required rate. */
  lemma LiveExamplesNeedRuns(rows: seq<ChaseRow>)
    ensures forall e :: e in Examples(rows) && Live(e) ==> e.x.rrr > 0.0
  {
    forall e | e in Examples(rows) && Live(e) ensures e.x.rrr > 0.0 {
      var k :| 0 <= k < |rows| && Examples(rows)[k] == e;
      var row := rows[k];
      RowRates(row.d.battingTeam, row.d.bowlingTeam, row.s.city, row.s.target,
               CurrentScore(rows, k), row.d.over, row.d.ball, 10 - WicketsDown(rows, k));
    }
  }

  /**
   * Every example in the dataset is complete and live with a positive
   * required rate, and it is the example of a second-innings delivery of a
   * kept match: its target is that match's first-innings total, its teams and
   * balls left come from the delivery, and its label says whether the
   * delivery's batting side won.
   */
  lemma DatasetProvenance(ms: seq<Match>, ds: seq<Delivery>, e: Example)
    ensures e in Dataset(ms, ds) ==>
      e.x.city.Some? && e.x.ballsLeft > 0 && e.x.runsLeft > 0 && e.x.rrr > 0.0
    ensures e in Dataset(ms, ds) ==>
      exists k :: (0 <= k < |ChaseRows(SelectMatches(ms, Targets(ds)), ds)|
        && e == ExampleAt(ChaseRows(SelectMatches(ms, Targets(ds)), ds), k))
    ensures e in Dataset(ms, ds) ==>
      exists m, d :: (m in ms && d in ds
        && Eligible(m) && HasFirstInnings(ds, m.id)
        && d.matchId == m.id && d.inning == 2
        && e.matchId == m.id && e.x.city == m.city
        && e.x.totalRunsX == FirstInningsTotal(ds, m.id)
        && e.x.battingTeam == d.battingTeam && e.x.bowlingTeam == d.bowlingTeam
        && e.x.ballsLeft == 120 - (d.over * 6 + d.ball)
        && e.result == Label(d.battingTeam, m.winner))
  {
    if e !in Dataset(ms, ds) {
      return;
    }
    var rows := ChaseRows(SelectMatches(ms, Targets(ds)), ds);
    LiveExamplesNeedRuns(rows);
    var k :| 0 <= k < |rows| && Examples(rows)[k] == e;
    var row := rows[k];
    ChaseRowsExactly(ms, ds, row);
    var m :| m in ms && HasFirstInnings(ds, m.id) && Eligible(m) && m.id == row.d.matchId
      && row.s == MatchSummary(m.id, m.city, m.winner, FirstInningsTotal(ds, m.id));
    assert e == ExampleAt(rows, k);
    assert row.d in ds;
  }

  /**
   * Example `e` stands for the `c`-th of `balls`: its balls left and batting
   * team are that ball's, and its runs left and wickets are its target and
   * 10 less the runs and the dismissals of the first `c` balls.
   */
  predicate ScoredAt(e: Example, balls: seq<Delivery>, c: int)
  {
    && 1 <= c <= |balls|
    && e.x.runsLeft == e.x.totalRunsX - Tally(balls[..c], BallRuns)
    && e.x.wickets == 10 - Tally(balls[..c], BallWicket)
    && e.x.ballsLeft == 120 - (balls[c - 1].over * 6 + balls[c - 1].ball)
    && e.x.battingTeam == balls[c - 1].battingTeam
  }

  /**
   * When the match table has one row per id, every dataset row is scored
   * against the deliveries table: it stands for the `c`-th second-innings
   * ball of its match there, its runs left are its target less the runs of
   * the first `c` such balls, and its wickets are 10 less the dismissals
   * among them.
   */
  lemma DatasetRunningTotals(ms: seq<Match>, ds: seq<Delivery>, e: Example)
    requires DistinctBy(ms, MatchKey)
    ensures e in Dataset(ms, ds) ==>
      exists c :: ScoredAt(e, Filter(ds, ChaseBallOf(e.matchId)), c)
  {
    if e in Dataset(ms, ds) {
      var k := DatasetRow(ms, ds, e);
      SelectMatchesDistinct(ms, Targets(ds));
      ExampleRunningTotals(SelectMatches(ms, Targets(ds)), ds, k, e);
    }
  }

  /** The chase row a dataset row was built from. */
  lemma DatasetRow(ms: seq<Match>, ds: seq<Delivery>, e: Example) returns (k: nat)
    requires e in Dataset(ms, ds)
    ensures k < |ChaseRows(SelectMatches(ms, Targets(ds)), ds)|
    ensures Examples(ChaseRows(SelectMatches(ms, Targets(ds)), ds))[k] == e
  {
    var rows := ChaseRows(SelectMatches(ms, Targets(ds)), ds);
    assert e in Examples(rows);
    k :| 0 <= k < |rows| && Examples(rows)[k] == e;
  }

  /** The same, for `e`, the example of chase row `k`. */
  lemma ExampleRunningTotals(ss: seq<MatchSummary>, ds: seq<Delivery>, k: nat, e: Example)
    requires DistinctBy(ss, SummaryKey)
    requires k < |ChaseRows(ss, ds)| && Examples(ChaseRows(ss, ds))[k] == e
    ensures exists c :: ScoredAt(e, Filter(ds, ChaseBallOf(e.matchId)), c)
  {
    var rows := ChaseRows(ss, ds);
    RunningTotalsFromDeliveries(ss, ds, k);
    assert e == ToExample(rows[k], CurrentScore(rows, k), WicketsDown(rows, k));
    var c := CountFor(MatchIds(rows), k + 1, e.matchId);
    var balls := Filter(ds, ChaseBallOf(e.matchId));
    assert 1 <= c <= |balls| && rows[k].d == balls[c - 1];
    assert ScoredAt(e, balls, c);
  }

  // ---------------------------------------------------------------------------
  // Columns
  // ---------------------------------------------------------------------------

  /** The columns selected for the final frame, in order. */
  const FinalColumns: seq<string> := [
    "match_id", "batting_team", "bowling_team", "city",
    "runs_left", "balls_left", "wickets", "total_runs_x",
    "crr", "rrr", "pressure", "runs_per_wicket", "result"]

  /** The columns the one-hot encoder takes. */
  const Categorical: seq<string> := ["batting_team", "bowling_team", "city"]

  /** The columns the imputer passes through. */
  const Numeric: seq<string> := [
    "runs_left", "balls_left", "wickets", "total_runs_x",
    "crr", "rrr", "pressure", "runs_per_wicket"]

  /** An example as a row of the final frame. */
  function AsRecord(e: Example): (row: Row)
    ensures Names(row) == FinalColumns
  {
    [ ("match_id", Count(e.matchId)),
      ("batting_team", Category(e.x.battingTeam)),
      ("bowling_team", Category(e.x.bowlingTeam)),
      ("city", CategoryCell(e.x.city)),
      ("runs_left", Count(e.x.runsLeft)),
      ("balls_left", Count(e.x.ballsLeft)),
      ("wickets", Count(e.x.wickets)),
      ("total_runs_x", Count(e.x.totalRunsX)),
      ("crr", Rate(e.x.crr)),
      ("rrr", Rate(e.x.rrr)),
      ("pressure", Rate(e.x.pressure)),
      ("runs_per_wicket", Rate(e.x.runsPerWicket)),
      ("result", Count(e.result)) ]
  }

  /**
   * The classifier's input columns: the final columns without `result` (the
   * label) and then without `match_id` (the split's group key). They are
   * exactly the encoded columns followed by the passed-through ones.
   */
  lemma ModelInputColumns()
    ensures DropNames(DropNames(FinalColumns, {"result"}), {"match_id"}) == Categorical + Numeric
  {
    FinalColumnsLayout();
    DropLabelAndKey(FinalColumns, Categorical + Numeric);
  }

  /** Dropping `result` and then `match_id` from `match_id`, inputs, `result`. */
  lemma DropLabelAndKey(cols: seq<string>, inputs: seq<string>)
    requires cols == ["match_id"] + inputs + ["result"] + []
    requires forall n :: n in inputs ==> n != "result" && n != "match_id"
    ensures DropNames(DropNames(cols, {"result"}), {"match_id"}) == inputs
  {
    var first := ["match_id"] + inputs;
    DropOneName(first, "result", [], {"result"});
    assert first + [] == first;
    DropOneName([], "match_id", inputs, {"match_id"});
    assert [] + ["match_id"] + inputs == first;
  }

  /** The final columns are `match_id`, the model's inputs, then `result`. */
  lemma FinalColumnsLayout()
    ensures FinalColumns == ["match_id"] + (Categorical + Numeric) + ["result"] + []
    ensures forall n :: n in Categorical + Numeric ==> n != "result" && n != "match_id"
  {
  }

}

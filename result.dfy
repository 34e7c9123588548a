/** The balance score of pages/ResultPage.tsx: each answer earns `4 - index`
    points, the percentage of the possible `4 * (number of answers)` is rounded
    and clamped into [0, 100], and the percentage picks one of three moods. */
module ResultScore {
  import opened Wrappers
  import opened QuizData

  /** What one answer adds to `totalScore`. */
  function Points(answerIndex: int): int
  {
    4 - answerIndex
  }

  /** Sum of the answers' points, in no particular order (ScoreSumRemove shows the
      order does not matter). */
  ghost function ScoreSum(m: Answers): int
    decreases |m|
  {
    if m == map[] then 0
    else
      HasKey(m);
      var k :| k in m;
      RemoveSmaller(m, k);
      Points(m[k]) + ScoreSum(m - {k})
  }

  lemma HasKey(m: Answers)
    requires m != map[]
    ensures exists k :: k in m
  {
    if forall k :: k !in m {
      assert false;
    }
  }

  lemma RemoveSmaller(m: Answers, k: int)
    requires k in m
    ensures |m - {k}| == |m| - 1
  {
    assert (m - {k}).Keys == m.Keys - {k};
  }

  /** Any answer can be taken out first: the sum does not depend on the order in
      which `forEach` visits the values. */
  lemma {:induction false} ScoreSumRemove(m: Answers, k: int)
    requires k in m
    ensures ScoreSum(m) == Points(m[k]) + ScoreSum(m - {k})
    decreases |m|
  {
    var j :| j in m && ScoreSum(m) == Points(m[j]) + ScoreSum(m - {j});
    if j != k {
      RemoveSmaller(m, j);
      RemoveSmaller(m, k);
      ScoreSumRemove(m - {j}, k);
      ScoreSumRemove(m - {k}, j);
      assert m - {j} - {k} == m - {k} - {j};
    }
  }

  /** With every answer a valid option index (0 to 4), the total lies between
      0 and the possible score. */
  lemma {:induction false} ScoreSumBounds(m: Answers)
    requires forall k :: k in m ==> 0 <= m[k] <= 4
    ensures 0 <= ScoreSum(m) <= 4 * |m|
    decreases |m|
  {
    if m != map[] {
      HasKey(m);
      var k :| k in m;
      ScoreSumRemove(m, k);
      RemoveSmaller(m, k);
      ScoreSumBounds(m - {k});
    }
  }

  /** All answers at index 0 earn the full possible score. */
  lemma {:induction false} ScoreSumAllBest(m: Answers)
    requires forall k :: k in m ==> m[k] == 0
    ensures ScoreSum(m) == 4 * |m|
    decreases |m|
  {
    if m != map[] {
      HasKey(m);
      var k :| k in m;
      ScoreSumRemove(m, k);
      RemoveSmaller(m, k);
      ScoreSumAllBest(m - {k});
    }
  }

  /** Lowering one answer's index raises the total by exactly the difference. */
  lemma ScoreSumLower(m: Answers, k: int, v: int)
    requires k in m
    ensures ScoreSum(m[k := v]) == ScoreSum(m) + m[k] - v
  {
    ScoreSumRemove(m, k);
    ScoreSumRemove(m[k := v], k);
    assert m[k := v] - {k} == m - {k};
  }

  /** `Math.round`: the nearest integer, halves rounded up. */
  function Round(x: real): (r: int)
    ensures x - 0.5 < r as real <= x + 0.5
  {
    (x + 0.5).Floor
  }

  /** `Math.max(0, Math.min(100, x))` */
  function Clamp(x: int): (r: int)
    ensures 0 <= r <= 100
    ensures 0 <= x <= 100 ==> r == x
  {
    if x > 100 then 100 else if x < 0 then 0 else x
  }

  /** A percentage, or JavaScript's NaN for the ratio 0 / 0. */
  datatype Percentage = NaN | Percent(value: int)

  datatype Mood = Balanced | NeedsAttention | Overloaded
  {
    function Title(): string
    {
      match this
      case Balanced => "Balanced"
      case NeedsAttention => "Needs Attention"
      case Overloaded => "Overloaded"
    }
  }

  /** Mood thresholds: above 75 Balanced, above 45 Needs Attention, otherwise
      Overloaded; NaN fails both comparisons and lands on Overloaded. */
  function MoodFor(p: Percentage): (mood: Mood)
    ensures mood == Balanced <==> p.Percent? && p.value > 75
    ensures mood == NeedsAttention <==> p.Percent? && 45 < p.value <= 75
    ensures mood == Overloaded <==> p.NaN? || p.value <= 45
  {
    if p.Percent? && p.value > 75 then Balanced
    else if p.Percent? && p.value > 45 then NeedsAttention
    else Overloaded
  }

  /** The percentage of the possible score, as the page computes it. */
  function PercentageOf(total: int, count: nat): Percentage
  {
    if count == 0 then NaN
    else Percent(Clamp(Round(total as real / (4 * count) as real * 100.0)))
  }

  /** The `useMemo` result: score and mood. */
  datatype Outcome = Outcome(score: Percentage, mood: Option<Mood>)

  ghost function Evaluate(answers: Option<Answers>): Outcome
  {
    match answers
    case None => Outcome(Percent(0), None)
    case Some(m) =>
      var p := PercentageOf(ScoreSum(m), |m|);
      Outcome(p, Some(MoodFor(p)))
  }

  /** The `forEach` loop accumulating `totalScore`. */
  method TotalScore(answers: Answers) returns (total: int)
    ensures total == ScoreSum(answers)
  {
    total := 0;
    var rest := answers;
    while rest != map[]
      invariant total + ScoreSum(rest) == ScoreSum(answers)
      decreases |rest|
    {
      var k :| k in rest;
      ScoreSumRemove(rest, k);
      RemoveSmaller(rest, k);
      total := total + Points(rest[k]);
      rest := rest - {k};
    }
  }

  /** The whole `useMemo` computation. */
  method ComputeResult(answers: Option<Answers>) returns (r: Outcome)
    ensures r == Evaluate(answers)
    ensures answers.None? ==> r == Outcome(Percent(0), None)
    ensures answers.Some? && |answers.value| > 0 ==>
              r.score.Percent? && 0 <= r.score.value <= 100 && r.mood == Some(MoodFor(r.score))
  {
    if answers.None? {
      return Outcome(Percent(0), None);
    }
    var total := TotalScore(answers.value);
    var p := PercentageOf(total, |answers.value|);
    r := Outcome(p, Some(MoodFor(p)));
  }

  /** All best answers give 100 and "Balanced". */
  lemma AllBestIsBalanced(m: Answers)
    requires m != map[]
    requires forall k :: k in m ==> m[k] == 0
    ensures Evaluate(Some(m)) == Outcome(Percent(100), Some(Balanced))
  {
    ScoreSumAllBest(m);
    assert |m| > 0 by { var k :| k in m; }
    var c := 4 * |m|;
    assert (c as real / c as real) == 1.0;
  }

  lemma RoundMonotone(x: real, y: real)
    requires x <= y
    ensures Round(x) <= Round(y)
  {
  }

  lemma ClampMonotone(x: int, y: int)
    requires x <= y
    ensures Clamp(x) <= Clamp(y)
  {
  }

  /** Choosing a better (lower-index) option for one question never lowers the
      percentage. */
  lemma LowerAnswerNeverLowersScore(m: Answers, k: int, v: int)
    requires k in m && v <= m[k]
    ensures Evaluate(Some(m)).score.Percent?
    ensures Evaluate(Some(m[k := v])).score.Percent?
    ensures Evaluate(Some(m)).score.value <= Evaluate(Some(m[k := v])).score.value
  {
    ScoreSumLower(m, k, v);
    assert |m[k := v]| == |m| by { assert m[k := v].Keys == m.Keys; }
    var c := (4 * |m|) as real;
    assert c > 0.0;
    var x := ScoreSum(m) as real / c * 100.0;
    var y := ScoreSum(m[k := v]) as real / c * 100.0;
    assert ScoreSum(m) as real <= ScoreSum(m[k := v]) as real;
    assert x <= y by {
      assert ScoreSum(m) as real / c <= ScoreSum(m[k := v]) as real / c;
    }
    RoundMonotone(x, y);
    ClampMonotone(Round(x), Round(y));
  }
}

/** What the click-timing state machine promises: what each phase does with
    one click, how feedback is classified, and what holds over any sequence
    of clicks. */
module TimingGameProperties {
  import opened TimingGame

  /** The state after a sequence of clicks, applied in arrival order. */
  function Run(s: GameState, clicks: seq<Click>): GameState
    decreases |clicks|
  {
    if clicks == [] then s else Run(Step(s, clicks[0]).next, clicks[1..])
  }

  // ---------------------------------------------------------------------
  // One click, phase by phase

  lemma InitialIsIdle(stored: int)
    ensures PhaseOf(Initial(stored)) == Idle && Valid(Initial(stored))
    ensures Initial(stored).highScore == stored
  {
  }

  /** A click after the game has ended changes nothing and produces nothing. */
  lemma ClickAfterGameOverIsIgnored(s: GameState, c: Click)
    requires s.gameOver
    ensures Step(s, c) == Outcome(s, None, None, None, None)
  {
  }

  /** The first click of a run starts it; it is not scored. */
  lemma StartClick(s: GameState, c: Click)
    requires PhaseOf(s) == Idle
    ensures var o := Step(s, c);
      o.next.isPlaying && o.next.round == 1 && o.next.score == 0 &&
      o.next.lastClickTime == c.t && o.next.targetInterval == Interval(s, c.t) &&
      o.next.firstClickAfterStart && !o.next.gameOver &&
      o.next.highScore == s.highScore && o.next.combo == s.combo &&
      PhaseOf(o.next) == AwaitingSecond &&
      o.feedback == None && o.save == None && o.sound == Some(ClickSound) && o.burst == Some(c.at)
  {
  }

  /** The second click sets the target interval to the measured interval;
      score and combo are untouched. */
  lemma SecondClick(s: GameState, c: Click)
    requires PhaseOf(s) == AwaitingSecond
    ensures var o := Step(s, c);
      o.next == s.(lastClickTime := c.t, targetInterval := Interval(s, c.t),
                   firstClickAfterStart := false, round := s.round + 1) &&
      (s.lastClickTime != 0.0 ==> o.next.targetInterval == c.t - s.lastClickTime) &&
      PhaseOf(o.next) == Active &&
      o.feedback == None && o.save == None && o.sound == Some(ClickSound) && o.burst == Some(c.at)
  {
  }

  /** In active play, a click later than the target ends the run: score and
      round stay, the high score becomes the larger of the two, and a save is
      requested exactly when the score beats the old high score. */
  lemma LateClickEndsRun(s: GameState, c: Click)
    requires PhaseOf(s) == Active && Interval(s, c.t) > s.targetInterval
    ensures var o := Step(s, c);
      o.next == s.(gameOver := true, highScore := Max(s.highScore, s.score)) &&
      o.next.gameOver && PhaseOf(o.next) == Over &&
      o.next.isPlaying && !o.next.firstClickAfterStart &&
      o.next.score == s.score && o.next.round == s.round && o.next.combo == s.combo &&
      o.next.lastClickTime == s.lastClickTime && o.next.targetInterval == s.targetInterval &&
      o.next.highScore >= s.highScore && o.next.highScore >= s.score &&
      (o.next.highScore == s.highScore || o.next.highScore == s.score) &&
      (o.save.Some? <==> s.score > s.highScore) &&
      (o.save.Some? ==> o.save.value == s.score == o.next.highScore) &&
      o.feedback == None && o.sound == Some(GameOverSound) && o.burst == None
  {
  }

  /** In active play, a click no later than the target is scored: one
      feedback entry carrying the points and the position, the old round
      number as a bonus, the combo kept or reset, and the measured interval
      as the new, no larger, target. */
  lemma ScoredClick(s: GameState, c: Click)
    requires PhaseOf(s) == Active && Interval(s, c.t) <= s.targetInterval
    ensures var o := Step(s, c);
      o.feedback.Some? && o.feedback.value.at == c.at &&
      o.feedback.value.kind == FeedbackType(Deviation(Interval(s, c.t), s.targetInterval)) &&
      var p := o.feedback.value.points;
      p in {0, 100, 500, 1000} &&
      p == Points(FeedbackType(Deviation(Interval(s, c.t), s.targetInterval))) &&
      o.next.round == s.round + 1 &&
      o.next.score == s.score + p + s.round && o.next.score >= s.score &&
      (p > 0 ==> o.next.combo == s.combo + 1) && (p == 0 ==> o.next.combo == 0) &&
      o.next.lastClickTime == c.t && o.next.targetInterval == Interval(s, c.t) &&
      o.next.targetInterval <= s.targetInterval &&
      o.next.highScore == s.highScore && PhaseOf(o.next) == Active &&
      o.save == None &&
      o.sound == Some(if p > 0 then PerfectSound else ClickSound) &&
      (o.burst.Some? <==> p > 0)
  {
  }

  /** With a target of 0 the deviation is not a number, so a scored click
      is worth no points. */
  lemma ZeroTargetScoresNothing(s: GameState, c: Click)
    requires PhaseOf(s) == Active && s.targetInterval == 0.0 && Interval(s, c.t) <= 0.0
    ensures Step(s, c).feedback.Some? && Step(s, c).feedback.value.kind == TooEarly
    ensures Step(s, c).feedback.value.points == 0 && Step(s, c).next.combo == 0
  {
  }

  /** Exactly the scored clicks append a feedback entry. */
  lemma FeedbackIffScored(s: GameState, c: Click)
    ensures Step(s, c).feedback.Some? <==>
      PhaseOf(s) == Active && Interval(s, c.t) <= s.targetInterval
  {
  }

  /** Phase transitions: Over is terminal, Idle leads to AwaitingSecond,
      AwaitingSecond to Active, and Active stays Active or ends. */
  lemma PhaseTransitions(s: GameState, c: Click)
    ensures var p, q := PhaseOf(s), PhaseOf(Step(s, c).next);
      (p == Over ==> q == Over) &&
      (p == Idle ==> q == AwaitingSecond) &&
      (p == AwaitingSecond ==> q == Active) &&
      (p == Active ==> q == Active || q == Over)
  {
  }

  /** No click lowers the high score, and no click of a reachable game
      lowers the score. */
  lemma StepMonotone(s: GameState, c: Click)
    ensures Step(s, c).next.highScore >= s.highScore
    ensures Valid(s) ==> Step(s, c).next.score >= s.score
  {
  }

  lemma StepPreservesValid(s: GameState, c: Click)
    requires Valid(s)
    ensures Valid(Step(s, c).next)
  {
  }

  // ---------------------------------------------------------------------
  // Classification

  /** A smaller deviation never earns fewer points. */
  lemma PointsAntitone(d1: real, d2: real)
    requires d1 <= d2
    ensures Points(FeedbackType(Some(d1))) >= Points(FeedbackType(Some(d2)))
  {
  }

  /** PERFECT means an interval within one ten-thousandth of the target. */
  lemma PerfectWindow(interval: real, target: real)
    requires target > 0.0
    ensures FeedbackType(Deviation(interval, target)) == Perfect <==>
      Abs(interval - target) * 10000.0 <= target
  {
    var d := Deviation(interval, target).value;
    assert Abs(target) == target;
    assert d * target == Abs(interval - target) * 100.0;
    if d <= 0.01 {
      ScaleLe(d, 0.01, target);
    }
    if Abs(interval - target) * 10000.0 <= target {
      CancelLe(d, 0.01, target);
    }
  }

  lemma ScaleLe(a: real, b: real, c: real)
    requires c > 0.0 && a <= b
    ensures a * c <= b * c
  {
  }

  lemma CancelLe(a: real, b: real, c: real)
    requires c > 0.0 && a * c <= b * c
    ensures a <= b
  {
  }

  /** With timestamps that do not go backwards and a positive target, every
      scored click has a deviation between 0 and 100 percent. */
  lemma ScoredDeviationBounded(s: GameState, c: Click)
    requires PhaseOf(s) == Active && s.targetInterval > 0.0
    requires s.lastClickTime <= c.t && Interval(s, c.t) <= s.targetInterval
    ensures var d := Deviation(Interval(s, c.t), s.targetInterval);
      d.Some? && 0.0 <= d.value <= 100.0
  {
    var i := Interval(s, c.t);
    assert 0.0 <= i <= s.targetInterval;
    DeviationWithinTarget(i, s.targetInterval);
  }

  lemma DeviationWithinTarget(i: real, T: real)
    requires 0.0 <= i <= T && T > 0.0
    ensures Deviation(i, T).value <= 100.0
  {
    var d := Deviation(i, T).value;
    assert Abs(T) == T && Abs(i - T) == T - i;
    assert d * T == (T - i) * 100.0;
    PercentOfShortfall(d, i, T);
  }

  lemma PercentOfShortfall(d: real, i: real, T: real)
    requires 0.0 <= i <= T && T > 0.0 && d * T == (T - i) * 100.0
    ensures d <= 100.0
  {
  }

  // ---------------------------------------------------------------------
  // Any sequence of clicks

  lemma {:induction false} RunPreservesValid(s: GameState, clicks: seq<Click>)
    requires Valid(s)
    ensures Valid(Run(s, clicks))
    decreases |clicks|
  {
    if clicks != [] {
      StepPreservesValid(s, clicks[0]);
      RunPreservesValid(Step(s, clicks[0]).next, clicks[1..]);
    }
  }

  /** Once the game is over, further clicks change nothing. */
  lemma {:induction false} RunAfterGameOver(s: GameState, clicks: seq<Click>)
    requires s.gameOver
    ensures Run(s, clicks) == s
    decreases |clicks|
  {
    if clicks != [] {
      RunAfterGameOver(Step(s, clicks[0]).next, clicks[1..]);
    }
  }

  /** The high score never decreases; in a reachable game neither does the
      score (a restart is not a click). */
  lemma {:induction false} RunMonotone(s: GameState, clicks: seq<Click>)
    ensures Run(s, clicks).highScore >= s.highScore
    ensures Valid(s) ==> Run(s, clicks).score >= s.score
    decreases |clicks|
  {
    if clicks != [] {
      var n := Step(s, clicks[0]).next;
      StepMonotone(s, clicks[0]);
      if Valid(s) {
        StepPreservesValid(s, clicks[0]);
      }
      RunMonotone(n, clicks[1..]);
    }
  }

  /** During active play (and after it ends) the target interval never
      increases. */
  lemma {:induction false} RunTargetNonIncreasing(s: GameState, clicks: seq<Click>)
    requires PhaseOf(s) == Active || PhaseOf(s) == Over
    ensures Run(s, clicks).targetInterval <= s.targetInterval
    ensures PhaseOf(Run(s, clicks)) == Active || PhaseOf(Run(s, clicks)) == Over
    decreases |clicks|
  {
    if clicks != [] {
      var n := Step(s, clicks[0]).next;
      assert n.targetInterval <= s.targetInterval;
      RunTargetNonIncreasing(n, clicks[1..]);
    }
  }

  /** Running a sequence and then one more click is one more step. */
  lemma {:induction false} RunSnoc(s: GameState, clicks: seq<Click>, c: Click)
    ensures Run(s, clicks + [c]) == Step(Run(s, clicks), c).next
    decreases |clicks|
  {
    if clicks == [] {
      assert [] + [c] == [c];
    } else {
      assert (clicks + [c])[1..] == clicks[1..] + [c];
      RunSnoc(Step(s, clicks[0]).next, clicks[1..], c);
    }
  }

  /** n target intervals laid end to end. */
  function Span(target: real, n: nat): (span: real)
    ensures target > 0.0 ==> (span > 0.0 <==> n > 0)
    decreases n
  {
    if n == 0 then 0.0 else Span(target, n - 1) + target
  }

  lemma {:induction false} SpanIsProduct(target: real, n: nat)
    ensures Span(target, n) == n as real * target
    decreases n
  {
    if n > 0 {
      SpanIsProduct(target, n - 1);
      assert n as real * target == (n - 1) as real * target + target;
    }
  }

  /** Clicks that each land exactly one target interval after the last. */
  function PerfectClicks(last: real, target: real, n: nat, at: Position): (clicks: seq<Click>)
    ensures |clicks| == n
    ensures forall k :: 0 <= k < n ==>
      clicks[k].t == last + (k + 1) as real * target && clicks[k].at == at
    decreases n
  {
    if n == 0 then []
    else
      SpanIsProduct(target, n);
      PerfectClicks(last, target, n - 1, at) + [Click(last + Span(target, n), at)]
  }

  /** The points n perfect clicks earn when the first of them is played in
      round `round`: 1000 plus the round bonus each. */
  function PerfectPoints(round: nat, n: nat): nat
    decreases n
  {
    if n == 0 then 0 else PerfectPoints(round, n - 1) + 1000 + round + n - 1
  }

  lemma {:induction false} PerfectPointsClosedForm(round: nat, n: nat)
    ensures 2 * PerfectPoints(round, n) == 2000 * n + 2 * n * round + n * (n - 1)
    decreases n
  {
    if n > 0 {
      PerfectPointsClosedForm(round, n - 1);
    }
  }

  /** The state after n perfect clicks. */
  function AfterPerfect(s: GameState, n: nat): GameState {
    s.(round := s.round + n,
       score := s.score + PerfectPoints(s.round, n),
       combo := s.combo + n,
       lastClickTime := s.lastClickTime + Span(s.targetInterval, n))
  }

  /** One click exactly one target interval after the last scores PERFECT
      and keeps the target. */
  lemma PerfectClick(s: GameState, n: nat, at: Position)
    requires PhaseOf(s) == Active && s.targetInterval > 0.0 && s.lastClickTime > 0.0
    ensures Step(AfterPerfect(s, n), Click(s.lastClickTime + Span(s.targetInterval, n + 1), at)).next ==
      AfterPerfect(s, n + 1)
  {
    var T := s.targetInterval;
    var a := AfterPerfect(s, n);
    assert a.lastClickTime > 0.0;
    assert Interval(a, s.lastClickTime + Span(T, n + 1)) == T;
    assert Deviation(T, T) == Some(0.0);
  }

  /** Reproducing the target exactly never ends the run: each click scores
      PERFECT plus its round bonus and extends the combo. */
  lemma {:induction false} PerfectRun(s: GameState, n: nat, at: Position)
    requires PhaseOf(s) == Active && s.targetInterval > 0.0 && s.lastClickTime > 0.0
    ensures Run(s, PerfectClicks(s.lastClickTime, s.targetInterval, n, at)) == AfterPerfect(s, n)
    decreases n
  {
    if n > 0 {
      var T := s.targetInterval;
      var prefix := PerfectClicks(s.lastClickTime, T, n - 1, at);
      var c := Click(s.lastClickTime + Span(T, n), at);
      RunSnoc(s, prefix, c);
      PerfectRun(s, n - 1, at);
      PerfectClick(s, n - 1, at);
    }
  }

  // ---------------------------------------------------------------------
  // Concrete runs

  const Origin := Position(0.0, 0.0)

  function At(t: real): Click { Click(t, Origin) }

  /** Start at 500 ms, set a 1000 ms rhythm, hit it exactly, then arrive
      300 ms late: the perfect click scores 1000 plus the round bonus 2,
      and the late click ends the run with that score as the high score. */
  lemma PerfectThenLate()
    ensures var s := Run(Initial(0), [At(500.0), At(1500.0), At(2500.0)]);
      s.round == 3 && s.score == 1002 && s.targetInterval == 1000.0 && s.combo == 1 && !s.gameOver
    ensures var s := Run(Initial(0), [At(500.0), At(1500.0), At(2500.0), At(3800.0)]);
      s.gameOver && s.score == 1002 && s.highScore == 1002
  {
  }

  /** An early click is not forgiven or penalised as late: 400 ms against a
      1000 ms target is 60 percent off, scores no points, resets the combo
      and makes 400 ms the new target. */
  lemma EarlyClickScoresNothing()
    ensures var s := Run(Initial(0), [At(500.0), At(1500.0), At(1900.0)]);
      !s.gameOver && s.score == 2 && s.round == 3 && s.combo == 0 && s.targetInterval == 400.0
  {
  }

  /** A run started at timestamp 0 measures its second interval as 0 (a
      last-click time of 0 reads as "no last click"), so the target is 0
      and the next click that comes any later ends the run. */
  lemma StartAtTimeZero()
    ensures var s := Run(Initial(0), [At(0.0), At(1000.0), At(2000.0)]);
      s.gameOver && s.score == 0 && s.targetInterval == 0.0
  {
  }
}

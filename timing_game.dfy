/** The click-timing state machine of the hypercasual timing game.

    The player taps once to start a run, taps a second time to set the
    rhythm (the interval between the two taps), and must then reproduce the
    current rhythm on every later tap. A tap that arrives later than the
    target interval ends the run; any other tap is scored by how close it
    came, and the measured interval becomes the next target.

    Timestamps are exact reals (the browser uses double-precision
    milliseconds from a monotonic clock). The persisted high score is an
    input; writing it back is returned as a save request.
 */
module TimingGame {

  datatype Option<T> = None | Some(value: T)

  /** The four feedback texts; each one also fixes its colour class. */
  datatype Label = Perfect | Amazing | Good | TooEarly

  /** A position on the play area, relative to its top-left corner. */
  datatype Position = Position(x: real, y: real)

  /** One entry of the on-screen feedback list. */
  datatype Feedback = Feedback(kind: Label, points: nat, at: Position)

  /** The three sounds the game asks the audio layer to play. */
  datatype Sound = ClickSound | PerfectSound | GameOverSound

  /** One activation: its timestamp and where on the play area it landed. */
  datatype Click = Click(t: real, at: Position)

  /** The game-state record. */
  datatype GameState = GameState(
    isPlaying: bool,
    round: nat,
    score: nat,
    lastClickTime: real,
    targetInterval: real,
    gameOver: bool,
    firstClickAfterStart: bool,
    highScore: int,
    combo: nat)

  /** The four phases, in the order the click handler tests them. */
  datatype Phase = Over | Idle | AwaitingSecond | Active

  /** Everything one click produces: the next state, the feedback entry it
      appends (if any), the sound it requests, the high score it asks to be
      saved, and where it spawns a particle burst. */
  datatype Outcome = Outcome(
    next: GameState,
    feedback: Option<Feedback>,
    sound: Option<Sound>,
    save: Option<int>,
    burst: Option<Position>)

  function Abs(r: real): real { if r < 0.0 then -r else r }

  function Max(a: int, b: int): int { if a < b then b else a }

  function ToSeq<T>(o: Option<T>): seq<T> { if o.Some? then [o.value] else [] }

  /** The state a fresh game (or a restart) begins in, given the high score
      read from storage. */
  function Initial(stored: int): GameState {
    GameState(
      isPlaying := false,
      round := 0,
      score := 0,
      lastClickTime := 0.0,
      targetInterval := 0.0,
      gameOver := false,
      firstClickAfterStart := true,
      highScore := stored,
      combo := 0)
  }

  function PhaseOf(s: GameState): Phase {
    if s.gameOver then Over
    else if !s.isPlaying then Idle
    else if s.firstClickAfterStart then AwaitingSecond
    else Active
  }

  /** The interval the handler measures: a last-click time of 0 counts as
      "no last click" and yields 0. */
  function Interval(s: GameState, t: real): (interval: real)
    ensures s.lastClickTime != 0.0 ==> s.lastClickTime + interval == t
    ensures s.lastClickTime == 0.0 ==> interval == 0.0
  {
    if s.lastClickTime != 0.0 then t - s.lastClickTime else 0.0
  }

  /** The deviation of an interval from the target, as a percentage of the
      target. None stands for the NaN or infinite value the browser computes
      when the target is 0. */
  function Deviation(interval: real, target: real): (d: Option<real>)
    ensures d.None? <==> target == 0.0
    ensures d.Some? ==> 0.0 <= d.value
    ensures d.Some? ==> (d.value == 0.0 <==> interval == target)
    ensures d.Some? ==> d.value * Abs(target) == Abs(interval - target) * 100.0
  {
    if target == 0.0 then None
    else
      var ratio := (interval - target) / target;
      assert ratio * target == interval - target;
      assert Abs(ratio) * Abs(target) == Abs(interval - target);
      Some(Abs(ratio * 100.0))
  }

  /** The feedback kind for a deviation: the first threshold that the
      deviation does not exceed wins; a deviation that is not a finite number
      fails every comparison. */
  function FeedbackType(d: Option<real>): (kind: Label)
    ensures kind == Perfect <==> d.Some? && d.value <= 0.01
    ensures kind == Amazing <==> d.Some? && 0.01 < d.value <= 0.1
    ensures kind == Good <==> d.Some? && 0.1 < d.value <= 1.0
    ensures kind == TooEarly <==> d.None? || 1.0 < d.value
  {
    match d
    case None => TooEarly
    case Some(v) =>
      if v <= 0.01 then Perfect
      else if v <= 0.1 then Amazing
      else if v <= 1.0 then Good
      else TooEarly
  }

  /** The points a kind is worth. */
  function Points(kind: Label): (p: nat)
    ensures p in {0, 100, 500, 1000}
    ensures p == 0 <==> kind == TooEarly
    ensures kind == Perfect <==> p == 1000
    ensures kind == Amazing <==> p == 500
    ensures kind == Good <==> p == 100
  {
    match kind
    case Perfect => 1000
    case Amazing => 500
    case Good => 100
    case TooEarly => 0
  }

  /** The pure specification of one click: phases tested in order. */
  function Step(s: GameState, c: Click): Outcome {
    var interval := Interval(s, c.t);
    if s.gameOver then
      Outcome(s, None, None, None, None)
    else if !s.isPlaying then
      Outcome(
        s.(isPlaying := true, round := 1, score := 0, lastClickTime := c.t,
           targetInterval := interval, firstClickAfterStart := true),
        None, Some(ClickSound), None, Some(c.at))
    else if s.firstClickAfterStart then
      Outcome(
        s.(lastClickTime := c.t, targetInterval := interval,
           firstClickAfterStart := false, round := s.round + 1),
        None, Some(ClickSound), None, Some(c.at))
    else if interval > s.targetInterval then
      Outcome(
        s.(gameOver := true, highScore := Max(s.highScore, s.score)),
        None, Some(GameOverSound),
        if s.score > s.highScore then Some(s.score) else None,
        None)
    else
      var kind := FeedbackType(Deviation(interval, s.targetInterval));
      var points := Points(kind);
      Outcome(
        s.(round := s.round + 1, score := s.score + points + s.round,
           combo := if points > 0 then s.combo + 1 else 0,
           lastClickTime := c.t, targetInterval := interval),
        Some(Feedback(kind, points, c.at)),
        Some(if points > 0 then PerfectSound else ClickSound),
        None,
        if points > 0 then Some(c.at) else None)
  }

  /** An invariant that every state reachable from Initial by clicks
      satisfies (it does not pin the score of an active state). */
  predicate Valid(s: GameState) {
    (PhaseOf(s) == Idle ==>
       s.round == 0 && s.score == 0 && s.combo == 0 && s.firstClickAfterStart &&
       s.lastClickTime == 0.0 && s.targetInterval == 0.0) &&
    (PhaseOf(s) == AwaitingSecond ==>
       s.round == 1 && s.score == 0 && s.combo == 0 && s.targetInterval == 0.0) &&
    (PhaseOf(s) == Active ==> s.round >= 2) &&
    (PhaseOf(s) == Over ==>
       s.isPlaying && !s.firstClickAfterStart && s.round >= 2 && s.highScore >= s.score)
  }

  /** The game component: its state record, the feedback list and the
      particle bursts on screen. */
  class TimingGame {
    var isPlaying: bool
    var round: nat
    var score: nat
    var lastClickTime: real
    var targetInterval: real
    var gameOver: bool
    var firstClickAfterStart: bool
    var highScore: int
    var combo: nat
    /** Feedback entries on screen, oldest first. */
    var feedbacks: seq<Feedback>
    /** Positions of the particle bursts on screen, oldest first; each burst
        is eight particles fanned out around its position. */
    var bursts: seq<Position>

    function State(): GameState
      reads this
    {
      GameState(isPlaying, round, score, lastClickTime, targetInterval,
                gameOver, firstClickAfterStart, highScore, combo)
    }

    constructor (stored: int)
      ensures State() == Initial(stored) && Valid(State())
      ensures feedbacks == [] && bursts == []
    {
      isPlaying, round, score := false, 0, 0;
      lastClickTime, targetInterval := 0.0, 0.0;
      gameOver, firstClickAfterStart := false, true;
      highScore, combo := stored, 0;
      feedbacks, bursts := [], [];
    }

    /** Classifies a deviation, appends its feedback entry and returns its
        points. */
    method AddFeedback(deviation: Option<real>, at: Position) returns (points: nat)
      modifies this`feedbacks
      ensures points in {0, 100, 500, 1000}
      ensures points == Points(FeedbackType(deviation))
      ensures feedbacks == old(feedbacks) + [Feedback(FeedbackType(deviation), points, at)]
    {
      var kind := FeedbackType(deviation);
      points := Points(kind);
      feedbacks := feedbacks + [Feedback(kind, points, at)];
    }

    /** The click handler. */
    method HandleClick(t: real, at: Position) returns (sound: Option<Sound>, save: Option<int>)
      modifies this
      ensures Step(old(State()), Click(t, at)).next == State()
      ensures Step(old(State()), Click(t, at)).sound == sound
      ensures Step(old(State()), Click(t, at)).save == save
      ensures feedbacks == old(feedbacks) + ToSeq(Step(old(State()), Click(t, at)).feedback)
      ensures bursts == old(bursts) + ToSeq(Step(old(State()), Click(t, at)).burst)
      ensures old(gameOver) ==> State() == old(State()) && feedbacks == old(feedbacks) && bursts == old(bursts)
      ensures highScore >= old(highScore) && |feedbacks| <= |old(feedbacks)| + 1
      ensures Valid(old(State())) ==> Valid(State())
    {
      if gameOver {
        return None, None;
      }
      var interval := Interval(State(), t);

      if !isPlaying {
        isPlaying, round, score := true, 1, 0;
        lastClickTime, targetInterval := t, interval;
        firstClickAfterStart := true;
        bursts := bursts + [at];
        return Some(ClickSound), None;
      }

      if firstClickAfterStart {
        lastClickTime, targetInterval := t, interval;
        firstClickAfterStart := false;
        round := round + 1;
        bursts := bursts + [at];
        return Some(ClickSound), None;
      }

      if interval > targetInterval {
        var finalScore := score;
        save := None;
        if finalScore > highScore {
          save := Some(finalScore);
        }
        gameOver := true;
        highScore := Max(highScore, finalScore);
        return Some(GameOverSound), save;
      }

      var deviation := Deviation(interval, targetInterval);
      var points := AddFeedback(deviation, at);
      if points > 0 {
        sound := Some(PerfectSound);
        bursts := bursts + [at];
      } else {
        sound := Some(ClickSound);
      }
      save := None;
      score := score + points + round;
      round := round + 1;
      combo := if points > 0 then combo + 1 else 0;
      lastClickTime, targetInterval := t, interval;
    }

    /** The restart button: back to the initial state with the high score
        read again from storage, and nothing left on screen. */
    method Restart(stored: int)
      modifies this
      ensures State() == Initial(stored) && Valid(State()) && PhaseOf(State()) == Idle
      ensures feedbacks == [] && bursts == []
    {
      isPlaying, round, score := false, 0, 0;
      lastClickTime, targetInterval := 0.0, 0.0;
      gameOver, firstClickAfterStart := false, true;
      highScore := stored;
      combo := 0;
      feedbacks, bursts := [], [];
    }
  }
}

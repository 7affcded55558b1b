/**
 * The quiz page's session engine: the state the page keeps and the
 * handlers that change it. Each handler is a pure transition over a
 * `State` value, and the class `QuizSession` holds the same state in
 * fields that its methods assign, with each method proved to perform
 * its transition. Randomness comes in as `Rolls`; the value the browser
 * parses from the answer box comes in as `entered` (`None` for NaN).
 */
module Session {
  import opened Wrappers
  import opened Problems
  import Auth

  datatype Powerup = TimeFreeze | SkipQuestion | DoublePoints

  /** The three power-up counters. */
  datatype Powerups = Powerups(timeFreeze: nat, skipQuestion: nat, doublePoints: nat)
  {
    function Count(k: Powerup): (n: nat)
    {
      match k
      case TimeFreeze => timeFreeze
      case SkipQuestion => skipQuestion
      case DoublePoints => doublePoints
    }

    /** One use of `k`: that counter drops by one and no other changes. */
    function Spend(k: Powerup): (p: Powerups)
      requires Count(k) > 0
      ensures p.Count(k) == Count(k) - 1
      ensures forall j :: j != k ==> p.Count(j) == Count(j)
    {
      match k
      case TimeFreeze => this.(timeFreeze := timeFreeze - 1)
      case SkipQuestion => this.(skipQuestion := skipQuestion - 1)
      case DoublePoints => this.(doublePoints := doublePoints - 1)
    }

    /** The level-up reward: one more of each. */
    function GrantEach(): (p: Powerups)
      ensures forall k :: p.Count(k) == Count(k) + 1
    {
      Powerups(timeFreeze + 1, skipQuestion + 1, doublePoints + 1)
    }
  }

  datatype Effects = Effects(doublePoints: bool, matrixRainbow: bool)

  datatype LastResult = NoResult | Correct | Wrong

  /** Every piece of page state the handlers read or write. */
  datatype State = State(
    gameStarted: bool,
    currentTopic: Option<string>,
    score: nat,
    lives: int,
    gameOver: bool,
    currentProblem: Option<Problem>,
    combo: nat,
    highScore: nat,
    difficulty: Difficulty,
    streak: nat,
    lastResult: LastResult,
    powerups: Powerups,
    activeEffects: Effects,
    level: nat,
    xp: nat,
    timeLeft: int)

  /** The state the page starts in. */
  function Initial(): (s: State)
    ensures Invariant(s)
  {
    State(false, None, 0, 3, false, None, 0, 0, Normal, 0, NoResult,
          Powerups(3, 2, 1), Effects(false, false), 1, 0, 60)
  }

  /**
   * What holds of every reachable state: combo and streak move together,
   * the level is at least 1, the timer stays within 0..60, the game is over
   * only once no lives are left, and a problem is shown exactly when a
   * known topic is selected, belongs to that topic, and its expected answer
   * solves the question it shows.
   */
  ghost predicate Invariant(s: State)
  {
    && s.combo == s.streak
    && s.level >= 1
    && 0 <= s.timeLeft <= 60
    && (s.gameOver ==> s.lives <= 0)
    && (s.currentProblem.Some? <==> s.currentTopic.Some? && IsKnownTopic(s.currentTopic.value))
    && (s.currentProblem.Some? ==>
          && TopicOf(s.currentProblem.value.statement) == s.currentTopic.value
          && Solves(s.currentProblem.value.statement, s.currentProblem.value.answer)
          && s.currentProblem.value.answer > 0.0)
  }

  /** `generateProblem(currentTopic!)`: a null topic matches no case. */
  function NextProblem(topic: Option<string>, d: Difficulty, r: Rolls): (p: Option<Problem>)
    requires ValidRolls(r)
    ensures p.Some? <==> topic.Some? && IsKnownTopic(topic.value)
    ensures p.Some? ==> TopicOf(p.value.statement) == topic.value && Solves(p.value.statement, p.value.answer)
    ensures p.Some? ==> p.value.answer > 0.0
  {
    match topic
    case None => None
    case Some(t) => GenerateProblem(t, d, r)
  }

  /** The points for a correct answer, as the source writes them, doubled by the effect. */
  function Points(newCombo: nat, m: nat, doubled: bool): (points: nat)
  {
    var base := (10.0 * (1.0 + newCombo as real * 0.1) * m as real).Floor;
    if doubled then base * 2 else base
  }

  /**
   * Over exact reals, `floor(10 * (1 + newCombo * 0.1) * m)` is the whole
   * number (10 + newCombo) * m, so a correct answer is worth that, or
   * twice that under double points.
   */
  lemma PointsClosedForm(newCombo: nat, m: nat, doubled: bool)
    ensures Points(newCombo, m, doubled) == (if doubled then 2 else 1) * (10 + newCombo) * m
  {
    var whole := (10 + newCombo) * m;
    TenPercentSteps(newCombo);
    RealOfProduct(10 + newCombo, m);
    assert 10.0 * (1.0 + newCombo as real * 0.1) * m as real == whole as real;
    assert (whole as real).Floor == whole;
  }

  lemma TenPercentSteps(c: nat)
    ensures 10.0 * (1.0 + c as real * 0.1) == (10 + c) as real
  {
  }

  lemma RealOfProduct(a: int, b: int)
    ensures (a * b) as real == a as real * b as real
  {
  }

  /** `handleTopicSelect`: select the topic and generate its first problem; the timer is left alone. */
  function TopicSelected(s: State, topic: string, r: Rolls): (t: State)
    requires ValidRolls(r)
    requires Invariant(s)
    ensures Invariant(t)
    ensures t.currentTopic == Some(topic)
    ensures t.timeLeft == s.timeLeft && t.score == s.score && t.lives == s.lives && t.combo == s.combo
    ensures t.streak == s.streak && t.gameOver == s.gameOver && t.level == s.level && t.xp == s.xp
  {
    s.(currentTopic := Some(topic), currentProblem := GenerateProblem(topic, s.difficulty, r))
  }

  /** The topic buttons: every one of them is marked available. */
  const Topics: seq<(string, bool)> :=
    [("Addition", true), ("Subtraction", true), ("Multiplication", true),
     ("Division", true), ("Algebra", true), ("Geometry", true)]

  /** A click on topic button `i`: only an available topic is selected. */
  function TopicClicked(s: State, i: nat, r: Rolls): (t: State)
    requires i < |Topics| && ValidRolls(r)
    requires Invariant(s)
    ensures Invariant(t)
    ensures t.currentTopic == Some(Topics[i].0) && t.currentProblem.Some?
  {
    if Topics[i].1 then TopicSelected(s, Topics[i].0, r) else s
  }

  /** `Number(userAnswer) === currentProblem.answer`, with no problem always wrong. */
  predicate IsCorrect(problem: Option<Problem>, entered: Option<real>)
  {
    problem.Some? && entered == Some(problem.value.answer)
  }

  /** `handleAnswerSubmit`. */
  function AnswerSubmitted(s: State, entered: Option<real>, r: Rolls): (t: State)
    requires ValidRolls(r)
    requires Invariant(s)
    ensures Invariant(t)
  {
    if IsCorrect(s.currentProblem, entered) then Rewarded(s, r) else Penalised(s)
  }

  /** The points a correct answer earns in state `s`. */
  function Gain(s: State): (points: nat)
  {
    Points(s.combo + 1, Multiplier(s.difficulty), s.activeEffects.doublePoints)
  }

  /** The correct-answer branch of `handleAnswerSubmit`. */
  function Rewarded(s: State, r: Rolls): (t: State)
    requires ValidRolls(r)
    requires Invariant(s)
    ensures Invariant(t)
  {
    var points := Gain(s);
    Levelled(Scored(s, points), points).(currentProblem := NextProblem(s.currentTopic, s.difficulty, r))
  }

  /** Combo and streak step up, the result is marked correct and the points are scored. */
  function Scored(s: State, points: nat): (t: State)
  {
    s.(combo := s.combo + 1, streak := s.streak + 1, lastResult := Correct, score := s.score + points)
  }

  /** The points also go to xp; reaching level * 100 gains one level and a power-up of each kind. */
  function Levelled(s: State, points: nat): (t: State)
  {
    var newXp := s.xp + points;
    var xpNeeded := s.level * 100;
    if newXp >= xpNeeded
    then s.(level := s.level + 1, xp := newXp - xpNeeded, powerups := s.powerups.GrantEach())
    else s.(xp := newXp)
  }

  /** The wrong-answer branch of `handleAnswerSubmit`. */
  function Penalised(s: State): (t: State)
    requires Invariant(s)
    ensures Invariant(t)
  {
    var t := s.(combo := 0, streak := 0, lastResult := Wrong, lives := s.lives - 1);
    if s.lives <= 1 then t.(highScore := Max(s.highScore, s.score), gameOver := true) else t
  }

  /** `activatePowerup`: nothing happens when the counter is 0. The 30-second expiry is `DoublePointsExpired`. */
  function PowerupActivated(s: State, k: Powerup, r: Rolls): (t: State)
    requires ValidRolls(r)
    requires Invariant(s)
    ensures Invariant(t)
  {
    if s.powerups.Count(k) > 0 then
      var t := s.(powerups := s.powerups.Spend(k));
      match k
      case TimeFreeze => t.(timeLeft := 60)
      case SkipQuestion => t.(currentProblem := NextProblem(s.currentTopic, s.difficulty, r))
      case DoublePoints => t.(activeEffects := s.activeEffects.(doublePoints := true))
    else
      s
  }

  /** The delayed callback scheduled by a double-points activation. */
  function DoublePointsExpired(s: State): (t: State)
    requires Invariant(s)
    ensures Invariant(t)
  {
    s.(activeEffects := s.activeEffects.(doublePoints := false))
  }

  /** `resetGame`: back to the welcome screen with a fresh score and three lives. */
  function GameReset(s: State): (t: State)
    requires Invariant(s)
    ensures Invariant(t)
  {
    s.(gameStarted := false, currentTopic := None, score := 0, lives := 3, gameOver := false, currentProblem := None)
  }

  /** `currentTopic` is truthy: a topic is set and its name is not empty. */
  predicate HasTopic(s: State)
  {
    s.currentTopic.Some? && s.currentTopic.value != ""
  }

  /** The countdown runs only while a topic is selected and the game is not over. */
  predicate TimerRunning(s: State)
  {
    HasTopic(s) && !s.gameOver
  }

  /** One tick of the one-second countdown. */
  function Ticked(s: State): (t: State)
    requires Invariant(s)
    ensures Invariant(t)
  {
    if !TimerRunning(s) then s
    else if s.timeLeft <= 0 then s.(lives := s.lives - 1, timeLeft := 60)
    else s.(timeLeft := s.timeLeft - 1)
  }

  /** The difficulty selector: the current problem is kept. */
  function DifficultyChanged(s: State, d: Difficulty): (t: State)
    requires Invariant(s)
    ensures Invariant(t)
  {
    s.(difficulty := d)
  }

  /** The "ENTER THE MATRIX" button. */
  function EnteredGame(s: State): (t: State)
    requires Invariant(s)
    ensures Invariant(t)
  {
    s.(gameStarted := true)
  }

  // ---------------------------------------------------------------------
  // Properties of the transitions
  // ---------------------------------------------------------------------

  /**
   * A correct answer raises combo and streak by exactly one, scores
   * (10 + newCombo) * m points, twice that under double points, and
   * marks the result correct; lives and game-over are untouched.
   */
  lemma CorrectAnswerScores(s: State, entered: Option<real>, r: Rolls)
    requires ValidRolls(r) && Invariant(s) && IsCorrect(s.currentProblem, entered)
    ensures var t := AnswerSubmitted(s, entered, r);
      var m := Multiplier(s.difficulty);
      && t.combo == s.combo + 1 && t.streak == s.streak + 1 && t.combo == t.streak
      && t.score == s.score + (if s.activeEffects.doublePoints then 2 else 1) * (10 + t.combo) * m
      && t.lastResult == Correct
      && t.lives == s.lives && t.gameOver == s.gameOver && t.highScore == s.highScore
      && t.currentTopic == s.currentTopic && t.currentProblem.Some?
  {
    PointsClosedForm(s.combo + 1, Multiplier(s.difficulty), s.activeEffects.doublePoints);
  }

  /**
   * Levelling: when the xp after the points reaches level * 100, the level
   * rises by exactly one, the threshold is subtracted and every power-up
   * counter grows by one; otherwise only xp grows. One answer never gains
   * more than one level.
   */
  lemma CorrectAnswerLevels(s: State, entered: Option<real>, r: Rolls)
    requires ValidRolls(r) && Invariant(s) && IsCorrect(s.currentProblem, entered)
    ensures var t := AnswerSubmitted(s, entered, r);
      var newXp := s.xp + (t.score - s.score);
      && (if newXp >= s.level * 100
          then t.level == s.level + 1 && t.xp == newXp - s.level * 100
               && forall k :: t.powerups.Count(k) == s.powerups.Count(k) + 1
          else t.level == s.level && t.xp == newXp && t.powerups == s.powerups)
      && s.level <= t.level <= s.level + 1
  {
  }

  /**
   * The bound the level-up rule keeps: xp stays below level * 100. It holds
   * because a combo of c can only be reached after earning at least
   * 10c + c(c+1)/2 xp in all, counting the 100 * l spent on each level l
   * already passed; a combo long enough for one answer to overshoot the next
   * threshold needs more levels than the player has.
   */
  ghost predicate XpBounded(s: State)
  {
    XpWithin(s.xp, s.level, s.combo)
  }

  /** The xp bound on the three numbers it concerns. */
  ghost predicate XpWithin(xp: int, level: int, combo: int)
  {
    && level >= 1
    && 0 <= xp < 100 * level
    && combo >= 0
    && 20 * combo + combo * (combo + 1) <= 2 * xp + 100 * level * (level - 1)
  }

  lemma InitialXpBounded()
    ensures XpBounded(Initial())
  {
  }

  /** A correct answer is worth between 10 + c and 6 * (10 + c) points. */
  lemma PointsBounds(f: nat, c: nat, m: nat)
    requires 1 <= f <= 2 && 1 <= m <= 3
    ensures 10 + c <= f * (10 + c) * m <= 6 * (10 + c)
  {
    var base := 10 + c;
    assert base <= f * base <= 2 * base;
    assert f * base <= f * base * m <= f * base * 3;
  }

  /** A combo of a whose next answer could be worth more than 100 * (L + 1) has earned at least 50 * L * (L + 1) xp. */
  lemma LongComboNeedsLevels(a: nat, level: nat)
    requires level >= 1 && 6 * (10 + a + 1) > 100 * (level + 1)
    ensures 20 * a + a * (a + 1) >= 100 * level * (level + 1)
  {
    var b := 16 * level + 6;
    assert a >= b;
    MulMono(b, b + 21, a, a + 21);
    assert b * (b + 21) == 256 * level * level + 528 * level + 162;
    assert 100 * level * (level + 1) == 100 * level * level + 100 * level;
    assert 20 * a + a * (a + 1) == a * (a + 21);
  }

  lemma MulMono(x: nat, y: nat, u: nat, v: nat)
    requires x <= u && y <= v
    ensures x * y <= u * v
  {
    assert x * y <= u * y;
    assert u * y <= u * v;
  }

  lemma LevelUpSum(level: nat)
    ensures 100 * (level + 1) * level - 200 * level == 100 * level * (level - 1)
  {
  }

  /**
   * The arithmetic of one correct answer: from combo a, `p` points at factor
   * f and multiplier m, with the level-up rule applied, the bound still holds.
   */
  lemma XpStep(xp: nat, level: nat, a: nat, f: nat, m: nat, p: nat)
    requires XpWithin(xp, level, a) && 1 <= f <= 2 && 1 <= m <= 3 && p == f * (10 + a + 1) * m
    ensures xp + p >= 100 * level ==> XpWithin(xp + p - 100 * level, level + 1, a + 1)
    ensures xp + p < 100 * level ==> XpWithin(xp + p, level, a + 1)
  {
    var c := a + 1;
    PointsBounds(f, c, m);
    assert 20 * c + c * (c + 1) == 20 * a + a * (a + 1) + 2 * (10 + c);
    if xp + p >= 100 * level {
      if 6 * (10 + c) > 100 * (level + 1) {
        LongComboNeedsLevels(a, level);
        assert false;
      }
      LevelUpSum(level);
    }
  }

  /** A correct answer keeps the xp bound, so after a level-up xp is again below the new threshold. */
  lemma CorrectAnswerKeepsXpBounded(s: State, entered: Option<real>, r: Rolls)
    requires ValidRolls(r) && Invariant(s) && XpBounded(s) && IsCorrect(s.currentProblem, entered)
    ensures XpBounded(AnswerSubmitted(s, entered, r))
  {
    CorrectAnswerScores(s, entered, r);
    CorrectAnswerLevels(s, entered, r);
    var t := AnswerSubmitted(s, entered, r);
    var f := if s.activeEffects.doublePoints then 2 else 1;
    XpStep(s.xp, s.level, s.combo, f, Multiplier(s.difficulty), t.score - s.score);
  }

  /** A wrong answer zeroes the combo and leaves xp and level alone. */
  lemma WrongAnswerKeepsXpBounded(s: State, entered: Option<real>, r: Rolls)
    requires ValidRolls(r) && Invariant(s) && XpBounded(s) && !IsCorrect(s.currentProblem, entered)
    ensures XpBounded(AnswerSubmitted(s, entered, r))
  {
    WrongAnswerCostsALife(s, entered, r);
    assert 0 <= 100 * s.level * (s.level - 1);
  }

  /** Power-ups and topic selection leave xp, level and combo alone. */
  lemma SelectionsKeepXpBounded(s: State, k: Powerup, topic: string, r: Rolls)
    requires ValidRolls(r) && Invariant(s) && XpBounded(s)
    ensures XpBounded(PowerupActivated(s, k, r))
    ensures XpBounded(TopicSelected(s, topic, r))
  {
  }

  /** Reset, the tick, difficulty changes, the expiry and entering the game leave xp, level and combo alone. */
  lemma ControlsKeepXpBounded(s: State, d: Difficulty)
    requires Invariant(s) && XpBounded(s)
    ensures XpBounded(GameReset(s))
    ensures XpBounded(Ticked(s))
    ensures XpBounded(DifficultyChanged(s, d))
    ensures XpBounded(DoublePointsExpired(s))
    ensures XpBounded(EnteredGame(s))
  {
  }

  /**
   * A wrong answer (a different number, non-numeric input, or no problem)
   * zeroes combo and streak, costs exactly one life, keeps the score and
   * the problem, and ends the game exactly when at most one life was left,
   * recording the high score.
   */
  lemma WrongAnswerCostsALife(s: State, entered: Option<real>, r: Rolls)
    requires ValidRolls(r) && Invariant(s) && !IsCorrect(s.currentProblem, entered)
    ensures var t := AnswerSubmitted(s, entered, r);
      && t.combo == 0 && t.streak == 0 && t.lives == s.lives - 1 && t.lastResult == Wrong
      && t.score == s.score && t.currentProblem == s.currentProblem
      && t.level == s.level && t.xp == s.xp && t.powerups == s.powerups
      && (if s.lives <= 1
          then t.gameOver && t.highScore == Max(s.highScore, s.score) && t.highScore >= s.score
          else t.gameOver == s.gameOver && t.highScore == s.highScore)
  {
  }

  /** The empty answer box parses to 0, which no generated problem expects. */
  lemma EmptyInputIsWrong(s: State)
    requires Invariant(s) && s.currentProblem.Some?
    ensures !IsCorrect(s.currentProblem, Some(0.0))
  {
  }

  /**
   * A power-up with a zero counter changes nothing; otherwise exactly its
   * counter drops by one and its effect is applied, and nothing else
   * changes (so score, lives, combo and progress are never touched).
   */
  lemma PowerupSpendsOne(s: State, k: Powerup, r: Rolls)
    requires ValidRolls(r) && Invariant(s)
    ensures var t := PowerupActivated(s, k, r);
      && (s.powerups.Count(k) == 0 ==> t == s)
      && (s.powerups.Count(k) > 0 ==>
            && t.powerups.Count(k) == s.powerups.Count(k) - 1
            && (forall j :: j != k ==> t.powerups.Count(j) == s.powerups.Count(j))
            && var u := s.(powerups := s.powerups.Spend(k));
            && (k == TimeFreeze ==> t == u.(timeLeft := 60))
            && (k == SkipQuestion ==> t == u.(currentProblem := NextProblem(s.currentTopic, s.difficulty, r)))
            && (k == DoublePoints ==> t == u.(activeEffects := s.activeEffects.(doublePoints := true))))
  {
  }

  /** Activating double points and letting it expire leaves the flag cleared, whatever it was. */
  lemma DoublePointsExpire(s: State, r: Rolls)
    requires ValidRolls(r) && Invariant(s) && s.powerups.doublePoints > 0
    ensures PowerupActivated(s, DoublePoints, r).activeEffects.doublePoints
    ensures !DoublePointsExpired(PowerupActivated(s, DoublePoints, r)).activeEffects.doublePoints
  {
  }

  /**
   * Reset clears topic, problem and score, restores three lives and leaves
   * the game; combo, streak, level, xp, power-ups, high score, timer,
   * difficulty and effects carry over.
   */
  lemma ResetKeepsProgress(s: State)
    requires Invariant(s)
    ensures var t := GameReset(s);
      && t.currentTopic == None && t.currentProblem == None && t.score == 0 && t.lives == 3
      && !t.gameOver && !t.gameStarted
      && t.combo == s.combo && t.streak == s.streak && t.level == s.level && t.xp == s.xp
      && t.powerups == s.powerups && t.highScore == s.highScore && t.timeLeft == s.timeLeft
      && t.difficulty == s.difficulty && t.activeEffects == s.activeEffects
  {
  }

  /**
   * A running tick counts down; at zero it costs a life and restarts the
   * timer at 60. It never ends the game, so lives can run out while play
   * goes on.
   */
  lemma TickCountsDown(s: State)
    requires Invariant(s) && TimerRunning(s)
    ensures var t := Ticked(s);
      && t.gameOver == s.gameOver
      && (s.timeLeft > 0 ==> t == s.(timeLeft := s.timeLeft - 1))
      && (s.timeLeft <= 0 ==> t == s.(lives := s.lives - 1, timeLeft := 60))
  {
  }

  lemma TimeoutCanExhaustLivesWithoutGameOver()
    ensures var s := Initial().(currentTopic := Some("Algebra"), lives := 1, timeLeft := 0,
                               currentProblem := Some(Problem(SquareOf(1), 1.0)));
      Invariant(s) && Ticked(s).lives == 0 && !Ticked(s).gameOver
  {
  }

  /**
   * With no lives left the game goes on: the next timeout takes lives below
   * zero and the playing screen is still the one shown.
   */
  lemma TimeoutCanDriveLivesNegative(s: State)
    requires Invariant(s) && TimerRunning(s) && s.gameStarted && s.lives <= 0 && s.timeLeft == 0
    ensures Ticked(s).lives == s.lives - 1 < 0
    ensures !Ticked(s).gameOver && ScreenOf(Ticked(s), false, true) == Playing
  {
  }

  /** Outside reset, no transition gives back a life. */
  lemma LivesNeverRise(s: State, entered: Option<real>, k: Powerup, topic: string, d: Difficulty, r: Rolls)
    requires ValidRolls(r) && Invariant(s)
    ensures AnswerSubmitted(s, entered, r).lives <= s.lives
    ensures PowerupActivated(s, k, r).lives == s.lives
    ensures Ticked(s).lives <= s.lives
    ensures TopicSelected(s, topic, r).lives == s.lives
    ensures DifficultyChanged(s, d).lives == s.lives
    ensures DoublePointsExpired(s).lives == s.lives
    ensures EnteredGame(s).lives == s.lives
  {
  }

  /** A worked example: addition on normal, 3 + 4, answered 7, scores 22 with combo 1. */
  lemma AdditionScenarioScores()
    ensures var r := Rolls(0.1, 0.15, 0.0, 0.0, 0.0);
      var s := TopicSelected(Initial(), "Addition", r);
      var t := AnswerSubmitted(s, Some(7.0), r);
      s.currentProblem == Some(Problem(Sum(3, 4), 7.0)) && t.combo == 1 && t.score == 22 && t.lastResult == Correct
  {
    var r := Rolls(0.1, 0.15, 0.0, 0.0, 0.0);
    AdditionScenario();
    var s := TopicSelected(Initial(), "Addition", r);
    assert s == Initial().(currentTopic := Some("Addition"), currentProblem := Some(Problem(Sum(3, 4), 7.0)));
    assert IsCorrect(s.currentProblem, Some(7.0));
    PointsClosedForm(1, 2, false);
    assert Gain(s) == 22;
  }

  /** With double points active the same answer scores 44 instead of 22. */
  lemma DoubledScenarioScores()
    ensures var r := Rolls(0.1, 0.15, 0.0, 0.0, 0.0);
      var s := PowerupActivated(TopicSelected(Initial(), "Addition", r), DoublePoints, r);
      var t := AnswerSubmitted(s, Some(7.0), r);
      t.score == s.score + 44
  {
    var r := Rolls(0.1, 0.15, 0.0, 0.0, 0.0);
    AdditionScenario();
    var s0 := TopicSelected(Initial(), "Addition", r);
    assert s0 == Initial().(currentTopic := Some("Addition"), currentProblem := Some(Problem(Sum(3, 4), 7.0)));
    var s := PowerupActivated(s0, DoublePoints, r);
    assert s == s0.(powerups := Powerups(3, 2, 0), activeEffects := Effects(true, false));
    assert IsCorrect(s.currentProblem, Some(7.0));
    PointsClosedForm(1, 2, true);
    assert Gain(s) == 44;
  }

  // ---------------------------------------------------------------------
  // Derived views
  // ---------------------------------------------------------------------

  datatype Badge = Sprout | Star | Fire | Sparkle | Crown

  /** `getEmoji`: the badge beside the score. */
  function Emoji(score: int): (b: Badge)
    ensures b == Sprout <==> score < 50
    ensures b == Star <==> 50 <= score < 100
    ensures b == Fire <==> 100 <= score < 200
    ensures b == Sparkle <==> 200 <= score < 500
    ensures b == Crown <==> score >= 500
  {
    if score < 50 then Sprout
    else if score < 100 then Star
    else if score < 200 then Fire
    else if score < 500 then Sparkle
    else Crown
  }

  function BadgeRank(b: Badge): (rank: nat)
  {
    match b
    case Sprout => 0
    case Star => 1
    case Fire => 2
    case Sparkle => 3
    case Crown => 4
  }

  /** A higher score never shows a lower badge. */
  lemma EmojiMonotone(a: int, b: int)
    requires a <= b
    ensures BadgeRank(Emoji(a)) <= BadgeRank(Emoji(b))
  {
  }

  datatype Screen = Loading | LoginForm | Welcome | GameOverScreen | TopicSelect | Playing

  /** Which screen the page renders, tested in the page's order. */
  function ScreenOf(s: State, loading: bool, signedIn: bool): (v: Screen)
    ensures v == Playing <==> !loading && signedIn && s.gameStarted && !s.gameOver && HasTopic(s)
    ensures v == GameOverScreen <==> !loading && signedIn && s.gameStarted && s.gameOver
    ensures v == TopicSelect <==> !loading && signedIn && s.gameStarted && !s.gameOver && !HasTopic(s)
    ensures v == Playing ==> TimerRunning(s)
  {
    if loading then Loading
    else if !signedIn then LoginForm
    else if !s.gameStarted then Welcome
    else if s.gameOver then GameOverScreen
    else if !HasTopic(s) then TopicSelect
    else Playing
  }

  /** Reset from game over shows the welcome screen again, not the topic list. */
  lemma ResetShowsWelcome(s: State)
    requires Invariant(s)
    ensures ScreenOf(GameReset(s), false, true) == Welcome
  {
  }

  // ---------------------------------------------------------------------
  // Login form
  // ---------------------------------------------------------------------

  /** The characters `String.prototype.trim` removes: ECMAScript white space and line terminators. */
  predicate IsTrimmed(c: char)
  {
    var n := c as int;
    n == 0x09 || n == 0x0A || n == 0x0B || n == 0x0C || n == 0x0D || n == 0x20 || n == 0xA0
    || n == 0x1680 || (0x2000 <= n <= 0x200A) || n == 0x2028 || n == 0x2029 || n == 0x202F
    || n == 0x205F || n == 0x3000 || n == 0xFEFF
  }

  function TrimStart(s: string): (r: string)
    ensures |r| <= |s| && r == s[|s| - |r|..]
    ensures r != [] ==> !IsTrimmed(r[0])
    ensures forall i :: 0 <= i < |s| - |r| ==> IsTrimmed(s[i])
    decreases |s|
  {
    if s != [] && IsTrimmed(s[0]) then TrimStart(s[1..]) else s
  }

  function TrimEnd(s: string): (r: string)
    ensures |r| <= |s| && r == s[..|r|]
    ensures r != [] ==> !IsTrimmed(r[|r| - 1])
    ensures forall i :: |r| <= i < |s| ==> IsTrimmed(s[i])
    decreases |s|
  {
    if s != [] && IsTrimmed(s[|s| - 1]) then TrimEnd(s[..|s| - 1]) else s
  }

  /** `s.trim()`: the middle of `s` once white space is stripped from both ends. */
  function Trim(s: string): (r: string)
    ensures exists i, j :: 0 <= i <= j <= |s| && r == s[i..j]
                           && (forall k :: 0 <= k < i ==> IsTrimmed(s[k]))
                           && (forall k :: j <= k < |s| ==> IsTrimmed(s[k]))
    ensures r != [] ==> !IsTrimmed(r[0]) && !IsTrimmed(r[|r| - 1])
  {
    var front := TrimStart(s);
    var r := TrimEnd(front);
    var i := |s| - |front|;
    assert r == s[i..i + |r|];
    r
  }

  const UsernameTooShort := "Username must be at least 3 characters"
  const PasswordTooShort := "Password must be at least 6 characters"
  const InvalidPassword := "Invalid password"

  /** The form checks `handleLogin` makes before it calls `login`. */
  function LoginFormError(username: string, password: string): (e: Option<string>)
    ensures e.None? <==> |Trim(username)| >= 3 && |password| >= 6
    ensures e == Some(UsernameTooShort) <==> |Trim(username)| < 3
    ensures e == Some(PasswordTooShort) <==> |Trim(username)| >= 3 && |password| < 6
  {
    if |Trim(username)| < 3 then Some(UsernameTooShort)
    else if |password| < 6 then Some(PasswordTooShort)
    else None
  }

  // ---------------------------------------------------------------------
  // The page's state, held in fields
  // ---------------------------------------------------------------------

  class QuizSession {
    var gameStarted: bool
    var currentTopic: Option<string>
    var score: nat
    var lives: int
    var gameOver: bool
    var currentProblem: Option<Problem>
    var combo: nat
    var highScore: nat
    var difficulty: Difficulty
    var streak: nat
    var lastResult: LastResult
    var loginError: string
    var powerups: Powerups
    var activeEffects: Effects
    var level: nat
    var xp: nat
    var timeLeft: int

    function Snapshot(): (s: State)
      reads this
    {
      State(gameStarted, currentTopic, score, lives, gameOver, currentProblem, combo, highScore,
            difficulty, streak, lastResult, powerups, activeEffects, level, xp, timeLeft)
    }

    ghost predicate Valid()
      reads this
    {
      Invariant(Snapshot())
    }

    constructor ()
      ensures Valid() && Snapshot() == Initial() && loginError == ""
    {
      gameStarted := false;
      currentTopic := None;
      score := 0;
      lives := 3;
      gameOver := false;
      currentProblem := None;
      combo := 0;
      highScore := 0;
      difficulty := Normal;
      streak := 0;
      lastResult := NoResult;
      loginError := "";
      powerups := Powerups(3, 2, 1);
      activeEffects := Effects(false, false);
      level := 1;
      xp := 0;
      timeLeft := 60;
    }

    method HandleTopicSelect(topic: string, r: Rolls)
      requires Valid() && ValidRolls(r)
      modifies this
      ensures Valid() && Snapshot() == TopicSelected(old(Snapshot()), topic, r) && loginError == old(loginError)
    {
      currentTopic := Some(topic);
      currentProblem := GenerateProblem(topic, difficulty, r);
    }

    method HandleAnswerSubmit(entered: Option<real>, r: Rolls)
      requires Valid() && ValidRolls(r)
      modifies this
      ensures Valid() && Snapshot() == AnswerSubmitted(old(Snapshot()), entered, r) && loginError == old(loginError)
    {
      if currentProblem.Some? && entered == Some(currentProblem.value.answer) {
        RecordCorrect(r);
      } else {
        RecordWrong();
      }
    }

    method RecordCorrect(r: Rolls)
      requires Valid() && ValidRolls(r)
      modifies this
      ensures Snapshot() == Rewarded(old(Snapshot()), r) && loginError == old(loginError)
      ensures Valid()
    {
      ghost var before := Snapshot();
      var points := Points(combo + 1, Multiplier(difficulty), activeEffects.doublePoints);
      ScoreCorrect(points);
      AwardXp(points);
      currentProblem := NextProblem(currentTopic, difficulty, r);
      assert Snapshot() == Rewarded(before, r);
    }

    /** `setCombo`, `setStreak`, `setLastResult` and `setScore` of a correct answer. */
    method ScoreCorrect(points: nat)
      modifies this
      ensures Snapshot() == Scored(old(Snapshot()), points) && loginError == old(loginError)
    {
      var newCombo := combo + 1;
      var newStreak := streak + 1;
      combo := newCombo;
      streak := newStreak;
      lastResult := Correct;
      score := score + points;
    }

    /** The xp update of a correct answer, with the level-up reward. */
    method AwardXp(points: nat)
      modifies this
      ensures Snapshot() == Levelled(old(Snapshot()), points) && loginError == old(loginError)
    {
      var newXp := xp + points;
      var xpNeeded := level * 100;
      if newXp >= xpNeeded {
        level := level + 1;
        xp := newXp - xpNeeded;
        powerups := powerups.GrantEach();
      } else {
        xp := newXp;
      }
    }

    method RecordWrong()
      requires Valid()
      modifies this
      ensures Valid() && Snapshot() == Penalised(old(Snapshot())) && loginError == old(loginError)
    {
      combo := 0;
      streak := 0;
      lastResult := Wrong;
      var livesBefore := lives;
      lives := lives - 1;
      if livesBefore <= 1 {
        highScore := Max(highScore, score);
        gameOver := true;
      }
    }

    method ActivatePowerup(k: Powerup, r: Rolls)
      requires Valid() && ValidRolls(r)
      modifies this
      ensures Valid() && Snapshot() == PowerupActivated(old(Snapshot()), k, r) && loginError == old(loginError)
    {
      if powerups.Count(k) > 0 {
        powerups := powerups.Spend(k);
        match k {
          case TimeFreeze => timeLeft := 60;
          case SkipQuestion => currentProblem := NextProblem(currentTopic, difficulty, r);
          case DoublePoints => activeEffects := activeEffects.(doublePoints := true);
        }
      }
    }

    /** The callback `activatePowerup` schedules 30 seconds after double points. */
    method ExpireDoublePoints()
      requires Valid()
      modifies this
      ensures Valid() && Snapshot() == DoublePointsExpired(old(Snapshot())) && loginError == old(loginError)
    {
      activeEffects := activeEffects.(doublePoints := false);
    }

    method ResetGame()
      requires Valid()
      modifies this
      ensures Valid() && Snapshot() == GameReset(old(Snapshot())) && loginError == old(loginError)
    {
      gameStarted := false;
      currentTopic := None;
      score := 0;
      lives := 3;
      gameOver := false;
      currentProblem := None;
    }

    /** The body of the one-second interval, when it fires. */
    method Tick()
      requires Valid()
      modifies this
      ensures Valid() && Snapshot() == Ticked(old(Snapshot())) && loginError == old(loginError)
    {
      if currentTopic.Some? && currentTopic.value != "" && !gameOver {
        if timeLeft <= 0 {
          lives := lives - 1;
          timeLeft := 60;
        } else {
          timeLeft := timeLeft - 1;
        }
      }
    }

    method ChangeDifficulty(d: Difficulty)
      requires Valid()
      modifies this
      ensures Valid() && Snapshot() == DifficultyChanged(old(Snapshot()), d) && loginError == old(loginError)
    {
      difficulty := d;
    }

    method EnterGame()
      requires Valid()
      modifies this
      ensures Valid() && Snapshot() == EnteredGame(old(Snapshot())) && loginError == old(loginError)
    {
      gameStarted := true;
    }

    /**
     * `handleLogin`: the form checks first, then `login` with the untrimmed
     * name; the message shown is the first failure, or none.
     */
    method HandleLogin(auth: Auth.CredentialStore, username: string, password: string)
      requires Valid()
      modifies this`loginError, auth
      ensures Valid() && Snapshot() == old(Snapshot())
      ensures var e := LoginFormError(username, password);
        e.Some? ==> loginError == e.value && unchanged(auth)
      ensures LoginFormError(username, password).None? ==>
        var found := Auth.FindUser(old(auth.users), username);
        var ok := found.None? || old(auth.users)[found.value].password == password;
        && loginError == (if ok then "" else InvalidPassword)
        && (ok ==> auth.user == Some(username) && auth.storedUser == Some(username)
                   && auth.users == (if found.None? then old(auth.users) + [Auth.UserData(username, password)]
                                     else old(auth.users)))
        && (!ok ==> unchanged(auth))
    {
      if |Trim(username)| < 3 {
        loginError := UsernameTooShort;
        return;
      }
      if |password| < 6 {
        loginError := PasswordTooShort;
        return;
      }
      var success := auth.Login(username, password);
      if !success {
        loginError := InvalidPassword;
        return;
      }
      loginError := "";
    }
  }
}

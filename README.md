# Matrix math quiz: a Dafny model

This project models the core of a browser math quiz with a "Matrix" theme. It has three parts:

- **The quiz session engine** (`session.dfy`, `problems.dfy`). The state covers:
  - the selected topic and the current problem;
  - score, lives, combo, streak, high score and difficulty;
  - power-ups and their effects, level and xp;
  - the one-minute timer.

  Handlers cover topic selection, answer submission, power-ups, reset, the countdown tick, and the login form's checks. Each handler is a pure transition on a `State` value and keeps the invariant `Session.Invariant`. The class `Session.QuizSession` holds the same state in fields. Each of its methods is proved to perform the matching transition.
- **The problem generator** (`problems.dfy`). It produces a structured `Question` and its expected answer for each of the six topics. Every generated problem is proved to be solved by its answer (`Problems.Solves`, read off the question shown) and to stay within the ranges the draws allow.
- **The credential table** (`auth.dfy`). This is the find-or-create login over the stored user records. Login is a class method that updates the records, the stored session and the signed-in user.
- **The falling-digit background** (`rain.dfy`). This is a pool of digit records in 20 px columns, eight per column. It is built by nested loops and advanced in place, in frames at least 16 ms apart. A digit that falls past the bottom is recycled at the top of its column.

Supporting modules:

- `numbers.dfy`:
  - the random draws;
  - `Math.round`;
  - decimal rendering of numbers, with its inverse and a round-trip lemma.
- `wrappers.dfy`: `Option` and `Max`.

External inputs are parameters:

- Every `Math.random()` call is a parameter: a real in `[0, 1)`, grouped per call site (`Problems.Rolls`, `Rain.DigitRolls`, `Rain.FrameRolls`).
- The number the browser parses from the answer box is a parameter `entered: Option<real>`, where `None` stands for NaN.
- The window size and the frame timestamp are parameters.
- Browser storage is represented by the fields of `Auth.CredentialStore`.

Where the code departs from the intended behaviour, the model follows the code:

- A triangle question's answer is `base * height / 2` and can be fractional (`Problems.TriangleAnswerCanBeFractional`). Every other answer is a whole number.
- Selecting a topic does not reset the timer.
- Reset returns to the welcome screen, not to the topic list (`Session.ResetShowsWelcome`).
- The countdown costs a life at zero and, in the model, restarts at 60; it never ends the game. The restart is the model's reading of the nested `setTimeLeft(60)` inside an updater that returns 0 (src/pages/index.tsx:80-83); see the `Session.Ticked` line under "## Left out". Lives can reach 0 by timeout and play goes on (`Session.TimeoutCanExhaustLivesWithoutGameOver`). The next timeout takes them to -1 with the playing screen still selected (`Session.TimeoutCanDriveLivesNegative`). There the lives bar, `"💚".repeat(lives)` (src/pages/index.tsx:425), would throw a RangeError for the negative count. Rendering is not modelled, so the model stops at the state.

Xp stays below level * 100 in every reachable state, and one answer gains at most one level. A combo long enough for a single answer to overshoot the next threshold needs more xp, and so more levels, than the player has. `Session.XpBounded` states the bound, `Session.InitialXpBounded` shows it holds at the start, and each transition is proved to keep it.

Points are computed over exact reals. Over the reals, `floor(10 * (1 + c * 0.1) * m)` equals `(10 + c) * m` (`Session.PointsClosedForm`).

## Model

| member | source | states |
|---|---|---|
| Numbers.RandInt | src/pages/index.tsx:94-95 | `floor(r * n) + 1` for `r` in [0, 1) lies in 1..n |
| Numbers.RandIndex | src/pages/index.tsx:148 | `floor(r * n)` for `r` in [0, 1) is a valid index below n |
| Numbers.Round | src/components/MatrixRain.tsx:18 | `Math.round(x)` is the integer within half a unit of x, halves rounding up |
| Numbers.RoundIntegral | src/components/MatrixRain.tsx:18 | rounding a whole number gives it back, so column positions stay exact |
| Numbers.NatToString | src/pages/index.tsx:100 | a number interpolates as a non-empty string of decimal digits with no leading zero |
| Numbers.DecimalRoundTrip | src/pages/index.tsx:100 | reading back the digits of a rendered number gives the number |
| Numbers.NatToStringInjective | src/pages/index.tsx:100 | different numbers render differently |
| Numbers.NumeralPrefixUnique | src/pages/index.tsx:100 | a rendered number followed by non-digit text splits only one way |
| Problems.Multiplier | src/pages/index.tsx:62-66 | every difficulty scales operands and points by a factor in 1..3 |
| Problems.ArithmeticProblem | src/pages/index.tsx:98-118 | the four arithmetic topics produce a problem whose answer solves it. The operands lie in 1..10m. Subtraction and division are built from a sum and a product, so the difference is positive and the division exact |
| Problems.AlgebraProblem | src/pages/index.tsx:119-146 | each of the three algebra kinds gives a well-formed algebra problem |
| Problems.LinearProblem | src/pages/index.tsx:121-128 | `num1 x + b = rhs` is solved by the drawn x in 1..10, with b in 1..20 |
| Problems.SquareProblem | src/pages/index.tsx:130-136 | `x^2 = k` is solved by the drawn positive x in 1..5 |
| Problems.SequenceProblem | src/pages/index.tsx:138-145 | the four shown terms step evenly by 2..4 from a start in 1..5, and the answer continues the step |
| Problems.GeometryProblem | src/pages/index.tsx:162-194 | the falsy-dimension guard returns null exactly on a zero dimension. Otherwise the problem is a geometry problem whose answer is the shape's area, perimeter, circumference (with pi as 3) or volume |
| Problems.Shapes | src/pages/index.tsx:150-161 | the five shape records. With both operands at least 1 none has a zero dimension, so the falsy guards cannot fire |
| Problems.Text | src/pages/index.tsx:100-192 | the question templates, numbers rendered by `NatToString`. The text determines an arithmetic question (`Problems.ArithmeticTextShowsOperands`) |
| Problems.GenerateProblem | src/pages/index.tsx:92-199 | the result is null exactly for a name outside the six topics. Any problem is well formed for the difficulty and belongs to the requested topic |
| Problems.DivisionIsExact | src/pages/index.tsx:112-117 | a division question has no remainder, and its integer quotient is the answer |
| Problems.BinaryTextUnique | src/pages/index.tsx:98-117 | `a op b = ?` with a non-digit operator determines a and b |
| Problems.ArithmeticTextShowsOperands | src/pages/index.tsx:98-117 | two arithmetic questions of one topic with the same text are the same question |
| Problems.AdditionScenario | src/pages/index.tsx:94-102 | draws 0.1 and 0.15 on normal give "3 + 4 = ?" with answer 7 |
| Problems.TriangleAnswerCanBeFractional | src/pages/index.tsx:183-188 | a 1 by 1 triangle on easy expects 0.5, which is not an integer |
| Auth.FindUser | src/context/AuthContext.tsx:28 | `users.find` returns the first record with the name, or none exactly when no record has it |
| Auth.AppendNewNameKeepsUnique | src/context/AuthContext.tsx:30-33 | pushing a record for an absent name keeps the names distinct |
| Auth.CredentialStore.constructor | src/context/AuthContext.tsx:17 | the provider starts with storage as found and no user |
| Auth.CredentialStore.Mount | src/context/AuthContext.tsx:19-23 | the mount effect clears the stored session and the user and keeps the records |
| Auth.CredentialStore.Login | src/context/AuthContext.tsx:25-47 | an unknown name appends a record, signs in and returns true. A known name signs in exactly when the password matches its first record. On false nothing changes. Records are never rewritten, and unique names stay unique |
| Auth.CredentialStore.Logout | src/context/AuthContext.tsx:49-52 | clears the user and the stored session and keeps the records |
| Session.Powerups.Spend | src/pages/index.tsx:216 | using a power-up lowers its counter by one and no other |
| Session.Powerups.GrantEach | src/pages/index.tsx:254-258 | the level-up reward raises every counter by one |
| Session.Initial | src/pages/index.tsx:15-51 | the initial state satisfies the session invariant |
| Session.NextProblem | src/pages/index.tsx:269 | regenerating for the current topic gives a problem exactly when a known topic is selected. The problem is of that topic and solved by its answer |
| Session.Points | src/pages/index.tsx:243-245 | the floor formula, doubled under double points. Its closed form is `Session.PointsClosedForm` |
| Session.PointsClosedForm | src/pages/index.tsx:243-245 | the points for combo c at multiplier m are `(10 + c) * m`, doubled under double points |
| Session.TopicSelected | src/pages/index.tsx:201-204 | selecting a topic and generating its problem keeps the invariant. The topic is set, and timer, score, lives, combo, streak, game-over, level and xp are kept |
| Session.Topics | src/pages/index.tsx:53-60 | the six topic buttons, all available |
| Session.TopicClicked | src/pages/index.tsx:405-408 | a click on any topic button selects that topic and shows a problem for it |
| Session.IsCorrect | src/pages/index.tsx:236 | an answer is correct when a problem is shown and the parsed number equals its answer. NaN and a missing problem are wrong |
| Session.Gain | src/pages/index.tsx:243-245 | the points a correct answer earns in the current state: `Session.Points` at the new combo, the difficulty multiplier and the double-points flag |
| Session.AnswerSubmitted | src/pages/index.tsx:234-282 | answer submission keeps the invariant |
| Session.Rewarded | src/pages/index.tsx:236-269 | the correct-answer branch keeps the invariant |
| Session.Scored | src/pages/index.tsx:237-247 | the combo, streak, result and score updates of a correct answer. Stated by `Session.CorrectAnswerScores` |
| Session.Levelled | src/pages/index.tsx:249-261 | the xp and level-up update of a correct answer. Stated by `Session.CorrectAnswerLevels` |
| Session.Penalised | src/pages/index.tsx:270-280 | the wrong-answer branch keeps the invariant |
| Session.PowerupActivated | src/pages/index.tsx:214-232 | activating a power-up keeps the invariant |
| Session.DoublePointsExpired | src/pages/index.tsx:226-228 | the 30-second callback keeps the invariant |
| Session.GameReset | src/pages/index.tsx:284-291 | reset keeps the invariant |
| Session.HasTopic | src/pages/index.tsx:393 | the truthiness of `currentTopic`: set and not the empty name. `Session.TimerRunning` and `Session.ScreenOf` share it |
| Session.TimerRunning | src/pages/index.tsx:77 | the countdown runs while `currentTopic` is truthy (set and non-empty) and the game is not over |
| Session.Ticked | src/pages/index.tsx:76-90 | the countdown tick keeps the invariant, the timer staying within 0..60 |
| Session.DifficultyChanged | src/pages/index.tsx:517-518 | changing difficulty keeps the invariant |
| Session.EnteredGame | src/pages/index.tsx:366 | entering the game keeps the invariant |
| Session.CorrectAnswerScores | src/pages/index.tsx:236-247 | a correct answer raises combo and streak by one and scores `(10 + combo) * m`, twice that under double points. Lives, game-over, high score and topic are kept, and a new problem is shown |
| Session.CorrectAnswerLevels | src/pages/index.tsx:249-261 | reaching level * 100 xp gains exactly one level and deducts the threshold. It also grants one of each power-up. Otherwise only xp grows |
| Session.InitialXpBounded | src/pages/index.tsx:49-50 | the starting level 1, xp 0 and combo 0 meet the xp bound |
| Session.PointsBounds | src/pages/index.tsx:243-245 | one answer is worth between 10 + c and 6 * (10 + c) points |
| Session.LongComboNeedsLevels | src/pages/index.tsx:237-251 | a combo whose next answer could exceed 100 * (level + 1) points implies more xp earned than the level allows |
| Session.XpStep | src/pages/index.tsx:249-261 | the level-up arithmetic of one correct answer keeps the bound: xp ends below the threshold of the resulting level |
| Session.CorrectAnswerKeepsXpBounded | src/pages/index.tsx:236-261 | a correct answer keeps the xp bound, so xp is below level * 100 after it |
| Session.WrongAnswerKeepsXpBounded | src/pages/index.tsx:270-280 | a wrong answer keeps the xp bound |
| Session.SelectionsKeepXpBounded | src/pages/index.tsx:201-232 | power-ups and topic selection keep the xp bound |
| Session.ControlsKeepXpBounded | src/pages/index.tsx:76-90 | reset, the tick, difficulty changes, the double-points expiry and entering the game keep the xp bound |
| Session.WrongAnswerCostsALife | src/pages/index.tsx:270-280 | a wrong answer zeroes combo and streak, costs one life, and keeps score, problem, level, xp and power-ups. It ends the game and records the high score exactly when at most one life was left |
| Session.EmptyInputIsWrong | src/pages/index.tsx:236 | an empty answer box parses to 0, and that is wrong in every reachable state with a problem. This includes a problem kept across a difficulty change |
| Session.PowerupSpendsOne | src/pages/index.tsx:214-232 | an empty counter changes nothing. Otherwise exactly that counter drops by one and only its effect applies: a full timer, a new problem, or the double-points flag. The new state equals the old one with just those two fields changed, so score, lives, combo, level, xp and everything else are kept |
| Session.DoublePointsExpire | src/pages/index.tsx:224-228 | double points is on after activation and off after its expiry callback |
| Session.ResetKeepsProgress | src/pages/index.tsx:284-291 | reset clears topic, problem and score, restores three lives and leaves the game. Combo, streak, level, xp, power-ups, high score, timer, difficulty and effects carry over |
| Session.TickCountsDown | src/pages/index.tsx:79-86 | a running tick counts down by one. At zero it costs a life and restarts at 60. It never changes game-over |
| Session.TimeoutCanExhaustLivesWithoutGameOver | src/pages/index.tsx:76-86 | the last life can run out by timeout while the game is not over |
| Session.TimeoutCanDriveLivesNegative | src/pages/index.tsx:76-86 | with no lives left, a timeout takes lives below zero while the game stays on and the playing screen is shown |
| Session.LivesNeverRise | src/pages/index.tsx:76-282 | answering, power-ups, the tick, topic selection, difficulty changes, the double-points expiry and entering the game never give back a life. Only reset restores them |
| Session.AdditionScenarioScores | src/pages/index.tsx:236-247 | answering 7 to "3 + 4 = ?" on normal scores 22 with combo 1 |
| Session.DoubledScenarioScores | src/pages/index.tsx:243-247 | the same answer under double points scores 44 |
| Session.Emoji | src/pages/index.tsx:206-212 | each badge is shown exactly on its score band: below 50, 50-99, 100-199, 200-499, 500 and up |
| Session.EmojiMonotone | src/pages/index.tsx:206-212 | a higher score never shows a lower badge |
| Session.ScreenOf | src/pages/index.tsx:315-393 | the playing, game-over and topic-list screens show exactly under their conditions, tested in the page's order. An empty topic name counts as no topic, as `!currentTopic` does. The playing screen implies that the timer runs |
| Session.ResetShowsWelcome | src/pages/index.tsx:284-291 | after reset a signed-in player sees the welcome screen |
| Session.TrimStart | src/pages/index.tsx:295 | drops exactly the leading white space |
| Session.TrimEnd | src/pages/index.tsx:295 | drops exactly the trailing white space |
| Session.Trim | src/pages/index.tsx:295 | `trim()` is a middle slice with only white space cut off and no white space at either end |
| Session.LoginFormError | src/pages/index.tsx:295-302 | the username message shows exactly when the trimmed name is under 3 characters. The password message shows exactly when the name passes and the password is under 6. Otherwise there is no message |
| Session.QuizSession.constructor | src/pages/index.tsx:13-51 | the page state starts as the initial state |
| Session.QuizSession.HandleTopicSelect | src/pages/index.tsx:201-204 | performs the topic-selection transition |
| Session.QuizSession.HandleAnswerSubmit | src/pages/index.tsx:234-282 | performs the answer transition and keeps the invariant |
| Session.QuizSession.RecordCorrect | src/pages/index.tsx:236-269 | performs the correct-answer branch |
| Session.QuizSession.ScoreCorrect | src/pages/index.tsx:237-247 | steps combo and streak, marks the result and adds the points |
| Session.QuizSession.AwardXp | src/pages/index.tsx:249-261 | adds the xp, with the level-up and its reward at the threshold |
| Session.QuizSession.RecordWrong | src/pages/index.tsx:270-280 | performs the wrong-answer branch |
| Session.QuizSession.ActivatePowerup | src/pages/index.tsx:214-232 | performs the power-up transition |
| Session.QuizSession.ExpireDoublePoints | src/pages/index.tsx:226-228 | clears the double-points flag |
| Session.QuizSession.ResetGame | src/pages/index.tsx:284-291 | performs the reset transition |
| Session.QuizSession.Tick | src/pages/index.tsx:79-86 | performs one countdown tick |
| Session.QuizSession.ChangeDifficulty | src/pages/index.tsx:517-518 | sets the difficulty, nothing else |
| Session.QuizSession.EnterGame | src/pages/index.tsx:366 | starts the game, nothing else |
| Session.QuizSession.HandleLogin | src/pages/index.tsx:293-310 | shows the first failing form check and leaves the credential table alone. Otherwise it logs in with the untrimmed name and shows "Invalid password" exactly when the login is refused. On success the user and the stored session become the name, and the records gain the new record for an unknown name. A refused login leaves the table unchanged. The session state is kept |
| Rain.CreateDigit | src/components/MatrixRain.tsx:16-23 | a new digit keeps the drawn id and rounds x. It starts in (-100, 0] with speed in [3, 8), has a value 0..9, and is bright exactly when the draw exceeds 0.8 |
| Rain.Spawn | src/components/MatrixRain.tsx:33 | the k-th digit pushed stands at x = 20 * (k / 8) |
| Rain.Columns | src/components/MatrixRain.tsx:28 | the column count is `floor(width / 20)`: n columns fit and n + 1 do not |
| Rain.Grid | src/components/MatrixRain.tsx:26-37 | the initial pool has 8 digits per 20 px column, each freshly spawned in its column |
| Rain.GridColumns | src/components/MatrixRain.tsx:31-35 | the digits at 8i..8i+7 all stand at x = 20i |
| Rain.Fallen | src/components/MatrixRain.tsx:51 | the time-scaled new y, never above the old for non-negative speed and time |
| Rain.StepDigit | src/components/MatrixRain.tsx:50-64 | past the bottom, a digit respawns in its column with its id. Otherwise it falls by `speed * dt / 16`, keeps speed and brightness, and changes value only when its shimmer draw exceeds 0.95 |
| Rain.Frame | src/components/MatrixRain.tsx:50-65 | a frame keeps the pool size and each digit's id and column |
| Rain.StepKeepsInPlace | src/components/MatrixRain.tsx:49-65 | an eligible frame keeps every digit in its column, with speed and value in range and y above -100 |
| Rain.InitDigits | src/components/MatrixRain.tsx:26-37 | the nested loops build exactly the initial pool |
| Rain.RainPool.constructor | src/components/MatrixRain.tsx:39-43 | the effect starts with the initial pool and no frame time |
| Rain.RainPool.Animate | src/components/MatrixRain.tsx:45-72 | the first call records the time. A frame under 16 ms after the last changes nothing. An eligible frame steps every digit in place and records its time |
| Rain.RainPool.Resize | src/components/MatrixRain.tsx:78-81 | a resize rebuilds the pool for the new width and keeps the frame time |

## Left out

- Rendering: the JSX markup, CSS classes, the layout component and the digit display are not modelled. `src/components/Layout.tsx` is not part of this model.
- Timers and scheduling:
  - The loading splash and its 500 ms follow-up (src/pages/index.tsx:68-74) are out.
  - The 500 ms glitch reset (src/pages/index.tsx:268) is out.
  - The interval and animation-frame set-up and cleanup are out. `Session.QuizSession.Tick`, `Session.QuizSession.ExpireDoublePoints` and `Rain.RainPool.Animate` are the callbacks, invoked whenever the caller chooses.
- Visual effects: the `matrixEffects` speed and glitch state only drives visuals, and nothing else reads it.
- The `isNewUser` toggle and the controlled-input updates of the username, password and answer boxes are out. So is clearing the answer box after a submit.
- Randomness: `Math.random()` draws are parameters. The model assumes each draw lies in [0, 1).
- Browser storage: localStorage and its JSON encoding are abstracted to the fields of `Auth.CredentialStore`. A malformed stored value is not modelled.
- `Number(userAnswer)`: string-to-number parsing is external. The parsed value is the `entered` parameter, with `None` for NaN.
- Session.PointsClosedForm: points are computed over exact reals. IEEE floating-point rounding of `newCombo * 0.1` is not modelled.
- Session.LoginFormError: lengths count code points. JavaScript `length` counts UTF-16 units, which differ for characters outside the basic plane.
- Handlers are modelled as sequential transitions. React's batching of state updates and the handlers' stale closures over `score`, `lives` and `xp` are not modelled.
- Session.Ticked: the tick is modelled as applying its update directly. The source triggers lives - 1 and a restart at 60 from inside a state updater that itself returns 0. The model takes the net effect to be the restart at 60.
- Session.DoublePointsExpired: every expiry clears the flag. A second activation within 30 seconds is not tied to its own callback, just as in the source.
- Rain.RainPool.Animate: the copy handed to React (`setDigits([...digits])`) is not modelled separately. The pool array is the displayed state.
- Window dimensions are whole pixels. Frame timestamps are exact reals.

# Circular Pong — a verified model of the game logic

Circular Pong is a one-screen arcade game. A ball moves inside a circular
arena of radius 300 centred at (400, 400). The player turns a 30-degree
paddle arc along the wall with the arrow keys. When the ball reaches the
wall inside the paddle's arc it bounces: its velocity is mirrored across
the wall normal and turned by a random angle of -10 to 10 degrees. It
keeps its speed, which then grows by 0.2 for the next bounce. The score
goes up by one, and a new high score is written to `highscore.txt`. When
the ball reaches the wall outside the arc, the score drops to 0 and the
ball restarts from the centre in a random direction. The game waits for
the space key before the first frame of play.

The project models that logic in three modules:

- `Geometry` (geometry.dfy): plane vectors over the reals. It covers the
  unit normal, mirror reflection, rotation and renormalisation steps of a
  bounce, each with the property that makes it correct.
- `Rules` (rules.dfy): the game's constants and the rules of one frame
  as pure functions. These are the paddle step, the wall and paddle test,
  the score, high-score and speed bookkeeping, and the bounce velocity.
  Lemmas about runs of many frames are here too.
- `CircularPong` (pong.dfy): the objects the game changes in place.
  - `Ball`, `Paddle` and `Scoreboard` are classes. `Scoreboard` holds the
    score and high score that `main` owns and `Ball::Update` changes
    through references.
  - `Game` holds `main`'s loop state and the start flag.
  - Every method is proved against the `Rules` functions. `Ball`,
    `Scoreboard` and `Game` keep an invariant (`Valid`); the paddle's
    invariant (width 30, angle in [0, 360] on a multiple of 6) is part of
    `Game.Valid`.

The C math library's results enter as parameters:
- `Ball::Update` takes three square roots (src/main.cpp:38, 49 and 63).
  `distance` stands for the first two, which are the root of the same sum:
  the ball's distance from the centre. `length` is the root of the
  incoming velocity's squared length. The source takes its third root of
  the turned velocity instead; in exact reals the two are equal, because
  reflection and rotation keep the length (`Rules.Deflected`). Each
  parameter is constrained by `IsRoot`.
- `theta` is the `atan2` angle in degrees, within [-180, 180].
- Every `GetRandomValue` draw enters as a `Turn`: the whole-degree angle
  with its cosine and sine.

The paddle angle does not wrap into [0, 360), which would send 360 to 0:
the wrap test at src/main.cpp:111 is a strict `angle > 360`, so an angle
of 360 is kept and only a step past it wraps (`Rules.PaddleStep`,
`Rules.PaddleKeepsFullTurn`).

## Model

| member | source | states |
|---|---|---|
| Geometry.UnitNormal | src/main.cpp:48-51 | the wall normal divided by its length has length 1 and points along the ball's offset from the centre |
| Geometry.Reflect | src/main.cpp:53-55 | mirroring across a unit normal keeps the velocity's length, reverses its normal component and keeps its component along the wall |
| Geometry.ReflectTwice | src/main.cpp:53-55 | mirroring twice across the same normal gives the original velocity back |
| Geometry.Rotate | src/main.cpp:57-61 | turning by an angle given by its cosine c and sine s keeps the velocity's length, and the result's components along v and along v turned a quarter are c and s times its squared length |
| Geometry.RotateBack | src/main.cpp:57-61 | turning by the opposite angle undoes the turn |
| Geometry.Rescale | src/main.cpp:63-65 | dividing by the current length and multiplying by the speed gives a vector of length speed along the old direction |
| Geometry.ScaledToSpeed | src/main.cpp:63-65 | scaling a vector of length len by speed/len gives length speed, with dot product speed*len against the original |
| Rules.PaddleStep | src/main.cpp:106-112 | the angle stays in [0, 360]; it differs from the key-adjusted angle by a multiple of 360 and from the old angle by a multiple of 6; no key or both keys leave it unchanged; a key-adjusted angle already in [0, 360] (0 and 360 included) is kept as it is |
| Rules.PaddleRunOnGrid | src/main.cpp:106-112 | over any sequence of frames an angle in [0, 360] on a multiple of 6 stays so |
| Rules.PaddleFromStart | src/main.cpp:149 | from the start angle 270 the paddle is always in [0, 360] on a multiple of 6 |
| Rules.PaddleKeepsFullTurn | src/main.cpp:110-111 | 354 plus a right step is kept at 360; 360 plus a right step wraps to 6; 0 minus a left step wraps to 354 |
| Rules.BallAngle | src/main.cpp:42-43 | a negative atan2 angle gains 360, so the ball angle lies in [0, 360) |
| Rules.Classify | src/main.cpp:41-45 | inside exactly when distance plus radius does not exceed 300; hit exactly when it does and the ball angle lies in the closed paddle window |
| Rules.HitByOffset | src/main.cpp:41-45 | a hit is the same as a distance above 290 with the ball angle within half the paddle width of the paddle angle |
| Rules.HitWindowInclusive | src/main.cpp:45 | a ball at either end of the paddle window is a hit |
| Rules.WindowDoesNotWrap | src/main.cpp:42-45 | the window is not taken modulo 360: paddle at 0 and ball at 355 is a miss, as is paddle at 360 and ball at 5 |
| Rules.Scored | src/main.cpp:69-79 | a hit adds one to the score and raises the high score to it when exceeded; a miss zeroes the score and keeps the high score; inside changes nothing; the high score never drops |
| Rules.ScoredSane | src/main.cpp:69-79 | a non-negative score that is 0 or at most the high score stays so after any frame |
| Rules.Accelerated | src/main.cpp:67 | the speed grows by exactly 0.2 on a hit and is kept otherwise |
| Rules.Deflected | src/main.cpp:48-61 | the mirrored and turned velocity has the length of the incoming one |
| Rules.Deflect | src/main.cpp:48-65 | the velocity after a bounce has length equal to the speed and points along the mirrored and turned velocity |
| Rules.DeflectStraight | src/main.cpp:48-55 | with a zero random turn a ball moving outwards leaves the wall moving inwards |
| Rules.Launch | src/main.cpp:24-26 | the launch velocity has length speed and points along the drawn direction |
| Rules.SpeedRunCountsHits | src/main.cpp:67 | after any run the speed is the start speed plus 0.2 per hit |
| Rules.HighScoreIsPeak | src/main.cpp:69-79 | from a state with 0 <= score <= high score, after any run the high score is the largest of the starting high score and every score reached |
| Rules.WrittenAbove | src/main.cpp:70-76 | every value written to the high-score file during a run beats the high score the run started with |
| Rules.WrittenAscending | src/main.cpp:70-76 | the values written to the high-score file strictly increase |
| Rules.WrittenLast | src/main.cpp:70-76 | the last value written is the final high score; when nothing is written the high score is unchanged |
| Rules.ThreeHits | src/main.cpp:67-76 | three hits from speed 5 and score 0 give speed 5.6, score 3, high score 3, and write 1, 2, 3 |
| CircularPong.Ball.constructor | src/main.cpp:14-18 | a new ball has radius 10, speed 5, sits at the centre and moves at speed 5 along the drawn direction |
| CircularPong.Ball.Reset | src/main.cpp:20-27 | the ball is back at (400, 400) with velocity speed times the drawn direction; the speed is kept |
| CircularPong.Ball.Rebound | src/main.cpp:47-67 | the new velocity is the mirrored, turned and renormalised one, of length the old speed; the divisor is positive; the speed grows by 0.2 |
| CircularPong.Ball.Collide | src/main.cpp:37-82 | the contact is the classification of the moved ball; a hit bounces, scores and speeds up; a miss zeroes the score and re-launches from the centre; inside changes nothing |
| CircularPong.Ball.Update | src/main.cpp:33-83 | the ball moves by its velocity and then takes the wall test, with the outcomes of Collide |
| CircularPong.Paddle.constructor | src/main.cpp:91 | a paddle starts at the given angle with width 30 |
| CircularPong.Paddle.Update | src/main.cpp:106-112 | the new angle is the paddle step of the old angle under the held keys |
| CircularPong.Scoreboard.constructor | src/main.cpp:151-152 | score 0 and the loaded high score, nothing written yet |
| CircularPong.Scoreboard.RecordHit | src/main.cpp:69-77 | one more point; a passed high score is taken and appended to what was written |
| CircularPong.Scoreboard.ClearScore | src/main.cpp:79 | the score is 0 and the high score is kept |
| CircularPong.Game.constructor | src/main.cpp:148-154 | fresh ball at the centre at speed 5, paddle at 270, score 0, loaded high score, not started |
| CircularPong.Game.Frame | src/main.cpp:156-166 | before start nothing changes without the space key; the space key starts for good, zeroes the score and resets the ball; in play the paddle steps and then the ball's frame is scored and sped up as classified; speed and high score never drop |

## Left out

- Rendering: Draw, the arena outline, the text and the precomputed `circleVertices` are not modelled. `Ball::Update` never reads `circleVertices`.
- Window and input calls are not modelled. Keys held or pressed become `Keys` and `space` parameters. `WindowShouldClose` becomes the caller choosing how many frames to run.
- `GetRandomValue`, `cosf` and `sinf` are not modelled. Each draw is a `Turn` parameter whose angle lies in the drawn range and whose cosine and sine lie on the unit circle.
- `sqrtf` and `atan2f` are not modelled. The model takes the results as parameters: a square root is any non-negative root, and the atan2 angle is any value in [-180, 180].
- CircularPong.Ball.Update: the atan2 angle `theta` is not tied to the ball's position, because the model has no trigonometry. The contract states the outcome for the `theta` given.
- CircularPong.Ball.Collide: as for Ball.Update, `theta` is not tied to the ball's position.
- Floating point is not modelled. Positions, velocities and speeds are exact reals, and 0.2f is taken as exactly 1/5. The paddle angle is an integer, which matches `float` exactly because every value the paddle reaches is a multiple of 6 no larger than 366.
- `LoadHighScore` is not modelled, because it reads a file. Its result is the `Scoreboard` and `Game` constructor parameter, so it may be any integer.
- The high-score file write is not modelled, because it is file output. The ghost sequence `Scoreboard.saved` records each value written, and a failed open is not modelled.
- CircularPong.Ball.Update: it returns the contact it classified, which `Ball::Update` does not, so that the contract can name the outcome.
- Rules.HighScoreIsPeak: it requires 0 <= score <= high score at the start, so it does not cover a negative high score loaded from the file; from such a state a miss reaches score 0 without raising the high score to 0.
- Paddle::Update's unused `circleRadius` parameter is dropped.
- CircularPong.Game.Frame: it states the ball's speed and the scores of a playing frame. The ball's new position and velocity are stated by CircularPong.Ball.Update, which Frame calls.

/** The rules of one frame of Circular Pong, as values: the constants of the
    game, the paddle's angle step, the classification of the ball against
    the arena wall and the paddle arc, the bookkeeping of score, high score
    and speed, and the velocity a ball leaves the paddle with. The classes
    in module CircularPong are proved against these functions; the lemmas
    here are about runs of many frames. */
module Rules {
  import opened Geometry

  const ScreenWidth: int := 800
  const ScreenHeight: int := 800
  /** The arena's centre: half the screen size in integer arithmetic. */
  const Center: Vec := Vec((ScreenWidth / 2) as real, (ScreenHeight / 2) as real)
  const ArenaRadius: real := 300.0
  const BallRadius: int := 10
  const InitialSpeed: real := 5.0
  /** Speed gained on every hit (the source's 0.2f, taken as the exact real 1/5). */
  const SpeedStep: real := 0.2
  const PaddleStart: int := 270
  const PaddleSize: int := 30
  /** Degrees the paddle turns per frame while an arrow key is held. */
  const PaddleTurn: int := 6
  const FullTurn: int := 360

  /** A random whole-degree angle drawn by GetRandomValue, with its cosine
      and sine. Only `cos` and `sin` enter the ball's motion, and they are
      not tied to `degrees` (the model has no trigonometry), so the range
      `Within` puts on `degrees` records the drawn range and constrains
      nothing else. */
  datatype Turn = Turn(degrees: int, cos: real, sin: real)
  {
    predicate Within(lo: int, hi: int)
    {
      lo <= degrees <= hi && cos * cos + sin * sin == 1.0
    }
  }

  // ---------------------------------------------------------------- paddle

  /** The arrow keys held during one frame. */
  datatype Keys = Keys(left: bool, right: bool)

  /** The paddle angle after the key adjustments, before wrapping. */
  function Steered(angle: int, keys: Keys): int
  {
    var a := if keys.left then angle - PaddleTurn else angle;
    if keys.right then a + PaddleTurn else a
  }

  /** The two wrap tests: a negative angle gains 360, one above 360 loses 360. */
  function Wrapped(angle: int): int
  {
    var a := if angle < 0 then angle + FullTurn else angle;
    if a > FullTurn then a - FullTurn else a
  }

  /** Paddle::Update: the angle one frame later. */
  function PaddleStep(angle: int, keys: Keys): (r: int)
    ensures 0 <= angle <= FullTurn ==> 0 <= r <= FullTurn
    ensures (r - Steered(angle, keys)) % FullTurn == 0
    ensures (r - angle) % PaddleTurn == 0
    ensures keys.left == keys.right && 0 <= angle <= FullTurn ==> r == angle
    ensures 0 <= Steered(angle, keys) <= FullTurn ==> r == Steered(angle, keys)
  {
    Wrapped(Steered(angle, keys))
  }

  /** Angles the paddle can take in play: within [0, 360] and a whole
      number of 6-degree steps. */
  predicate OnGrid(angle: int)
  {
    0 <= angle <= FullTurn && angle % PaddleTurn == 0
  }

  /** The paddle angle after a sequence of frames, first frame first. */
  function PaddleRun(angle: int, frames: seq<Keys>): int
    decreases |frames|
  {
    if frames == [] then angle else PaddleRun(PaddleStep(angle, frames[0]), frames[1..])
  }

  lemma {:induction false} PaddleRunOnGrid(angle: int, frames: seq<Keys>)
    requires OnGrid(angle)
    ensures OnGrid(PaddleRun(angle, frames))
    decreases |frames|
  {
    if frames != [] {
      var next := PaddleStep(angle, frames[0]);
      assert (next - angle) % PaddleTurn == 0;
      assert OnGrid(next);
      PaddleRunOnGrid(next, frames[1..]);
    }
  }

  /** From the start angle 270 the paddle stays in [0, 360] on a multiple of 6. */
  lemma PaddleFromStart(frames: seq<Keys>)
    ensures OnGrid(PaddleRun(PaddleStart, frames))
  {
    PaddleRunOnGrid(PaddleStart, frames);
  }

  /** 360 is kept (the wrap test is a strict `>`); only a step past it wraps. */
  lemma PaddleKeepsFullTurn()
    ensures PaddleStep(354, Keys(false, true)) == 360
    ensures PaddleStep(360, Keys(false, true)) == 6
    ensures PaddleStep(0, Keys(true, false)) == 354
  {
  }

  // ------------------------------------------------------------ collision

  /** Where the ball stands with respect to the arena wall and the paddle. */
  datatype Contact = Inside | Hit | Miss

  /** The ball's direction from the centre, moved from (-180, 0) into (180, 360). */
  function BallAngle(theta: real): (r: real)
    requires -180.0 <= theta <= 180.0
    ensures 0.0 <= r < 360.0
    ensures r == theta || r == theta + 360.0
  {
    if theta < 0.0 then theta + 360.0 else theta
  }

  /** The ball reaches the wall: its distance from the centre plus its radius
      exceeds the arena radius. */
  predicate Crossing(distance: real)
  {
    distance + BallRadius as real > ArenaRadius
  }

  /** The paddle covers `ballAngle`: the closed window
      [paddleAngle - paddleSize/2, paddleAngle + paddleSize/2], not taken
      modulo 360. */
  predicate Covers(paddleAngle: int, paddleSize: int, ballAngle: real)
  {
    var half := paddleSize as real / 2.0;
    paddleAngle as real - half <= ballAngle <= paddleAngle as real + half
  }

  function Classify(distance: real, theta: real, paddleAngle: int, paddleSize: int): (c: Contact)
    requires -180.0 <= theta <= 180.0
    ensures c == Inside <==> !Crossing(distance)
    ensures c == Hit <==> Crossing(distance) && Covers(paddleAngle, paddleSize, BallAngle(theta))
  {
    if !Crossing(distance) then Inside
    else if Covers(paddleAngle, paddleSize, BallAngle(theta)) then Hit
    else Miss
  }

  function Abs(r: real): real { if r < 0.0 then -r else r }

  /** Reference form of the hit test: at the wall, and the ball's direction
      lies within half the paddle's width of the paddle's angle. */
  lemma HitByOffset(distance: real, theta: real, paddleAngle: int, paddleSize: int)
    requires -180.0 <= theta <= 180.0
    ensures Classify(distance, theta, paddleAngle, paddleSize) == Hit
        <==> distance > ArenaRadius - BallRadius as real
             && Abs(BallAngle(theta) - paddleAngle as real) <= paddleSize as real / 2.0
  {
  }

  /** Both ends of the paddle window count as hits. */
  lemma HitWindowInclusive(distance: real, theta: real, paddleAngle: int, paddleSize: int)
    requires -180.0 <= theta <= 180.0 && Crossing(distance) && 0 <= paddleSize
    requires BallAngle(theta) == paddleAngle as real - paddleSize as real / 2.0
          || BallAngle(theta) == paddleAngle as real + paddleSize as real / 2.0
    ensures Classify(distance, theta, paddleAngle, paddleSize) == Hit
  {
  }

  /** The window does not wrap: with the paddle at 0 degrees a ball at 355
      degrees (atan2 gives -5) is a miss, and so is a ball at 5 degrees with
      the paddle at 360. */
  lemma WindowDoesNotWrap()
    ensures Classify(295.0, -5.0, 0, PaddleSize) == Miss
    ensures Classify(295.0, 5.0, 360, PaddleSize) == Miss
    ensures Classify(295.0, 5.0, 0, PaddleSize) == Hit
  {
  }

  // ----------------------------------------------------------- bookkeeping

  /** The two counters main keeps and Ball::Update changes through references. */
  datatype Scores = Scores(score: int, highScore: int)

  function Max(a: int, b: int): int { if a < b then b else a }

  /** Score and high score after a frame with contact `c`. */
  function Scored(t: Scores, c: Contact): (r: Scores)
    ensures r.highScore >= t.highScore
    ensures c == Inside ==> r == t
    ensures c == Hit ==> r.score == t.score + 1 && r.highScore >= r.score
                         && (r.highScore == t.highScore || r.highScore == r.score)
    ensures c == Miss ==> r.score == 0 && r.highScore == t.highScore
  {
    match c
    case Inside => t
    case Hit =>
      var score := t.score + 1;
      Scores(score, if score > t.highScore then score else t.highScore)
    case Miss => Scores(0, t.highScore)
  }

  /** The frames on which the new high score is written to highscore.txt. */
  predicate NewRecord(t: Scores, c: Contact)
  {
    c == Hit && t.score + 1 > t.highScore
  }

  /** Scores a game can hold: the score is never negative and, once above
      zero, never above the high score (the loaded high score itself may be
      anything the file held). */
  predicate Sane(t: Scores)
  {
    0 <= t.score && (t.score == 0 || t.score <= t.highScore)
  }

  lemma ScoredSane(t: Scores, c: Contact)
    requires Sane(t)
    ensures Sane(Scored(t, c))
  {
  }

  /** The ball's speed after a frame with contact `c`. */
  function Accelerated(speed: real, c: Contact): (r: real)
    ensures r >= speed
    ensures r == speed || r == speed + SpeedStep
    ensures r != speed <==> c == Hit
  {
    if c == Hit then speed + SpeedStep else speed
  }

  // ------------------------------------------------------------ velocity

  /** The velocity a ball leaves the paddle with, before renormalisation:
      `v` mirrored across the wall normal at `offset` and turned by `turn`. */
  function Deflected(v: Vec, offset: Vec, distance: real, turn: Turn): (w: Vec)
    requires distance > 0.0 && distance * distance == NormSq(offset)
    requires turn.cos * turn.cos + turn.sin * turn.sin == 1.0
    ensures NormSq(w) == NormSq(v)
  {
    Rotate(Reflect(v, UnitNormal(offset, distance)), turn.cos, turn.sin)
  }

  /** The deflected velocity renormalised to `speed`, where `len` is the
      length of `v` (and hence of the deflected vector). */
  function Deflect(v: Vec, offset: Vec, distance: real, turn: Turn, len: real, speed: real): (r: Vec)
    requires distance > 0.0 && distance * distance == NormSq(offset)
    requires turn.cos * turn.cos + turn.sin * turn.sin == 1.0
    requires len > 0.0 && len * len == NormSq(v)
    ensures NormSq(r) == speed * speed
    ensures Dot(r, Deflected(v, offset, distance, turn)) == speed * len
  {
    Rescale(Deflected(v, offset, distance, turn), len, speed)
  }

  /** With no random turn the deflection is the plain mirror reflection,
      which sends the ball back inwards if it was moving outwards. */
  lemma DeflectStraight(v: Vec, offset: Vec, distance: real, d: int)
    requires distance > 0.0 && distance * distance == NormSq(offset)
    requires Dot(v, offset) > 0.0
    ensures Dot(Deflected(v, offset, distance, Turn(d, 1.0, 0.0)), offset) < 0.0
  {
  }

  /** The velocity Reset gives the ball: `speed` along the drawn direction. */
  function Launch(turn: Turn, speed: real): (v: Vec)
    requires turn.cos * turn.cos + turn.sin * turn.sin == 1.0
    ensures NormSq(v) == speed * speed
    ensures Dot(v, Vec(turn.cos, turn.sin)) == speed
  {
    var v := Vec(turn.cos * speed, turn.sin * speed);
    assert NormSq(v) == (turn.cos * turn.cos + turn.sin * turn.sin) * (speed * speed);
    assert Dot(v, Vec(turn.cos, turn.sin)) == (turn.cos * turn.cos + turn.sin * turn.sin) * speed;
    v
  }

  // ------------------------------------------------------- runs of frames

  /** Score and high score after a sequence of contacts, first frame first. */
  function ScoreRun(t: Scores, cs: seq<Contact>): Scores
    decreases |cs|
  {
    if cs == [] then t else ScoreRun(Scored(t, cs[0]), cs[1..])
  }

  /** Speed after a sequence of contacts. */
  function SpeedRun(speed: real, cs: seq<Contact>): real
    decreases |cs|
  {
    if cs == [] then speed else SpeedRun(Accelerated(speed, cs[0]), cs[1..])
  }

  function Hits(cs: seq<Contact>): nat
    decreases |cs|
  {
    if cs == [] then 0 else (if cs[0] == Hit then 1 else 0) + Hits(cs[1..])
  }

  /** Every hit adds exactly 0.2 to the speed; nothing else changes it. */
  lemma {:induction false} SpeedRunCountsHits(speed: real, cs: seq<Contact>)
    ensures SpeedRun(speed, cs) == speed + SpeedStep * Hits(cs) as real
    decreases |cs|
  {
    if cs != [] {
      SpeedRunCountsHits(Accelerated(speed, cs[0]), cs[1..]);
    }
  }

  /** The score shown after each frame of a run. */
  function ScoreTrace(t: Scores, cs: seq<Contact>): seq<int>
    decreases |cs|
  {
    if cs == [] then []
    else var next := Scored(t, cs[0]); [next.score] + ScoreTrace(next, cs[1..])
  }

  /** The largest of `h` and the elements of `s`. */
  function Peak(h: int, s: seq<int>): int
    decreases |s|
  {
    if s == [] then h else Peak(Max(h, s[0]), s[1..])
  }

  /** The high score after a run is the largest of the high score before it
      and every score reached during it. */
  lemma {:induction false} HighScoreIsPeak(t: Scores, cs: seq<Contact>)
    requires 0 <= t.score <= t.highScore
    ensures ScoreRun(t, cs).highScore == Peak(t.highScore, ScoreTrace(t, cs))
    decreases |cs|
  {
    if cs != [] {
      var next := Scored(t, cs[0]);
      assert next.highScore == Max(t.highScore, next.score);
      HighScoreIsPeak(next, cs[1..]);
    }
  }

  /** The values written to highscore.txt during a run, in order. */
  function Written(t: Scores, cs: seq<Contact>): seq<int>
    decreases |cs|
  {
    if cs == [] then []
    else
      var next := Scored(t, cs[0]);
      (if NewRecord(t, cs[0]) then [next.highScore] else []) + Written(next, cs[1..])
  }

  predicate Ascending(s: seq<int>)
  {
    forall i, j :: 0 <= i < j < |s| ==> s[i] < s[j]
  }

  /** Every value written during a run beats the high score the run
      started with. */
  lemma {:induction false} WrittenAbove(t: Scores, cs: seq<Contact>)
    ensures forall h :: h in Written(t, cs) ==> t.highScore < h
    decreases |cs|
  {
    if cs != [] {
      var next := Scored(t, cs[0]);
      WrittenAbove(next, cs[1..]);
      if NewRecord(t, cs[0]) {
        assert Written(t, cs) == [next.highScore] + Written(next, cs[1..]);
      } else {
        assert Written(t, cs) == Written(next, cs[1..]);
      }
    }
  }

  /** What is written to the file only grows. */
  lemma {:induction false} WrittenAscending(t: Scores, cs: seq<Contact>)
    ensures Ascending(Written(t, cs))
    decreases |cs|
  {
    if cs != [] {
      var next := Scored(t, cs[0]);
      var rest := Written(next, cs[1..]);
      WrittenAscending(next, cs[1..]);
      if NewRecord(t, cs[0]) {
        WrittenAbove(next, cs[1..]);
        var w := [next.highScore] + rest;
        assert Written(t, cs) == w;
        forall i, j | 0 <= i < j < |w|
          ensures w[i] < w[j]
        {
          assert w[j] == rest[j - 1];
          if i > 0 {
            assert w[i] == rest[i - 1];
          } else {
            assert rest[j - 1] in rest;
          }
        }
      } else {
        assert Written(t, cs) == rest;
      }
    }
  }

  /** The last value written is the high score the run ends with; when
      nothing is written the high score is unchanged. */
  lemma {:induction false} WrittenLast(t: Scores, cs: seq<Contact>)
    ensures var w := Written(t, cs);
      (w != [] ==> w[|w| - 1] == ScoreRun(t, cs).highScore)
      && (w == [] ==> ScoreRun(t, cs).highScore == t.highScore)
    decreases |cs|
  {
    if cs != [] {
      var next := Scored(t, cs[0]);
      var rest := Written(next, cs[1..]);
      WrittenLast(next, cs[1..]);
      if NewRecord(t, cs[0]) {
        assert Written(t, cs) == [next.highScore] + rest;
      } else {
        assert next.highScore == t.highScore;
        assert Written(t, cs) == rest;
      }
    }
  }

  /** Start at speed 5 and score 0, then three hits: speed 5.6, score 3,
      high score 3, and 1, 2, 3 written to the file. */
  lemma ThreeHits()
    ensures ScoreRun(Scores(0, 0), [Hit, Hit, Hit]) == Scores(3, 3)
    ensures SpeedRun(InitialSpeed, [Hit, Hit, Hit]) == 5.6
    ensures Written(Scores(0, 0), [Hit, Hit, Hit]) == [1, 2, 3]
  {
  }
}

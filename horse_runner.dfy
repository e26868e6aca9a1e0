/** The Horse Runner side-scroller: a hero that falls under gravity and can
    jump from the ground, obstacles that spawn at random intervals on the
    right and scroll left, box collision that ends the session, and a score
    that grows with survival time.

    The pure functions below describe one step each on a `World` value; the
    class `Game` holds the same state in mutable fields, as the component's
    refs do, and each of its methods is proved to perform that step. */
module HorseRunner {
  import opened Options

  // ---------------------------------------------------------------- constants

  const CanvasWidth: real := 860.0
  const CanvasHeight: real := 260.0
  const GroundLevel: real := CanvasHeight - 30.0
  const HeroHeight: real := 70.0
  const HeroWidth: real := 90.0
  const HeroX: real := 90.0
  const Gravity: real := 0.8
  const JumpForce: real := 14.0
  const BaseSpeed: real := 5.4
  const SpeedScale: real := 0.0015
  const MinSpawn: real := 900.0
  const MaxSpawn: real := 1600.0

  /** Obstacles enter 40 pixels beyond the right edge of the field. */
  const SpawnX: real := CanvasWidth + 40.0
  /** Score gained per elapsed millisecond. */
  const ScoreRate: real := 0.02
  /** Largest elapsed time a single tick is allowed to integrate. */
  const MaxDelta: real := 32.0

  // -------------------------------------------------------------- data model

  datatype Status = Idle | Running | Over

  datatype Obstacle = Obstacle(x: real, width: real, height: real)

  datatype Rect = Rect(x: real, y: real, width: real, height: real)

  /** What the renderer sees: hero position, obstacles and the floored score. */
  datatype Snapshot = Snapshot(heroY: real, obstacles: seq<Obstacle>, score: int)

  const InitialSnapshot: Snapshot := Snapshot(GroundLevel, [], 0)

  /** The whole session state: the hero, the obstacle list, the spawn timer
      and its threshold, the running score, the status, the best score, the
      published snapshot and the frame clock of the animation loop. */
  datatype World = World(
    heroY: real,
    heroVy: real,
    obstacles: seq<Obstacle>,
    spawnTimer: real,
    nextSpawn: real,
    score: real,
    status: Status,
    highScore: real,
    snapshot: Snapshot,
    lastTime: Option<real>)

  /** A random draw, as `Math.random()` returns it. */
  predicate IsDraw(u: real) {
    0.0 <= u < 1.0
  }

  // ------------------------------------------------------------ random draws

  /** The next spawn threshold, drawn uniformly from [MinSpawn, MaxSpawn). */
  function SpawnThreshold(u: real): (t: real)
    requires IsDraw(u)
    ensures MinSpawn <= t < MaxSpawn
  {
    MinSpawn + u * (MaxSpawn - MinSpawn)
  }

  /** A freshly spawned obstacle: at the spawn line, 28 to 58 pixels wide and
      35 to 85 pixels tall. */
  function SpawnedObstacle(uw: real, uh: real): (o: Obstacle)
    requires IsDraw(uw) && IsDraw(uh)
    ensures o.x == SpawnX
    ensures 28.0 <= o.width < 58.0 && 35.0 <= o.height < 85.0
  {
    Obstacle(SpawnX, 28.0 + uw * 30.0, 35.0 + uh * 50.0)
  }

  // ------------------------------------------------------------ hero physics

  /** Scroll speed grows with the score, starting from BaseSpeed. */
  function Speed(score: real): (v: real)
    ensures 0.0 <= score ==> BaseSpeed <= v
  {
    BaseSpeed + score * SpeedScale
  }

  lemma SpeedMonotone(s: real, t: real)
    requires s <= t
    ensures Speed(s) <= Speed(t)
    ensures s < t ==> Speed(s) < Speed(t)
  {
  }

  /** One tick of gravity: velocity first, then position, then the ground
      clamp that lands the hero and stops it. */
  function Fall(y: real, vy: real): (r: (real, real))
    ensures r.0 <= GroundLevel
    ensures y + vy + Gravity >= GroundLevel ==> r == (GroundLevel, 0.0)
    ensures y + vy + Gravity < GroundLevel ==> r == (y + vy + Gravity, vy + Gravity)
  {
    var vy' := vy + Gravity;
    var y' := y + vy';
    if y' >= GroundLevel then (GroundLevel, 0.0) else (y', vy')
  }

  /** The hero after `k` ticks of `Fall`. */
  function FallN(k: nat, y: real, vy: real): (real, real)
  {
    if k == 0 then (y, vy) else var p := FallN(k - 1, y, vy); Fall(p.0, p.1)
  }

  /** The jump rule: the impulse applies only to a hero on (or within one
      pixel of) the ground; in the air nothing changes. */
  function JumpWorld(w: World): (r: World)
    ensures w.heroY < GroundLevel - 1.0 ==> r == w
    ensures w.heroY >= GroundLevel - 1.0 ==> r.heroVy == -JumpForce && r.(heroVy := w.heroVy) == w
  {
    if w.heroY >= GroundLevel - 1.0 then w.(heroVy := -JumpForce) else w
  }

  // --------------------------------------------------------------- obstacles

  /** An obstacle is still in the field while its right edge is past 0. */
  predicate InField(o: Obstacle) {
    o.x + o.width > 0.0
  }

  function Shift(o: Obstacle, speed: real): Obstacle {
    o.(x := o.x - speed)
  }

  /** Every obstacle moved left by `speed`, in the same order. */
  function Shifted(obs: seq<Obstacle>, speed: real): (r: seq<Obstacle>)
    ensures |r| == |obs|
    ensures forall i :: 0 <= i < |obs| ==>
      r[i].x == obs[i].x - speed && r[i].width == obs[i].width && r[i].height == obs[i].height
  {
    if obs == [] then [] else [Shift(obs[0], speed)] + Shifted(obs[1..], speed)
  }

  /** The obstacles still in the field, in their original order. */
  function Survivors(obs: seq<Obstacle>): (r: seq<Obstacle>)
    ensures |r| <= |obs|
    ensures forall o :: o in r <==> o in obs && InField(o)
  {
    if obs == [] then []
    else (if InField(obs[0]) then [obs[0]] else []) + Survivors(obs[1..])
  }

  lemma {:induction false} SurvivorsAppend(a: seq<Obstacle>, b: seq<Obstacle>)
    ensures Survivors(a + b) == Survivors(a) + Survivors(b)
  {
    if a == [] {
      assert a + b == b;
    } else {
      assert (a + b)[0] == a[0];
      assert (a + b)[1..] == a[1..] + b;
      SurvivorsAppend(a[1..], b);
    }
  }

  /** The scroll step: shift every obstacle, then drop those that left. */
  function Scrolled(obs: seq<Obstacle>, speed: real): (r: seq<Obstacle>)
    ensures |r| <= |obs|
    ensures forall o :: o in r ==> InField(o)
    ensures forall o :: o in r <==>
      InField(o) && exists i :: 0 <= i < |obs| && o == Shift(obs[i], speed)
  {
    var s := Shifted(obs, speed);
    assert forall i :: 0 <= i < |obs| ==> s[i] == Shift(obs[i], speed);
    Survivors(s)
  }

  /** Scrolling commutes with concatenation, so obstacles keep their
      relative order; together with `ScrolledSingle` this pins the step down
      as an order-preserving map-then-filter. */
  lemma ScrolledAppend(a: seq<Obstacle>, b: seq<Obstacle>, speed: real)
    ensures Scrolled(a + b, speed) == Scrolled(a, speed) + Scrolled(b, speed)
  {
    var sa, sb, sab := Shifted(a, speed), Shifted(b, speed), Shifted(a + b, speed);
    assert sab == sa + sb by {
      forall i | 0 <= i < |sab| ensures sab[i] == (sa + sb)[i] {
        if i < |a| {
          assert (a + b)[i] == a[i];
        } else {
          assert (a + b)[i] == b[i - |a|];
        }
      }
    }
    SurvivorsAppend(sa, sb);
  }

  lemma ScrolledSingle(o: Obstacle, speed: real)
    ensures Scrolled([o], speed) ==
      if InField(Shift(o, speed)) then [Shift(o, speed)] else []
  {
  }

  // --------------------------------------------------------------- collision

  /** The hero's hitbox: the 90x70 sprite box shrunk by 5 pixels on each
      side, with its bottom 5 pixels above the hero's ground contact. */
  function HeroBox(heroY: real): (r: Rect)
    ensures r == Rect(95.0, heroY - 65.0, 80.0, 60.0)
  {
    Rect(HeroX + 5.0, heroY - HeroHeight + 5.0, HeroWidth - 10.0, HeroHeight - 10.0)
  }

  /** An obstacle's box stands on the ground. */
  function ObstacleBox(o: Obstacle): (r: Rect)
    ensures r.y + r.height == GroundLevel
    ensures r.x == o.x && r.width == o.width && r.height == o.height
  {
    Rect(o.x, GroundLevel - o.height, o.width, o.height)
  }

  /** Strict axis-aligned overlap: touching edges do not collide. */
  predicate Overlaps(a: Rect, b: Rect) {
    a.x < b.x + b.width && a.x + a.width > b.x &&
    a.y < b.y + b.height && a.y + a.height > b.y
  }

  /** The point (px, py) lies strictly inside `a`. */
  predicate Inside(a: Rect, px: real, py: real) {
    a.x < px < a.x + a.width && a.y < py < a.y + a.height
  }

  function Min(a: real, b: real): real { if a <= b then a else b }
  function Max(a: real, b: real): real { if a <= b then b else a }

  /** For boxes of positive size, the strict-inequality test holds exactly
      when some point lies strictly inside both boxes. */
  lemma OverlapsIffCommonPoint(a: Rect, b: Rect)
    requires a.width > 0.0 && a.height > 0.0 && b.width > 0.0 && b.height > 0.0
    ensures Overlaps(a, b) <==> exists px, py :: Inside(a, px, py) && Inside(b, px, py)
  {
    if Overlaps(a, b) {
      var px := (Max(a.x, b.x) + Min(a.x + a.width, b.x + b.width)) / 2.0;
      var py := (Max(a.y, b.y) + Min(a.y + a.height, b.y + b.height)) / 2.0;
      assert Inside(a, px, py) && Inside(b, px, py);
    }
  }

  predicate Hits(heroY: real, o: Obstacle) {
    Overlaps(HeroBox(heroY), ObstacleBox(o))
  }

  /** Some obstacle of the list collides with the hero. */
  predicate AnyHit(heroY: real, obs: seq<Obstacle>) {
    exists i :: 0 <= i < |obs| && Hits(heroY, obs[i])
  }

  /** For a hero at or above the ground, a collision means the obstacle
      overlaps the hitbox's columns 95..175 and is taller than the gap
      between the ground and the hitbox's bottom edge. */
  lemma HitsIff(heroY: real, o: Obstacle)
    requires heroY <= GroundLevel
    ensures Hits(heroY, o) <==>
      95.0 < o.x + o.width && o.x < 175.0 && heroY - 5.0 > GroundLevel - o.height
  {
  }

  /** The collision loop of the tick: stops at the first obstacle that hits. */
  method FindCollision(heroY: real, obs: seq<Obstacle>) returns (hit: bool)
    ensures hit == AnyHit(heroY, obs)
  {
    var heroRect := HeroBox(heroY);
    for i := 0 to |obs|
      invariant forall k :: 0 <= k < i ==> !Overlaps(heroRect, ObstacleBox(obs[k]))
    {
      if Overlaps(heroRect, ObstacleBox(obs[i])) {
        return true;
      }
    }
    return false;
  }

  // ---------------------------------------------------------- session rules

  /** Every session starts from the hero on the ground, no obstacles, a zero
      timer and score, a fresh spawn threshold and a cleared frame clock. */
  function ResetWorld(w: World, u: real): (r: World)
    requires IsDraw(u)
    ensures r.heroY == GroundLevel && r.heroVy == 0.0
    ensures r.obstacles == [] && r.spawnTimer == 0.0 && r.score == 0.0
    ensures MinSpawn <= r.nextSpawn < MaxSpawn
    ensures r.snapshot == InitialSnapshot && r.lastTime == None
    ensures r.status == w.status && r.highScore == w.highScore
    ensures WellFormed(r)
  {
    w.(heroY := GroundLevel, heroVy := 0.0, obstacles := [], spawnTimer := 0.0,
       nextSpawn := SpawnThreshold(u), score := 0.0, snapshot := InitialSnapshot,
       lastTime := None)
  }

  function StartWorld(w: World, u: real): (r: World)
    requires IsDraw(u)
    ensures r.status == Running
    ensures r.heroY == GroundLevel && r.heroVy == 0.0
    ensures r.obstacles == [] && r.spawnTimer == 0.0 && r.score == 0.0
    ensures r.highScore == w.highScore
    ensures r.snapshot == InitialSnapshot && r.lastTime == None
    ensures WellFormed(r)
  {
    ResetWorld(w, u).(status := Running)
  }

  /** The session ends; the best score only ever ratchets upward, and only
      a final score strictly above it replaces it. */
  function EndWorld(w: World): (r: World)
    ensures r.status == Over
    ensures r.highScore >= w.highScore && r.highScore >= w.score
    ensures r.highScore == w.highScore || r.highScore == w.score
    ensures r.highScore != w.highScore <==> w.score > w.highScore
    ensures r.(status := w.status, highScore := w.highScore) == w
  {
    w.(status := Over, highScore := if w.score > w.highScore then w.score else w.highScore)
  }

  predicate IsJumpKey(code: string) {
    code == "Space" || code == "ArrowUp"
  }

  /** Key dispatch: Space or ArrowUp starts a session that is not running
      and jumps in one that is; Enter starts only a session that is not
      running; every other key is ignored. */
  function KeyDownWorld(w: World, code: string, u: real): (r: World)
    requires IsDraw(u)
    ensures (IsJumpKey(code) || code == "Enter") && w.status != Running ==> r == StartWorld(w, u)
    ensures IsJumpKey(code) && w.status == Running ==> r == JumpWorld(w)
    ensures !IsJumpKey(code) && (code != "Enter" || w.status == Running) ==> r == w
  {
    var w1 := if IsJumpKey(code) then (if w.status != Running then StartWorld(w, u) else JumpWorld(w)) else w;
    if code == "Enter" && w.status != Running then StartWorld(w1, u) else w1
  }

  /** The obstacle list after the optional spawn, before scrolling: the
      old list, followed by one new obstacle at the spawn line exactly when
      the advanced timer strictly exceeds the threshold. */
  function WithSpawn(w: World, delta: real, uw: real, uh: real): (r: seq<Obstacle>)
    requires IsDraw(uw) && IsDraw(uh)
    ensures |w.obstacles| <= |r| <= |w.obstacles| + 1
    ensures r[..|w.obstacles|] == w.obstacles
    ensures |r| > |w.obstacles| <==> w.spawnTimer + delta > w.nextSpawn
    ensures |r| > |w.obstacles| ==> r[|r| - 1].x == SpawnX && SizedObstacle(r[|r| - 1])
  {
    if w.spawnTimer + delta > w.nextSpawn then w.obstacles + [SpawnedObstacle(uw, uh)] else w.obstacles
  }

  /** The first part of a tick, common to both outcomes: gravity and the
      ground clamp, the spawn timer, and the scroll step at the speed of the
      score before this tick. */
  function Advance(w: World, delta: real, uw: real, uh: real, us: real): (r: World)
    requires IsDraw(uw) && IsDraw(uh) && IsDraw(us)
    ensures (r.heroY, r.heroVy) == Fall(w.heroY, w.heroVy)
    ensures r.obstacles == Scrolled(WithSpawn(w, delta, uw, uh), Speed(w.score))
    ensures r.(heroY := w.heroY, heroVy := w.heroVy, obstacles := w.obstacles,
               spawnTimer := w.spawnTimer, nextSpawn := w.nextSpawn) == w
  {
    var fell := Fall(w.heroY, w.heroVy);
    var spawn := w.spawnTimer + delta > w.nextSpawn;
    w.(heroY := fell.0, heroVy := fell.1,
       spawnTimer := if spawn then 0.0 else w.spawnTimer + delta,
       nextSpawn := if spawn then SpawnThreshold(us) else w.nextSpawn,
       obstacles := Scrolled(WithSpawn(w, delta, uw, uh), Speed(w.score)))
  }

  /** One tick of `delta` milliseconds: the `Advance` step, then either a
      collision that ends the session or the score gain and a new snapshot. */
  function TickWorld(w: World, delta: real, uw: real, uh: real, us: real): (r: World)
    requires delta <= MaxDelta
    requires IsDraw(uw) && IsDraw(uh) && IsDraw(us)
    ensures (r.heroY, r.heroVy) == Fall(w.heroY, w.heroVy)
    ensures r.heroY <= GroundLevel
    // the spawn rule: at most one obstacle, only past the threshold
    ensures w.spawnTimer + delta > w.nextSpawn ==>
      r.spawnTimer == 0.0 && MinSpawn <= r.nextSpawn < MaxSpawn
    ensures w.spawnTimer + delta <= w.nextSpawn ==>
      r.spawnTimer == w.spawnTimer + delta && r.nextSpawn == w.nextSpawn
    ensures |r.obstacles| <= |w.obstacles| + 1
    // the scroll step, with the speed of the score before this tick
    ensures r.obstacles == Scrolled(WithSpawn(w, delta, uw, uh), Speed(w.score))
    // a collision ends the session and scores nothing
    ensures AnyHit(r.heroY, r.obstacles) ==>
      r.status == Over && r.score == w.score && r.snapshot == w.snapshot
    ensures !AnyHit(r.heroY, r.obstacles) ==>
      r.status == w.status && r.highScore == w.highScore &&
      r.score == w.score + delta * ScoreRate &&
      r.snapshot == Snapshot(r.heroY, r.obstacles, r.score.Floor)
    ensures 0.0 <= delta ==> w.score <= r.score
    ensures w.highScore <= r.highScore
    ensures AnyHit(r.heroY, r.obstacles) ==>
      r.highScore == (if w.score > w.highScore then w.score else w.highScore)
    ensures r.lastTime == w.lastTime
  {
    var m := Advance(w, delta, uw, uh, us);
    if AnyHit(m.heroY, m.obstacles) then EndWorld(m)
    else
      var score := w.score + delta * ScoreRate;
      m.(score := score, snapshot := Snapshot(m.heroY, m.obstacles, score.Floor))
  }

  /** The elapsed time the animation loop hands to a tick: zero on the first
      frame of a session, otherwise the time since the previous frame,
      capped at MaxDelta. */
  function FrameDelta(last: Option<real>, timestamp: real): (d: real)
    ensures d <= MaxDelta
    ensures last == None ==> d == 0.0
    ensures last.Some? && last.value <= timestamp ==> 0.0 <= d
    ensures last.Some? && timestamp - last.value <= MaxDelta ==> d == timestamp - last.value
    ensures last.Some? && timestamp - last.value > MaxDelta ==> d == MaxDelta
  {
    var l := if last == None then timestamp else last.value;
    Min(MaxDelta, timestamp - l)
  }

  // -------------------------------------------------------------- invariant

  predicate SizedObstacle(o: Obstacle) {
    28.0 <= o.width < 58.0 && 35.0 <= o.height < 85.0
  }

  /** What holds of every state a session reaches: the hero is never below
      the ground, the timer is below its threshold, the threshold is in its
      range, the score is non-negative and published floored, and every
      obstacle has a spawned size, has not reached the spawn line again and
      is still in the field. */
  ghost predicate WellFormed(w: World) {
    && w.heroY <= GroundLevel
    && 0.0 <= w.spawnTimer <= w.nextSpawn
    && MinSpawn <= w.nextSpawn < MaxSpawn
    && 0.0 <= w.score
    && w.snapshot.score == w.score.Floor
    && forall o :: o in w.obstacles ==> SizedObstacle(o) && o.x < SpawnX && InField(o)
  }

  lemma TickPreservesWellFormed(w: World, delta: real, uw: real, uh: real, us: real)
    requires WellFormed(w)
    requires 0.0 <= delta <= MaxDelta
    requires IsDraw(uw) && IsDraw(uh) && IsDraw(us)
    ensures WellFormed(TickWorld(w, delta, uw, uh, us))
  {
    var pre := WithSpawn(w, delta, uw, uh);
    var speed := Speed(w.score);
    assert forall o :: o in pre ==> SizedObstacle(o) && o.x <= SpawnX by {
      forall o | o in pre ensures SizedObstacle(o) && o.x <= SpawnX {
        var i :| 0 <= i < |pre| && pre[i] == o;
        if i < |w.obstacles| {
          assert o == w.obstacles[i] && o in w.obstacles;
        }
      }
    }
    var r := TickWorld(w, delta, uw, uh, us);
    forall o | o in r.obstacles
      ensures SizedObstacle(o) && o.x < SpawnX && InField(o)
    {
      var i :| 0 <= i < |pre| && o == Shift(pre[i], speed);
      assert pre[i] in pre;
    }
  }

  lemma JumpPreservesWellFormed(w: World)
    requires WellFormed(w)
    ensures WellFormed(JumpWorld(w))
  {
  }

  lemma EndPreservesWellFormed(w: World)
    requires WellFormed(w)
    ensures WellFormed(EndWorld(w))
  {
  }

  lemma KeyDownPreservesWellFormed(w: World, code: string, u: real)
    requires WellFormed(w)
    requires IsDraw(u)
    ensures WellFormed(KeyDownWorld(w, code, u))
  {
    if IsJumpKey(code) && w.status == Running {
      JumpPreservesWellFormed(w);
    }
  }

  // ------------------------------------------------------------ jump arc

  /** Closed form of the hero's flight after a jump from the ground: after
      k ticks (1 <= k <= 33) the hero is 14k - 0.4k(k+1) pixels up and moving
      at -14 + 0.8k, more than one pixel above the ground, so a second jump
      is refused. */
  lemma {:induction false} JumpArc(k: nat)
    requires 1 <= k <= 33
    ensures FallN(k, GroundLevel, -JumpForce) == (ArcY(k as real), ArcVy(k as real))
    ensures FallN(k, GroundLevel, -JumpForce).0 < GroundLevel - 1.0
  {
    var K := k as real;
    ArcAboveGround(K);
    if k == 1 {
      assert FallN(1, GroundLevel, -JumpForce) == Fall(GroundLevel, -JumpForce);
    } else {
      JumpArc(k - 1);
      ArcStep(K);
      assert FallN(k, GroundLevel, -JumpForce) == Fall(ArcY(K - 1.0), ArcVy(K - 1.0));
    }
  }

  /** Height of the hero k ticks after a jump from the ground. */
  function ArcY(K: real): real {
    GroundLevel - 14.0 * K + 0.4 * K * (K + 1.0)
  }

  /** Velocity of the hero k ticks after a jump from the ground. */
  function ArcVy(K: real): real {
    -JumpForce + Gravity * K
  }

  lemma ArcStep(K: real)
    ensures ArcY(K - 1.0) + ArcVy(K - 1.0) + Gravity == ArcY(K)
    ensures ArcVy(K - 1.0) + Gravity == ArcVy(K)
  {
  }

  /** During the flight the hero is more than one pixel above the ground:
      the height K * (13.6 - 0.4 * K) is at least 6.8 for 1 <= K <= 33. */
  lemma ArcAboveGround(K: real)
    requires 1.0 <= K <= 33.0
    ensures ArcY(K) < GroundLevel - 1.0
  {
    assert ArcY(K) == GroundLevel - K * (13.6 - 0.4 * K);
    if K <= 17.0 {
      MulAtLeast(K, 13.6 - 0.4 * K, 1.0, 6.8);
    } else {
      MulAtLeast(13.6 - 0.4 * K, K, 0.4, 17.0);
    }
  }

  lemma MulAtLeast(a: real, b: real, a0: real, b0: real)
    requires 0.0 <= a0 <= a && 0.0 <= b0 <= b
    ensures a0 * b0 <= a * b
  {
  }

  /** The hero lands on the 34th tick after a jump from the ground, and the
      landing stops it. */
  lemma JumpLands()
    ensures FallN(34, GroundLevel, -JumpForce) == (GroundLevel, 0.0)
  {
    JumpArc(33);
    assert FallN(34, GroundLevel, -JumpForce) == Fall(ArcY(33.0), ArcVy(33.0));
  }

  /** No double jump: during the whole flight a jump request changes nothing. */
  lemma NoDoubleJump(w: World, k: nat)
    requires 1 <= k <= 33
    requires (w.heroY, w.heroVy) == FallN(k, GroundLevel, -JumpForce)
    ensures JumpWorld(w) == w
  {
    JumpArc(k);
  }

  // ------------------------------------------------------------------- game

  /** The component's mutable state, one field per ref or state variable. */
  class Game {
    var heroY: real
    var heroVy: real
    var obstacles: seq<Obstacle>
    var spawnTimer: real
    var nextSpawn: real
    var score: real
    var status: Status
    var highScore: real
    var snapshot: Snapshot
    var lastTime: Option<real>

    function Model(): World
      reads this
    {
      World(heroY, heroVy, obstacles, spawnTimer, nextSpawn, score, status, highScore, snapshot, lastTime)
    }

    ghost predicate Valid()
      reads this
    {
      WellFormed(Model())
    }

    /** A new component: idle, hero on the ground, the stored best score
        and a first spawn threshold drawn from `u`. */
    constructor (best: real, u: real)
      requires IsDraw(u)
      ensures Valid()
      ensures Model() == World(GroundLevel, 0.0, [], 0.0, SpawnThreshold(u), 0.0, Idle, best, InitialSnapshot, None)
    {
      heroY, heroVy := GroundLevel, 0.0;
      obstacles := [];
      spawnTimer := 0.0;
      nextSpawn := SpawnThreshold(u);
      score := 0.0;
      status := Idle;
      highScore := best;
      snapshot := InitialSnapshot;
      lastTime := None;
    }

    method Reset(u: real)
      requires IsDraw(u)
      modifies this
      ensures Model() == ResetWorld(old(Model()), u)
      ensures Valid()
    {
      heroY, heroVy := GroundLevel, 0.0;
      obstacles := [];
      spawnTimer := 0.0;
      nextSpawn := SpawnThreshold(u);
      score := 0.0;
      snapshot := InitialSnapshot;
      lastTime := None;
    }

    method Start(u: real)
      requires IsDraw(u)
      modifies this
      ensures Model() == StartWorld(old(Model()), u)
      ensures Valid()
    {
      Reset(u);
      status := Running;
    }

    method End()
      modifies this
      ensures Model() == EndWorld(old(Model()))
      ensures old(Valid()) ==> Valid()
    {
      status := Over;
      if score > highScore {
        highScore := score;
      }
    }

    method Jump()
      modifies this
      ensures Model() == JumpWorld(old(Model()))
      ensures old(Valid()) ==> Valid()
    {
      if heroY >= GroundLevel - 1.0 {
        heroVy := -JumpForce;
      }
    }

    method KeyDown(code: string, u: real)
      requires IsDraw(u)
      modifies this
      ensures Model() == KeyDownWorld(old(Model()), code, u)
      ensures old(Valid()) ==> Valid()
    {
      var current := status;
      if IsJumpKey(code) {
        if current != Running {
          Start(u);
        } else {
          Jump();
        }
      }
      if code == "Enter" && current != Running {
        Start(u);
      }
    }

    /** The first half of a tick: gravity and the ground clamp, the spawn
        timer with its optional push, and the scroll step. */
    method Move(delta: real, uw: real, uh: real, us: real)
      requires IsDraw(uw) && IsDraw(uh) && IsDraw(us)
      modifies this
      ensures Model() == Advance(old(Model()), delta, uw, uh, us)
    {
      ghost var w := Model();
      var speed := Speed(score);

      heroVy := heroVy + Gravity;
      heroY := heroY + heroVy;
      if heroY >= GroundLevel {
        heroY := GroundLevel;
        heroVy := 0.0;
      }
      assert (heroY, heroVy) == Fall(w.heroY, w.heroVy);

      spawnTimer := spawnTimer + delta;
      if spawnTimer > nextSpawn {
        obstacles := obstacles + [SpawnedObstacle(uw, uh)];
        spawnTimer := 0.0;
        nextSpawn := SpawnThreshold(us);
      }
      assert obstacles == WithSpawn(w, delta, uw, uh);

      obstacles := Scrolled(obstacles, speed);
    }

    /** One tick: move, then the collision loop with its early return,
        then the score gain and the new snapshot. */
    method Tick(delta: real, uw: real, uh: real, us: real)
      requires delta <= MaxDelta
      requires IsDraw(uw) && IsDraw(uh) && IsDraw(us)
      modifies this
      ensures Model() == TickWorld(old(Model()), delta, uw, uh, us)
      ensures old(Valid()) && 0.0 <= delta ==> Valid()
    {
      ghost var w := Model();
      if WellFormed(w) && 0.0 <= delta {
        TickPreservesWellFormed(w, delta, uw, uh, us);
      }
      Move(delta, uw, uh, us);
      ghost var m := Model();

      var hit := FindCollision(heroY, obstacles);
      if hit {
        assert TickWorld(w, delta, uw, uh, us) == EndWorld(m);
        End();
        return;
      }

      score := score + delta * ScoreRate;
      snapshot := Snapshot(heroY, obstacles, score.Floor);
      assert Model() == m.(score := score, snapshot := snapshot);
    }

    /** One animation frame: measure the capped elapsed time and tick. */
    method Frame(timestamp: real, uw: real, uh: real, us: real)
      requires IsDraw(uw) && IsDraw(uh) && IsDraw(us)
      modifies this
      ensures var w := old(Model());
        Model() == TickWorld(w.(lastTime := Some(timestamp)), FrameDelta(w.lastTime, timestamp), uw, uh, us)
      ensures old(Valid()) && (old(lastTime).Some? ==> old(lastTime).value <= timestamp) ==> Valid()
    {
      ghost var w := Model();
      if lastTime == None {
        lastTime := Some(timestamp);
      }
      var delta := Min(MaxDelta, timestamp - lastTime.value);
      assert delta == FrameDelta(w.lastTime, timestamp);
      lastTime := Some(timestamp);
      assert Model() == w.(lastTime := Some(timestamp));
      assert WellFormed(w) ==> WellFormed(Model());
      Tick(delta, uw, uh, us);
    }
  }
}

// The value-level rules GameScene and Enemy apply each frame: the playable area,
// the bullet cadence accumulator, node removal, and one enemy's update step.

module SceneRules {
  import opened Geometry
  import opened Seek

  /** Height of the HUD strip at the top of the scene. */
  const HudHeight: real := 90.0

  /** The widest aspect ratio the playable area keeps (an iPhone 5 screen). */
  const MaxAspectRatio: real := 16.0 / 9.0

  /** A bullet is fired once more than this many seconds have accumulated. */
  const BulletCadence: real := 0.15

  /** The y coordinate of the ship's starting position. */
  const PlayerStartY: real := 100.0

  /** A CGSize. */
  datatype Size = Size(width: real, height: real)

  /**
   * The playable rectangle GameScene.init computes: as tall as the scene minus the
   * HUD, 9/16 of the scene's height wide, and centred horizontally.
   */
  function PlayableRect(size: Size): (r: Rect)
    ensures r.y == 0.0 && r.height == size.height - HudHeight
    ensures r.width * MaxAspectRatio == size.height
    ensures r.x + r.width / 2.0 == size.width / 2.0
  {
    var maxAspectRatioWidth := size.height / MaxAspectRatio;
    var playableMargin := (size.width - maxAspectRatioWidth) / 2.0;
    Rect(playableMargin, 0.0, maxAspectRatioWidth, size.height - HudHeight)
  }

  /** Where the ship is placed by configureEntities and restartGame. */
  function PlayerStart(size: Size): Point
  {
    Point(size.width / 2.0, PlayerStartY)
  }

  /** The ship starts in the middle of the playable area's width. */
  lemma PlayerStartsCentred(size: Size)
    ensures var r := PlayableRect(size);
            PlayerStart(size).x == r.x + r.width / 2.0
  {
  }

  /** The timing fields shootBullet updates, and whether it fired. */
  datatype Cadence = Cadence(lastUpdateTime: real, deltaTime: real, bulletInterval: real, fired: bool)

  /**
   * GameScene.shootBullet: the frame time is 0 on the first frame (lastUpdateTime
   * still 0) and currentTime - lastUpdateTime afterwards; it is added to the
   * accumulator, which fires a bullet and restarts from 0 once above 0.15.
   */
  function ShootStep(lastUpdateTime: real, bulletInterval: real, currentTime: real): (r: Cadence)
    ensures r.lastUpdateTime == currentTime
    ensures lastUpdateTime <= 0.0 ==> r.deltaTime == 0.0
    ensures lastUpdateTime > 0.0 ==> r.deltaTime == currentTime - lastUpdateTime
    ensures r.fired <==> bulletInterval + r.deltaTime > BulletCadence
    ensures r.fired ==> r.bulletInterval == 0.0
    ensures !r.fired ==> r.bulletInterval == bulletInterval + r.deltaTime
  {
    var deltaTime := if lastUpdateTime > 0.0 then currentTime - lastUpdateTime else 0.0;
    var accumulated := bulletInterval + deltaTime;
    if accumulated > BulletCadence then Cadence(currentTime, deltaTime, 0.0, true)
    else Cadence(currentTime, deltaTime, accumulated, false)
  }

  /**
   * While time does not run backwards the accumulator stays in [0, 0.15], and the
   * first frame never fires.
   */
  lemma CadenceBounded(lastUpdateTime: real, bulletInterval: real, currentTime: real)
    requires 0.0 <= bulletInterval <= BulletCadence
    requires lastUpdateTime <= currentTime
    ensures 0.0 <= ShootStep(lastUpdateTime, bulletInterval, currentTime).bulletInterval <= BulletCadence
    ensures lastUpdateTime <= 0.0 ==> !ShootStep(lastUpdateTime, bulletInterval, currentTime).fired
  {
  }

  /** The cadence state after a run of frames at the given times, and the bullets fired. */
  function ShootRun(c: Cadence, times: seq<real>): (r: Cadence)
  {
    if |times| == 0 then c
    else
      var prev := ShootRun(c, times[..|times| - 1]);
      ShootStep(prev.lastUpdateTime, prev.bulletInterval, times[|times| - 1])
  }

  function FiredIn(c: Cadence, times: seq<real>): nat
  {
    if |times| == 0 then 0
    else
      FiredIn(c, times[..|times| - 1])
      + (if ShootRun(c, times).fired then 1 else 0)
  }

  /**
   * Once the clock is running and never goes backwards, the accumulator stays in
   * [0, 0.15] and a run fires at most one bullet per 0.15 s of elapsed time: each
   * shot consumes more than 0.15 s of the accumulator.
   */
  lemma {:induction false} ShootRunRateLimit(c: Cadence, times: seq<real>)
    requires c.lastUpdateTime > 0.0 && 0.0 <= c.bulletInterval <= BulletCadence
    requires |times| > 0 ==> c.lastUpdateTime <= times[0]
    requires forall i :: 0 < i < |times| ==> times[i - 1] <= times[i]
    ensures ShootRun(c, times).lastUpdateTime == if |times| == 0 then c.lastUpdateTime else times[|times| - 1]
    ensures 0.0 <= ShootRun(c, times).bulletInterval <= BulletCadence
    ensures BulletCadence * (FiredIn(c, times) as real) + ShootRun(c, times).bulletInterval
            <= c.bulletInterval + (ShootRun(c, times).lastUpdateTime - c.lastUpdateTime)
  {
    if |times| > 0 {
      var before := times[..|times| - 1];
      ShootRunRateLimit(c, before);
      var prev := ShootRun(c, before);
      assert prev.lastUpdateTime <= times[|times| - 1];
      CadenceBounded(prev.lastUpdateTime, prev.bulletInterval, times[|times| - 1]);
    }
  }

  /** removeFromParent: the node leaves its parent's children and every other child stays. */
  function Remove<T(==)>(s: seq<T>, x: T): (r: seq<T>)
    ensures x !in r
    ensures forall i :: 0 <= i < |r| ==> r[i] in s
    ensures forall i :: 0 <= i < |s| && s[i] != x ==> s[i] in r
    ensures x !in s ==> r == s
    ensures |r| <= |s|
  {
    if |s| == 0 then []
    else if s[0] == x then Remove(s[1..], x)
    else [s[0]] + Remove(s[1..], x)
  }

  predicate Distinct<T(==)>(s: seq<T>)
  {
    forall i, j :: 0 <= i < j < |s| ==> s[i] != s[j]
  }

  /** Removing a node that is there, from children that are distinct, drops exactly one. */
  lemma {:induction false} RemoveDistinct<T>(s: seq<T>, x: T)
    requires Distinct(s)
    ensures Distinct(Remove(s, x))
    ensures x in s ==> |Remove(s, x)| == |s| - 1
  {
    if |s| > 0 {
      RemoveDistinct(s[1..], x);
      if s[0] != x {
        var r := Remove(s[1..], x);
        forall i, j | 0 <= i < j < |[s[0]] + r|
          ensures ([s[0]] + r)[i] != ([s[0]] + r)[j]
        {
          if i == 0 {
            assert ([s[0]] + r)[j] in s[1..];
          }
        }
      }
    }
  }

  /** The random x of a respawn or spawn lies between playableRect.origin.x and its width. */
  predicate SpawnXOk(rect: Rect, x: real)
  {
    Min(rect.x, rect.width) <= x <= Max(rect.x, rect.width)
  }

  /** A spawn or respawn point: the random x, at the top of the playable area. */
  function SpawnPoint(rect: Rect, x: real): Point
  {
    Point(x, rect.height)
  }

  /**
   * The upper bound of the spawn range is the rectangle's width, not its right edge:
   * with a margin 0 < origin.x <= width, no enemy ever appears in the right-most strip
   * (width, origin.x + width] of the playable area.
   */
  lemma SpawnMissesRightStrip(rect: Rect, x: real)
    requires 0.0 < rect.x <= rect.width && SpawnXOk(rect, x)
    ensures MinX(rect) <= x <= MaxX(rect) - rect.x
  {
  }

  /** The fields of an enemy and its steering agent that Enemy.update reads and writes. */
  datatype EnemyView = EnemyView(position: Point, dead: bool, health: real, steer: Steer)

  /** The enemy's position once the respawn part of Enemy.update has run. */
  function StartOf(v: EnemyView, rect: Rect, x: real): Point
  {
    if v.dead then SpawnPoint(rect, x) else v.position
  }

  /** The steering state once the re-target part of Enemy.update has run. */
  function TargetOf(v: EnemyView, target: Point): Steer
  {
    if v.steer.waypointReached then Retarget(v.steer, target) else v.steer
  }

  /**
   * What Enemy.update demands of its inputs: a respawn x in range when the enemy is
   * dead, and a steering step that is defined (the agent is not on its waypoint, and
   * `distance` is the length the steering agent measures).
   */
  predicate TickInputsOk(t: Tuning, v: EnemyView, rect: Rect, target: Point, x: real, distance: real)
  {
    t.maxVelocity != 0.0
    && (v.dead ==> SpawnXOk(rect, x))
    && IsLength(distance, Sub(TargetOf(v, target).waypoint, StartOf(v, rect, x)))
  }

  /**
   * One Enemy.update on values: respawn at the top when dead, re-target the player
   * when the waypoint was reached, then one Seek step.
   */
  function EnemyTick(t: Tuning, v: EnemyView, rect: Rect, target: Point, x: real, distance: real): (r: EnemyView)
    requires TickInputsOk(t, v, rect, target, x, distance)
    ensures !r.dead && r.health == v.health
    ensures v.dead ==> StartOf(v, rect, x) == Point(x, rect.height)
    ensures r.steer.waypoint == if v.steer.waypointReached then target else v.steer.waypoint
    ensures r.steer.waypointReached <==> distance < t.waypointRadius
    ensures r.position == r.steer.currentPosition == Add(StartOf(v, rect, x), r.steer.currentDirection)
  {
    var s := SeekStep(t, TargetOf(v, target), StartOf(v, rect, x), distance);
    EnemyView(s.currentPosition, false, v.health, s)
  }

  /** Every enemy's inputs for this frame are in the shape EnemyTick demands. */
  predicate TicksOk(t: Tuning, vs: seq<EnemyView>, rects: seq<Rect>, target: Point, xs: seq<real>, ds: seq<real>)
  {
    |rects| == |xs| == |ds| == |vs|
    && forall i :: 0 <= i < |vs| ==> TickInputsOk(t, vs[i], rects[i], target, xs[i], ds[i])
  }

  /** One frame of the enemy layer: every enemy, in order, takes one EnemyTick. */
  function TickAll(t: Tuning, vs: seq<EnemyView>, rects: seq<Rect>, target: Point, xs: seq<real>, ds: seq<real>): (r: seq<EnemyView>)
    requires TicksOk(t, vs, rects, target, xs, ds)
    ensures |r| == |vs|
    ensures forall i :: 0 <= i < |vs| ==> r[i] == EnemyTick(t, vs[i], rects[i], target, xs[i], ds[i])
  {
    seq(|vs|, i requires 0 <= i < |vs| => EnemyTick(t, vs[i], rects[i], target, xs[i], ds[i]))
  }
}

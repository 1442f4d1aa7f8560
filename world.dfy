// The game world as objects whose fields change in place: the Seek steering agent,
// the entities (player ship, enemies, bullets) and the scene that owns them.
// Each method states its new state as a function of the old one, using the value
// rules of Seek, Combat and SceneRules.

module World {
  import opened Geometry
  import opened Seek
  import opened Combat
  import Kinds
  import opened Decimal
  import opened SceneRules

  /** Enemy.healthMeterText: the eight-character bar an enemy's meter shows a prefix of. */
  const HealthMeterText: string := "________"

  /** GameScene.healthBarString: the twenty-character bar of the ship's health label. */
  const HealthBarString: string := "===================="

  /**
   * A Seek steering agent attached to one entity. Its tuning values and
   * faceDirectionOfTravel are assigned by the initialiser and never again, so they
   * are constants here.
   */
  class AISteering {
    /**
     * Weak in the source: the agent does not keep its entity alive. The enemy
     * initialiser attaches itself right after creating the agent.
     */
    var entity: Entity?
    const maxVelocity: real
    const maxSteeringForce: real
    const waypointRadius: real
    const faceDirectionOfTravel: bool
    var waypoint: Point
    var currentPosition: Point
    var currentDirection: Point
    var waypointReached: bool

    function Tune(): Tuning
    {
      Tuning(maxVelocity, maxSteeringForce, waypointRadius)
    }

    function State(): Steer
      reads this
    {
      Steer(waypoint, currentPosition, currentDirection, waypointReached)
    }

    constructor (waypoint: Point)
      ensures entity == null && Tune() == Defaults
      ensures State() == Steer(waypoint, Zero, Zero, false) && !faceDirectionOfTravel
    {
      entity := null;
      maxVelocity := 10.0;
      maxSteeringForce := 0.06;
      waypointRadius := 50.0;
      faceDirectionOfTravel := false;
      this.waypoint := waypoint;
      currentPosition := Zero;
      currentDirection := Zero;
      waypointReached := false;
    }

    /**
     * One Seek step. `distance` is the length of waypoint - entity.position, which
     * the source computes with a square root; the step is undefined when it is 0.
     * `delta` is accepted and ignored, as in the source.
     */
    method Update(delta: real, distance: real)
      requires entity != null && maxVelocity != 0.0
      requires IsLength(distance, Sub(waypoint, entity.position))
      modifies this`currentPosition, this`currentDirection, this`waypointReached, entity`position
      ensures State() == SeekStep(Tune(), old(State()), old(entity.position), distance)
      ensures entity.position == currentPosition
    {
      currentPosition := entity.position;
      var desiredDirection := Sub(waypoint, currentPosition);
      var distanceToWaypoint := distance;
      desiredDirection := Div(Scale(desiredDirection, maxVelocity), distanceToWaypoint);
      var force := Sub(desiredDirection, currentDirection);
      var steeringForce := Div(Scale(force, maxSteeringForce), maxVelocity);
      currentDirection := Add(currentDirection, steeringForce);
      currentPosition := Add(currentPosition, currentDirection);
      entity.position := currentPosition;
      if distanceToWaypoint < waypointRadius {
        waypointReached := true;
      }
    }

    /** A new target; the reached latch is cleared whatever it was. */
    method UpdateWaypoint(waypoint: Point)
      modifies this`waypoint, this`waypointReached
      ensures State() == Retarget(old(State()), waypoint)
    {
      this.waypoint := waypoint;
      waypointReached := false;
    }
  }

  /**
   * An Entity sprite. The subclasses PlayerShip, Enemy (EnemyA, EnemyB) and Bullet
   * are one class here, told apart by `kind`; the fields only a subclass has keep
   * their initial values in the others. Enemy's playableRect and score are assigned
   * only by the initialisers.
   */
  class Entity {
    const kind: Kinds.Kind
    var position: Point
    var direction: Point
    var health: real
    var maxHealth: real

    // Enemy
    const playableRect: Rect
    const score: int
    /** Enemy.aiSteering: created by the enemy initialisers, nil in the other kinds. */
    const steering: AISteering?
    var dead: bool
    /** healthMeterLabel.text */
    var healthMeterLabel: string

    // PlayerShip: ventingPlasma.hidden
    var ventingHidden: bool

    /** SKNode.name as the initialisers set it. */
    function NodeName(): string
    {
      Kinds.Name(kind)
    }

    /** Entity.init(position:texture:), for a bare entity. */
    constructor Plain(position: Point)
      ensures kind == Kinds.Plain && this.position == position && direction == Zero
      ensures health == maxHealth == FullHealth && steering == null
    {
      kind := Kinds.Plain;
      this.position := position;
      direction := Zero;
      health := FullHealth;
      maxHealth := FullHealth;
      playableRect := Rect(0.0, 0.0, 0.0, 0.0);
      score := 0;
      steering := null;
      dead := false;
      healthMeterLabel := "";
      ventingHidden := false;
    }

    /** PlayerShip.init(entityPosition:): plasma emitter hidden. */
    constructor PlayerShip(entityPosition: Point)
      ensures kind == Kinds.PlayerShip && position == entityPosition && direction == Zero
      ensures health == maxHealth == FullHealth && steering == null && ventingHidden
    {
      kind := Kinds.PlayerShip;
      position := entityPosition;
      direction := Zero;
      health := FullHealth;
      maxHealth := FullHealth;
      playableRect := Rect(0.0, 0.0, 0.0, 0.0);
      score := 0;
      steering := null;
      dead := false;
      healthMeterLabel := "";
      ventingHidden := true;
    }

    /**
     * EnemyA.init(entityPosition:playableRect:): an alive enemy worth 225 points,
     * its meter full, with a new steering agent heading for (0, 0).
     */
    constructor EnemyA(entityPosition: Point, playableRect: Rect)
      ensures kind == Kinds.EnemyA && position == entityPosition && direction == Zero
      ensures this.playableRect == playableRect && score == EnemyAScore
      ensures health == maxHealth == FullHealth && !dead && healthMeterLabel == HealthMeterText
      ensures steering != null && fresh(steering) && steering.entity == this
      ensures steering.Tune() == Defaults && steering.State() == Steer(Zero, Zero, Zero, false)
    {
      kind := Kinds.EnemyA;
      position := entityPosition;
      direction := Zero;
      health := FullHealth;
      maxHealth := FullHealth;
      this.playableRect := playableRect;
      score := EnemyAScore;
      dead := false;
      healthMeterLabel := HealthMeterText;
      ventingHidden := false;
      steering := new AISteering(Zero);
      new;
      steering.entity := this;
    }

    /** EnemyB is not part of this model beyond being an Enemy with its own score. */
    constructor EnemyB(entityPosition: Point, playableRect: Rect, score: int)
      ensures kind == Kinds.EnemyB && position == entityPosition && direction == Zero
      ensures this.playableRect == playableRect && this.score == score
      ensures health == maxHealth == FullHealth && !dead && healthMeterLabel == HealthMeterText
      ensures steering != null && fresh(steering) && steering.entity == this
      ensures steering.Tune() == Defaults && steering.State() == Steer(Zero, Zero, Zero, false)
    {
      kind := Kinds.EnemyB;
      position := entityPosition;
      direction := Zero;
      health := FullHealth;
      maxHealth := FullHealth;
      this.playableRect := playableRect;
      this.score := score;
      dead := false;
      healthMeterLabel := HealthMeterText;
      ventingHidden := false;
      steering := new AISteering(Zero);
      new;
      steering.entity := this;
    }

    /** Bullet.init(entityPosition:). */
    constructor Bullet(entityPosition: Point)
      ensures kind == Kinds.Bullet && position == entityPosition && direction == Zero
      ensures health == maxHealth == FullHealth && steering == null
    {
      kind := Kinds.Bullet;
      position := entityPosition;
      direction := Zero;
      health := FullHealth;
      maxHealth := FullHealth;
      playableRect := Rect(0.0, 0.0, 0.0, 0.0);
      score := 0;
      steering := null;
      dead := false;
      healthMeterLabel := "";
      ventingHidden := false;
    }

    /** The shape every live enemy keeps: its own agent, default tuning, health in (0, 100]. */
    ghost predicate EnemyOk()
      reads this, steering
    {
      kind.IsEnemy() && steering != null && steering.entity == this
      && steering.Tune() == Defaults
      && 0.0 < health <= maxHealth && maxHealth == FullHealth
    }

    /** The fields Enemy.update works on. */
    function View(): EnemyView
      requires steering != null
      reads this, steering
    {
      EnemyView(position, dead, health, steering.State())
    }

    /**
     * Entity.update: a no-op, overridden by Enemy.update. `respawnX` is the random x a
     * dead enemy reappears at, `target` the player ship's position, and `distance` the
     * length the steering agent measures.
     */
    method Update(delta: real, respawnX: real, target: Point, distance: real)
      requires kind.IsEnemy() ==> EnemyOk()
      requires kind.IsEnemy() ==> TickInputsOk(Defaults, View(), playableRect, target, respawnX, distance)
      modifies this`position, this`dead, this`healthMeterLabel, steering
      ensures kind.IsEnemy() ==>
                EnemyOk()
                && View() == EnemyTick(Defaults, old(View()), playableRect, target, respawnX, distance)
                && healthMeterLabel == Bar(HealthMeterText, health)
      ensures !kind.IsEnemy() ==> unchanged(this)
      ensures steering != null && !kind.IsEnemy() ==> unchanged(steering)
    {
      if kind.IsEnemy() {
        if dead {
          dead := false;
          position := SpawnPoint(playableRect, respawnX);
        }
        if steering.waypointReached {
          steering.UpdateWaypoint(target);
        }
        steering.Update(delta, distance);
        healthMeterLabel := Bar(HealthMeterText, health);
      }
    }

    /**
     * Entity.collidedWith, overridden by each subclass: the ship loses 5 and updates
     * its venting flag, an enemy loses 10 and on death scores and resets, a bullet
     * removes itself from the bullet layer, a bare entity does nothing.
     */
    method CollidedWith(scene: GameScene)
      modifies this`health, this`dead, this`ventingHidden
      modifies scene`score, scene`scoreText, scene`bullets
      ensures kind == Kinds.PlayerShip ==>
                PlayerHitOutcome(health, ventingHidden) == PlayerHit(old(health))
                && dead == old(dead) && unchanged(scene)
      ensures kind.IsEnemy() ==>
                var hit := EnemyHit(old(health), old(maxHealth));
                health == hit.health && dead == (old(dead) || hit.lethal)
                && ventingHidden == old(ventingHidden)
                && scene.score == old(scene.score) + (if hit.lethal then score else 0)
                && (hit.lethal ==> scene.scoreText == ScoreLabel(scene.score))
                && (!hit.lethal ==> scene.scoreText == old(scene.scoreText))
                && scene.bullets == old(scene.bullets)
      ensures kind == Kinds.Bullet ==>
                unchanged(this) && scene.bullets == Remove(old(scene.bullets), this)
                && scene.score == old(scene.score) && scene.scoreText == old(scene.scoreText)
      ensures kind == Kinds.Plain ==> unchanged(this) && unchanged(scene)
    {
      match kind
      case PlayerShip =>
        health := health - PlayerDamagePerContact;
        ventingHidden := health > VentingThreshold;
        if health < 0.0 {
          health := 0.0;
        }
      case EnemyA =>
        EnemyCollided(scene);
      case EnemyB =>
        EnemyCollided(scene);
      case Bullet =>
        scene.bullets := Remove(scene.bullets, this);
      case Plain =>
    }

    /** The health and score part of Enemy.collidedWith. */
    method EnemyCollided(scene: GameScene)
      modifies this`health, this`dead, scene`score, scene`scoreText
      ensures var hit := EnemyHit(old(health), old(maxHealth));
              health == hit.health && dead == (old(dead) || hit.lethal)
              && scene.score == old(scene.score) + (if hit.lethal then score else 0)
              && (hit.lethal ==> scene.scoreText == ScoreLabel(scene.score))
              && (!hit.lethal ==> scene.scoreText == old(scene.scoreText))
    {
      health := health - DamageTakenPerHit;
      if health <= 0.0 {
        dead := true;
        scene.IncreaseScoreBy(score);
        health := maxHealth;
      }
    }
  }

  datatype GameState = GameRunning | GameOver

  datatype EnemyType = A | B

  /** The random choices made when one enemy is spawned. */
  datatype Spawn = Spawn(x: real, waypoint: Point)

  /** An initial position x in [origin.x, width] and waypoint in [origin.x, width] × [0, height]. */
  predicate SpawnOk(rect: Rect, s: Spawn)
  {
    SpawnXOk(rect, s.x) && SpawnXOk(rect, s.waypoint.x)
    && Min(0.0, rect.height) <= s.waypoint.y <= Max(0.0, rect.height)
  }

  /** The object `o` refers to, if any. */
  function Present(o: Entity?): (r: set<Entity>)
    ensures o != null <==> o in r
    ensures forall e :: e in r ==> e == o
  {
    if o == null then {} else {o}
  }

  /** The steering agents of a layer's enemies. */
  function SteeringsOf(es: seq<Entity>): set<AISteering>
  {
    set e | e in es && e.steering != null :: e.steering
  }

  /** The ship: a PlayerShip with health in [0, 100]. */
  ghost predicate PlayerOk(p: Entity?)
    reads p
  {
    p != null && p.kind == Kinds.PlayerShip && p.steering == null
    && 0.0 <= p.health <= p.maxHealth && p.maxHealth == FullHealth
  }

  /** The enemy layer: distinct enemies, each in the shape EnemyOk describes. */
  ghost predicate EnemiesOk(es: seq<Entity>)
    reads es, SteeringsOf(es)
  {
    (forall i :: 0 <= i < |es| ==> es[i].EnemyOk()) && Distinct(es)
  }

  /** The fields Enemy.update works on, for each enemy of a layer in order. */
  ghost function Views(es: seq<Entity>): (vs: seq<EnemyView>)
    requires forall i :: 0 <= i < |es| ==> es[i].steering != null
    reads es, SteeringsOf(es)
    ensures |vs| == |es| && forall i :: 0 <= i < |es| ==> vs[i] == es[i].View()
  {
    seq(|es|, i requires 0 <= i < |es| && es[i].steering != null reads es, SteeringsOf(es) => es[i].View())
  }

  /** The playable rectangle each enemy of a layer was created with. */
  function RectsOf(es: seq<Entity>): (rs: seq<Rect>)
    ensures |rs| == |es| && forall i :: 0 <= i < |es| ==> rs[i] == es[i].playableRect
  {
    seq(|es|, i requires 0 <= i < |es| => es[i].playableRect)
  }

  /** `e` is a new enemy of type `t` as addEnemyOfType places it: alive, full health, heading for its waypoint. */
  ghost predicate Spawned(e: Entity, rect: Rect, t: EnemyType, score: int, s: Spawn)
    reads e, e.steering
  {
    e.kind == (if t == A then Kinds.EnemyA else Kinds.EnemyB)
    && e.score == score && e.position == SpawnPoint(rect, s.x) && e.playableRect == rect
    && !e.dead && e.health == FullHealth && e.steering != null
    && e.steering.State() == Steer(s.waypoint, Zero, Zero, false)
  }

  /** `es` is `before` followed by one new enemy of type `t` per spawn, in order. */
  ghost predicate AddedEnemies(es: seq<Entity>, before: seq<Entity>, rect: Rect, t: EnemyType, score: int, spawns: seq<Spawn>)
    reads es, SteeringsOf(es)
  {
    |es| == |before| + |spawns| && es[..|before|] == before
    && forall i :: 0 <= i < |spawns| ==> Spawned(es[|before| + i], rect, t, score, spawns[i])
  }

  /** configureEntities' enemies: `before`, then the EnemyA spawns, then the EnemyB spawns. */
  ghost predicate Populated(es: seq<Entity>, before: seq<Entity>, rect: Rect, scoreB: int,
                            spawnsA: seq<Spawn>, spawnsB: seq<Spawn>)
    reads es, SteeringsOf(es)
  {
    |es| == |before| + |spawnsA| + |spawnsB|
    && AddedEnemies(es[..|before| + |spawnsA|], before, rect, A, EnemyAScore, spawnsA)
    && AddedEnemies(es, es[..|before| + |spawnsA|], rect, B, scoreB, spawnsB)
  }

  /** The scene: layers of nodes, the HUD texts, the timing fields and the game state. */
  class GameScene {
    const size: Size
    const playableRect: Rect
    /** The score an EnemyB awards: EnemyB is not part of this model. */
    const enemyBScore: int
    var player: Entity?
    /** The children of playerLayerNode, enemyLayerNode and bulletLayerNode. */
    var playerLayer: seq<Entity>
    var enemies: seq<Entity>
    var bullets: seq<Entity>
    var deltaPoint: Point
    var bulletInterval: real
    var lastUpdateTime: real
    var deltaTime: real
    var score: int
    var scoreText: string
    var playerHealthText: string
    var gameState: GameState
    /** gameOverLabel has a parent: the GAME OVER screen is up. */
    var gameOverShown: bool

    ghost predicate Valid()
      reads this, player, enemies, SteeringsOf(enemies)
    {
      PlayerOk(player) && EnemiesOk(enemies) && player !in enemies
      && (forall p :: p in playerLayer ==> p.kind == Kinds.PlayerShip)
      && (forall b :: b in bullets ==> b.kind == Kinds.Bullet)
      && scoreText == ScoreLabel(score)
      && (gameOverShown ==> gameState == GameOver)
    }

    /** GameScene.init(size:): playable area, HUD texts, the ship and eight enemies. */
    constructor (size: Size, enemyBScore: int, spawnsA: seq<Spawn>, spawnsB: seq<Spawn>)
      requires |spawnsA| == |spawnsB| == 4
      requires forall i :: 0 <= i < 4 ==> SpawnOk(PlayableRect(size), spawnsA[i]) && SpawnOk(PlayableRect(size), spawnsB[i])
      ensures Valid() && gameState == GameRunning && !gameOverShown
      ensures this.size == size && playableRect == PlayableRect(size) && this.enemyBScore == enemyBScore
      ensures score == 0 && scoreText == "Score: 0"
      ensures playerHealthText == HealthBarString[..15]
      ensures deltaPoint == Zero && bulletInterval == lastUpdateTime == deltaTime == 0.0
      ensures fresh(player) && playerLayer == [player] && player.position == PlayerStart(size)
      ensures player.health == FullHealth && bullets == []
      ensures Populated(enemies, [], playableRect, enemyBScore, spawnsA, spawnsB)
    {
      this.size := size;
      playableRect := PlayableRect(size);
      this.enemyBScore := enemyBScore;
      player := null;
      playerLayer := [];
      enemies := [];
      bullets := [];
      deltaPoint := Zero;
      bulletInterval := 0.0;
      lastUpdateTime := 0.0;
      deltaTime := 0.0;
      score := 0;
      gameState := GameOver;
      scoreText := "Score: 0";
      playerHealthText := HealthBarString[..20 * 75 / 100];
      gameOverShown := false;
      ScoreLabelFaithful(0, 0);
      new;
      gameState := GameRunning;
      ConfigureEntities(spawnsA, spawnsB);
    }

    /** The score an enemy of the given type awards. */
    function ScoreOf(t: EnemyType): int
    {
      if t == A then EnemyAScore else enemyBScore
    }

    /** Where the ship goes this frame: moved by deltaPoint, clamped into the playable area. */
    function MovedPlayer(): Point
      requires player != null
      reads this, player
    {
      ClampInto(Add(player.position, deltaPoint), playableRect)
    }

    /**
     * GameScene.update: the ship moves by deltaPoint, clamped into the playable area,
     * then the running or the game-over branch. `respawnXs[i]` and `distances[i]` are
     * the random x and the steering distance for enemies[i] this frame.
     */
    method Update(currentTime: real, respawnXs: seq<real>, distances: seq<real>)
      requires Valid()
      requires gameState == GameRunning ==>
                 TicksOk(Defaults, Views(enemies), RectsOf(enemies), MovedPlayer(), respawnXs, distances)
      modifies this, player`position, enemies`position, enemies`dead, enemies`healthMeterLabel, SteeringsOf(enemies)
      ensures Valid()
      ensures player == old(player) && player.position == old(MovedPlayer()) && deltaPoint == Zero
      ensures player.health == old(player.health) && score == old(score)
      ensures old(gameState) == GameRunning ==>
                var c := ShootStep(old(lastUpdateTime), old(bulletInterval), currentTime);
                lastUpdateTime == c.lastUpdateTime && deltaTime == c.deltaTime
                && bulletInterval == c.bulletInterval
                && (c.fired ==> |bullets| == |old(bullets)| + 1 && bullets[..|old(bullets)|] == old(bullets)
                                && fresh(bullets[|old(bullets)|])
                                && bullets[|old(bullets)|].position == player.position)
                && (!c.fired ==> bullets == old(bullets))
                && enemies == old(enemies) && playerLayer == old(playerLayer)
                && Views(enemies)
                   == TickAll(Defaults, old(Views(enemies)), RectsOf(enemies), player.position, respawnXs, distances)
                && (forall i :: 0 <= i < |enemies| ==> enemies[i].healthMeterLabel == Bar(HealthMeterText, enemies[i].health))
                && playerHealthText == Bar(HealthBarString, player.health)
                && gameState == (if player.health <= 0.0 then GameOver else GameRunning)
                && gameOverShown == old(gameOverShown)
      ensures old(gameState) == GameOver ==>
                gameState == GameOver && gameOverShown
                && lastUpdateTime == old(lastUpdateTime) && bulletInterval == old(bulletInterval)
                && deltaTime == old(deltaTime) && playerHealthText == old(playerHealthText)
                && unchanged(old(enemies)) && unchanged(SteeringsOf(old(enemies)))
                && (old(gameOverShown) ==>
                      bullets == old(bullets) && enemies == old(enemies) && playerLayer == old(playerLayer))
                && (!old(gameOverShown) ==>
                      bullets == [] && enemies == [] && playerLayer == Remove(old(playerLayer), player))
    {
      MovePlayer();
      match gameState
      case GameRunning =>
        RunningFrame(currentTime, respawnXs, distances);
      case GameOver =>
        GameOverFrame();
    }

    /** The first lines of GameScene.update: the ship moves by deltaPoint, clamped, and deltaPoint is spent. */
    method MovePlayer()
      requires Valid()
      modifies player`position, this`deltaPoint
      ensures Valid() && player.position == old(MovedPlayer()) && deltaPoint == Zero
      ensures unchanged(enemies) && unchanged(SteeringsOf(enemies))
    {
      player.position := MovedPlayer();
      deltaPoint := Zero;
    }

    /**
     * The GameRunning branch of GameScene.update: shoot, update every enemy toward the
     * ship, redraw the ship's health bar, and end the game at zero health.
     */
    method RunningFrame(currentTime: real, respawnXs: seq<real>, distances: seq<real>)
      requires Valid() && gameState == GameRunning
      requires TicksOk(Defaults, Views(enemies), RectsOf(enemies), player.position, respawnXs, distances)
      modifies this`lastUpdateTime, this`deltaTime, this`bulletInterval, this`bullets
      modifies this`playerHealthText, this`gameState, enemies`position, enemies`dead, enemies`healthMeterLabel, SteeringsOf(enemies)
      ensures Valid()
      ensures var c := ShootStep(old(lastUpdateTime), old(bulletInterval), currentTime);
              lastUpdateTime == c.lastUpdateTime && deltaTime == c.deltaTime
              && bulletInterval == c.bulletInterval
              && (c.fired ==> |bullets| == |old(bullets)| + 1 && bullets[..|old(bullets)|] == old(bullets)
                              && fresh(bullets[|old(bullets)|])
                              && bullets[|old(bullets)|].position == player.position)
              && (!c.fired ==> bullets == old(bullets))
      ensures player.position == old(player.position) && player.health == old(player.health)
      ensures Views(enemies)
              == TickAll(Defaults, old(Views(enemies)), RectsOf(enemies), player.position, respawnXs, distances)
      ensures forall i :: 0 <= i < |enemies| ==> enemies[i].healthMeterLabel == Bar(HealthMeterText, enemies[i].health)
      ensures playerHealthText == Bar(HealthBarString, player.health)
      ensures gameState == (if player.health <= 0.0 then GameOver else GameRunning)
    {
      ShootBullet(currentTime);
      EnemiesAndHud(respawnXs, distances);
    }

    /**
     * The rest of the GameRunning branch: every enemy updates toward the ship, the
     * ship's health bar is redrawn, and the game ends at zero health.
     */
    method EnemiesAndHud(respawnXs: seq<real>, distances: seq<real>)
      requires Valid() && gameState == GameRunning
      requires TicksOk(Defaults, Views(enemies), RectsOf(enemies), player.position, respawnXs, distances)
      modifies this`playerHealthText, this`gameState, enemies`position, enemies`dead, enemies`healthMeterLabel, SteeringsOf(enemies)
      ensures Valid()
      ensures player.position == old(player.position) && player.health == old(player.health)
      ensures Views(enemies)
              == TickAll(Defaults, old(Views(enemies)), RectsOf(enemies), player.position, respawnXs, distances)
      ensures forall i :: 0 <= i < |enemies| ==> enemies[i].healthMeterLabel == Bar(HealthMeterText, enemies[i].health)
      ensures playerHealthText == Bar(HealthBarString, player.health)
      ensures gameState == (if player.health <= 0.0 then GameOver else GameRunning)
    {
      UpdateEnemies(enemies, deltaTime, player.position, respawnXs, distances);
      RedrawHealth();
    }

    /** The end of a running frame: the ship's health bar, and GAME OVER at zero health. */
    method RedrawHealth()
      requires Valid() && gameState == GameRunning
      modifies this`playerHealthText, this`gameState
      ensures Valid()
      ensures playerHealthText == Bar(HealthBarString, player.health)
      ensures gameState == (if player.health <= 0.0 then GameOver else GameRunning)
      ensures unchanged(enemies) && unchanged(SteeringsOf(enemies))
    {
      playerHealthText := Bar(HealthBarString, player.health);
      if player.health <= 0.0 {
        gameState := GameOver;
      }
    }

    /**
     * The GameOver branch of GameScene.update: the first time through, empty the
     * bullet and enemy layers, take the ship off its layer and show GAME OVER.
     */
    method GameOverFrame()
      requires Valid() && gameState == GameOver
      modifies this`bullets, this`enemies, this`playerLayer, this`gameOverShown
      ensures Valid() && gameOverShown
      ensures old(gameOverShown) ==>
                bullets == old(bullets) && enemies == old(enemies) && playerLayer == old(playerLayer)
      ensures !old(gameOverShown) ==>
                bullets == [] && enemies == [] && playerLayer == Remove(old(playerLayer), player)
    {
      if !gameOverShown {
        bullets := [];
        enemies := [];
        playerLayer := Remove(playerLayer, player);
        gameOverShown := true;
      }
    }

    /**
     * The loop over enemyLayerNode.children in GameScene.update: each enemy, in order,
     * takes one update toward `target`.
     */
    static method UpdateEnemies(enemies: seq<Entity>, delta: real, target: Point, respawnXs: seq<real>,
                                distances: seq<real>)
      requires EnemiesOk(enemies)
      requires TicksOk(Defaults, Views(enemies), RectsOf(enemies), target, respawnXs, distances)
      modifies enemies`position, enemies`dead, enemies`healthMeterLabel, SteeringsOf(enemies)
      ensures EnemiesOk(enemies)
      ensures Views(enemies) == TickAll(Defaults, old(Views(enemies)), RectsOf(enemies), target, respawnXs, distances)
      ensures forall i :: 0 <= i < |enemies| ==> enemies[i].healthMeterLabel == Bar(HealthMeterText, enemies[i].health)
    {
      ghost var before := Views(enemies);
      ghost var after := TickAll(Defaults, before, RectsOf(enemies), target, respawnXs, distances);
      for i := 0 to |enemies|
        invariant forall j :: 0 <= j < |enemies| ==> enemies[j].EnemyOk()
        invariant forall j :: 0 <= j < i ==>
                    enemies[j].View() == after[j]
                    && enemies[j].healthMeterLabel == Bar(HealthMeterText, enemies[j].health)
        invariant forall j :: i <= j < |enemies| ==> enemies[j].View() == before[j]
      {
        var enemy := enemies[i];
        assert forall j :: 0 <= j < |enemies| && j != i ==>
                 enemies[j] != enemy && enemies[j].steering != enemy.steering;
        enemy.Update(delta, respawnXs[i], target, distances[i]);
      }
      assert Views(enemies) == after;
    }

    /** GameScene.shootBullet. */
    method ShootBullet(currentTime: real)
      requires Valid()
      modifies this`lastUpdateTime, this`deltaTime, this`bulletInterval, this`bullets
      ensures Valid()
      ensures var c := ShootStep(old(lastUpdateTime), old(bulletInterval), currentTime);
              lastUpdateTime == c.lastUpdateTime && deltaTime == c.deltaTime
              && bulletInterval == c.bulletInterval
              && (c.fired ==> |bullets| == |old(bullets)| + 1 && bullets[..|old(bullets)|] == old(bullets)
                              && fresh(bullets[|old(bullets)|])
                              && bullets[|old(bullets)|].position == player.position)
              && (!c.fired ==> bullets == old(bullets))
    {
      if lastUpdateTime > 0.0 {
        deltaTime := currentTime - lastUpdateTime;
      } else {
        deltaTime := 0.0;
      }
      lastUpdateTime := currentTime;
      bulletInterval := bulletInterval + deltaTime;
      if bulletInterval > BulletCadence {
        bulletInterval := 0.0;
        var bullet := new Entity.Bullet(player.position);
        bullets := bullets + [bullet];
      }
    }

    /** A touch restarts the game only from the GAME OVER state. */
    method TouchesBegan(spawnsA: seq<Spawn>, spawnsB: seq<Spawn>)
      requires Valid()
      requires gameState == GameOver ==>
                 |spawnsA| == |spawnsB| == 4
                 && forall i :: 0 <= i < 4 ==> SpawnOk(playableRect, spawnsA[i]) && SpawnOk(playableRect, spawnsB[i])
      modifies this
      ensures Valid()
      ensures old(gameState) == GameRunning ==> unchanged(this)
      ensures old(gameState) == GameOver ==>
                gameState == GameRunning && !gameOverShown && score == 0 && scoreText == "Score: 0"
                && fresh(player) && playerLayer == old(playerLayer) + [player]
                && player.health == FullHealth && player.position == PlayerStart(size)
                && Populated(enemies, old(enemies), playableRect, enemyBScore, spawnsA, spawnsB)
                && bullets == old(bullets) && deltaPoint == old(deltaPoint) && deltaTime == old(deltaTime)
                && bulletInterval == old(bulletInterval) && lastUpdateTime == old(lastUpdateTime)
                && playerHealthText == old(playerHealthText)
    {
      if gameState == GameOver {
        RestartGame(spawnsA, spawnsB);
      }
    }

    /** The ship follows the finger: the move is the touch's displacement. */
    method TouchesMoved(currentPoint: Point, previousPoint: Point)
      modifies this`deltaPoint
      ensures deltaPoint == Sub(currentPoint, previousPoint)
    {
      deltaPoint := Sub(currentPoint, previousPoint);
    }

    method TouchesEnded()
      modifies this`deltaPoint
      ensures deltaPoint == Zero
    {
      deltaPoint := Zero;
    }

    method TouchesCancelled()
      modifies this`deltaPoint
      ensures deltaPoint == Zero
    {
      deltaPoint := Zero;
    }

    /** A new ship at the start position, then 3 + 1 enemies of each type. */
    method ConfigureEntities(spawnsA: seq<Spawn>, spawnsB: seq<Spawn>)
      requires EnemiesOk(enemies)
      requires |spawnsA| == |spawnsB| == 4
      requires forall i :: 0 <= i < 4 ==> SpawnOk(playableRect, spawnsA[i]) && SpawnOk(playableRect, spawnsB[i])
      modifies this`player, this`playerLayer, this`enemies
      ensures EnemiesOk(enemies) && PlayerOk(player) && player !in enemies
      ensures fresh(player) && playerLayer == old(playerLayer) + [player]
      ensures player.position == PlayerStart(size) && player.health == FullHealth
      ensures Populated(enemies, old(enemies), playableRect, enemyBScore, spawnsA, spawnsB)
    {
      var ship := new Entity.PlayerShip(PlayerStart(size));
      player := ship;
      playerLayer := playerLayer + [ship];
      AddEnemyOfType(A, 3, spawnsA);
      ghost var mid := enemies;
      AddEnemyOfType(B, 3, spawnsB);
      assert enemies[..|old(enemies)| + |spawnsA|] == mid;
    }

    /** `for _ in 0...count`: the closed range spawns count + 1 enemies. */
    method AddEnemyOfType(t: EnemyType, count: int, spawns: seq<Spawn>)
      requires EnemiesOk(enemies)
      requires count >= 0 && |spawns| == count + 1
      requires forall i :: 0 <= i < |spawns| ==> SpawnOk(playableRect, spawns[i])
      modifies this`enemies
      ensures EnemiesOk(enemies)
      ensures AddedEnemies(enemies, old(enemies), playableRect, t, ScoreOf(t), spawns)
      ensures forall j :: |old(enemies)| <= j < |enemies| ==> fresh(enemies[j])
      ensures unchanged(old(enemies)) && unchanged(SteeringsOf(old(enemies)))
    {
      for k := 0 to count + 1
        invariant EnemiesOk(enemies)
        invariant |enemies| == |old(enemies)| + k && enemies[..|old(enemies)|] == old(enemies)
        invariant forall i :: 0 <= i < k ==> Spawned(enemies[|old(enemies)| + i], playableRect, t, ScoreOf(t), spawns[i])
        invariant forall j :: |old(enemies)| <= j < |enemies| ==> fresh(enemies[j])
      {
        var enemy := SpawnEnemy(t, spawns[k]);
        ghost var before := enemies;
        enemies := enemies + [enemy];
        assert forall j :: 0 <= j < |before| ==> enemies[j] == before[j];
      }
    }

    /** One pass of addEnemyOfType's loop body: a new enemy of type `t` heading for its waypoint. */
    method SpawnEnemy(t: EnemyType, s: Spawn) returns (enemy: Entity)
      ensures fresh(enemy) && fresh(enemy.steering)
      ensures enemy.EnemyOk() && Spawned(enemy, playableRect, t, ScoreOf(t), s)
    {
      var at := SpawnPoint(playableRect, s.x);
      if t == A {
        enemy := new Entity.EnemyA(at, playableRect);
      } else {
        enemy := new Entity.EnemyB(at, playableRect, enemyBScore);
      }
      enemy.steering.UpdateWaypoint(s.waypoint);
    }

    /** GameScene.increaseScoreBy. */
    method IncreaseScoreBy(increment: int)
      modifies this`score, this`scoreText
      ensures score == old(score) + increment && scoreText == ScoreLabel(score)
    {
      score := score + increment;
      scoreText := ScoreLabel(score);
    }

    /**
     * GameScene.restartGame: Running again, a fresh ship at full health at the start
     * position, score 0, and eight more enemies added to whatever the enemy layer holds.
     */
    method RestartGame(spawnsA: seq<Spawn>, spawnsB: seq<Spawn>)
      requires Valid()
      requires |spawnsA| == |spawnsB| == 4
      requires forall i :: 0 <= i < 4 ==> SpawnOk(playableRect, spawnsA[i]) && SpawnOk(playableRect, spawnsB[i])
      modifies this
      ensures Valid() && gameState == GameRunning && !gameOverShown
      ensures score == 0 && scoreText == "Score: 0"
      ensures fresh(player) && playerLayer == old(playerLayer) + [player]
      ensures player.health == player.maxHealth == FullHealth && player.position == PlayerStart(size)
      ensures Populated(enemies, old(enemies), playableRect, enemyBScore, spawnsA, spawnsB)
      ensures bullets == old(bullets) && deltaPoint == old(deltaPoint)
      ensures bulletInterval == old(bulletInterval) && lastUpdateTime == old(lastUpdateTime)
      ensures deltaTime == old(deltaTime) && playerHealthText == old(playerHealthText)
    {
      gameState := GameRunning;
      ConfigureEntities(spawnsA, spawnsB);
      ResetScoreAndShip();
    }

    /** The rest of restartGame: score 0, the ship restored and placed, GAME OVER taken down. */
    method ResetScoreAndShip()
      requires player != null && player !in enemies
      modifies this`score, this`scoreText, this`gameOverShown, player`health, player`position
      ensures score == 0 && scoreText == ScoreLabel(0) && scoreText == "Score: 0" && !gameOverShown
      ensures player.health == player.maxHealth && player.position == PlayerStart(size)
      ensures unchanged(enemies) && unchanged(SteeringsOf(enemies))
    {
      score := 0;
      scoreText := "Score: 0";
      ScoreLabelFaithful(0, 0);
      player.health := player.maxHealth;
      player.position := PlayerStart(size);
      gameOverShown := false;
    }

    /**
     * didBeginContact: bodyA's node is hit only when it is named "enemy", bodyB's
     * only when it is named "playerShip" or "bullet"; a null node is skipped. A body
     * may be any ship of the player layer: a restart before the GAME OVER teardown
     * leaves the old ship there beside the new one, and it is still hit.
     */
    method DidBeginContact(a: Entity?, b: Entity?)
      requires Valid()
      requires a != null ==> a in playerLayer || a == player || a in enemies || a in bullets
      requires b != null ==> b in playerLayer || b == player || b in enemies || b in bullets
      modifies this`score, this`scoreText, this`bullets
      modifies (Present(a) + Present(b))`health
      modifies (Present(a) + Present(b))`dead
      modifies (Present(a) + Present(b))`ventingHidden
      ensures Valid()
      ensures a != null && a.kind.IsEnemy() ==>
                var hit := EnemyHit(old(a.health), old(a.maxHealth));
                a.health == hit.health && a.dead == (old(a.dead) || hit.lethal)
                && score == old(score) + (if hit.lethal then a.score else 0)
                && a.ventingHidden == old(a.ventingHidden)
      ensures (a == null || !a.kind.IsEnemy()) ==> score == old(score)
      ensures a != null && !a.kind.IsEnemy() && a != b ==> unchanged(a)
      ensures b != null && b.kind == Kinds.PlayerShip ==>
                PlayerHitOutcome(b.health, b.ventingHidden) == PlayerHit(old(b.health)) && b.dead == old(b.dead)
      ensures bullets == if b != null && b.kind == Kinds.Bullet then Remove<Entity>(old(bullets), b) else old(bullets)
      ensures b != null && b.kind.IsEnemy() && a != b ==> unchanged(b)
      ensures b != null && b.kind == Kinds.Bullet ==> unchanged(b)
    {
      if a != null {
        Kinds.NamesRoute(a.kind);
      }
      if b != null {
        Kinds.NamesRoute(b.kind);
      }
      if a != null && Kinds.RoutedAsBodyA(a.NodeName()) {
        a.CollidedWith(this);
      }
      if b != null && Kinds.RoutedAsBodyB(b.NodeName()) {
        b.CollidedWith(this);
      }
    }
  }
}

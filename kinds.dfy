// The kinds of sprite the game creates, the node names the scene dispatches on,
// and the physics category and contact-test bits each kind's body carries.

module Kinds {

  /**
   * The closed family Entity / PlayerShip / EnemyA / EnemyB / Bullet. `Plain` is a
   * bare Entity: no subclass hooks, no name and no physics body.
   */
  datatype Kind = Plain | PlayerShip | EnemyA | EnemyB | Bullet
  {
    predicate IsEnemy() { this == EnemyA || this == EnemyB }
  }

  /** SKNode.name as each initialiser sets it; a bare Entity has none (""). */
  function Name(k: Kind): string
  {
    match k
    case Plain => ""
    case PlayerShip => "playerShip"
    case EnemyA => "enemy"
    case EnemyB => "enemy"
    case Bullet => "bullet"
  }

  /** Entity.ColliderType. */
  const PlayerCategory: bv32 := 1
  const EnemyCategory: bv32 := 2
  const BulletCategory: bv32 := 4

  /** The categoryBitMask of the kind's physics body (0: no body). */
  function Category(k: Kind): bv32
  {
    match k
    case Plain => 0
    case PlayerShip => PlayerCategory
    case EnemyA => EnemyCategory
    case EnemyB => EnemyCategory
    case Bullet => BulletCategory
  }

  /** The contactTestBitMask of the kind's physics body. */
  function ContactTestMask(k: Kind): bv32
  {
    match k
    case Plain => 0
    case PlayerShip => EnemyCategory
    case EnemyA => PlayerCategory | BulletCategory
    case EnemyB => PlayerCategory | BulletCategory
    case Bullet => EnemyCategory
  }

  /** Every body has collisionBitMask 0: nothing is pushed around by the physics engine. */
  function CollisionMask(k: Kind): bv32 { 0 }

  /** `mask` selects bodies of kind `k`. */
  predicate Selects(mask: bv32, k: Kind)
  {
    mask & Category(k) != 0
  }

  /** The three categories are distinct single bits. */
  lemma CategoriesAreDistinctBits()
    ensures PlayerCategory & EnemyCategory == 0 && PlayerCategory & BulletCategory == 0
    ensures EnemyCategory & BulletCategory == 0
    ensures forall k: Kind :: Category(k) & (Category(k) - 1) == 0
  {
  }

  /** Each contact-test mask selects exactly the kinds its comment names. */
  lemma MasksSelectNamedKinds(k: Kind)
    ensures Selects(ContactTestMask(PlayerShip), k) <==> k.IsEnemy()
    ensures Selects(ContactTestMask(Bullet), k) <==> k.IsEnemy()
    ensures Selects(ContactTestMask(EnemyA), k) <==> k == PlayerShip || k == Bullet
    ensures Selects(ContactTestMask(EnemyB), k) <==> k == PlayerShip || k == Bullet
    ensures !Selects(ContactTestMask(Plain), k)
    ensures forall k2: Kind :: !Selects(CollisionMask(k), k2)
  {
  }

  /** SpriteKit reports a contact when either body's test mask selects the other. */
  predicate ContactReported(a: Kind, b: Kind)
  {
    Selects(ContactTestMask(a), b) || Selects(ContactTestMask(b), a)
  }

  /** So exactly enemy/ship and enemy/bullet pairs ever reach didBeginContact. */
  lemma ReportedPairs(a: Kind, b: Kind)
    ensures ContactReported(a, b)
            <==> (a.IsEnemy() && (b == PlayerShip || b == Bullet))
                 || (b.IsEnemy() && (a == PlayerShip || a == Bullet))
  {
  }

  /** didBeginContact hands bodyA's node to collidedWith only under this name. */
  predicate RoutedAsBodyA(name: string) { name == "enemy" }

  /** ...and bodyB's node only under these. */
  predicate RoutedAsBodyB(name: string) { name == "playerShip" || name == "bullet" }

  /** Which kinds each routing test lets through, by the names the initialisers set. */
  lemma NamesRoute(k: Kind)
    ensures RoutedAsBodyA(Name(k)) <==> k.IsEnemy()
    ensures RoutedAsBodyB(Name(k)) <==> k == PlayerShip || k == Bullet
  {
    match k
    case Plain =>
    case PlayerShip => assert Name(k)[0] == 'p';
    case EnemyA =>
    case EnemyB =>
    case Bullet => assert Name(k)[0] == 'b';
  }

  /**
   * For every reported pair both bodies are dispatched or neither is: both when the
   * enemy is bodyA, neither when the enemy is bodyB.
   */
  lemma DispatchIsAllOrNothing(a: Kind, b: Kind)
    requires ContactReported(a, b)
    ensures RoutedAsBodyA(Name(a)) <==> RoutedAsBodyB(Name(b))
    ensures RoutedAsBodyA(Name(a)) <==> a.IsEnemy()
  {
    ReportedPairs(a, b);
  }
}

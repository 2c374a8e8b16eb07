/**
  The component structs of the engine (Engine/src/ECS/Component.h) and the game
  components the tank code reads and writes. Floating-point fields are carried as
  reals and only ever copied; textures are named by their texture-manager key.
 */
module Components {
  import opened Wrappers
  import ComponentTypes

  /** An entity is referred to by its position in the entity manager. */
  type EntityId = nat

  /** Handle of a body owned by the external physics world. */
  type BodyHandle = nat

  datatype Vec2 = Vec2(x: real, y: real)

  /** A texture as the texture manager names it ("tankBody", "tankTurret", ...). */
  datatype TextureRef = TextureRef(name: string)

  /** The fields every component inherits from Component. */
  datatype Base = Base(owner: Option<EntityId>, typeId: nat, active: bool)

  datatype Shape = AABox | Circle

  /** The four speed settings Tank::Update chooses between. */
  datatype SpeedMode = Normal | Boosted | Reduced | BoostedReduced

  datatype TransformComponent = TransformComponent(position: Vec2, size: Vec2, rotation: real)

  datatype HealthComponent = HealthComponent(current: int, max: int, dead: bool)

  /** Game::TankComponent: references to the separately managed body and turret
      entities plus the per-frame speed and shield state. */
  datatype TankComponent = TankComponent(
    bodyEntity: EntityId,
    turretEntity: EntityId,
    speedReduced: bool,
    speedBoosted: bool,
    shieldActivated: bool,
    hasSpecial: bool,
    speed: SpeedMode)

  /** ShootComponent; lastFired is a time stamp in milliseconds. */
  datatype ShootComponent = ShootComponent(cooldown: bool, lastFired: int, ammo: int, infiniteAmmo: bool)

  /** The data of one component, one variant per component struct. */
  datatype Data =
    | Box2dBody(body: BodyHandle)
    | Transform(transform: TransformComponent)
    | Mover(translationSpeed: Vec2, rotationSpeed: real)
    | Collision(extent: Vec2, shape: Shape, collidedWith: set<EntityId>)
    | Sprite(image: Option<TextureRef>, flipHorizontal: bool, flipVertical: bool)
    | Player
    | Score(text: string, scoreNum: int)
    | Health(health: HealthComponent)
    | Shadow
    | Tank(tank: TankComponent)
    | Shoot(shoot: ShootComponent)
    | SolidObject
    | Ownership(ownedByPlayer: bool)
    | Bullet(collided: bool, power: int)
    | Lake

  datatype Component = Component(base: Base, data: Data)

  /** The kind under which a component of this data is stored. */
  function KindOf(d: Data): ComponentTypes.Kind {
    match d
    case Box2dBody(_) => ComponentTypes.Box2dBody
    case Transform(_) => ComponentTypes.Transform
    case Mover(_, _) => ComponentTypes.Mover
    case Collision(_, _, _) => ComponentTypes.Collision
    case Sprite(_, _, _) => ComponentTypes.Sprite
    case Player => ComponentTypes.Player
    case Score(_, _) => ComponentTypes.Score
    case Health(_) => ComponentTypes.Health
    case Shadow => ComponentTypes.Shadow
    case Tank(_) => ComponentTypes.Tank
    case Shoot(_) => ComponentTypes.Shoot
    case SolidObject => ComponentTypes.SolidObject
    case Ownership(_) => ComponentTypes.Ownership
    case Bullet(_, _) => ComponentTypes.Bullet
    case Lake => ComponentTypes.Lake
  }

  /** The inherited fields as a component's constructor leaves them: their in-class
      defaults (no owner, type id 0, inactive). */
  const Unattached: Base := Base(None, 0, false)

  /** A component as its constructor leaves it. */
  function Fresh(d: Data): (c: Component)
    ensures c.base.owner == None && c.base.typeId == 0 && !c.base.active
    ensures c.data == d
  {
    Component(Unattached, d)
  }

  /** TransformComponent(pos, size); the shorter constructors are this with zero
      position or size, and the rotation always starts at 0. */
  function NewTransform(position: Vec2, size: Vec2): (d: Data)
    ensures d.Transform? && d.transform.position == position && d.transform.size == size
    ensures d.transform.rotation == 0.0
  {
    Transform(TransformComponent(position, size, 0.0))
  }

  /** MoverComponent(): no translation or rotation speed. */
  function NewMover(): (d: Data)
    ensures d.Mover? && d.translationSpeed == Vec2(0.0, 0.0) && d.rotationSpeed == 0.0
  {
    Mover(Vec2(0.0, 0.0), 0.0)
  }

  /** CollisionComponent(): a circle of zero size touching nothing. */
  function NewCollision(): (d: Data)
    ensures d.Collision? && d.shape == Circle && d.collidedWith == {}
  {
    Collision(Vec2(0.0, 0.0), Circle, {})
  }

  /** CollisionComponent(radius): still a circle; only the first size element is used.
      What the one-argument vec2 constructor puts in the second element is not part
      of this model, so y holds the radius only as a placeholder. */
  function NewCircleCollision(radius: real): (d: Data)
    ensures d.Collision? && d.shape == Circle && d.extent.x == radius && d.collidedWith == {}
  {
    Collision(Vec2(radius, radius), Circle, {})
  }

  /** CollisionComponent(x, y): the only constructor that selects an axis-aligned box. */
  function NewBoxCollision(x: real, y: real): (d: Data)
    ensures d.Collision? && d.shape == AABox && d.extent == Vec2(x, y) && d.collidedWith == {}
  {
    Collision(Vec2(x, y), AABox, {})
  }

  /** Only the two-extent collision constructor yields a box, whatever the arguments. */
  lemma BoxIffTwoExtents(radius: real, x: real, y: real)
    ensures NewCollision().shape != AABox
    ensures NewCircleCollision(radius).shape != AABox
    ensures NewBoxCollision(x, y).shape == AABox
  {
  }

  /** SpriteComponent(image): unflipped. */
  function NewSprite(image: TextureRef): (d: Data)
    ensures d.Sprite? && d.image == Some(image) && !d.flipHorizontal && !d.flipVertical
  {
    Sprite(Some(image), false, false)
  }

  /** ScoreComponent(): empty text and a zero score. */
  function NewScore(): (d: Data)
    ensures d.Score? && d.scoreNum == 0 && d.text == ""
  {
    Score("", 0)
  }

  /** HealthComponent(): alive. Its two health fields have no initialiser in the
      struct, so whoever builds one supplies them. */
  function NewHealth(current: int, max: int): (d: Data)
    ensures d.Health? && !d.health.dead
    ensures d.health.current == current && d.health.max == max
  {
    Health(HealthComponent(current, max, false))
  }

  /** Record one more entity in a collision component's collided-with set. */
  function AddCollided(d: Data, other: EntityId): (r: Data)
    requires d.Collision?
    ensures r.Collision? && r.shape == d.shape && r.extent == d.extent
    ensures other in r.collidedWith && d.collidedWith <= r.collidedWith
    ensures forall e :: e in r.collidedWith && e != other ==> e in d.collidedWith
  {
    d.(collidedWith := d.collidedWith + {other})
  }

  /** The collided-with set has set semantics: adding a member again changes nothing. */
  lemma AddCollidedIdempotent(d: Data, other: EntityId)
    requires d.Collision?
    ensures AddCollided(AddCollided(d, other), other) == AddCollided(d, other)
    ensures other in d.collidedWith ==> AddCollided(d, other) == d
  {
  }
}

/**
  Tank::Update over the entity manager: the world-level plumbing that reads a
  tank's components, applies the combat rules, and writes the results back, plus
  the conditions that keep every tank safe to update.
 */
module TankWorld {
  import opened Wrappers
  import opened Components
  import opened Entities
  import opened TankRules
  import K = ComponentTypes

  // ---- Components present with the data of their kind ----

  predicate HasTank(e: Entity) {
    K.Tank in e.components && e.components[K.Tank].data.Tank?
  }

  predicate HasHealth(e: Entity) {
    K.Health in e.components && e.components[K.Health].data.Health?
  }

  predicate HasTransform(e: Entity) {
    K.Transform in e.components && e.components[K.Transform].data.Transform?
  }

  predicate HasCollision(e: Entity) {
    K.Collision in e.components && e.components[K.Collision].data.Collision?
  }

  predicate HasOwnership(e: Entity) {
    K.Ownership in e.components && e.components[K.Ownership].data.Ownership?
  }

  predicate HasBullet(e: Entity) {
    K.Bullet in e.components && e.components[K.Bullet].data.Bullet?
  }

  predicate HasSprite(e: Entity) {
    K.Sprite in e.components && e.components[K.Sprite].data.Sprite?
  }

  predicate HasScore(e: Entity) {
    K.Score in e.components && e.components[K.Score].data.Score?
  }

  function TankOf(w: World, t: EntityId): TankComponent
    requires t < |w| && HasTank(w[t])
  {
    w[t].components[K.Tank].data.tank
  }

  function HealthOf(w: World, t: EntityId): HealthComponent
    requires t < |w| && HasHealth(w[t])
  {
    w[t].components[K.Health].data.health
  }

  function TransformOf(w: World, t: EntityId): TransformComponent
    requires t < |w| && HasTransform(w[t])
  {
    w[t].components[K.Transform].data.transform
  }

  function CollidedWith(w: World, t: EntityId): set<EntityId>
    requires t < |w| && HasCollision(w[t])
  {
    w[t].components[K.Collision].data.collidedWith
  }

  function OwnedByPlayer(w: World, t: EntityId): bool
    requires t < |w| && HasOwnership(w[t])
  {
    w[t].components[K.Ownership].data.ownedByPlayer
  }

  // ---- What Tank::Update dereferences without checking ----

  /** An entity in a tank's collided-with set that the loop can examine: if it holds
      a bullet component it also holds an ownership component. */
  predicate ContactReady(w: World, e: EntityId) {
    && e < |w|
    && (K.Bullet in w[e].components ==> HasBullet(w[e]) && HasOwnership(w[e]))
  }

  /** A tank entity Tank::Update can process: it has every component the update
      reads, its body and turret exist and have transforms, its body has the sprite
      that is swapped when the tank is destroyed, and everything it has collided
      with can be examined. */
  predicate TankReady(w: World, t: EntityId) {
    && t < |w|
    && HasTank(w[t]) && HasTransform(w[t]) && HasCollision(w[t]) && HasHealth(w[t]) && HasOwnership(w[t])
    && TankOf(w, t).bodyEntity < |w| && HasTransform(w[TankOf(w, t).bodyEntity]) && HasSprite(w[TankOf(w, t).bodyEntity])
    && TankOf(w, t).turretEntity < |w| && HasTransform(w[TankOf(w, t).turretEntity])
    && forall e :: e in CollidedWith(w, t) ==> ContactReady(w, e)
  }

  /** Every score component holds score data. */
  predicate ScoresReady(w: World) {
    forall i :: 0 <= i < |w| && K.Score in w[i].components ==> HasScore(w[i])
  }

  /** Every score component holds score data and every tank is ready for an update. */
  predicate Ready(w: World) {
    && ScoresReady(w)
    && (forall t :: 0 <= t < |w| && K.Tank in w[t].components ==> TankReady(w, t))
  }

  // ---- The shape Tank::Update never changes ----

  /** d' differs from d at most in what Tank::Update writes: a transform's fields, a
      health's current value and dead flag, a sprite's image, a score's number, a tank's speed and
      shield state, a bullet's collided flag. */
  predicate Unwritten(d: Data, d': Data) {
    match d
    case Transform(_) => d'.Transform?
    case Sprite(_, fh, fv) => d'.Sprite? && d'.flipHorizontal == fh && d'.flipVertical == fv
    case Health(h) => d'.Health? && d'.health.max == h.max
    case Score(text, _) => d'.Score? && d'.text == text
    case Tank(tc) =>
      d'.Tank? && d'.tank.(speedReduced := false, shieldActivated := false, speed := Normal)
                  == tc.(speedReduced := false, shieldActivated := false, speed := Normal)
    case Bullet(_, power) => d'.Bullet? && d'.power == power
    case _ => d' == d
  }

  /** Two versions of one entity that hold the same kinds with the same unwritten parts. */
  predicate SameShape(e: Entity, e': Entity) {
    && e.components.Keys == e'.components.Keys
    && forall k :: k in e.components ==> Unwritten(e.components[k].data, e'.components[k].data)
  }

  predicate SameSkeleton(w: World, w': World) {
    |w| == |w'| && forall i :: 0 <= i < |w| ==> SameShape(w[i], w'[i])
  }

  lemma UnwrittenTransitive(d1: Data, d2: Data, d3: Data)
    requires Unwritten(d1, d2) && Unwritten(d2, d3)
    ensures Unwritten(d1, d3)
  {
  }

  lemma SkeletonTransitive(w1: World, w2: World, w3: World)
    requires SameSkeleton(w1, w2) && SameSkeleton(w2, w3)
    ensures SameSkeleton(w1, w3)
  {
    forall i, k | 0 <= i < |w1| && k in w1[i].components
      ensures Unwritten(w1[i].components[k].data, w3[i].components[k].data)
    {
      assert SameShape(w1[i], w2[i]) && SameShape(w2[i], w3[i]);
      UnwrittenTransitive(w1[i].components[k].data, w2[i].components[k].data, w3[i].components[k].data);
    }
  }

  /** What survives every write of the update: the kinds held, the kind of data
      under each, the tank's references and the collision and ownership data. */
  lemma SameShapeFacts(e: Entity, e': Entity)
    requires SameShape(e, e')
    ensures forall k :: k in e.components <==> k in e'.components
    ensures HasTank(e) <==> HasTank(e')
    ensures HasHealth(e) <==> HasHealth(e')
    ensures HasTransform(e) <==> HasTransform(e')
    ensures HasCollision(e) <==> HasCollision(e')
    ensures HasOwnership(e) <==> HasOwnership(e')
    ensures HasBullet(e) <==> HasBullet(e')
    ensures HasScore(e) <==> HasScore(e')
    ensures HasSprite(e) <==> HasSprite(e')
    ensures HasTank(e) ==>
              && e'.components[K.Tank].data.tank.bodyEntity == e.components[K.Tank].data.tank.bodyEntity
              && e'.components[K.Tank].data.tank.turretEntity == e.components[K.Tank].data.tank.turretEntity
    ensures HasCollision(e) ==> e'.components[K.Collision].data == e.components[K.Collision].data
    ensures HasOwnership(e) ==> e'.components[K.Ownership].data == e.components[K.Ownership].data
  {
    assert forall k :: k in e.components ==> Unwritten(e.components[k].data, e'.components[k].data);
    if K.Collision in e.components {
      assert Unwritten(e.components[K.Collision].data, e'.components[K.Collision].data);
    }
    if K.Ownership in e.components {
      assert Unwritten(e.components[K.Ownership].data, e'.components[K.Ownership].data);
    }
  }

  lemma SkeletonKeepsEntity(w: World, w': World, i: nat)
    requires SameSkeleton(w, w') && i < |w|
    ensures i < |w'| && SameShape(w[i], w'[i])
  {
  }

  lemma SkeletonKeepsTankReady(w: World, w': World, t: EntityId)
    requires TankReady(w, t) && SameSkeleton(w, w')
    ensures TankReady(w', t)
    ensures TankOf(w', t).bodyEntity == TankOf(w, t).bodyEntity
    ensures TankOf(w', t).turretEntity == TankOf(w, t).turretEntity
    ensures CollidedWith(w', t) == CollidedWith(w, t)
    ensures OwnedByPlayer(w', t) == OwnedByPlayer(w, t)
  {
    SkeletonKeepsEntity(w, w', t);
    SameShapeFacts(w[t], w'[t]);
    var tc := TankOf(w, t);
    SkeletonKeepsEntity(w, w', tc.bodyEntity);
    SameShapeFacts(w[tc.bodyEntity], w'[tc.bodyEntity]);
    assert HasSprite(w'[tc.bodyEntity]);
    SkeletonKeepsEntity(w, w', tc.turretEntity);
    SameShapeFacts(w[tc.turretEntity], w'[tc.turretEntity]);
    forall e | e in CollidedWith(w', t) ensures ContactReady(w', e) {
      assert ContactReady(w, e);
      SkeletonKeepsEntity(w, w', e);
      SameShapeFacts(w[e], w'[e]);
    }
  }

  lemma SkeletonKeepsScores(w: World, w': World)
    requires ScoresReady(w) && SameSkeleton(w, w')
    ensures ScoresReady(w')
  {
    forall i | 0 <= i < |w'| && K.Score in w'[i].components ensures HasScore(w'[i]) {
      SkeletonKeepsEntity(w, w', i);
      SameShapeFacts(w[i], w'[i]);
    }
  }

  /** Readiness depends only on the skeleton, so no update can make a tank unsafe to update. */
  lemma SkeletonKeepsReady(w: World, w': World)
    requires Ready(w) && SameSkeleton(w, w')
    ensures Ready(w')
  {
    forall i | 0 <= i < |w'| && K.Score in w'[i].components ensures HasScore(w'[i]) {
      SkeletonKeepsEntity(w, w', i);
      SameShapeFacts(w[i], w'[i]);
    }
    forall t | 0 <= t < |w'| && K.Tank in w'[t].components ensures TankReady(w', t) {
      SkeletonKeepsEntity(w, w', t);
      SameShapeFacts(w[t], w'[t]);
      SkeletonKeepsTankReady(w, w', t);
    }
  }

  lemma SkeletonKeepsQueries(w: World, w': World, k: K.Kind)
    requires SameSkeleton(w, w')
    ensures EntitiesWith(w, k) == EntitiesWith(w', k)
    ensures FirstWith(w, k) == FirstWith(w', k)
  {
    forall i | 0 <= i < |w| ensures HasComponent(w[i], k) <==> HasComponent(w'[i], k) {
      SkeletonKeepsEntity(w, w', i);
      SameShapeFacts(w[i], w'[i]);
    }
    SameKindsSameQuery(w, w', k);
  }

  // ---- Writing one component ----

  /** Overwrite the data of a component the entity already holds, keeping its base. */
  function SetData(w: World, i: EntityId, k: K.Kind, d: Data): (r: World)
    requires i < |w| && k in w[i].components
    ensures |r| == |w|
    ensures forall j :: 0 <= j < |w| && j != i ==> r[j] == w[j]
    ensures r[i].components.Keys == w[i].components.Keys
    ensures r[i].components[k].data == d
    ensures forall k' :: k' in w[i].components && k' != k ==> r[i].components[k'] == w[i].components[k']
  {
    w[i := Entity(w[i].components[k := w[i].components[k].(data := d)])]
  }

  /** A write that changes only what the update may change keeps the skeleton. */
  lemma SetDataShape(w: World, i: EntityId, k: K.Kind, d: Data)
    requires i < |w| && k in w[i].components
    requires Unwritten(w[i].components[k].data, d)
    ensures SameSkeleton(w, SetData(w, i, k, d))
  {
    var r := SetData(w, i, k, d);
    forall j | 0 <= j < |w| ensures SameShape(w[j], r[j]) {
      if j == i {
        forall k' | k' in w[i].components
          ensures Unwritten(w[i].components[k'].data, r[i].components[k'].data)
        {
          if k' != k {
            assert r[i].components[k'] == w[i].components[k'];
          }
        }
      }
    }
  }

  // ---- Tank::Update for one tank ----

  /** Replace the transform of an entity that has one. */
  function SetTransform(w: World, i: EntityId, tr: TransformComponent): (r: World)
    requires i < |w| && HasTransform(w[i])
    ensures SameSkeleton(w, r)
    ensures HasTransform(r[i]) && TransformOf(r, i) == tr
    ensures forall j :: 0 <= j < |w| && j != i ==> r[j] == w[j]
    ensures forall k :: k in w[i].components && k != K.Transform ==> r[i].components[k] == w[i].components[k]
  {
    SetDataShape(w, i, K.Transform, Transform(tr));
    SetData(w, i, K.Transform, Transform(tr))
  }

  /** The body copies the tank's position and rotation, the turret only its position. */
  function SyncTransforms(w: World, t: EntityId): (r: World)
    requires TankReady(w, t)
    ensures SameSkeleton(w, r)
  {
    var tc := TankOf(w, t);
    var tt := TransformOf(w, t);
    var w1 := SetTransform(w, tc.bodyEntity, TransformOf(w, tc.bodyEntity).(position := tt.position, rotation := tt.rotation));
    var r := SetTransform(w1, tc.turretEntity, TransformOf(w1, tc.turretEntity).(position := tt.position));
    SkeletonTransitive(w, w1, r);
    r
  }

  /** After the sync the body stands where the tank stands and faces its way; the
      turret stands there too but keeps its own rotation; neither changes size. */
  lemma SyncedTransforms(w: World, t: EntityId)
    requires TankReady(w, t)
    ensures var r := SyncTransforms(w, t);
            var tc := TankOf(w, t);
            var tt := TransformOf(w, t);
            && HasTransform(r[tc.bodyEntity]) && HasTransform(r[tc.turretEntity])
            && TransformOf(r, tc.bodyEntity).position == tt.position
            && TransformOf(r, tc.bodyEntity).rotation == tt.rotation
            && TransformOf(r, tc.turretEntity).position == tt.position
            && (tc.turretEntity != tc.bodyEntity ==>
                  TransformOf(r, tc.turretEntity).rotation == TransformOf(w, tc.turretEntity).rotation)
            && TransformOf(r, tc.bodyEntity).size == TransformOf(w, tc.bodyEntity).size
            && TransformOf(r, tc.turretEntity).size == TransformOf(w, tc.turretEntity).size
  {
    var tc := TankOf(w, t);
    var tt := TransformOf(w, t);
    var w1 := SetTransform(w, tc.bodyEntity, TransformOf(w, tc.bodyEntity).(position := tt.position, rotation := tt.rotation));
    var r := SetTransform(w1, tc.turretEntity, TransformOf(w1, tc.turretEntity).(position := tt.position));
    assert r == SyncTransforms(w, t);
    if tc.bodyEntity != tc.turretEntity {
      assert r[tc.bodyEntity] == w1[tc.bodyEntity];
      assert w1[tc.turretEntity] == w[tc.turretEntity];
    }
  }

  /** The sync touches transforms only, and only those of the body and the turret. */
  lemma SyncTouchesOnlyTransforms(w: World, t: EntityId)
    requires TankReady(w, t)
    ensures var r := SyncTransforms(w, t);
            var tc := TankOf(w, t);
            && (forall j :: 0 <= j < |w| && j != tc.bodyEntity && j != tc.turretEntity ==> r[j] == w[j])
            && (forall j, k :: 0 <= j < |w| && k in w[j].components && k != K.Transform ==>
                  r[j].components[k] == w[j].components[k])
  {
    var tc := TankOf(w, t);
    var tt := TransformOf(w, t);
    var w1 := SetTransform(w, tc.bodyEntity, TransformOf(w, tc.bodyEntity).(position := tt.position, rotation := tt.rotation));
    var r := SetTransform(w1, tc.turretEntity, TransformOf(w1, tc.turretEntity).(position := tt.position));
    assert r == SyncTransforms(w, t);
    forall j, k | 0 <= j < |w| && k in w[j].components && k != K.Transform
      ensures r[j].components[k] == w[j].components[k]
    {
      SkeletonKeepsEntity(w, w1, j);
      assert w1[j].components[k] == w[j].components[k];
    }
  }

  // ---- Reading one tank's frame ----

  /** What the collision loop reads of one collided-with entity. */
  function ContactOf(w: World, e: EntityId): (c: Contact)
    requires ContactReady(w, e)
    ensures c.entity == e && c.isLake == (K.Lake in w[e].components)
    ensures c.bullet.Some? == (K.Bullet in w[e].components)
    ensures c.bullet.Some? ==>
              && c.bullet.value.ownedByPlayer == OwnedByPlayer(w, e)
              && c.bullet.value.power == w[e].components[K.Bullet].data.power
  {
    var bullet := if K.Bullet in w[e].components
                  then Some(BulletInfo(OwnedByPlayer(w, e), w[e].components[K.Bullet].data.power))
                  else None;
    Contact(e, K.Lake in w[e].components, bullet)
  }

  /** The contacts of the collided-with entities in visiting order. */
  function ContactsOf(w: World, order: seq<EntityId>): (cs: seq<Contact>)
    requires forall i :: 0 <= i < |order| ==> ContactReady(w, order[i])
    ensures |cs| == |order|
    ensures forall i :: 0 <= i < |order| ==> cs[i] == ContactOf(w, order[i])
    decreases |order|
  {
    if order == [] then [] else [ContactOf(w, order[0])] + ContactsOf(w, order[1..])
  }

  /** order visits every element of s exactly once: the iteration order of the
      collided-with set, which the model leaves open. */
  predicate Enumerates(order: seq<EntityId>, s: set<EntityId>) {
    && (forall i, j :: 0 <= i < j < |order| ==> order[i] != order[j])
    && (forall i :: 0 <= i < |order| ==> order[i] in s)
    && (forall e :: e in s ==> e in order)
  }

  /** The score the update adds to: that of the first entity with a score component. */
  function ScoreValue(w: World): (v: Option<int>)
    requires ScoresReady(w)
    ensures v.None? <==> FirstWith(w, K.Score).None?
    ensures v.Some? ==>
              && HasScore(w[FirstWith(w, K.Score).value])
              && v.value == w[FirstWith(w, K.Score).value].components[K.Score].data.scoreNum
  {
    match FirstWith(w, K.Score)
    case None => None
    case Some(i) => Some(w[i].components[K.Score].data.scoreNum)
  }

  function FrameOf(w: World, t: EntityId): (f: Frame)
    requires Ready(w) && TankReady(w, t)
    ensures f.tank == TankOf(w, t) && f.health == HealthOf(w, t)
    ensures f.score == ScoreValue(w) && f.hits == {}
  {
    Frame(TankOf(w, t), HealthOf(w, t), ScoreValue(w), {})
  }

  /** The preconditions of one tank's update: the world is ready and order is an
      iteration order of the tank's collided-with set. */
  predicate CanUpdate(w: World, t: EntityId, order: seq<EntityId>) {
    && Ready(w) && t < |w| && K.Tank in w[t].components && TankReady(w, t)
    && Enumerates(order, CollidedWith(w, t))
  }

  /** What the combat rules make of tank t, given the world it reads from. */
  function Outcome(w: World, t: EntityId, order: seq<EntityId>): (r: Frame)
    requires CanUpdate(w, t, order)
  {
    UpdateTank(FrameOf(w, t), OwnedByPlayer(w, t), ContactsOf(w, order))
  }

  /** Every bullet the rules mark as hit is a bullet entity of the world. */
  lemma OutcomeHitsBullets(w: World, t: EntityId, order: seq<EntityId>)
    requires CanUpdate(w, t, order)
    ensures forall e :: e in Outcome(w, t, order).hits ==> e < |w| && HasBullet(w[e]) && e in CollidedWith(w, t)
  {
    var cs := ContactsOf(w, order);
    UpdateTankOutcome(FrameOf(w, t), OwnedByPlayer(w, t), cs);
    forall e | e in Outcome(w, t, order).hits
      ensures e < |w| && HasBullet(w[e]) && e in CollidedWith(w, t)
    {
      var i :| 0 <= i < |cs| && Opposing(OwnedByPlayer(w, t), cs[i]) && cs[i].entity == e;
      assert ContactReady(w, order[i]);
    }
  }

  // ---- Writing one tank's results back ----

  /** r differs from w at most in the k components of the entities in s. */
  predicate WritesOnly(w: World, r: World, k: K.Kind, s: set<EntityId>) {
    && |r| == |w|
    && (forall j :: 0 <= j < |w| ==> r[j].components.Keys == w[j].components.Keys)
    && (forall j :: 0 <= j < |w| && j !in s ==> r[j] == w[j])
    && (forall j, k' :: 0 <= j < |w| && k' in w[j].components && k' != k ==> r[j].components[k'] == w[j].components[k'])
  }

  /** Every component of kind k in w is still in r, unchanged. */
  predicate Keeps(w: World, r: World, k: K.Kind) {
    |r| == |w| && forall j :: 0 <= j < |w| && k in w[j].components ==> k in r[j].components && r[j].components[k] == w[j].components[k]
  }

  lemma WritesOnlyKeeps(w: World, r: World, k: K.Kind, s: set<EntityId>, k': K.Kind)
    requires WritesOnly(w, r, k, s) && k' != k
    ensures Keeps(w, r, k')
  {
  }

  lemma KeepsTransitive(w1: World, w2: World, w3: World, k: K.Kind)
    requires Keeps(w1, w2, k) && Keeps(w2, w3, k)
    ensures Keeps(w1, w3, k)
  {
  }

  /** Overwrite one component's data with a value that keeps the skeleton. */
  function Write(w: World, i: EntityId, k: K.Kind, d: Data): (r: World)
    requires i < |w| && k in w[i].components && Unwritten(w[i].components[k].data, d)
    ensures SameSkeleton(w, r) && WritesOnly(w, r, k, {i})
    ensures r[i].components[k].data == d
  {
    SetDataShape(w, i, k, d);
    SetData(w, i, k, d)
  }

  /** Add the frame's score to the first score entity, when there is one. */
  function WriteScore(w: World, score: Option<int>): (r: World)
    requires ScoresReady(w)
    ensures SameSkeleton(w, r)
    ensures WritesOnly(w, r, K.Score, if FirstWith(w, K.Score).Some? then {FirstWith(w, K.Score).value} else {})
    ensures score.Some? && FirstWith(w, K.Score).Some? ==>
              r[FirstWith(w, K.Score).value].components[K.Score].data.scoreNum == score.value
  {
    match FirstWith(w, K.Score)
    case None => w
    case Some(i) =>
      if score.Some? then
        var d := w[i].components[K.Score].data;
        Write(w, i, K.Score, d.(scoreNum := score.value))
      else w
  }

  function MarkBullet(e: Entity): (r: Entity)
    requires HasBullet(e)
    ensures SameShape(e, r)
    ensures r.components[K.Bullet].data.collided
    ensures forall k :: k in e.components && k != K.Bullet ==> r.components[k] == e.components[k]
  {
    var c := e.components[K.Bullet];
    Entity(e.components[K.Bullet := c.(data := c.data.(collided := true))])
  }

  /** Set the collided flag of every bullet that hit the tank. */
  function MarkHits(w: World, hits: set<EntityId>): (r: World)
    requires forall e :: e in hits ==> e < |w| && HasBullet(w[e])
    ensures SameSkeleton(w, r) && WritesOnly(w, r, K.Bullet, hits)
    ensures forall e :: e in hits ==> HasBullet(r[e]) && r[e].components[K.Bullet].data.collided
  {
    seq(|w|, j requires 0 <= j < |w| => if j in hits then MarkBullet(w[j]) else w[j])
  }

  /** The texture a destroyed tank's body shows. */
  const DestroyedTank: TextureRef := TextureRef("destroyedTank")

  /** The body of a tank destroyed in this update shows the destroyed-tank texture. */
  function ShowDestroyed(w: World, body: EntityId): (r: World)
    requires body < |w| && HasSprite(w[body])
    ensures SameSkeleton(w, r) && WritesOnly(w, r, K.Sprite, {body})
    ensures r[body].components[K.Sprite].data.image == Some(DestroyedTank)
  {
    var sprite := w[body].components[K.Sprite].data;
    Write(w, body, K.Sprite, sprite.(image := Some(DestroyedTank)))
  }

  /** Store the tank and health components the rules computed. */
  function WriteTank(w: World, t: EntityId, tank: TankComponent, health: HealthComponent): (r: World)
    requires t < |w| && HasTank(w[t]) && HasHealth(w[t])
    requires Unwritten(Tank(TankOf(w, t)), Tank(tank)) && health.max == HealthOf(w, t).max
    ensures SameSkeleton(w, r)
    ensures HasTank(r[t]) && TankOf(r, t) == tank && HasHealth(r[t]) && HealthOf(r, t) == health
    ensures forall j :: 0 <= j < |w| && j != t ==> r[j] == w[j]
    ensures forall k :: k in w[t].components && k != K.Tank && k != K.Health ==> r[t].components[k] == w[t].components[k]
  {
    var w1 := Write(w, t, K.Tank, Tank(tank));
    var r := Write(w1, t, K.Health, Health(health));
    SkeletonTransitive(w, w1, r);
    r
  }

  /** A write of another kind leaves a bullet component as it was. */
  lemma BulletSurvives(w: World, r: World, k: K.Kind, s: set<EntityId>, e: EntityId)
    requires WritesOnly(w, r, k, s) && k != K.Bullet && e < |w| && HasBullet(w[e])
    ensures HasBullet(r[e]) && r[e].components[K.Bullet] == w[e].components[K.Bullet]
  {
  }

  /** The two writes that do not touch the tank entity itself: mark the hit bullets,
      and swap the body's sprite when the tank died in this update. */
  function WriteHits(w: World, body: EntityId, died: bool, hits: set<EntityId>): (r: World)
    requires body < |w| && HasSprite(w[body])
    requires forall e :: e in hits ==> e < |w| && HasBullet(w[e])
    ensures SameSkeleton(w, r)
    ensures forall j, k :: 0 <= j < |w| && k in w[j].components && k != K.Sprite && k != K.Bullet ==>
              r[j].components[k] == w[j].components[k]
  {
    if died then
      var w1 := ShowDestroyed(w, body);
      assert forall e :: e in hits ==> e < |w1| && HasBullet(w1[e]) by {
        forall e | e in hits ensures e < |w1| && HasBullet(w1[e]) {
          BulletSurvives(w, w1, K.Sprite, {body}, e);
        }
      }
      var r := MarkHits(w1, hits);
      SkeletonTransitive(w, w1, r);
      r
    else
      MarkHits(w, hits)
  }

  lemma KindSurvives(w: World, r: World, k: K.Kind, s: set<EntityId>, j: EntityId, k': K.Kind)
    requires WritesOnly(w, r, k, s) && j < |w| && k' in w[j].components && k' != k
    ensures k' in r[j].components && r[j].components[k'] == w[j].components[k']
  {
  }

  lemma WriteHitsKeeps(w: World, body: EntityId, died: bool, hits: set<EntityId>, k: K.Kind)
    requires body < |w| && HasSprite(w[body])
    requires forall e :: e in hits ==> e < |w| && HasBullet(w[e])
    requires k != K.Sprite && k != K.Bullet
    ensures Keeps(w, WriteHits(w, body, died, hits), k)
  {
  }

  lemma WriteHitsEffect(w: World, body: EntityId, died: bool, hits: set<EntityId>)
    requires body < |w| && HasSprite(w[body])
    requires forall e :: e in hits ==> e < |w| && HasBullet(w[e])
    ensures var r := WriteHits(w, body, died, hits);
            && (forall j :: 0 <= j < |w| && j !in hits && (j != body || !died) ==> r[j] == w[j])
            && (forall e :: e in hits ==> HasBullet(r[e]) && r[e].components[K.Bullet].data.collided)
            && (died ==> HasSprite(r[body]) && r[body].components[K.Sprite].data.image == Some(DestroyedTank))
  {
    if died {
      var w1 := ShowDestroyed(w, body);
      forall e | e in hits ensures e < |w1| && HasBullet(w1[e]) {
        BulletSurvives(w, w1, K.Sprite, {body}, e);
      }
      var r := MarkHits(w1, hits);
      assert r == WriteHits(w, body, died, hits);
      assert K.Sprite in w1[body].components;
      KindSurvives(w1, r, K.Bullet, hits, body, K.Sprite);
    }
  }

  /** What Commit needs: a world whose score components hold score data, a tank
      with health whose body carries a sprite, an outcome that changes only what the
      rules may change, and hits that are all bullets. */
  predicate CanCommit(w: World, t: EntityId, o: Frame) {
    && ScoresReady(w) && t < |w| && HasTank(w[t]) && HasHealth(w[t])
    && TankOf(w, t).bodyEntity < |w| && HasSprite(w[TankOf(w, t).bodyEntity])
    && Unwritten(Tank(TankOf(w, t)), Tank(o.tank)) && o.health.max == HealthOf(w, t).max
    && (forall e :: e in o.hits ==> e < |w| && HasBullet(w[e]))
  }

  /** Write the rules' outcome o for tank t back into the world: the tank and health
      components, the shared score, the hit bullets, and the body's sprite if the
      tank died in this update. */
  function Commit(w: World, t: EntityId, o: Frame): (r: World)
    requires CanCommit(w, t, o)
    ensures SameSkeleton(w, r)
  {
    var w2 := WriteHits(w, TankOf(w, t).bodyEntity, o.health.dead && !HealthOf(w, t).dead, o.hits);
    assert w2[t].components[K.Tank] == w[t].components[K.Tank];
    assert w2[t].components[K.Health] == w[t].components[K.Health];
    var w3 := WriteTank(w2, t, o.tank, o.health);
    SkeletonTransitive(w, w2, w3);
    SkeletonKeepsScores(w, w3);
    var r := WriteScore(w3, o.score);
    SkeletonTransitive(w, w3, r);
    r
  }

  /** Commit's three stages: marking the hits leaves the tank's own components as
      they were, writing the tank keeps the skeleton and the scores ready, and the
      score write finishes the commit. */
  lemma CommitStages(w: World, t: EntityId, o: Frame)
    requires CanCommit(w, t, o)
    ensures var w2 := WriteHits(w, TankOf(w, t).bodyEntity, o.health.dead && !HealthOf(w, t).dead, o.hits);
            && Keeps(w, w2, K.Tank) && Keeps(w, w2, K.Health)
            && HasTank(w2[t]) && HasHealth(w2[t]) && TankOf(w2, t) == TankOf(w, t) && HealthOf(w2, t) == HealthOf(w, t)
            && var w3 := WriteTank(w2, t, o.tank, o.health);
               && SameSkeleton(w, w3) && ScoresReady(w3)
               && Commit(w, t, o) == WriteScore(w3, o.score)
  {
    var body := TankOf(w, t).bodyEntity;
    var died := o.health.dead && !HealthOf(w, t).dead;
    var w2 := WriteHits(w, body, died, o.hits);
    WriteHitsKeeps(w, body, died, o.hits, K.Tank);
    WriteHitsKeeps(w, body, died, o.hits, K.Health);
    assert K.Tank in w[t].components && K.Health in w[t].components;
    var w3 := WriteTank(w2, t, o.tank, o.health);
    SkeletonTransitive(w, w2, w3);
    SkeletonKeepsScores(w, w3);
  }

  /** Commit stores the outcome's tank and health components on the tank. */
  lemma CommitTankEffect(w: World, t: EntityId, o: Frame)
    requires CanCommit(w, t, o)
    ensures var r := Commit(w, t, o);
            && HasTank(r[t]) && TankOf(r, t) == o.tank
            && HasHealth(r[t]) && HealthOf(r, t) == o.health
  {
    var body := TankOf(w, t).bodyEntity;
    var died := o.health.dead && !HealthOf(w, t).dead;
    var w2 := WriteHits(w, body, died, o.hits);
    CommitStages(w, t, o);
    var w3 := WriteTank(w2, t, o.tank, o.health);
    var r := WriteScore(w3, o.score);
    var first := FirstWith(w3, K.Score);
    WritesOnlyKeeps(w3, r, K.Score, if first.Some? then {first.value} else {}, K.Tank);
    WritesOnlyKeeps(w3, r, K.Score, if first.Some? then {first.value} else {}, K.Health);
    assert K.Tank in w3[t].components && K.Health in w3[t].components;
  }

  /** Commit marks every hit bullet, and shows the wreck on the body of a tank that
      died in this update. */
  lemma CommitHitsEffect(w: World, t: EntityId, o: Frame)
    requires CanCommit(w, t, o)
    ensures var r := Commit(w, t, o);
            var body := TankOf(w, t).bodyEntity;
            && (forall e :: e in o.hits ==> HasBullet(r[e]) && r[e].components[K.Bullet].data.collided)
            && (o.health.dead && !HealthOf(w, t).dead ==>
                  HasSprite(r[body]) && r[body].components[K.Sprite].data.image == Some(DestroyedTank))
  {
    var body := TankOf(w, t).bodyEntity;
    var died := o.health.dead && !HealthOf(w, t).dead;
    var w2 := WriteHits(w, body, died, o.hits);
    CommitStages(w, t, o);
    var w3 := WriteTank(w2, t, o.tank, o.health);
    var r := WriteScore(w3, o.score);
    var first := FirstWith(w3, K.Score);
    WriteHitsEffect(w, body, died, o.hits);
    WriteTankKeeps(w2, t, o.tank, o.health, K.Bullet);
    WriteTankKeeps(w2, t, o.tank, o.health, K.Sprite);
    WritesOnlyKeeps(w3, r, K.Score, if first.Some? then {first.value} else {}, K.Bullet);
    WritesOnlyKeeps(w3, r, K.Score, if first.Some? then {first.value} else {}, K.Sprite);
    KeepsTransitive(w2, w3, r, K.Bullet);
    KeepsTransitive(w2, w3, r, K.Sprite);
    forall e | e in o.hits ensures HasBullet(r[e]) && r[e].components[K.Bullet].data.collided {
      assert K.Bullet in w2[e].components;
    }
    if died {
      assert K.Sprite in w2[body].components;
    }
  }

  /** Commit leaves the outcome's score in the first score entity. */
  lemma CommitScoreEffect(w: World, t: EntityId, o: Frame)
    requires CanCommit(w, t, o)
    ensures var r := Commit(w, t, o);
            && ScoresReady(r)
            && ScoreValue(r) == (if o.score.Some? && FirstWith(w, K.Score).Some? then o.score else ScoreValue(w))
  {
    var body := TankOf(w, t).bodyEntity;
    var died := o.health.dead && !HealthOf(w, t).dead;
    var w2 := WriteHits(w, body, died, o.hits);
    CommitStages(w, t, o);
    var w3 := WriteTank(w2, t, o.tank, o.health);
    var r := WriteScore(w3, o.score);
    var first := FirstWith(w3, K.Score);
    WriteHitsKeeps(w, body, died, o.hits, K.Score);
    WriteTankKeeps(w2, t, o.tank, o.health, K.Score);
    KeepsTransitive(w, w2, w3, K.Score);
    CommitScore(w, w3, o.score);
  }

  lemma WriteTankKeeps(w: World, t: EntityId, tank: TankComponent, health: HealthComponent, k: K.Kind)
    requires t < |w| && HasTank(w[t]) && HasHealth(w[t])
    requires Unwritten(Tank(TankOf(w, t)), Tank(tank)) && health.max == HealthOf(w, t).max
    requires k != K.Tank && k != K.Health
    ensures Keeps(w, WriteTank(w, t, tank, health), k)
  {
  }

  /** The score write, seen from the world before the tank's own writes. */
  lemma CommitScore(w: World, w3: World, score: Option<int>)
    requires ScoresReady(w) && SameSkeleton(w, w3) && Keeps(w, w3, K.Score)
    ensures ScoresReady(w3)
    ensures var r := WriteScore(w3, score);
            && ScoresReady(r)
            && FirstWith(r, K.Score) == FirstWith(w, K.Score)
            && ScoreValue(r) == (if score.Some? && FirstWith(w, K.Score).Some? then score else ScoreValue(w))
  {
    SkeletonKeepsScores(w, w3);
    var r := WriteScore(w3, score);
    SkeletonTransitive(w, w3, r);
    SkeletonKeepsScores(w, r);
    SkeletonKeepsQueries(w, w3, K.Score);
    SkeletonKeepsQueries(w, r, K.Score);
  }

  /** Commit writes only the tank, health, bullet, sprite and score kinds. */
  lemma CommitKeeps(w: World, t: EntityId, o: Frame, k: K.Kind)
    requires CanCommit(w, t, o)
    requires k != K.Tank && k != K.Health && k != K.Bullet && k != K.Sprite && k != K.Score
    ensures Keeps(w, Commit(w, t, o), k)
  {
    var body := TankOf(w, t).bodyEntity;
    var died := o.health.dead && !HealthOf(w, t).dead;
    var w2 := WriteHits(w, body, died, o.hits);
    CommitStages(w, t, o);
    var w3 := WriteTank(w2, t, o.tank, o.health);
    var r := WriteScore(w3, o.score);
    var first := FirstWith(w3, K.Score);
    WriteHitsKeeps(w, body, died, o.hits, k);
    WriteTankKeeps(w2, t, o.tank, o.health, k);
    WritesOnlyKeeps(w3, r, K.Score, if first.Some? then {first.value} else {}, k);
    KeepsTransitive(w, w2, w3, k);
    KeepsTransitive(w, w3, r, k);
  }

  /** The entities a commit may change: the tank, the bullets it marks, the body of
      a tank that just died, and the first score entity. */
  function Touched(w: World, t: EntityId, o: Frame): set<EntityId>
    requires t < |w| && HasTank(w[t]) && HasHealth(w[t])
  {
    {t} + o.hits
    + (if o.health.dead && !HealthOf(w, t).dead then {TankOf(w, t).bodyEntity} else {})
    + (if FirstWith(w, K.Score).Some? then {FirstWith(w, K.Score).value} else {})
  }

  /** Commit leaves every other entity alone: all but the tank, the bullets it marks,
      the body of a tank that just died, and the first score entity. */
  lemma CommitFrame(w: World, t: EntityId, o: Frame)
    requires CanCommit(w, t, o)
    ensures forall j :: 0 <= j < |w| && j !in Touched(w, t, o) ==> Commit(w, t, o)[j] == w[j]
  {
    var body := TankOf(w, t).bodyEntity;
    var died := o.health.dead && !HealthOf(w, t).dead;
    var w2 := WriteHits(w, body, died, o.hits);
    CommitStages(w, t, o);
    var w3 := WriteTank(w2, t, o.tank, o.health);
    var r := WriteScore(w3, o.score);
    var first := FirstWith(w3, K.Score);
    WriteHitsEffect(w, body, died, o.hits);
    SkeletonKeepsQueries(w, w3, K.Score);
    forall j | 0 <= j < |w| && j !in Touched(w, t, o) ensures r[j] == w[j] {
      assert w2[j] == w[j];
      assert w3[j] == w2[j];
      assert j !in (if first.Some? then {first.value} else {});
    }
  }

  /** Commit changes the health component of the tank only. */
  lemma CommitFrameHealth(w: World, t: EntityId, o: Frame, u: EntityId)
    requires CanCommit(w, t, o)
    requires u < |w| && u != t && K.Health in w[u].components
    ensures K.Health in Commit(w, t, o)[u].components
    ensures Commit(w, t, o)[u].components[K.Health] == w[u].components[K.Health]
  {
    var body := TankOf(w, t).bodyEntity;
    var died := o.health.dead && !HealthOf(w, t).dead;
    var w2 := WriteHits(w, body, died, o.hits);
    CommitStages(w, t, o);
    var w3 := WriteTank(w2, t, o.tank, o.health);
    var r := WriteScore(w3, o.score);
    var first := FirstWith(w3, K.Score);
    WritesOnlyKeeps(w3, r, K.Score, if first.Some? then {first.value} else {}, K.Health);
  }

  // ---- One tank's whole update ----

  /** The rules read nothing but the kinds they are given: a world that agrees on
      those, and has the same skeleton, yields the same outcome. */
  lemma SameReadsSameOutcome(w: World, w': World, t: EntityId, order: seq<EntityId>)
    requires CanUpdate(w, t, order) && SameSkeleton(w, w')
    requires Keeps(w, w', K.Tank) && Keeps(w, w', K.Health) && Keeps(w, w', K.Collision)
    requires Keeps(w, w', K.Ownership) && Keeps(w, w', K.Bullet) && Keeps(w, w', K.Score)
    ensures CanUpdate(w', t, order)
    ensures TankOf(w', t) == TankOf(w, t) && HealthOf(w', t) == HealthOf(w, t)
    ensures Outcome(w', t, order) == Outcome(w, t, order)
  {
    SkeletonKeepsReady(w, w');
    assert K.Tank in w[t].components && K.Health in w[t].components;
    assert K.Collision in w[t].components && K.Ownership in w[t].components;
    SkeletonKeepsTankReady(w, w', t);
    SkeletonKeepsQueries(w, w', K.Score);
    assert FrameOf(w', t) == FrameOf(w, t);
    forall i | 0 <= i < |order| ensures ContactOf(w', order[i]) == ContactOf(w, order[i]) {
      var e := order[i];
      assert ContactReady(w, e);
      SkeletonKeepsEntity(w, w', e);
      if K.Bullet in w[e].components {
        assert K.Ownership in w[e].components;
      }
    }
    assert ContactsOf(w', order) == ContactsOf(w, order);
  }

  /** The outcome only changes what Commit may write. */
  lemma OutcomeFits(w: World, t: EntityId, order: seq<EntityId>)
    requires CanUpdate(w, t, order)
    ensures Unwritten(Tank(TankOf(w, t)), Tank(Outcome(w, t, order).tank))
    ensures Outcome(w, t, order).health.max == HealthOf(w, t).max
    ensures Outcome(w, t, order).score.Some? == FirstWith(w, K.Score).Some?
  {
  }

  /** Tank::Update for tank t: sync the body and turret, run the rules on what the
      tank reads, and write the outcome back. */
  function UpdateOne(w: World, t: EntityId, order: seq<EntityId>): (r: World)
    requires CanUpdate(w, t, order)
    ensures SameSkeleton(w, r)
  {
    var w1 := SyncTransforms(w, t);
    SyncReads(w, t, order);
    OutcomeFits(w1, t, order);
    OutcomeHitsBullets(w1, t, order);
    var r := Commit(w1, t, Outcome(w1, t, order));
    SkeletonTransitive(w, w1, r);
    r
  }

  /** The transform sync changes nothing the rules read. */
  lemma SyncReads(w: World, t: EntityId, order: seq<EntityId>)
    requires CanUpdate(w, t, order)
    ensures var w1 := SyncTransforms(w, t);
            && CanUpdate(w1, t, order)
            && TankOf(w1, t) == TankOf(w, t) && HealthOf(w1, t) == HealthOf(w, t)
            && FirstWith(w1, K.Score) == FirstWith(w, K.Score)
            && Outcome(w1, t, order) == Outcome(w, t, order)
  {
    var w1 := SyncTransforms(w, t);
    SyncTouchesOnlyTransforms(w, t);
    SkeletonKeepsQueries(w, w1, K.Score);
    SameReadsSameOutcome(w, w1, t, order);
  }

  /** One tank's update is the commit, on the synced world, of the outcome the rules
      reach from the unsynced one. */
  lemma UpdateOneStages(w: World, t: EntityId, order: seq<EntityId>)
    requires CanUpdate(w, t, order)
    ensures var w1 := SyncTransforms(w, t);
            && CanUpdate(w1, t, order)
            && TankOf(w1, t) == TankOf(w, t) && HealthOf(w1, t) == HealthOf(w, t)
            && FirstWith(w1, K.Score) == FirstWith(w, K.Score)
            && var o := Outcome(w1, t, order);
               && o == Outcome(w, t, order)
               && (o.score.Some? <==> FirstWith(w, K.Score).Some?)
               && (forall e :: e in o.hits ==> e in CollidedWith(w1, t))
               && CanCommit(w1, t, o)
               && UpdateOne(w, t, order) == Commit(w1, t, o)
  {
    var w1 := SyncTransforms(w, t);
    SyncReads(w, t, order);
    OutcomeFits(w1, t, order);
    OutcomeHitsBullets(w1, t, order);
  }

  /** What one tank's update leaves behind: its tank and health components, the
      score, the marked bullets and the wreck sprite are exactly what the combat
      rules computed from the world before it. */
  lemma UpdateOneEffect(w: World, t: EntityId, order: seq<EntityId>)
    requires CanUpdate(w, t, order)
    ensures var r := UpdateOne(w, t, order);
            var o := Outcome(w, t, order);
            var body := TankOf(w, t).bodyEntity;
            && |r| == |w| && Ready(r) && ScoresReady(r)
            && HasTank(r[t]) && TankOf(r, t) == o.tank
            && HasHealth(r[t]) && HealthOf(r, t) == o.health
            && ScoreValue(r) == o.score
            && (forall e :: e in o.hits ==> e < |r| && HasBullet(r[e]) && r[e].components[K.Bullet].data.collided)
            && (o.health.dead && !HealthOf(w, t).dead ==>
                  body < |r| && HasSprite(r[body]) && r[body].components[K.Sprite].data.image == Some(DestroyedTank))
  {
    var w1 := SyncTransforms(w, t);
    UpdateOneStages(w, t, order);
    var o := Outcome(w1, t, order);
    var r := Commit(w1, t, o);
    SkeletonKeepsReady(w, r);
    CommitTankEffect(w1, t, o);
    CommitHitsEffect(w1, t, o);
    CommitScoreEffect(w1, t, o);
    SyncTouchesOnlyTransforms(w, t);
    SkeletonKeepsQueries(w, w1, K.Score);
    if FirstWith(w, K.Score).Some? {
      assert K.Score in w[FirstWith(w, K.Score).value].components;
    }
  }

  /** After the update the body stands where the tank stands and faces its way, and
      the turret stands there too. */
  lemma UpdateOneTransforms(w: World, t: EntityId, order: seq<EntityId>)
    requires CanUpdate(w, t, order)
    ensures var r := UpdateOne(w, t, order);
            var tc := TankOf(w, t);
            var tt := TransformOf(w, t);
            && HasTransform(r[tc.bodyEntity]) && HasTransform(r[tc.turretEntity])
            && TransformOf(r, tc.bodyEntity).position == tt.position
            && TransformOf(r, tc.bodyEntity).rotation == tt.rotation
            && TransformOf(r, tc.turretEntity).position == tt.position
  {
    var w1 := SyncTransforms(w, t);
    UpdateOneStages(w, t, order);
    var o := Outcome(w1, t, order);
    var r := Commit(w1, t, o);
    SyncedTransforms(w, t);
    var tc := TankOf(w, t);
    assert K.Transform in w1[tc.bodyEntity].components && K.Transform in w1[tc.turretEntity].components;
    CommitKeeps(w1, t, o, K.Transform);
  }

  /** One tank's update changes only the transform, tank, health, bullet, sprite and
      score components. */
  lemma UpdateOneKeeps(w: World, t: EntityId, order: seq<EntityId>, k: K.Kind)
    requires CanUpdate(w, t, order)
    requires k != K.Transform && k != K.Tank && k != K.Health && k != K.Bullet && k != K.Sprite && k != K.Score
    ensures Keeps(w, UpdateOne(w, t, order), k)
  {
    var w1 := SyncTransforms(w, t);
    UpdateOneStages(w, t, order);
    var o := Outcome(w1, t, order);
    var r := Commit(w1, t, o);
    SyncTouchesOnlyTransforms(w, t);
    CommitKeeps(w1, t, o, k);
  }

  /** One tank's update touches no entity but the tank, its body and turret, the
      bullets that hit it, and the first score entity. */
  lemma UpdateOneFrame(w: World, t: EntityId, order: seq<EntityId>)
    requires CanUpdate(w, t, order)
    ensures var r := UpdateOne(w, t, order);
            var tc := TankOf(w, t);
            forall j :: 0 <= j < |w| && j != t && j != tc.bodyEntity && j != tc.turretEntity ==>
              j in Outcome(w, t, order).hits || FirstWith(w, K.Score) == Some(j) || r[j] == w[j]
  {
    var w1 := SyncTransforms(w, t);
    UpdateOneStages(w, t, order);
    var o := Outcome(w1, t, order);
    var r := Commit(w1, t, o);
    SyncTouchesOnlyTransforms(w, t);
    CommitFrame(w1, t, o);
    var tc := TankOf(w, t);
    forall j | 0 <= j < |w| && j != t && j != tc.bodyEntity && j != tc.turretEntity
      ensures j in o.hits || FirstWith(w, K.Score) == Some(j) || r[j] == w[j]
    {
      if j !in o.hits && FirstWith(w, K.Score) != Some(j) {
        assert j !in Touched(w1, t, o);
        assert w1[j] == w[j];
      }
    }
  }

  /** A tank's update never brings another tank's health back, nor changes it. */
  lemma UpdateOneOtherHealth(w: World, t: EntityId, order: seq<EntityId>, u: EntityId)
    requires CanUpdate(w, t, order) && u < |w| && u != t && HasHealth(w[u])
    ensures var r := UpdateOne(w, t, order);
            HasHealth(r[u]) && HealthOf(r, u) == HealthOf(w, u)
  {
    var w1 := SyncTransforms(w, t);
    UpdateOneStages(w, t, order);
    var o := Outcome(w1, t, order);
    var r := Commit(w1, t, o);
    SyncTouchesOnlyTransforms(w, t);
    assert K.Health in w1[u].components;
    assert w1[u].components[K.Health] == w[u].components[K.Health];
    CommitTankEffect(w1, t, o);
    CommitFrameHealth(w1, t, o, u);
  }

  // ---- Tank::Update over all tanks ----

  /** orders gives an iteration order of the collided-with set of every tank in ts. */
  predicate OrdersFor(w: World, ts: seq<EntityId>, orders: map<EntityId, seq<EntityId>>) {
    forall i :: 0 <= i < |ts| ==>
      && ts[i] < |w| && K.Tank in w[ts[i]].components && TankReady(w, ts[i])
      && ts[i] in orders && Enumerates(orders[ts[i]], CollidedWith(w, ts[i]))
  }

  lemma SkeletonKeepsOrders(w: World, w': World, ts: seq<EntityId>, orders: map<EntityId, seq<EntityId>>)
    requires OrdersFor(w, ts, orders) && SameSkeleton(w, w')
    ensures OrdersFor(w', ts, orders)
  {
    forall i | 0 <= i < |ts|
      ensures && ts[i] < |w'| && K.Tank in w'[ts[i]].components && TankReady(w', ts[i])
              && ts[i] in orders && Enumerates(orders[ts[i]], CollidedWith(w', ts[i]))
    {
      SkeletonKeepsTankReady(w, w', ts[i]);
    }
  }

  lemma OrdersForTail(w: World, ts: seq<EntityId>, orders: map<EntityId, seq<EntityId>>)
    requires OrdersFor(w, ts, orders) && ts != []
    ensures Ready(w) ==> CanUpdate(w, ts[0], orders[ts[0]])
    ensures OrdersFor(w, ts[1..], orders)
  {
    forall i | 0 <= i < |ts[1..]|
      ensures && ts[1..][i] < |w| && K.Tank in w[ts[1..][i]].components && TankReady(w, ts[1..][i])
              && ts[1..][i] in orders && Enumerates(orders[ts[1..][i]], CollidedWith(w, ts[1..][i]))
    {
      assert ts[1..][i] == ts[i + 1];
    }
  }

  /** The tanks in ts updated one after the other, each reading what the previous
      ones wrote. */
  function UpdateAll(w: World, ts: seq<EntityId>, orders: map<EntityId, seq<EntityId>>): (r: World)
    requires Ready(w) && OrdersFor(w, ts, orders)
    ensures SameSkeleton(w, r)
    decreases |ts|
  {
    if ts == [] then w
    else
      OrdersForTail(w, ts, orders);
      var w1 := UpdateOne(w, ts[0], orders[ts[0]]);
      SkeletonKeepsReady(w, w1);
      SkeletonKeepsOrders(w, w1, ts[1..], orders);
      var r := UpdateAll(w1, ts[1..], orders);
      SkeletonTransitive(w, w1, r);
      r
  }

  /** Tank::Update: every entity with a tank component, in the order the manager
      lists them; orders[t] is the iteration order of tank t's collided-with set. */
  function Update(w: World, orders: map<EntityId, seq<EntityId>>): (r: World)
    requires Ready(w)
    requires forall t :: 0 <= t < |w| && K.Tank in w[t].components ==>
               t in orders && Enumerates(orders[t], CollidedWith(w, t))
    ensures SameSkeleton(w, r) && Ready(r)
    ensures EntitiesWith(r, K.Tank) == EntitiesWith(w, K.Tank)
  {
    var ts := EntitiesWith(w, K.Tank);
    assert OrdersFor(w, ts, orders);
    var r := UpdateAll(w, ts, orders);
    SkeletonKeepsReady(w, r);
    SkeletonKeepsQueries(w, r, K.Tank);
    r
  }

  lemma UpdateOneKeepsDead(w: World, t: EntityId, order: seq<EntityId>, u: EntityId)
    requires CanUpdate(w, t, order)
    requires u < |w| && HasHealth(w[u]) && HealthOf(w, u).dead
    ensures var r := UpdateOne(w, t, order);
            |r| == |w| && HasHealth(r[u]) && HealthOf(r, u).dead
  {
    if t == u {
      UpdateOneEffect(w, u, order);
      assert FrameOf(w, u).health.dead;
    } else {
      UpdateOneOtherHealth(w, t, order, u);
    }
  }

  lemma UpdateOneScoreGrows(w: World, t: EntityId, order: seq<EntityId>)
    requires CanUpdate(w, t, order)
    ensures var r := UpdateOne(w, t, order);
            && Ready(r)
            && ScoreValue(r).Some? == ScoreValue(w).Some?
            && (ScoreValue(w).Some? ==> ScoreValue(r).value >= ScoreValue(w).value)
  {
    UpdateOneEffect(w, t, order);
    UpdateTankOutcome(FrameOf(w, t), OwnedByPlayer(w, t), ContactsOf(w, order));
  }

  /** No update brings a dead tank back: a health component marked dead stays marked. */
  lemma {:induction false} UpdateAllKeepsDead(w: World, ts: seq<EntityId>, orders: map<EntityId, seq<EntityId>>, u: EntityId)
    requires Ready(w) && OrdersFor(w, ts, orders)
    requires u < |w| && HasHealth(w[u]) && HealthOf(w, u).dead
    ensures var r := UpdateAll(w, ts, orders);
            |r| == |w| && HasHealth(r[u]) && HealthOf(r, u).dead
    decreases |ts|
  {
    if ts != [] {
      var t := ts[0];
      OrdersForTail(w, ts, orders);
      var w1 := UpdateOne(w, t, orders[t]);
      SkeletonKeepsReady(w, w1);
      SkeletonKeepsOrders(w, w1, ts[1..], orders);
      UpdateOneKeepsDead(w, t, orders[t], u);
      UpdateAllKeepsDead(w1, ts[1..], orders, u);
      assert UpdateAll(w, ts, orders) == UpdateAll(w1, ts[1..], orders);
    }
  }

  /** The score only grows: hits and kills add points, nothing takes them away. */
  lemma {:induction false} UpdateAllScoreGrows(w: World, ts: seq<EntityId>, orders: map<EntityId, seq<EntityId>>)
    requires Ready(w) && OrdersFor(w, ts, orders)
    ensures var r := UpdateAll(w, ts, orders);
            && Ready(r)
            && ScoreValue(r).Some? == ScoreValue(w).Some?
            && (ScoreValue(w).Some? ==> ScoreValue(r).value >= ScoreValue(w).value)
    decreases |ts|
  {
    SkeletonKeepsReady(w, UpdateAll(w, ts, orders));
    if ts != [] {
      var t := ts[0];
      OrdersForTail(w, ts, orders);
      var w1 := UpdateOne(w, t, orders[t]);
      SkeletonKeepsReady(w, w1);
      SkeletonKeepsOrders(w, w1, ts[1..], orders);
      UpdateOneScoreGrows(w, t, orders[t]);
      UpdateAllScoreGrows(w1, ts[1..], orders);
      assert UpdateAll(w, ts, orders) == UpdateAll(w1, ts[1..], orders);
    }
  }

  /** Tank::Update never revives a dead tank. */
  lemma NoTankRevived(w: World, orders: map<EntityId, seq<EntityId>>, u: EntityId)
    requires Ready(w)
    requires forall t :: 0 <= t < |w| && K.Tank in w[t].components ==>
               t in orders && Enumerates(orders[t], CollidedWith(w, t))
    requires u < |w| && HasHealth(w[u]) && HealthOf(w, u).dead
    ensures var r := Update(w, orders);
            |r| == |w| && HasHealth(r[u]) && HealthOf(r, u).dead
  {
    var ts := EntitiesWith(w, K.Tank);
    assert OrdersFor(w, ts, orders);
    UpdateAllKeepsDead(w, ts, orders, u);
  }

  /** Tank::Update never lowers the score. */
  lemma ScoreNeverDrops(w: World, orders: map<EntityId, seq<EntityId>>)
    requires Ready(w)
    requires forall t :: 0 <= t < |w| && K.Tank in w[t].components ==>
               t in orders && Enumerates(orders[t], CollidedWith(w, t))
    ensures var r := Update(w, orders);
            && ScoreValue(r).Some? == ScoreValue(w).Some?
            && (ScoreValue(w).Some? ==> ScoreValue(r).value >= ScoreValue(w).value)
  {
    var ts := EntitiesWith(w, K.Tank);
    assert OrdersFor(w, ts, orders);
    UpdateAllScoreGrows(w, ts, orders);
  }

  // ---- The iteration order of the collided-with set ----

  /** A sequence without repetitions holds each of its elements once. */
  lemma {:induction false} DistinctCounts(a: seq<EntityId>)
    requires forall i, j :: 0 <= i < j < |a| ==> a[i] != a[j]
    ensures forall x :: multiset(a)[x] == if x in a then 1 else 0
    decreases |a|
  {
    if a != [] {
      assert a == [a[0]] + a[1..];
      assert a[0] !in a[1..];
      DistinctCounts(a[1..]);
    }
  }

  /** Two iteration orders of one set are permutations of each other. */
  lemma EnumerationsPermute(a: seq<EntityId>, b: seq<EntityId>, s: set<EntityId>)
    requires Enumerates(a, s) && Enumerates(b, s)
    ensures multiset(a) == multiset(b)
  {
    DistinctCounts(a);
    DistinctCounts(b);
    forall x ensures multiset(a)[x] == multiset(b)[x] {
      assert (x in a <==> x in s) && (x in s <==> x in b);
    }
  }

  /** Each contact occurs in the contact list as often as its entity occurs in the order. */
  lemma {:induction false} ContactCounts(w: World, a: seq<EntityId>)
    requires forall i :: 0 <= i < |a| ==> ContactReady(w, a[i])
    ensures forall c :: multiset(ContactsOf(w, a))[c]
                     == if ContactReady(w, c.entity) && c == ContactOf(w, c.entity) then multiset(a)[c.entity] else 0
    decreases |a|
  {
    if a != [] {
      ContactCounts(w, a[1..]);
      assert a == [a[0]] + a[1..];
      assert ContactsOf(w, a) == [ContactOf(w, a[0])] + ContactsOf(w, a[1..]);
    }
  }

  lemma ContactsPermute(w: World, a: seq<EntityId>, b: seq<EntityId>)
    requires forall i :: 0 <= i < |a| ==> ContactReady(w, a[i])
    requires forall i :: 0 <= i < |b| ==> ContactReady(w, b[i])
    requires multiset(a) == multiset(b)
    ensures multiset(ContactsOf(w, a)) == multiset(ContactsOf(w, b))
  {
    ContactCounts(w, a);
    ContactCounts(w, b);
  }

  /** The iteration order of the collided-with set matters only through the shield:
      every order leaves the same tank component and marks the same bullets, and
      when the shield is down, every order leaves the very same world. With the
      shield up, the order picks the bullet the shield absorbs, and with it the
      health, the death and the kill points. */
  lemma VisitOrderOnlyMovesShieldAbsorption(w: World, t: EntityId, a: seq<EntityId>, b: seq<EntityId>)
    requires CanUpdate(w, t, a) && CanUpdate(w, t, b)
    ensures var oa := Outcome(w, t, a);
            var ob := Outcome(w, t, b);
            && oa.tank == ob.tank && oa.hits == ob.hits
            && (!TankOf(w, t).shieldActivated ==> UpdateOne(w, t, a) == UpdateOne(w, t, b))
  {
    EnumerationsPermute(a, b, CollidedWith(w, t));
    ContactsPermute(w, a, b);
    var f := FrameOf(w, t);
    var reset := f.(tank := f.tank.(speedReduced := false));
    VisitOrderIrrelevant(reset, OwnedByPlayer(w, t), ContactsOf(w, a), ContactsOf(w, b));
    if !TankOf(w, t).shieldActivated {
      assert Outcome(w, t, a) == Outcome(w, t, b);
      SyncReads(w, t, a);
      SyncReads(w, t, b);
    }
  }
}

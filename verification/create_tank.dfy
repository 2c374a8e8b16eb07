/**
  Tank::CreateTank: the three entities that make up a tank (the body, the turret
  and the tank itself) and the components each is given.
 */
module TankFactory {
  import opened Wrappers
  import opened Components
  import opened Entities
  import opened TankWorld
  import K = ComponentTypes

  /** What CreateTank needs from outside: the tank size and collision box (game
      constants), the physics body the physics world created, and the defaults of
      the tank and shoot components. */
  datatype Setup = Setup(
    size: Vec2,
    collisionSize: Vec2,
    body: BodyHandle,
    tankDefaults: TankComponent,
    shootDefaults: ShootComponent)

  /** The textures the texture manager hands out for the body and the turret. */
  const BodyTexture: TextureRef := TextureRef("tankBody")
  const TurretTexture: TextureRef := TextureRef("tankTurret")

  /** Health a new tank starts with. */
  const StartHealth: int := 40
  const MaxHealth: int := 100

  /* Each entity is written as the map its AddComponent calls leave behind, every
     component still Unattached; the *ByAttach lemmas below show the two agree. The
     writes CreateTank makes through GetComponent right after attaching (the physics
     body, the health values, the body and turret references) are folded into the
     constructed data. */

  /** The tank's body entity: drawn with the body texture, with a shadow and a
      collision box (for debug drawing only). */
  function BodyEntity(position: Vec2, s: Setup): (e: Entity)
    ensures HasTransform(e) && e.components[K.Transform].data == NewTransform(position, s.size)
    ensures HasSprite(e) && e.components[K.Sprite].data.image == Some(BodyTexture)
    ensures HasCollision(e) && e.components[K.Collision].data.shape == AABox
    ensures !HasComponent(e, K.Tank) && !HasComponent(e, K.Score)
  {
    Entity(map[
      K.Transform := Component(Unattached, NewTransform(position, s.size)),
      K.Collision := Component(Unattached, NewBoxCollision(s.collisionSize.x, s.collisionSize.y)),
      K.Sprite := Component(Unattached, NewSprite(BodyTexture)),
      K.Shadow := Component(Unattached, Shadow)])
  }

  /** The turret entity: movable on its own, drawn with the turret texture. */
  function TurretEntity(position: Vec2, s: Setup): (e: Entity)
    ensures HasTransform(e) && e.components[K.Transform].data == NewTransform(position, s.size)
    ensures HasSprite(e) && e.components[K.Sprite].data.image == Some(TurretTexture)
    ensures !HasComponent(e, K.Tank) && !HasComponent(e, K.Score)
  {
    Entity(map[
      K.Transform := Component(Unattached, NewTransform(position, s.size)),
      K.Mover := Component(Unattached, NewMover()),
      K.Sprite := Component(Unattached, NewSprite(TurretTexture)),
      K.Shadow := Component(Unattached, Shadow)])
  }

  /** The tank entity proper, referring to its body and turret. */
  function TankEntity(position: Vec2, s: Setup, bodyId: EntityId, turretId: EntityId): (e: Entity)
    ensures HasTank(e) && HasTransform(e) && HasCollision(e) && HasHealth(e) && HasOwnership(e)
    ensures HasComponent(e, K.Tank) && !HasComponent(e, K.Score)
    ensures e.components[K.Tank].data.tank == s.tankDefaults.(bodyEntity := bodyId, turretEntity := turretId)
    ensures e.components[K.Health].data.health == HealthComponent(StartHealth, MaxHealth, false)
    ensures !e.components[K.Ownership].data.ownedByPlayer
    ensures e.components[K.Collision].data == NewBoxCollision(s.collisionSize.x, s.collisionSize.y)
    ensures e.components[K.Transform].data == NewTransform(position, s.size)
    ensures K.Box2dBody in e.components && e.components[K.Box2dBody].data == Box2dBody(s.body)
    ensures K.Shoot in e.components && e.components[K.Shoot].data == Shoot(s.shootDefaults)
  {
    Entity(map[
      K.Box2dBody := Component(Unattached, Box2dBody(s.body)),
      K.Transform := Component(Unattached, NewTransform(position, s.size)),
      K.Mover := Component(Unattached, NewMover()),
      K.Collision := Component(Unattached, NewBoxCollision(s.collisionSize.x, s.collisionSize.y)),
      K.Tank := Component(Unattached, Tank(s.tankDefaults.(bodyEntity := bodyId, turretEntity := turretId))),
      K.Shoot := Component(Unattached, Shoot(s.shootDefaults)),
      K.SolidObject := Component(Unattached, SolidObject),
      K.Ownership := Component(Unattached, Ownership(false)),
      K.Health := Component(Unattached, NewHealth(StartHealth, MaxHealth))])
  }

  /** The body entity is what its four AddComponent calls build, in source order. */
  lemma BodyEntityByAttach(position: Vec2, s: Setup)
    ensures
      var e0 := AddComponent(NewEntity, K.Transform, NewTransform(position, s.size));
      var e1 := AddComponent(e0, K.Collision, NewBoxCollision(s.collisionSize.x, s.collisionSize.y));
      var e2 := AddComponent(e1, K.Sprite, NewSprite(BodyTexture));
      var e3 := AddComponent(e2, K.Shadow, Shadow);
      e3 == BodyEntity(position, s)
  {
  }

  /** The turret entity is what its four AddComponent calls build, in source order. */
  lemma TurretEntityByAttach(position: Vec2, s: Setup)
    ensures
      var e0 := AddComponent(NewEntity, K.Transform, NewTransform(position, s.size));
      var e1 := AddComponent(e0, K.Mover, NewMover());
      var e2 := AddComponent(e1, K.Sprite, NewSprite(TurretTexture));
      var e3 := AddComponent(e2, K.Shadow, Shadow);
      e3 == TurretEntity(position, s)
  {
  }

  /** The tank entity is what its nine AddComponent calls build, in source order. */
  lemma TankEntityByAttach(position: Vec2, s: Setup, bodyId: EntityId, turretId: EntityId)
    ensures
      var e0 := AddComponent(NewEntity, K.Box2dBody, Box2dBody(s.body));
      var e1 := AddComponent(e0, K.Transform, NewTransform(position, s.size));
      var e2 := AddComponent(e1, K.Mover, NewMover());
      var e3 := AddComponent(e2, K.Collision, NewBoxCollision(s.collisionSize.x, s.collisionSize.y));
      var e4 := AddComponent(e3, K.Tank, Tank(s.tankDefaults.(bodyEntity := bodyId, turretEntity := turretId)));
      var e5 := AddComponent(e4, K.Shoot, Shoot(s.shootDefaults));
      var e6 := AddComponent(e5, K.SolidObject, SolidObject);
      var e7 := AddComponent(e6, K.Ownership, Ownership(false));
      var e8 := AddComponent(e7, K.Health, NewHealth(StartHealth, MaxHealth));
      e8 == TankEntity(position, s, bodyId, turretId)
  {
  }

  /** Three AddEntity calls in a row; the last reference is returned. */
  function AddThree(w: World, a: Entity, b: Entity, c: Entity): (r: Added)
    ensures r.world == w + [a, b, c] && r.id == |w| + 2
  {
    var x := AddEntity(w, a);
    var y := AddEntity(x.world, b);
    AddEntity(y.world, c)
  }

  /** CreateTank: hands the body, the turret and the tank to the manager in that
      order and returns the tank, whose tank component refers to the first two. */
  function CreateTank(w: World, position: Vec2, s: Setup): (r: Added)
    ensures r.world == w + [BodyEntity(position, s), TurretEntity(position, s), TankEntity(position, s, |w|, |w| + 1)]
    ensures r.id == |w| + 2
  {
    AddThree(w, BodyEntity(position, s), TurretEntity(position, s), TankEntity(position, s, |w|, |w| + 1))
  }

  /** Which components each of the three entities is built with. */
  lemma CreatedKinds(position: Vec2, s: Setup, bodyId: EntityId, turretId: EntityId)
    ensures BodyEntity(position, s).components.Keys == {K.Transform, K.Collision, K.Sprite, K.Shadow}
    ensures TurretEntity(position, s).components.Keys == {K.Transform, K.Mover, K.Sprite, K.Shadow}
    ensures TankEntity(position, s, bodyId, turretId).components.Keys
         == {K.Box2dBody, K.Transform, K.Mover, K.Collision, K.Tank, K.Shoot, K.SolidObject, K.Ownership, K.Health}
  {
  }

  /** The new tank refers to the two entities added just before it, is alive at 40
      of 100 health, belongs to the enemy side, has touched nothing yet, and can be
      updated at once. */
  lemma NewTankShape(w: World, position: Vec2, s: Setup)
    ensures var r := CreateTank(w, position, s);
            var t := r.id;
            && TankReady(r.world, t)
            && TankOf(r.world, t).bodyEntity == |w| && TankOf(r.world, t).turretEntity == |w| + 1
            && HealthOf(r.world, t) == HealthComponent(StartHealth, MaxHealth, false)
            && !OwnedByPlayer(r.world, t)
            && CollidedWith(r.world, t) == {}
            && TransformOf(r.world, t).position == position
            && TransformOf(r.world, TankOf(r.world, t).bodyEntity).position == position
            && TransformOf(r.world, TankOf(r.world, t).turretEntity).position == position
  {
    var r := CreateTank(w, position, s);
    assert HasTransform(r.world[|w|]) && HasSprite(r.world[|w|]);
    assert HasTransform(r.world[|w| + 1]);
  }

  /** Entities already in the manager stay ready when more are appended, since a
      ready tank refers only to entities before the new ones. */
  lemma AppendKeepsTankReady(w: World, extra: seq<Entity>, t: EntityId)
    requires TankReady(w, t)
    ensures TankReady(w + extra, t)
  {
    var w' := w + extra;
    assert forall i :: 0 <= i < |w| ==> w'[i] == w[i];
    forall e | e in CollidedWith(w', t) ensures ContactReady(w', e) {
      assert ContactReady(w, e);
    }
  }

  /** Creating a tank keeps the manager ready for Tank::Update. */
  lemma CreateTankKeepsReady(w: World, position: Vec2, s: Setup)
    requires Ready(w)
    ensures Ready(CreateTank(w, position, s).world)
  {
    var r := CreateTank(w, position, s);
    var extra := [BodyEntity(position, s), TurretEntity(position, s), TankEntity(position, s, |w|, |w| + 1)];
    NewTankShape(w, position, s);
    forall t | 0 <= t < |r.world| && K.Tank in r.world[t].components ensures TankReady(r.world, t) {
      if t < |w| {
        assert r.world[t] == w[t];
        AppendKeepsTankReady(w, extra, t);
      } else {
        assert t == |w| + 2;
      }
    }
  }

  /** Appending three entities extends a query by those of them that hold the kind. */
  lemma AddThreeQuery(w: World, a: Entity, b: Entity, c: Entity, k: K.Kind)
    ensures EntitiesWith(w + [a, b, c], k)
         == EntitiesWith(w, k)
            + (if HasComponent(a, k) then [|w|] else [])
            + (if HasComponent(b, k) then [|w| + 1] else [])
            + (if HasComponent(c, k) then [|w| + 2] else [])
  {
    var w1 := AddEntity(w, a).world;
    var w2 := AddEntity(w1, b).world;
    var w3 := AddEntity(w2, c).world;
    AddEntityQuery(w, a, k);
    var q1 := EntitiesWith(w1, k);
    AddEntityQuery(w1, b, k);
    var q2 := EntitiesWith(w2, k);
    assert |w1| == |w| + 1;
    AddEntityQuery(w2, c, k);
    assert |w2| == |w| + 2;
    assert w3 == w + [a, b, c];
  }

  /** When only the last of the three holds the kind, it is the one new answer. */
  lemma AddThreeQueryLast(w: World, a: Entity, b: Entity, c: Entity, k: K.Kind)
    requires !HasComponent(a, k) && !HasComponent(b, k) && HasComponent(c, k)
    ensures EntitiesWith(w + [a, b, c], k) == EntitiesWith(w, k) + [|w| + 2]
  {
    AddThreeQuery(w, a, b, c, k);
    var before := EntitiesWith(w, k);
    assert before + [] + [] + [|w| + 2] == before + [|w| + 2];
  }

  /** The new tank is the last one the manager lists, so the next update reaches it
      after every older tank. */
  lemma CreateTankQuery(w: World, position: Vec2, s: Setup)
    ensures EntitiesWith(CreateTank(w, position, s).world, K.Tank) == EntitiesWith(w, K.Tank) + [|w| + 2]
  {
    var body := BodyEntity(position, s);
    var turret := TurretEntity(position, s);
    var tank := TankEntity(position, s, |w|, |w| + 1);
    AddThreeQueryLast(w, body, turret, tank, K.Tank);
  }
}

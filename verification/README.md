# RealSteel tank core in Dafny

A model of two pieces of the RealSteel game: the component registry and component defaults of the engine's entity-component system, and the tank rules of the game.

- **Registry.** `Component::GetComponentTypeID<T>` hands every component type a lazily assigned id from a shared counter. The model is a map plus a counter.
- **Component defaults.** The component structs fix default values and the shape each `CollisionComponent` constructor selects.
- **Tank rules.** `Tank::CreateTank`, `Tank::Update` and `Tank::Shoot` implement the tank rules:
  - creating the three tank entities;
  - syncing body and turret;
  - collisions with lakes and bullets;
  - the shield;
  - damage;
  - hit and kill points;
  - the four speed modes;
  - the one-shot destruction;
  - the firing gate.

The model is functional.

- An entity is a map from component kind to component.
- The entity manager is an append-only sequence of entities, and an entity reference is a position in it.
- `Tank::Update` has three stages:
  1. read one tank's frame from the world;
  2. run the pure rules of `TankRules` on it;
  3. write the result back.
- Within one tank's update, the rules read back only what the frame itself carries: the tank's shield, speed penalty and health, and the score (added to at Game/src/Entities/Tank.cpp:124 and again at 161). The speed penalty is cleared at line 104, may be set at 109, and is read at 140. No other component that the update writes is read later in the same update. So this staging does what the interleaved loop does.
- The collided-with set is a `std::set<Entity*>`, so its iteration order follows pointer values. That order is a parameter: any sequence that lists the set's members once each.

Modules:

- `ComponentTypes`: the kinds and the type-id registry.
- `Components`: the component structs and their constructors.
- `Entities`: entities, the manager, and queries.
- `TankRules`: one tank's frame and the rules over it.
- `Shooting`: the firing gate.
- `TankWorld`: `Tank::Update` on the whole world.
- `TankFactory`: `Tank::CreateTank`.
- `Wrappers`: `Option`.

## Model

| member | source | states |
|---|---|---|
| ComponentTypes.GetTypeId | Engine/src/ECS/Component.h:23-32 | On a kind's first request, the id is the current counter and the counter rises by exactly one. Later requests return the cached id and change nothing. Issued ids stay below the counter and stay distinct. |
| ComponentTypes.GetTypeIdMemoised | Engine/src/ECS/Component.h:30-31 | A second request for the same kind returns the same id and leaves the registry as it was. |
| ComponentTypes.FirstIdIsZero | Engine/src/ECS/Component.h:23-31 | In a fresh process, the first kind to ask gets id 0. |
| ComponentTypes.IssueAll | Engine/src/ECS/Component.h:23-32 | Over a run of requests, earlier ids are kept. Each request's id is the id its kind holds at the end, and the counter never decreases. |
| ComponentTypes.SameIdIffSameKind | Engine/src/ECS/Component.h:23-32 | Over any run of requests, two calls return the same id exactly when they name the same kind, and every id is below the final counter. |
| Components.Fresh | Engine/src/ECS/Component.h:17-19 | A newly built component has no owner, type id 0 and is inactive. |
| Components.NewTransform | Engine/src/ECS/Component.h:39-50 | The transform constructor keeps position and size and starts at rotation 0. |
| Components.NewMover | Engine/src/ECS/Component.h:52-60 | The default mover has zero translation speed and zero rotation speed. |
| Components.NewCollision | Engine/src/ECS/Component.h:70-74 | The default collision component is a circle and touches nothing. |
| Components.NewCircleCollision | Engine/src/ECS/Component.h:75 | The radius constructor keeps the circle shape and stores the radius in the first extent. |
| Components.NewBoxCollision | Engine/src/ECS/Component.h:76 | The two-extent constructor selects an axis-aligned box, keeps both extents and touches nothing. |
| Components.BoxIffTwoExtents | Engine/src/ECS/Component.h:70-77 | Whatever the arguments, only the two-extent constructor yields a box; the other two give circles. |
| Components.NewSprite | Engine/src/ECS/Component.h:79-87 | A sprite built from an image shows it unflipped. |
| Components.NewScore | Engine/src/ECS/Component.h:94-98 | A new score component has empty text and score 0. |
| Components.NewHealth | Engine/src/ECS/Component.h:100-105 | A new health component is not dead and carries the health values its builder supplies. |
| Components.AddCollided | Engine/src/ECS/Component.h:72 | Recording a contact adds that entity, keeps every earlier one and adds nothing else. |
| Components.AddCollidedIdempotent | Engine/src/ECS/Component.h:72 | The collided-with set is a set: recording an entity again, or recording one already present, changes nothing. |
| Entities.GetComponent | Game/src/Entities/Tank.cpp:91-94 | The lookup finds a component exactly when the entity holds that kind. In an entity whose components all sit under their own kind, what it finds is of that kind. |
| Entities.AddComponent | Game/src/Entities/Tank.cpp:43-52 | After attaching, the kind's lookup finds the component as its constructor left it: no owner, type id 0, inactive. Every other kind's lookup is unchanged. |
| Entities.AddKeepsWellKeyed | Game/src/Entities/Tank.cpp:43-52 | Attaching a component under its own kind keeps every component of the entity under its own kind. |
| Entities.AddEntity | Game/src/Entities/Tank.cpp:77-81 | The manager grows by one, the new entity's reference is the old size, and every earlier entity is unchanged. |
| Entities.EntitiesWith | Game/src/Entities/Tank.cpp:87 | The query lists exactly the entities holding the kind, each once, in insertion order. |
| Entities.FirstWith | Game/src/Entities/Tank.cpp:118-122 | `xs.at(0)` is the earliest entity holding the kind. There is none exactly when no entity holds it. |
| Entities.AddEntityQuery | Game/src/Entities/Tank.cpp:77-87 | Appending an entity extends a query by that entity if it holds the kind, and leaves the query alone otherwise. |
| Entities.SameKindsSameQuery | Game/src/Entities/Tank.cpp:87 | Queries depend only on which kinds each entity holds. |
| TankRules.Examine | Game/src/Entities/Tank.cpp:106-137 | One pass of the collision loop: the speed penalty is set by a lake or an active shield; a bullet of the tank's own side, or any non-bullet, changes nothing else; an opposing bullet is always marked as collided and always switches the shield off, and costs health equal to its power only if no shield was up; a player bullet hitting a living enemy adds exactly 2 points if a score exists. |
| TankRules.Resolve | Game/src/Entities/Tank.cpp:106-138 | The collision loop over the contacts in the given order. The tank's references, boost flag, special flag and speed mode are kept, as are the maximum health and the dead flag. The score stays present or absent, and the marked bullets only grow. `TankRules.ResolveOutcome` states the full effect. |
| TankRules.ResolveOutcome | Game/src/Entities/Tank.cpp:104-138 | The whole loop in closed form: the penalty is set iff a lake was seen or the shield was up and the set is non-empty; the shield survives iff no opposing bullet was seen; the marked bullets are exactly the opposing ones; the score rises by 2 per player bullet unless the tank was dead; health drops by the total power of the opposing bullets, minus the first one's if the shield was up. |
| TankRules.VisitOrderIrrelevant | Game/src/Entities/Tank.cpp:106-135 | For any two orders of the same contacts, the tank component, the marked bullets and the score are equal. With the shield down, the health is equal too. |
| TankRules.HealthDependsOnVisitOrder | Game/src/Entities/Tank.cpp:128-133 | With the shield up, two orders of the same two bullets leave different health. The shield absorbs whichever opposing bullet comes first. |
| TankRules.ChooseSpeed | Game/src/Entities/Tank.cpp:140-151 | Exactly one of the four speed modes is chosen, and it records both the boost flag and the penalty flag. |
| TankRules.SpeedTable | Game/src/Entities/Tank.cpp:140-151 | The chosen speed is 0.75, 100.5, 0.5 or 1 times the base speed, for boosted and reduced, boosted only, reduced only, and neither. |
| TankRules.Die | Game/src/Entities/Tank.cpp:152-165 | The tank is dead afterwards exactly when it was dead or its health is at most 0. Only the alive-to-dead step of an enemy tank adds 8 points, and only if a score exists. Nothing else changes. |
| TankRules.UpdateTank | Game/src/Entities/Tank.cpp:101-165 | One tank's update keeps its references, boost and special flags and maximum health. The speed mode matches the final flags, a dead tank stays dead, and death needs health at most 0. |
| TankRules.UpdateTankOutcome | Game/src/Entities/Tank.cpp:104-165 | The penalty is reset before the loop. Health, death and score are the loop's closed form followed by the death check. The score gains 8 exactly when the final health is at most 0 and the tank is an enemy that was alive. |
| TankRules.DeadTankScoresNothing | Game/src/Entities/Tank.cpp:116-164 | An update of a tank that is already dead awards no points and leaves it dead. |
| TankRules.DeathIsOneShot | Game/src/Entities/Tank.cpp:152-165 | Over any run of frames, a tank goes from alive to dead at most once, never if it starts dead, and stays dead. |
| TankRules.DeadTankNeverScores | Game/src/Entities/Tank.cpp:116-164 | Once a tank is dead, no later frame of it changes the score, so its kill award is paid at most once. |
| Shooting.Shoot | Game/src/Entities/Tank.cpp:179-205 | The gun fires exactly when the cooldown is off or expired (strictly more than the reload time since the last shot) and ammo is nonzero or infinite. Firing requests one bullet with the caller's arguments, sets the cooldown and fire time, and clears `hasSpecial` only for a special shot. Not firing leaves the tank and fire time alone, with the cooldown on exactly when not expired. Ammo never changes. |
| Shooting.NoShotWithinReload | Game/src/Entities/Tank.cpp:180-190 | After a shot, every attempt within the reload time fires nothing and changes nothing. |
| Shooting.ShotsSpacedByReload | Game/src/Entities/Tank.cpp:180-204 | Two successful shots in a row, whatever side, kind and power each fires, are more than the reload time apart. |
| Shooting.EmptyGunNeverFires | Game/src/Entities/Tank.cpp:187-190 | A gun with no ammo and no infinite ammo never fires, and at most clears an expired cooldown. |
| TankWorld.SyncTransforms | Game/src/Entities/Tank.cpp:96-98 | The body and turret sync keeps the world's shape: the same entities holding the same kinds, with nothing written outside what may change. `TankWorld.SyncedTransforms` and `TankWorld.SyncTouchesOnlyTransforms` state the full effect. |
| TankWorld.SyncedTransforms | Game/src/Entities/Tank.cpp:96-98 | The body takes the tank's position and rotation, and the turret takes the tank's position. If the turret is not the body, it keeps its rotation. Neither changes size. |
| TankWorld.SyncTouchesOnlyTransforms | Game/src/Entities/Tank.cpp:91-99 | The sync changes only the transform components, and only those of the body and the turret. |
| TankWorld.EnumerationsPermute | Engine/src/ECS/Component.h:72 | Any two iteration orders of one collided-with set are permutations of each other. |
| TankWorld.ContactsPermute | Game/src/Entities/Tank.cpp:106-112 | The contacts read in two orders that are permutations of each other are themselves permutations. |
| TankWorld.UpdateOne | Game/src/Entities/Tank.cpp:89-169 | One pass of the tank loop keeps the world's shape: the same entities holding the same kinds. `TankWorld.UpdateOneEffect` and the other `UpdateOne` lemmas state the full effect. |
| TankWorld.UpdateOneEffect | Game/src/Entities/Tank.cpp:89-169 | After one tank's update, its tank and health components, the first score entity's value and the marked bullets are exactly what the rules computed from the world before it; a tank that just died shows the wreck texture on its body; the manager stays ready. |
| TankWorld.UpdateOneTransforms | Game/src/Entities/Tank.cpp:92-99 | After one tank's update, the body stands where the tank stands and faces its way, and the turret stands there too. |
| TankWorld.UpdateOneKeeps | Game/src/Entities/Tank.cpp:89-169 | One tank's update changes no component outside transform, tank, health, bullet, sprite and score, on any entity. |
| TankWorld.UpdateOneFrame | Game/src/Entities/Tank.cpp:89-169 | One tank's update leaves every entity unchanged except the tank, its body, its turret, the bullets that hit it and the first score entity. |
| TankWorld.UpdateOneOtherHealth | Game/src/Entities/Tank.cpp:103-164 | One tank's update leaves every other entity's health component as it was. |
| TankWorld.Update | Game/src/Entities/Tank.cpp:85-171 | Updating every tank in manager order keeps the manager's shape. It stays ready for the next update, and the tank list is the same. |
| TankWorld.NoTankRevived | Game/src/Entities/Tank.cpp:152-164 | Over a whole update of all tanks, a health component marked dead stays dead. |
| TankWorld.ScoreNeverDrops | Game/src/Entities/Tank.cpp:116-161 | Over a whole update of all tanks, the score exists afterwards exactly when it did before, and never decreases. |
| TankWorld.VisitOrderOnlyMovesShieldAbsorption | Game/src/Entities/Tank.cpp:106-138 | Any two iteration orders of the collided-with set give the same tank component and mark the same bullets. With the shield down, they leave the very same world. |
| TankFactory.BodyEntity | Game/src/Entities/Tank.cpp:57-62 | The body entity has the tank's transform, the body texture, a box collision component and no tank or score component. |
| TankFactory.TurretEntity | Game/src/Entities/Tank.cpp:67-71 | The turret entity has the tank's transform, the turret texture and no tank or score component. |
| TankFactory.TankEntity | Game/src/Entities/Tank.cpp:16-55 | The tank entity proper holds its physics body, its transform, a box collision, the shoot defaults, the tank defaults with the body and turret references, 40 of 100 health (not dead) and enemy ownership. |
| TankFactory.BodyEntityByAttach | Game/src/Entities/Tank.cpp:57-62 | The body entity is exactly what attaching transform, collision, sprite and shadow to a new entity, in that order, builds. |
| TankFactory.TurretEntityByAttach | Game/src/Entities/Tank.cpp:67-71 | The turret entity is exactly what attaching transform, mover, sprite and shadow to a new entity, in that order, builds. |
| TankFactory.TankEntityByAttach | Game/src/Entities/Tank.cpp:16-52 | The tank entity is exactly what the nine attachments of the source build, in the source's order, with the later writes of the physics body, the health values and the body and turret references applied. |
| TankFactory.CreateTank | Game/src/Entities/Tank.cpp:11-84 | Exactly three entities are appended, body, turret and tank in that order, and the tank's reference is returned. |
| TankFactory.CreatedKinds | Game/src/Entities/Tank.cpp:16-71 | Each entity holds exactly these kinds: body — transform, collision, sprite, shadow; turret — transform, mover, sprite, shadow; tank — physics body, transform, mover, collision, tank, shoot, solid, ownership, health. |
| TankFactory.NewTankShape | Game/src/Entities/Tank.cpp:43-81 | The new tank is ready to update, refers to the two entities added just before it, has 40 of 100 health and is alive, is an enemy, has touched nothing yet, and stands with its body and turret at the given position. |
| TankFactory.CreateTankKeepsReady | Game/src/Entities/Tank.cpp:73-81 | Creating a tank keeps a manager that is ready for `Tank::Update` ready. |
| TankFactory.CreateTankQuery | Game/src/Entities/Tank.cpp:77-87 | The next update's tank list is the old one with the new tank appended. So it is updated after every older tank. |

Notes on the model:

- **The speed penalty does not depend on the iteration order.** The shield test at Game/src/Entities/Tank.cpp:108 can switch the penalty on partway through the loop. But when the shield is up, the first contact already sets the penalty, whatever that contact is. So only the health, and through it the death and kill points, depends on the order. `TankWorld.VisitOrderOnlyMovesShieldAbsorption` and `TankRules.HealthDependsOnVisitOrder` state both halves.
- **An expired cooldown is cleared even when the gate then refuses.** `Tank::Shoot` clears the cooldown before the ammo test, so a refused attempt can still clear it, and `Shooting.Shoot` keeps that.
- **What `TankWorld.Ready` requires of the world.** Before `Tank::Update`, the model requires the following:
  - every tank has its transform, collision, health and ownership components;
  - its body has a transform and a sprite;
  - its turret has a transform;
  - every bullet it touched has an ownership component;
  - the first score entity holds a score.

  On every update, the source dereferences the transforms and the collision (Game/src/Entities/Tank.cpp:91-105) and the health (line 152). It reads the tank's ownership only when a bullet touched it (line 113) or when it dies with a score present (line 156), and the body's sprite only when the tank dies (line 167). The model requires those two unconditionally for simplicity. `TankFactory.CreateTank` always provides them, and `TankFactory.CreateTankKeepsReady` shows that creating a tank keeps a ready world ready.

## Left out

- Box2D body and fixture creation, and the lookup of the physics world (Game/src/Entities/Tank.cpp:18-40). These are foreign library calls. The body handle is an input of `TankFactory.CreateTank`.
- The texture manager. A texture is identified by the name it is requested under: `TankFactory.BodyTexture` is "tankBody", `TankFactory.TurretTexture` is "tankTurret" and `TankWorld.DestroyedTank` is "destroyedTank".
- Sound playback (Game/src/Entities/Tank.cpp:133). It has no effect on the model's state.
- The bullet spawn position and `Bullet::CreateBullet` (Game/src/Entities/Tank.cpp:192-198). The first is trigonometry on floats. The second is code that is not part of this model. `Shooting.Shoot` returns the request to build a bullet, holding the arguments it would pass.
- The clock. `high_resolution_clock::now()` becomes an integer millisecond parameter. `Tank::Shoot` reads the clock twice, for the cooldown test (Game/src/Entities/Tank.cpp:182) and for the firing stamp after the bullet is built (line 204). Both reads become the same `now`. The later stamp can only widen the spacing that `Shooting.ShotsSpacedByReload` states.
- Float arithmetic. Float fields are reals that are only copied, and the tank's speed is one of four modes whose multiple of the base speed `TankRules.SpeedFactor` gives. `dt` is unused by the modelled code.
- The constants and defaults of GameComponents.h, which is not part of this model:
  - TANK_SIZE, TANK_COLISION, TANK_RELOAD_SPEED and the defaults of TankComponent and ShootComponent are parameters of `TankFactory.Setup` or of `Shooting.Shoot`;
  - TANK_SPEED is factored out: the tank's speed is a `SpeedMode`, and `TankRules.SpeedFactor` gives its multiple of TANK_SPEED.
- The internals of `Entity` and `EntityManager`, which are not part of this model. They appear only as a kind-to-component map and an append-only sequence.
  - `Entities.AddComponent` assumes that attaching a second component of a kind replaces the first.
  - `Entities.AddComponent` leaves the owner, type id and active flag as the component's constructor set them. The model does not promise the owner and active flag that attaching is meant to set. The owner would be the entity's reference, which is known only once `AddEntity` gives the entity its position, and the tank code never reads these fields.
  - Entities are keyed by `ComponentTypes.Kind`, not by the ids the registry hands out.
  - Entities are never removed.
  - Entity pointers are positions in the sequence.
- Camera, input, animation, terrain and menu component data. Their kinds exist in the registry, but the tank code never reads their data. The physics component is read only for its Box2D world (Game/src/Entities/Tank.cpp:26-27), whose lookup is left out with the body creation above.
- 32-bit `int` overflow in health and score arithmetic. Integers are unbounded, because the game's values (health 100, bullet powers, a few points per hit) stay far from the limits.
- `TankFactory.CreateTank`: the three entities are written as the maps their `AddComponent` calls leave behind. `TankFactory.BodyEntityByAttach`, `TankFactory.TurretEntityByAttach` and `TankFactory.TankEntityByAttach` prove each map equal to its chain of calls.

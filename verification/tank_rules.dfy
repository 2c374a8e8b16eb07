/**
  The per-tank combat rules of Tank::Update, as pure functions over the
  components they read and write.
 */
module TankRules {
  import opened Wrappers
  import opened Components

  /** Points for hitting an enemy tank with a player bullet, and for destroying one. */
  const HitPoints: int := 2
  const KillPoints: int := 8

  datatype BulletInfo = BulletInfo(ownedByPlayer: bool, power: int)

  /** What the collision loop reads of one entity in the tank's collided-with set:
      whether it is a lake, and the ownership and power of its bullet component. */
  datatype Contact = Contact(entity: EntityId, isLake: bool, bullet: Option<BulletInfo>)

  /** What one tank's update reads and writes: its tank and health components, the
      score of the first score entity (None when there is none), and the bullets
      marked as collided so far. */
  datatype Frame = Frame(tank: TankComponent, health: HealthComponent, score: Option<int>, hits: set<EntityId>)

  /** A bullet of the other side; bullets of the tank's own side pass through. */
  predicate Opposing(ownedByPlayer: bool, c: Contact) {
    c.bullet.Some? && c.bullet.value.ownedByPlayer != ownedByPlayer
  }

  /** One iteration of the collision loop. */
  function Examine(f: Frame, ownedByPlayer: bool, c: Contact): (r: Frame)
    ensures r.tank.speedReduced == (f.tank.speedReduced || c.isLake || f.tank.shieldActivated)
    ensures r.tank.(speedReduced := f.tank.speedReduced, shieldActivated := f.tank.shieldActivated) == f.tank
    ensures r.health.max == f.health.max && r.health.dead == f.health.dead
    ensures !Opposing(ownedByPlayer, c) ==>
              r.tank.shieldActivated == f.tank.shieldActivated && r.health == f.health
              && r.score == f.score && r.hits == f.hits
    ensures Opposing(ownedByPlayer, c) ==> r.hits == f.hits + {c.entity} && !r.tank.shieldActivated
    ensures Opposing(ownedByPlayer, c) && f.tank.shieldActivated ==> r.health == f.health
    ensures Opposing(ownedByPlayer, c) && !f.tank.shieldActivated ==>
              r.health.current == f.health.current - c.bullet.value.power
    ensures r.score == if Opposing(ownedByPlayer, c) && c.bullet.value.ownedByPlayer
                          && !f.health.dead && f.score.Some?
                       then Some(f.score.value + HitPoints) else f.score
  {
    var tank := if c.isLake || f.tank.shieldActivated then f.tank.(speedReduced := true) else f.tank;
    if c.bullet.Some? && ownedByPlayer != c.bullet.value.ownedByPlayer then
      var b := c.bullet.value;
      var score := if b.ownedByPlayer && !f.health.dead && f.score.Some? then Some(f.score.value + HitPoints) else f.score;
      if tank.shieldActivated then
        Frame(tank.(shieldActivated := false), f.health, score, f.hits + {c.entity})
      else
        Frame(tank, f.health.(current := f.health.current - b.power), score, f.hits + {c.entity})
    else
      Frame(tank, f.health, f.score, f.hits)
  }

  /** The collision loop over the collided-with set, visited in the given order. */
  function Resolve(f: Frame, ownedByPlayer: bool, cs: seq<Contact>): (r: Frame)
    ensures r.tank.bodyEntity == f.tank.bodyEntity && r.tank.turretEntity == f.tank.turretEntity
    ensures r.tank.speedBoosted == f.tank.speedBoosted && r.tank.hasSpecial == f.tank.hasSpecial
    ensures r.tank.speed == f.tank.speed
    ensures r.health.max == f.health.max && r.health.dead == f.health.dead
    ensures r.score.Some? == f.score.Some?
    ensures f.hits <= r.hits
    decreases |cs|
  {
    if cs == [] then f else Resolve(Examine(f, ownedByPlayer, cs[0]), ownedByPlayer, cs[1..])
  }

  // Reference definitions of what the loop accumulates, independent of the loop.

  predicate AnyLake(cs: seq<Contact>) {
    exists i :: 0 <= i < |cs| && cs[i].isLake
  }

  predicate AnyOpposing(ownedByPlayer: bool, cs: seq<Contact>) {
    exists i :: 0 <= i < |cs| && Opposing(ownedByPlayer, cs[i])
  }

  function OpposingIds(ownedByPlayer: bool, cs: seq<Contact>): set<EntityId> {
    set i | 0 <= i < |cs| && Opposing(ownedByPlayer, cs[i]) :: cs[i].entity
  }

  /** Number of opposing bullets that the player fired. */
  function PlayerHits(ownedByPlayer: bool, cs: seq<Contact>): nat
    decreases |cs|
  {
    if cs == [] then 0
    else (if Opposing(ownedByPlayer, cs[0]) && cs[0].bullet.value.ownedByPlayer then 1 else 0)
         + PlayerHits(ownedByPlayer, cs[1..])
  }

  /** Total power of the opposing bullets. */
  function Damage(ownedByPlayer: bool, cs: seq<Contact>): int
    decreases |cs|
  {
    if cs == [] then 0
    else (if Opposing(ownedByPlayer, cs[0]) then cs[0].bullet.value.power else 0)
         + Damage(ownedByPlayer, cs[1..])
  }

  /** Power of the first opposing bullet in visiting order: the one a shield absorbs. */
  function AbsorbedPower(ownedByPlayer: bool, cs: seq<Contact>): int
    decreases |cs|
  {
    if cs == [] then 0
    else if Opposing(ownedByPlayer, cs[0]) then cs[0].bullet.value.power
    else AbsorbedPower(ownedByPlayer, cs[1..])
  }

  lemma AnyLakeCons(cs: seq<Contact>)
    requires cs != []
    ensures AnyLake(cs) == (cs[0].isLake || AnyLake(cs[1..]))
  {
    if AnyLake(cs) && !cs[0].isLake {
      var i :| 0 <= i < |cs| && cs[i].isLake;
      assert cs[1..][i - 1].isLake;
    }
    if AnyLake(cs[1..]) {
      var i :| 0 <= i < |cs[1..]| && cs[1..][i].isLake;
      assert cs[i + 1].isLake;
    }
  }

  lemma AnyOpposingCons(ownedByPlayer: bool, cs: seq<Contact>)
    requires cs != []
    ensures AnyOpposing(ownedByPlayer, cs) == (Opposing(ownedByPlayer, cs[0]) || AnyOpposing(ownedByPlayer, cs[1..]))
    ensures OpposingIds(ownedByPlayer, cs)
         == (if Opposing(ownedByPlayer, cs[0]) then {cs[0].entity} else {}) + OpposingIds(ownedByPlayer, cs[1..])
  {
    if AnyOpposing(ownedByPlayer, cs) && !Opposing(ownedByPlayer, cs[0]) {
      var i :| 0 <= i < |cs| && Opposing(ownedByPlayer, cs[i]);
      assert Opposing(ownedByPlayer, cs[1..][i - 1]);
    }
    if AnyOpposing(ownedByPlayer, cs[1..]) {
      var i :| 0 <= i < |cs[1..]| && Opposing(ownedByPlayer, cs[1..][i]);
      assert Opposing(ownedByPlayer, cs[i + 1]);
    }
    var all := OpposingIds(ownedByPlayer, cs);
    var rest := OpposingIds(ownedByPlayer, cs[1..]);
    forall x | x in all
      ensures x in (if Opposing(ownedByPlayer, cs[0]) then {cs[0].entity} else {}) + rest
    {
      var i :| 0 <= i < |cs| && Opposing(ownedByPlayer, cs[i]) && cs[i].entity == x;
      if i > 0 { assert cs[1..][i - 1] == cs[i]; }
    }
    forall x | x in rest ensures x in all {
      var i :| 0 <= i < |cs[1..]| && Opposing(ownedByPlayer, cs[1..][i]) && cs[1..][i].entity == x;
      assert cs[i + 1] == cs[1..][i];
    }
  }

  /** The whole collision loop in closed form: which flags end up set, which bullets
      are marked, how much score is awarded, and how much damage gets through. */
  lemma {:induction false} ResolveOutcome(f: Frame, ownedByPlayer: bool, cs: seq<Contact>)
    ensures var r := Resolve(f, ownedByPlayer, cs);
            && r.tank.speedReduced == (f.tank.speedReduced || AnyLake(cs) || (f.tank.shieldActivated && cs != []))
            && r.tank.shieldActivated == (f.tank.shieldActivated && !AnyOpposing(ownedByPlayer, cs))
            && r.hits == f.hits + OpposingIds(ownedByPlayer, cs)
            && r.score == (if f.score.Some? && !f.health.dead
                           then Some(f.score.value + HitPoints * PlayerHits(ownedByPlayer, cs))
                           else f.score)
            && r.health.current == f.health.current - Damage(ownedByPlayer, cs)
                 + (if f.tank.shieldActivated then AbsorbedPower(ownedByPlayer, cs) else 0)
    decreases |cs|
  {
    if cs != [] {
      var f1 := Examine(f, ownedByPlayer, cs[0]);
      ResolveOutcome(f1, ownedByPlayer, cs[1..]);
      AnyLakeCons(cs);
      AnyOpposingCons(ownedByPlayer, cs);
    }
  }

  /** The two ways of counting the collision contributions agree on concatenations. */
  lemma {:induction false} CountsAppend(ownedByPlayer: bool, a: seq<Contact>, b: seq<Contact>)
    ensures PlayerHits(ownedByPlayer, a + b) == PlayerHits(ownedByPlayer, a) + PlayerHits(ownedByPlayer, b)
    decreases |a|
  {
    if a != [] {
      assert (a + b)[1..] == a[1..] + b;
      CountsAppend(ownedByPlayer, a[1..], b);
    } else {
      assert a + b == b;
    }
  }

  /** Taking the same element out of two permutations of each other leaves permutations. */
  lemma RemoveMatching(a: seq<Contact>, b: seq<Contact>, j: nat)
    requires multiset(a) == multiset(b) && a != [] && j < |b| && b[j] == a[0]
    ensures multiset(a[1..]) == multiset(b[..j] + b[j + 1..])
  {
    var x := a[0];
    assert b == b[..j] + [x] + b[j + 1..];
    assert a == [x] + a[1..];
    assert multiset(b) == multiset(b[..j]) + multiset{x} + multiset(b[j + 1..]);
    assert multiset(a[1..]) == multiset(a) - multiset{x};
  }

  lemma PlayerHitsRemove(ownedByPlayer: bool, b: seq<Contact>, j: nat)
    requires j < |b|
    ensures PlayerHits(ownedByPlayer, b) == PlayerHits(ownedByPlayer, [b[j]]) + PlayerHits(ownedByPlayer, b[..j] + b[j + 1..])
  {
    CountsAppend(ownedByPlayer, b[..j], [b[j]] + b[j + 1..]);
    CountsAppend(ownedByPlayer, [b[j]], b[j + 1..]);
    CountsAppend(ownedByPlayer, b[..j], b[j + 1..]);
    assert b[..j] + ([b[j]] + b[j + 1..]) == b;
  }

  lemma {:induction false} PlayerHitsPermutation(ownedByPlayer: bool, a: seq<Contact>, b: seq<Contact>)
    requires multiset(a) == multiset(b)
    ensures PlayerHits(ownedByPlayer, a) == PlayerHits(ownedByPlayer, b)
    decreases |a|
  {
    if a == [] {
      assert |b| == |multiset(b)| == 0;
    } else {
      assert a[0] in multiset(b);
      var j :| 0 <= j < |b| && b[j] == a[0];
      RemoveMatching(a, b, j);
      PlayerHitsPermutation(ownedByPlayer, a[1..], b[..j] + b[j + 1..]);
      PlayerHitsRemove(ownedByPlayer, b, j);
      assert [a[0]][1..] == [];
    }
  }

  /** The order in which the collided-with set is visited does not change the speed
      penalty, the shield, the marked bullets or the score; only the health depends
      on it, through which bullet the shield absorbs. */
  lemma VisitOrderIrrelevant(f: Frame, ownedByPlayer: bool, a: seq<Contact>, b: seq<Contact>)
    requires multiset(a) == multiset(b)
    ensures var ra := Resolve(f, ownedByPlayer, a);
            var rb := Resolve(f, ownedByPlayer, b);
            && ra.tank == rb.tank
            && ra.hits == rb.hits
            && ra.score == rb.score
            && (!f.tank.shieldActivated ==> ra.health == rb.health)
  {
    ResolveOutcome(f, ownedByPlayer, a);
    ResolveOutcome(f, ownedByPlayer, b);
    PlayerHitsPermutation(ownedByPlayer, a, b);
    DamagePermutation(ownedByPlayer, a, b);
    assert forall c :: c in a <==> c in b by {
      forall c ensures c in a <==> c in b {
        assert c in a <==> c in multiset(a);
        assert c in b <==> c in multiset(b);
      }
    }
    assert AnyLake(a) == AnyLake(b) by {
      if AnyLake(a) { var i :| 0 <= i < |a| && a[i].isLake; assert a[i] in b; }
      if AnyLake(b) { var i :| 0 <= i < |b| && b[i].isLake; assert b[i] in a; }
    }
    assert AnyOpposing(ownedByPlayer, a) == AnyOpposing(ownedByPlayer, b) by {
      if AnyOpposing(ownedByPlayer, a) { var i :| 0 <= i < |a| && Opposing(ownedByPlayer, a[i]); assert a[i] in b; }
      if AnyOpposing(ownedByPlayer, b) { var i :| 0 <= i < |b| && Opposing(ownedByPlayer, b[i]); assert b[i] in a; }
    }
    assert OpposingIds(ownedByPlayer, a) == OpposingIds(ownedByPlayer, b) by {
      forall x | x in OpposingIds(ownedByPlayer, a) ensures x in OpposingIds(ownedByPlayer, b) {
        var i :| 0 <= i < |a| && Opposing(ownedByPlayer, a[i]) && a[i].entity == x;
        assert a[i] in b;
      }
      forall x | x in OpposingIds(ownedByPlayer, b) ensures x in OpposingIds(ownedByPlayer, a) {
        var i :| 0 <= i < |b| && Opposing(ownedByPlayer, b[i]) && b[i].entity == x;
        assert b[i] in a;
      }
    }
    assert |a| == |b| by { assert |multiset(a)| == |multiset(b)|; }
  }

  lemma {:induction false} DamageAppend(ownedByPlayer: bool, a: seq<Contact>, b: seq<Contact>)
    ensures Damage(ownedByPlayer, a + b) == Damage(ownedByPlayer, a) + Damage(ownedByPlayer, b)
    decreases |a|
  {
    if a != [] {
      assert (a + b)[1..] == a[1..] + b;
      DamageAppend(ownedByPlayer, a[1..], b);
    } else {
      assert a + b == b;
    }
  }

  lemma DamageRemove(ownedByPlayer: bool, b: seq<Contact>, j: nat)
    requires j < |b|
    ensures Damage(ownedByPlayer, b) == Damage(ownedByPlayer, [b[j]]) + Damage(ownedByPlayer, b[..j] + b[j + 1..])
  {
    DamageAppend(ownedByPlayer, b[..j], [b[j]] + b[j + 1..]);
    DamageAppend(ownedByPlayer, [b[j]], b[j + 1..]);
    DamageAppend(ownedByPlayer, b[..j], b[j + 1..]);
    assert b[..j] + ([b[j]] + b[j + 1..]) == b;
  }

  lemma {:induction false} DamagePermutation(ownedByPlayer: bool, a: seq<Contact>, b: seq<Contact>)
    requires multiset(a) == multiset(b)
    ensures Damage(ownedByPlayer, a) == Damage(ownedByPlayer, b)
    decreases |a|
  {
    if a == [] {
      assert |b| == |multiset(b)| == 0;
    } else {
      assert a[0] in multiset(b);
      var j :| 0 <= j < |b| && b[j] == a[0];
      RemoveMatching(a, b, j);
      DamagePermutation(ownedByPlayer, a[1..], b[..j] + b[j + 1..]);
      DamageRemove(ownedByPlayer, b, j);
      assert [a[0]][1..] == [];
    }
  }

  /** With the shield up, the health a tank keeps depends on which opposing bullet
      the set happens to yield first. */
  lemma HealthDependsOnVisitOrder()
    ensures var tank := TankComponent(0, 1, false, false, true, false, Normal);
            var f := Frame(tank, HealthComponent(40, 100, false), None, {});
            var weak := Contact(5, false, Some(BulletInfo(true, 10)));
            var strong := Contact(6, false, Some(BulletInfo(true, 20)));
            && Resolve(f, false, [weak, strong]).health.current == 20
            && Resolve(f, false, [strong, weak]).health.current == 30
  {
    var tank := TankComponent(0, 1, false, false, true, false, Normal);
    var f := Frame(tank, HealthComponent(40, 100, false), None, {});
    var weak := Contact(5, false, Some(BulletInfo(true, 10)));
    var strong := Contact(6, false, Some(BulletInfo(true, 20)));
    ResolveOutcome(f, false, [weak, strong]);
    ResolveOutcome(f, false, [strong, weak]);
    assert [weak, strong][1..] == [strong];
    assert [strong, weak][1..] == [weak];
    assert [weak][1..] == [] && [strong][1..] == [];
    assert Damage(false, [strong]) == 20;
    assert Damage(false, [weak, strong]) == 30;
    assert AbsorbedPower(false, [weak, strong]) == 10;
  }

  // Speed, death and the whole per-tank update.

  predicate IsBoosted(m: SpeedMode) {
    m == Boosted || m == BoostedReduced
  }

  predicate IsReduced(m: SpeedMode) {
    m == Reduced || m == BoostedReduced
  }

  /** The multiple of TANK_SPEED each mode drives at. */
  function SpeedFactor(m: SpeedMode): real {
    match m
    case Normal => 1.0
    case Boosted => 100.5
    case Reduced => 0.5
    case BoostedReduced => 0.75
  }

  /** The four-way speed choice: exactly one mode, and it records both flags. */
  function ChooseSpeed(boosted: bool, reduced: bool): (m: SpeedMode)
    ensures IsBoosted(m) == boosted && IsReduced(m) == reduced
  {
    if boosted && reduced then BoostedReduced
    else if boosted then Boosted
    else if reduced then Reduced
    else Normal
  }

  /** The speed a tank ends up with, for each combination of the two flags. */
  lemma SpeedTable(boosted: bool, reduced: bool)
    ensures SpeedFactor(ChooseSpeed(boosted, reduced))
         == if boosted && reduced then 0.75 else if boosted then 100.5 else if reduced then 0.5 else 1.0
  {
  }

  /** The destruction check after the collision loop: the first update that finds
      the health at or below zero marks the tank dead, and an enemy tank's
      destruction earns the score entity 8 points. */
  function Die(f: Frame, ownedByPlayer: bool): (r: Frame)
    ensures r.health.dead == (f.health.dead || f.health.current <= 0)
    ensures r.health.current == f.health.current && r.health.max == f.health.max
    ensures r.tank == f.tank && r.hits == f.hits
    ensures r.score == if !f.health.dead && f.health.current <= 0 && !ownedByPlayer && f.score.Some?
                       then Some(f.score.value + KillPoints) else f.score
  {
    if f.health.current <= 0 && !f.health.dead then
      var score := if f.score.Some? && !ownedByPlayer then Some(f.score.value + KillPoints) else f.score;
      f.(health := f.health.(dead := true), score := score)
    else
      f
  }

  /** One tank's share of Tank::Update after the transform sync: reset the speed
      penalty, run the collision loop, pick the speed, check for destruction. */
  function UpdateTank(f: Frame, ownedByPlayer: bool, cs: seq<Contact>): (r: Frame)
    ensures r.tank.bodyEntity == f.tank.bodyEntity && r.tank.turretEntity == f.tank.turretEntity
    ensures r.tank.speedBoosted == f.tank.speedBoosted && r.tank.hasSpecial == f.tank.hasSpecial
    ensures IsBoosted(r.tank.speed) == r.tank.speedBoosted && IsReduced(r.tank.speed) == r.tank.speedReduced
    ensures r.health.max == f.health.max
    ensures f.health.dead ==> r.health.dead
    ensures r.health.dead ==> f.health.dead || r.health.current <= 0
    ensures r.score.Some? == f.score.Some?
    ensures f.hits <= r.hits
  {
    var reset := f.(tank := f.tank.(speedReduced := false));
    var resolved := Resolve(reset, ownedByPlayer, cs);
    var moved := resolved.(tank := resolved.tank.(speed := ChooseSpeed(resolved.tank.speedBoosted, resolved.tank.speedReduced)));
    Die(moved, ownedByPlayer)
  }

  /** The whole update of one tank in closed form. */
  lemma UpdateTankOutcome(f: Frame, ownedByPlayer: bool, cs: seq<Contact>)
    ensures var r := UpdateTank(f, ownedByPlayer, cs);
            var health := f.health.current - Damage(ownedByPlayer, cs)
                          + (if f.tank.shieldActivated then AbsorbedPower(ownedByPlayer, cs) else 0);
            && r.tank.speedReduced == (AnyLake(cs) || (f.tank.shieldActivated && cs != []))
            && r.tank.shieldActivated == (f.tank.shieldActivated && !AnyOpposing(ownedByPlayer, cs))
            && r.hits == f.hits + OpposingIds(ownedByPlayer, cs)
            && r.health.current == health
            && r.health.dead == (f.health.dead || health <= 0)
            && r.score == (if f.score.Some? && !f.health.dead
                           then Some(f.score.value + HitPoints * PlayerHits(ownedByPlayer, cs)
                                     + (if health <= 0 && !ownedByPlayer then KillPoints else 0))
                           else f.score)
  {
    var reset := f.(tank := f.tank.(speedReduced := false));
    ResolveOutcome(reset, ownedByPlayer, cs);
  }

  /** A tank that is already dead earns nobody any points and stays dead. */
  lemma DeadTankScoresNothing(f: Frame, ownedByPlayer: bool, cs: seq<Contact>)
    requires f.health.dead
    ensures UpdateTank(f, ownedByPlayer, cs).score == f.score
    ensures UpdateTank(f, ownedByPlayer, cs).health.dead
  {
    UpdateTankOutcome(f, ownedByPlayer, cs);
  }

  /** Successive frames of one tank; rounds[i] is what its collided-with set yields in frame i. */
  function Play(f: Frame, ownedByPlayer: bool, rounds: seq<seq<Contact>>): Frame
    decreases |rounds|
  {
    if rounds == [] then f else Play(UpdateTank(f, ownedByPlayer, rounds[0]), ownedByPlayer, rounds[1..])
  }

  /** The number of frames in which the tank went from alive to dead. */
  function Deaths(f: Frame, ownedByPlayer: bool, rounds: seq<seq<Contact>>): nat
    decreases |rounds|
  {
    if rounds == [] then 0
    else
      var next := UpdateTank(f, ownedByPlayer, rounds[0]);
      (if !f.health.dead && next.health.dead then 1 else 0) + Deaths(next, ownedByPlayer, rounds[1..])
  }

  /** Destruction is one-shot: over any run of frames a tank dies at most once (never,
      if it starts dead), and once dead it stays dead. */
  lemma {:induction false} DeathIsOneShot(f: Frame, ownedByPlayer: bool, rounds: seq<seq<Contact>>)
    ensures Deaths(f, ownedByPlayer, rounds) <= (if f.health.dead then 0 else 1)
    ensures f.health.dead ==> Play(f, ownedByPlayer, rounds).health.dead
    decreases |rounds|
  {
    if rounds != [] {
      var next := UpdateTank(f, ownedByPlayer, rounds[0]);
      DeathIsOneShot(next, ownedByPlayer, rounds[1..]);
    }
  }

  /** Once dead, a tank's frames never change the score again, so the kill award is paid at most once. */
  lemma {:induction false} DeadTankNeverScores(f: Frame, ownedByPlayer: bool, rounds: seq<seq<Contact>>)
    requires f.health.dead
    ensures Play(f, ownedByPlayer, rounds).score == f.score
    decreases |rounds|
  {
    if rounds != [] {
      DeadTankScoresNothing(f, ownedByPlayer, rounds[0]);
      DeadTankNeverScores(UpdateTank(f, ownedByPlayer, rounds[0]), ownedByPlayer, rounds[1..]);
    }
  }
}

/**
  The firing gate of Tank::Shoot. Time is passed in as a millisecond count; the
  bullet itself is only requested, since building it is another factory's job.
 */
module Shooting {
  import opened Wrappers
  import opened Components

  /** The arguments Tank::Shoot hands to Bullet::CreateBullet. */
  datatype ShotOrder = ShotOrder(playerOwned: bool, special: bool, missilePower: int)

  datatype ShotOutcome = ShotOutcome(shoot: ShootComponent, tank: TankComponent, bullet: Option<ShotOrder>)

  /** A gun may fire when it is not cooling down (or has cooled down: strictly more
      than the reload time since the last shot) and has ammunition or needs none. */
  predicate MayFire(s: ShootComponent, now: int, reload: int) {
    && (!s.cooldown || now - s.lastFired > reload)
    && (s.ammo != 0 || s.infiniteAmmo)
  }

  function Shoot(s: ShootComponent, t: TankComponent, now: int, reload: int,
                 playerOwned: bool, special: bool, missilePower: int): (r: ShotOutcome)
    ensures r.shoot.ammo == s.ammo && r.shoot.infiniteAmmo == s.infiniteAmmo
    ensures r.bullet.Some? <==> MayFire(s, now, reload)
    ensures r.bullet.Some? ==>
              && r.bullet.value == ShotOrder(playerOwned, special, missilePower)
              && r.shoot.cooldown && r.shoot.lastFired == now
              && r.tank == t.(hasSpecial := t.hasSpecial && !special)
    ensures r.bullet.None? ==>
              && r.tank == t && r.shoot.lastFired == s.lastFired
              && (r.shoot.cooldown <==> s.cooldown && now - s.lastFired <= reload)
  {
    var refreshed := if s.cooldown && now - s.lastFired > reload then s.(cooldown := false) else s;
    if refreshed.cooldown || (refreshed.ammo == 0 && !refreshed.infiniteAmmo) then
      ShotOutcome(refreshed, t, None)
    else
      var tank := if special then t.(hasSpecial := false) else t;
      ShotOutcome(refreshed.(cooldown := true, lastFired := now), tank, Some(ShotOrder(playerOwned, special, missilePower)))
  }

  /** After a shot, every attempt within the reload time fails and changes nothing. */
  lemma NoShotWithinReload(s: ShootComponent, t: TankComponent, fired: int, later: int, reload: int,
                           playerOwned: bool, special: bool, missilePower: int,
                           playerOwned': bool, special': bool, missilePower': int)
    requires later - fired <= reload
    requires Shoot(s, t, fired, reload, playerOwned, special, missilePower).bullet.Some?
    ensures var first := Shoot(s, t, fired, reload, playerOwned, special, missilePower);
            Shoot(first.shoot, first.tank, later, reload, playerOwned', special', missilePower')
              == ShotOutcome(first.shoot, first.tank, None)
  {
  }

  /** Two successful shots in a row, whatever each one fires, are more than the
      reload time apart. */
  lemma ShotsSpacedByReload(s: ShootComponent, t: TankComponent, t1: int, t2: int, reload: int,
                            playerOwned: bool, special: bool, missilePower: int,
                            playerOwned': bool, special': bool, missilePower': int)
    requires Shoot(s, t, t1, reload, playerOwned, special, missilePower).bullet.Some?
    requires var first := Shoot(s, t, t1, reload, playerOwned, special, missilePower);
             Shoot(first.shoot, first.tank, t2, reload, playerOwned', special', missilePower').bullet.Some?
    ensures t2 - t1 > reload
  {
  }

  /** Without ammunition and without infinite ammunition the gun never fires, and the
      only thing an attempt can change is clearing an expired cooldown. */
  lemma EmptyGunNeverFires(s: ShootComponent, t: TankComponent, now: int, reload: int,
                           playerOwned: bool, special: bool, missilePower: int)
    requires s.ammo == 0 && !s.infiniteAmmo
    ensures var r := Shoot(s, t, now, reload, playerOwned, special, missilePower);
            r.bullet.None? && r.tank == t && r.shoot.(cooldown := s.cooldown) == s
  {
  }
}

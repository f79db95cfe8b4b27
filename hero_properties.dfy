/**
 * What the hero's machine promises: the shape of each region's table, the
 * guard and the delivery-time landing target, the ticker's bookkeeping and
 * the scenarios of a full magazine and of an air attack.
 */
module HeroProperties {
  import opened Wrappers
  import opened LiveEvent
  import opened HeroMachine

  /** The Movement region's edges, written out as a list independent of the table function. */
  predicate MovementEdge(from: MovementState, e: ControlEvent, to: MovementState) {
    (from, e, to) in {
      (Standing, JumpPressEvent, Jumping),
      (Standing, DuckPressEvent, Ducking),
      (Jumping, DuckPressEvent, AirAttacking),
      (Jumping, JumpCompleteEvent, Standing),
      (Ducking, DuckReleaseEvent, Standing),
      (AirAttacking, JumpCompleteEvent, Ducking),
      (AirAttacking, JumpCompleteEvent, Standing)
    }
  }

  /**
   * The Movement region only ever moves along a listed edge, and from every
   * state but AirAttacking (whose one edge has a computed target) a listed
   * edge is always taken.
   */
  lemma MovementFollowsTable(h: Hero, e: ControlEvent)
    ensures Process(h, e).movement != h.movement ==> MovementEdge(h.movement, e, Process(h, e).movement)
    ensures h.movement != AirAttacking ==>
      forall t :: MovementEdge(h.movement, e, t) ==> Process(h, e).movement == t
  {
  }

  /**
   * Fire moves NotShooting -> Shooting on FirePress exactly when ammo is
   * left, and Shooting -> NotShooting on FireRelease or OutOfAmmo; nothing
   * else changes it.
   */
  lemma FireFollowsTable(h: Hero, e: ControlEvent)
    ensures Process(h, e).fire != h.fire <==>
      (h.fire == NotShooting && e == FirePressEvent && h.ammoLeft > 0) ||
      (h.fire == Shooting && (e == FireReleaseEvent || e == OutOfAmmoEvent))
  {
  }

  /** The regions are orthogonal: an event of one region leaves the other region's state and fields alone. */
  lemma RegionsAreOrthogonal(h: Hero, e: ControlEvent)
    ensures e.IsMovementEvent() ==>
      && Process(h, e).fire == h.fire
      && Process(h, e).shootingTimer == h.shootingTimer
    ensures !e.IsMovementEvent() ==>
      && Process(h, e).movement == h.movement
      && Process(h, e).isDownPressed == h.isDownPressed
      && Process(h, e).jumpTimers == h.jumpTimers
  {
  }

  /** Ammo is Shooting's own field: no transition, entry or exit touches it, so it carries over between activations. */
  lemma ProcessKeepsAmmo(h: Hero, e: ControlEvent)
    ensures Process(h, e).ammoLeft == h.ammoLeft
    ensures Process(h, e).ammoDecremented == h.ammoDecremented
  {
  }

  /** Entering AirAttacking (DuckPress while Jumping) sets isDownPressed, whatever it was. */
  lemma AirAttackArmsDuck(h: Hero)
    requires h.movement == Jumping
    ensures Process(h, DuckPressEvent).movement == AirAttacking
    ensures Process(h, DuckPressEvent).isDownPressed
  {
  }

  /** In AirAttacking, DuckPress and DuckRelease only set and clear isDownPressed; the state is not left or re-entered. */
  lemma AirAttackTracksDuck(h: Hero)
    requires h.movement == AirAttacking
    ensures Process(h, DuckPressEvent) == h.(isDownPressed := true)
    ensures Process(h, DuckReleaseEvent) == h.(isDownPressed := false)
  {
  }

  /** Landing after an attack: JumpComplete goes to Ducking exactly when isDownPressed holds at delivery, otherwise to Standing. */
  lemma LandingAfterAttack(h: Hero)
    requires h.movement == AirAttacking
    ensures Process(h, JumpCompleteEvent).movement == Ducking <==> h.isDownPressed
    ensures Process(h, JumpCompleteEvent).movement == Standing <==> !h.isDownPressed
  {
  }

  /**
   * FirePress with no ammo fails the guard: nothing but the published
   * control event changes, in particular no Shooting entry and no ticker.
   */
  lemma FirePressWithoutAmmo(h: Hero)
    requires h.fire == NotShooting && h.ammoLeft == 0
    ensures SendEvent(h, FirePressEvent) ==
      h.(controlEventChanged := AfterSet(h.controlEventChanged, Some(FirePressEvent)))
  {
  }

  /**
   * One ticker emission while Shooting: with ammo left it spends exactly one
   * round and announces it once, staying in Shooting; with none it raises
   * OutOfAmmo, which leaves Shooting and cancels the ticker. Ammo never wraps.
   */
  lemma TickWhileShooting(h: Hero)
    requires Inv(h) && h.fire == Shooting
    ensures var r := TickerEmits(h);
      if h.ammoLeft > 0 then
        && r.ammoLeft == h.ammoLeft - 1
        && r.ammoDecremented.emitted == h.ammoDecremented.emitted + [None]
        && r.fire == Shooting && r.shootingTimer
      else
        && r.ammoLeft == 0
        && r.ammoDecremented == h.ammoDecremented
        && r.fire == NotShooting && !r.shootingTimer
        && r.controlEventChanged.emitted == h.controlEventChanged.emitted + [Some(OutOfAmmoEvent)]
  {
  }

  /** `reloadAmmo()` refills ammo, keeps both active states and the ticker, and is idempotent. */
  lemma ReloadProperties(h: Hero)
    ensures ReloadAmmo(h).ammoLeft == InitialAmmo
    ensures ReloadAmmo(h).movement == h.movement && ReloadAmmo(h).fire == h.fire
    ensures ReloadAmmo(h).shootingTimer == h.shootingTimer
    ensures ReloadAmmo(ReloadAmmo(h)) == ReloadAmmo(h)
    ensures h.ammoLeft == InitialAmmo ==> ReloadAmmo(h) == h
  {
  }

  /** `n` ticker emissions in a row. */
  function Ticks(n: nat): seq<Stimulus> {
    seq(n, _ => Tick)
  }

  /** While ammo lasts, `n` ticks spend exactly `n` rounds with `n` announcements and keep the hero Shooting. */
  lemma {:induction false} TicksSpendAmmo(h: Hero, n: nat)
    requires Inv(h) && h.fire == Shooting && n <= h.ammoLeft
    ensures var r := Run(h, Ticks(n));
      && r.ammoLeft == h.ammoLeft - n
      && |r.ammoDecremented.emitted| == |h.ammoDecremented.emitted| + n
      && r.fire == Shooting && r.shootingTimer
      && r.movement == h.movement
      && r.controlEventChanged == h.controlEventChanged
    decreases n
  {
    if n > 0 {
      TickWhileShooting(h);
      assert Ticks(n)[1..] == Ticks(n - 1);
      TicksSpendAmmo(TickerEmits(h), n - 1);
    }
  }

  /** Once the ticker has been cancelled, any number of further ticks change nothing. */
  lemma {:induction false} NoTicksAfterCancel(h: Hero, n: nat)
    requires !h.shootingTimer
    ensures Run(h, Ticks(n)) == h
    decreases n
  {
    if n > 0 {
      assert Ticks(n)[1..] == Ticks(n - 1);
      NoTicksAfterCancel(h, n - 1);
    }
  }

  /**
   * A full magazine: from the initial state FirePress enters Shooting; 40
   * ticks spend all 40 rounds with 40 announcements; the next tick raises
   * OutOfAmmo, which returns Fire to NotShooting and cancels the ticker; and
   * no later tick has any effect.
   */
  lemma FullMagazine(n: nat)
    ensures var shooting := SendEvent(Initial(), FirePressEvent);
      var drained := Run(shooting, Ticks(InitialAmmo));
      var stopped := TickerEmits(drained);
      && shooting.fire == Shooting && shooting.shootingTimer
      && drained.ammoLeft == 0 && |drained.ammoDecremented.emitted| == InitialAmmo
      && drained.fire == Shooting
      && stopped.fire == NotShooting && !stopped.shootingTimer
      && |stopped.ammoDecremented.emitted| == InitialAmmo
      && stopped.controlEventChanged.emitted == [Some(FirePressEvent), Some(OutOfAmmoEvent)]
      && Run(stopped, Ticks(n)) == stopped
  {
    var shooting := SendEvent(Initial(), FirePressEvent);
    TicksSpendAmmo(shooting, InitialAmmo);
    var drained := Run(shooting, Ticks(InitialAmmo));
    TickWhileShooting(drained);
    NoTicksAfterCancel(TickerEmits(drained), n);
  }

  /**
   * An air attack: Standing, JumpPress, DuckPress while Jumping, then the
   * jump timer expires. Holding Duck lands in Ducking; releasing it before
   * the timer lands in Standing.
   */
  lemma AirAttackLanding(h: Hero)
    requires Inv(h) && h.movement == Standing
    ensures var attacking := SendEvent(SendEvent(h, JumpPressEvent), DuckPressEvent);
      && attacking.movement == AirAttacking
      && JumpTimerFires(attacking).movement == Ducking
      && JumpTimerFires(SendEvent(attacking, DuckReleaseEvent)).movement == Standing
  {
  }

  /** A ticker emission with ammo left is the only thing that announces a spent round. */
  lemma {:induction false} AnnouncementsMatchRounds(h: Hero, xs: seq<Stimulus>)
    requires forall i :: 0 <= i < |xs| ==> !xs[i].Reload?
    ensures Run(h, xs).ammoLeft + |Run(h, xs).ammoDecremented.emitted| ==
      h.ammoLeft + |h.ammoDecremented.emitted|
    decreases |xs|
  {
    if xs != [] {
      var h1 := Step(h, xs[0]);
      assert h1.ammoLeft + |h1.ammoDecremented.emitted| == h.ammoLeft + |h.ammoDecremented.emitted| by {
        match xs[0]
        case Send(e) => ProcessKeepsAmmo(h.(controlEventChanged := AfterSet(h.controlEventChanged, Some(e))), e);
        case Tick =>
        case JumpTimer => ProcessKeepsAmmo(h.(controlEventChanged := AfterSet(h.controlEventChanged, Some(JumpCompleteEvent))), JumpCompleteEvent);
        case Reload =>
      }
      AnnouncementsMatchRounds(h1, xs[1..]);
    }
  }

  /** Exactly one jump timer is pending while in the air, none on the ground. */
  predicate OneLandingTimer(h: Hero) {
    h.jumpTimers == if h.movement.Airborne() then 1 else 0
  }

  /** Stimuli from the screen and the timers only: JumpComplete and OutOfAmmo are never sent by hand. */
  predicate FromOutside(x: Stimulus) {
    x.Send? ==> x.event.IsInput()
  }

  /**
   * Jump timers are never cancelled, yet with only button presses, ticks,
   * timer expiries and reloads, no timer outlives its jump: one is pending
   * exactly while the hero is in the air.
   */
  lemma {:induction false} LandingTimerMatchesJump(h: Hero, xs: seq<Stimulus>)
    requires OneLandingTimer(h)
    requires forall i :: 0 <= i < |xs| ==> FromOutside(xs[i])
    ensures OneLandingTimer(Run(h, xs))
    decreases |xs|
  {
    if xs != [] {
      var h1 := Step(h, xs[0]);
      assert OneLandingTimer(h1) by {
        match xs[0]
        case Send(e) => RegionsAreOrthogonal(h.(controlEventChanged := AfterSet(h.controlEventChanged, Some(e))), e);
        case Tick => RegionsAreOrthogonal(h.(controlEventChanged := AfterSet(h.controlEventChanged, Some(OutOfAmmoEvent))), OutOfAmmoEvent);
        case JumpTimer =>
        case Reload =>
      }
      LandingTimerMatchesJump(h1, xs[1..]);
    }
  }
}

/**
 * The hero's parallel state machine ("Hero", two regions run side by side)
 * as values: the transition table of each region, its guard and its
 * delivery-time target, the entry and exit hooks, and the two timers that
 * re-enter the machine through `sendEvent`. Time is not modelled: a ticker
 * emission and a jump-timer expiry are explicit inputs.
 */
module HeroMachine {
  import opened Wrappers
  import opened LiveEvent

  /** Ammo a fresh Shooting state holds and `reload` restores. */
  const InitialAmmo: nat := 40

  /** Kotlin's `UInt`: 32 bits, wrapping. */
  const UIntModulus: int := 0x1_0000_0000
  type UInt = x: int | 0 <= x < 0x1_0000_0000

  /** Kotlin's prefix `--` on a `UInt`: one less, wrapping from 0 to the largest value. */
  function UIntDec(x: UInt): (r: UInt)
    ensures x > 0 ==> r == x - 1
    ensures x == 0 ==> r == UIntModulus - 1
  {
    (x - 1) % UIntModulus
  }

  datatype ControlEvent =
    | JumpPressEvent
    | JumpCompleteEvent
    | DuckPressEvent
    | DuckReleaseEvent
    | FirePressEvent
    | FireReleaseEvent
    | OutOfAmmoEvent
  {
    /** Events the screen's buttons send; JumpComplete and OutOfAmmo are raised by timers. */
    predicate IsInput() {
      !JumpCompleteEvent? && !OutOfAmmoEvent?
    }

    /** Events the Movement region's table mentions; the others are the Fire region's. */
    predicate IsMovementEvent() {
      JumpPressEvent? || JumpCompleteEvent? || DuckPressEvent? || DuckReleaseEvent?
    }
  }

  /** The leaf states of the Movement region; Standing is initial. */
  datatype MovementState = Standing | Jumping | Ducking | AirAttacking {
    /** In the air: a jump timer has been started and has not yet landed the hero. */
    predicate Airborne() {
      Jumping? || AirAttacking?
    }
  }

  /** The leaf states of the Fire region; NotShooting is initial. */
  datatype FireState = NotShooting | Shooting

  /** Every leaf state, as `onStateChanged` publishes it. */
  datatype HeroState = Movement(ofMovement: MovementState) | Fire(ofFire: FireState)

  /** How the Movement region answers one event. */
  datatype MovementReaction =
    | Unhandled                           // no transition for this (state, event)
    | Triggered(isDownPressed: bool)      // a transition with no target: only its action runs
    | Transition(target: MovementState)   // leave the active state for `target`

  /** The target of "Land after attack", resolved when JumpComplete is delivered. */
  function LandingTarget(isDownPressed: bool): MovementState {
    if isDownPressed then Ducking else Standing
  }

  /** The Movement region's transition table; `isDownPressed` is AirAttacking's field. */
  function MovementTransition(from: MovementState, e: ControlEvent, isDownPressed: bool): MovementReaction {
    match from
    case Standing =>
      if e == JumpPressEvent then Transition(Jumping)
      else if e == DuckPressEvent then Transition(Ducking)
      else Unhandled
    case Jumping =>
      if e == DuckPressEvent then Transition(AirAttacking)
      else if e == JumpCompleteEvent then Transition(Standing)
      else Unhandled
    case Ducking =>
      if e == DuckReleaseEvent then Transition(Standing) else Unhandled
    case AirAttacking =>
      if e == JumpCompleteEvent then Transition(LandingTarget(isDownPressed))
      else if e == DuckPressEvent then Triggered(true)
      else if e == DuckReleaseEvent then Triggered(false)
      else Unhandled
  }

  /** The guard of NotShooting --FirePress--> Shooting, over Shooting's ammo. */
  predicate CanShoot(ammoLeft: UInt) {
    ammoLeft > 0
  }

  /** The Fire region's transition table: the target, or None when nothing fires. */
  function FireTransition(from: FireState, e: ControlEvent, ammoLeft: UInt): Option<FireState> {
    match from
    case NotShooting =>
      if e == FirePressEvent && CanShoot(ammoLeft) then Some(Shooting) else None
    case Shooting =>
      if e == FireReleaseEvent || e == OutOfAmmoEvent then Some(NotShooting) else None
  }

  /**
   * Everything the view model holds: the active state of each region,
   * AirAttacking's `isDownPressed`, Shooting's ammo counter and whether its
   * ticker job runs, the number of jump timers started and not yet fired,
   * and the three SingleLiveEvents it publishes on.
   */
  datatype Hero = Hero(
    movement: MovementState,
    fire: FireState,
    isDownPressed: bool,
    ammoLeft: UInt,
    shootingTimer: bool,
    jumpTimers: nat,
    controlEventChanged: Gate<ControlEvent>,
    currentStateChanged: Gate<HeroState>,
    ammoDecremented: Gate<()>)

  /**
   * What every reachable Hero satisfies: ammo never exceeds its initial
   * amount, the ticker runs exactly while Fire is in Shooting, and while the
   * hero is in the air a jump timer is pending that will land it.
   */
  predicate Inv(h: Hero) {
    && h.ammoLeft <= InitialAmmo
    && (h.shootingTimer <==> h.fire == Shooting)
    && (h.movement.Airborne() ==> h.jumpTimers >= 1)
  }

  /** The view model just after construction: {Standing, NotShooting}, full ammo. */
  function Initial(): (h: Hero)
    ensures Inv(h)
  {
    Hero(Standing, NotShooting, true, InitialAmmo, false, 0, Fresh(), Fresh(), Fresh())
  }

  /** `onStateChanged`: a newly entered hero state is published on currentStateChanged. */
  function Published(h: Hero, s: HeroState): Hero {
    h.(currentStateChanged := AfterSet(h.currentStateChanged, Some(s)))
  }

  /** Enter a Movement state: Jumping starts its jump timer, AirAttacking sets isDownPressed. */
  function EnterMovement(h: Hero, s: MovementState): Hero {
    var h1 := Published(h.(movement := s), Movement(s));
    match s
    case Jumping => h1.(jumpTimers := h1.jumpTimers + 1)
    case AirAttacking => h1.(isDownPressed := true)
    case _ => h1
  }

  /** The Movement region's reaction; none of its states has an exit hook. */
  function ReactMovement(h: Hero, e: ControlEvent): (r: Hero)
    ensures Inv(h) ==> Inv(r)
  {
    match MovementTransition(h.movement, e, h.isDownPressed)
    case Unhandled => h
    case Triggered(down) => h.(isDownPressed := down)
    case Transition(t) => EnterMovement(h, t)
  }

  /** Leave the active Fire state: Shooting cancels its ticker. */
  function ExitFire(h: Hero): Hero {
    if h.fire == Shooting then h.(shootingTimer := false) else h
  }

  /** Enter a Fire state: Shooting launches its ticker. */
  function EnterFire(h: Hero, s: FireState): Hero {
    var h1 := Published(h.(fire := s), Fire(s));
    if s == Shooting then h1.(shootingTimer := true) else h1
  }

  /** The Fire region's reaction: exit(old) then enter(new) when a transition fires. */
  function ReactFire(h: Hero, e: ControlEvent): (r: Hero)
    ensures Inv(h) ==> Inv(r)
  {
    match FireTransition(h.fire, e, h.ammoLeft)
    case None => h
    case Some(t) => EnterFire(ExitFire(h), t)
  }

  /** `machine.processEvent(e)`: the event is offered to Movement, then to Fire. */
  function Process(h: Hero, e: ControlEvent): (r: Hero)
    ensures Inv(h) ==> Inv(r)
  {
    ReactFire(ReactMovement(h, e), e)
  }

  /** `sendEvent(e)`: publish the event on controlEventChanged, then process it. */
  function SendEvent(h: Hero, e: ControlEvent): (r: Hero)
    ensures Inv(h) ==> Inv(r)
  {
    Process(h.(controlEventChanged := AfterSet(h.controlEventChanged, Some(e))), e)
  }

  /** `Shooting.decrement()`: one round less, announced on ammoDecremented. */
  function Decrement(h: Hero): Hero {
    h.(ammoLeft := UIntDec(h.ammoLeft), ammoDecremented := AfterCall(h.ammoDecremented))
  }

  /**
   * One emission of the shooting ticker: out of ammo raises OutOfAmmo,
   * otherwise one round is spent. A cancelled ticker emits nothing.
   */
  function TickerEmits(h: Hero): (r: Hero)
    ensures Inv(h) ==> Inv(r)
  {
    if !h.shootingTimer then h
    else if h.ammoLeft == 0 then SendEvent(h, OutOfAmmoEvent)
    else Decrement(h)
  }

  /**
   * The oldest pending jump timer expires: it sends JumpComplete, then its
   * job completes. With no pending timer nothing happens.
   */
  function JumpTimerFires(h: Hero): (r: Hero)
    ensures Inv(h) ==> Inv(r)
  {
    if h.jumpTimers == 0 then h
    else
      var r := SendEvent(h, JumpCompleteEvent);
      r.(jumpTimers := r.jumpTimers - 1)
  }

  /** `reloadAmmo()`: Shooting's counter is refilled, whatever state is active. */
  function ReloadAmmo(h: Hero): (r: Hero)
    ensures Inv(h) ==> Inv(r)
  {
    h.(ammoLeft := InitialAmmo)
  }

  /** Everything that can happen to the view model next. */
  datatype Stimulus = Send(event: ControlEvent) | Tick | JumpTimer | Reload

  function Step(h: Hero, x: Stimulus): (r: Hero)
    ensures Inv(h) ==> Inv(r)
  {
    match x
    case Send(e) => SendEvent(h, e)
    case Tick => TickerEmits(h)
    case JumpTimer => JumpTimerFires(h)
    case Reload => ReloadAmmo(h)
  }

  /** The view model after `xs`, one stimulus at a time. */
  function Run(h: Hero, xs: seq<Stimulus>): (r: Hero)
    ensures Inv(h) ==> Inv(r)
    decreases |xs|
  {
    if xs == [] then h else Run(Step(h, xs[0]), xs[1..])
  }
}

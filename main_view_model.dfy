/**
 * The view model as objects updated in place: the machine's two active
 * states and its pending jump timers live in MainViewModel, the per-state
 * fields in the AirAttacking and Shooting state objects, and the notices in
 * three SingleLiveEvent objects. Every operation is proved to produce the
 * state the value-level machine prescribes.
 */
module ViewModel {
  import opened Wrappers
  import opened LiveEvent
  import opened HeroMachine

  /** The AirAttacking state object and its one field. */
  class AirAttackingState {
    var isDownPressed: bool

    constructor ()
      ensures isDownPressed
    {
      isDownPressed := true;
    }
  }

  /** The Shooting state object: its ammo counter, its ticker job and the channel it announces spent rounds on. */
  class ShootingState {
    var ammoLeft: UInt
    var shootingTimer: bool
    const ammoDecremented: SingleLiveEvent<()>

    constructor (ammoDecremented: SingleLiveEvent<()>)
      ensures ammoLeft == InitialAmmo && !shootingTimer
      ensures this.ammoDecremented == ammoDecremented
    {
      ammoLeft := InitialAmmo;
      shootingTimer := false;
      this.ammoDecremented := ammoDecremented;
    }

    /** `decrement()`: one round less (a `UInt`, so 0 would wrap), announced with `call()`. */
    method Decrement()
      modifies this, ammoDecremented
      ensures ammoLeft == UIntDec(old(ammoLeft)) && shootingTimer == old(shootingTimer)
      ensures ammoDecremented.State() == AfterCall(old(ammoDecremented.State()))
    {
      ammoLeft := UIntDec(ammoLeft);
      ammoDecremented.Call();
    }

    /** `reload()`: back to the initial amount; the ticker is not touched. */
    method Reload()
      modifies this
      ensures ammoLeft == InitialAmmo && shootingTimer == old(shootingTimer)
    {
      ammoLeft := InitialAmmo;
    }
  }

  class MainViewModel {
    var movement: MovementState
    var fire: FireState
    var jumpTimers: nat
    const airAttacking: AirAttackingState
    const shooting: ShootingState
    const controlEventChanged: SingleLiveEvent<ControlEvent>
    const currentStateChanged: SingleLiveEvent<HeroState>
    const ammoDecremented: SingleLiveEvent<()>

    /** The objects the view model owns and updates. */
    function Repr(): set<object> {
      {this, airAttacking, shooting, controlEventChanged, currentStateChanged, ammoDecremented}
    }

    /** The Shooting state announces on the view model's own ammoDecremented channel. */
    predicate Wired() {
      shooting.ammoDecremented == ammoDecremented
    }

    ghost function State(): Hero
      reads this, airAttacking, shooting, controlEventChanged, currentStateChanged, ammoDecremented
    {
      Hero(movement, fire, airAttacking.isDownPressed, shooting.ammoLeft, shooting.shootingTimer, jumpTimers,
           controlEventChanged.State(), currentStateChanged.State(), ammoDecremented.State())
    }

    ghost predicate Valid()
      reads this, airAttacking, shooting, controlEventChanged, currentStateChanged, ammoDecremented
    {
      Wired() && Inv(State())
    }

    /** A new view model: the machine is in {Standing, NotShooting}, with 40 rounds and isDownPressed set. */
    constructor ()
      ensures Valid() && fresh(Repr() - {this})
      ensures movement == Standing && fire == NotShooting
      ensures shooting.ammoLeft == InitialAmmo && airAttacking.isDownPressed
      ensures State() == Initial()
    {
      var gate := new SingleLiveEvent<()>();
      controlEventChanged := new SingleLiveEvent<ControlEvent>();
      currentStateChanged := new SingleLiveEvent<HeroState>();
      ammoDecremented := gate;
      airAttacking := new AirAttackingState();
      shooting := new ShootingState(gate);
      movement := Standing;
      fire := NotShooting;
      jumpTimers := 0;
    }

    /** `sendEvent(e)`: publish the event, then let the machine process it. */
    method SendEvent(e: ControlEvent)
      requires Valid()
      modifies Repr()
      ensures Valid() && State() == HeroMachine.SendEvent(old(State()), e)
    {
      controlEventChanged.SetValue(Some(e));
      ProcessEvent(e);
    }

    /** `reloadAmmo()`: the Shooting state reloads, active or not. */
    method ReloadAmmo()
      requires Valid()
      modifies Repr()
      ensures Valid() && State() == HeroMachine.ReloadAmmo(old(State()))
    {
      shooting.Reload();
    }

    /** The body the ticker runs on each emission while its job is active. */
    method TickerEmits()
      requires Valid()
      modifies Repr()
      ensures Valid() && State() == HeroMachine.TickerEmits(old(State()))
    {
      if shooting.shootingTimer {
        if shooting.ammoLeft == 0 {
          SendEvent(OutOfAmmoEvent);
        } else {
          shooting.Decrement();
        }
      }
    }

    /** A jump timer started on entering Jumping expires: it sends JumpComplete and completes. */
    method JumpTimerFires()
      requires Valid()
      modifies Repr()
      ensures Valid() && State() == HeroMachine.JumpTimerFires(old(State()))
    {
      if jumpTimers > 0 {
        SendEvent(JumpCompleteEvent);
        jumpTimers := jumpTimers - 1;
      }
    }

    /** `machine.processEvent(e)`: Movement reacts, then Fire. */
    method ProcessEvent(e: ControlEvent)
      requires Valid()
      modifies Repr()
      ensures Valid() && State() == Process(old(State()), e)
    {
      ReactMovement(e);
      ReactFire(e);
    }

    method ReactMovement(e: ControlEvent)
      requires Valid()
      modifies Repr()
      ensures Valid() && State() == HeroMachine.ReactMovement(old(State()), e)
    {
      match MovementTransition(movement, e, airAttacking.isDownPressed)
      case Unhandled =>
      case Triggered(down) =>
        airAttacking.isDownPressed := down;
      case Transition(t) =>
        movement := t;
        currentStateChanged.SetValue(Some(Movement(t)));
        if t == Jumping {
          jumpTimers := jumpTimers + 1;
        } else if t == AirAttacking {
          airAttacking.isDownPressed := true;
        }
    }

    method ReactFire(e: ControlEvent)
      requires Valid()
      modifies Repr()
      ensures Valid() && State() == HeroMachine.ReactFire(old(State()), e)
    {
      match FireTransition(fire, e, shooting.ammoLeft)
      case None =>
      case Some(t) =>
        if fire == Shooting {
          shooting.shootingTimer := false;
        }
        fire := t;
        currentStateChanged.SetValue(Some(Fire(t)));
        if t == Shooting {
          shooting.shootingTimer := true;
        }
    }
  }
}

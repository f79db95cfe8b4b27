# Hero state machine of the KStateMachine Android sample

The sample's view model drives a game hero with a parallel state machine named
"Hero". It has two regions that each react to every event:

- **Movement**: Standing (initial), Jumping, Ducking, AirAttacking. Entering
  Jumping starts a one-shot jump timer that is never cancelled. Its expiry
  sends JumpComplete, which lands the hero. AirAttacking keeps an
  `isDownPressed` flag: it is set on entry, and DuckPress/DuckRelease update
  it without leaving the state. The landing target is computed from that flag
  when JumpComplete is delivered.
- **Fire**: NotShooting (initial), Shooting. FirePress enters Shooting only
  when ammo is left. Shooting starts a ticker on entry and cancels it on exit.
  On each emission the ticker either spends one round and announces it, or,
  with no ammo left, sends OutOfAmmo. `reloadAmmo` refills the Shooting
  state's counter directly, outside the transition table.

Notices go out through `SingleLiveEvent`s. This is a LiveData whose wrapped
observers forward a value only while an `isPending` flag is armed. `setValue`
arms the flag, and a forwarding delivery clears it.

The model has five modules:

- `Wrappers`: Option, for Kotlin's nullable values.
- `LiveEvent`: the SingleLiveEvent as a value (`Gate`) with its operations
  and lemmas over runs of operations, plus the class `SingleLiveEvent`.
  The class's methods are proved to produce the value-level results.
- `HeroMachine`: the transition tables, the guard, the landing target, the
  hooks, and the operations of the view model on a `Hero` value. It also
  holds the invariant `Inv` that every operation preserves.
- `HeroProperties`: lemmas about the tables, the ticker, reloading, the
  pending jump timers, and the full-magazine and air-attack scenarios.
- `ViewModel`: the classes `AirAttackingState`, `ShootingState` and
  `MainViewModel`, updated in place as the Kotlin objects are. Every
  `MainViewModel` method is proved to keep `Valid()` and to leave `State()`
  equal to the matching `HeroMachine` function of the old state. This covers
  `SendEvent`, `ReloadAmmo`, `TickerEmits`, `JumpTimerFires`, `ProcessEvent`,
  `ReactMovement` and `ReactFire`. `ShootingState.Decrement` and `Reload` are
  specified directly on that object's fields and its channel.

Time is not modelled. A ticker emission (`TickerEmits`) and a jump-timer
expiry (`JumpTimerFires`) are explicit inputs. An emission from a cancelled
ticker does nothing. An expiry with no timer pending does nothing.

Ammo is Kotlin's `UInt`. `Shooting.decrement` is modelled with 32-bit
wrap-around (`UIntDec`). The ticker only decrements when ammo is non-zero,
so the proofs show the counter never wraps and stays within 0..40.

The timers call `sendEvent(JumpCompleteEvent)` and `sendEvent(OutOfAmmoEvent)`.
The model resolves these to the view model's own `sendEvent`, so internally
raised events are also published on `controlEventChanged`.

Only the latest SingleLiveEvent emission made while no observer is attached
is kept. The flag stays armed until the next wrapped-observer dispatch, which
forwards the current value. Earlier emissions are overwritten and never
forwarded (`SetsKeepLatest`, `ForwardsLatestValue`, `OneForwardPerArming`).
So k `call()`s on ammoDecremented with no observer attached give exactly one
notice. The model follows the code here.

## Model

| member | source | states |
|---|---|---|
| LiveEvent.Fresh | app/src/main/java/ru/nsk/kstatemachinesample/utils/SingleLiveEvent.kt:17-18 | definition: a new event, flag cleared and nothing emitted; its use is proved in OneForwardPerArming (nothing is forwarded before a set) |
| LiveEvent.AfterSet | app/src/main/java/ru/nsk/kstatemachinesample/utils/SingleLiveEvent.kt:28-32 | definition of setValue on the value: the flag is armed, the value stored and appended to the history; its properties are proved in SetsKeepLatest, ForwardsLatestValue and ForwardsBoundedBySets |
| LiveEvent.AfterCall | app/src/main/java/ru/nsk/kstatemachinesample/utils/SingleLiveEvent.kt:34-37 | definition: call() is setValue(null); its properties are those of AfterSet |
| LiveEvent.Deliver | app/src/main/java/ru/nsk/kstatemachinesample/utils/SingleLiveEvent.kt:20-26 | a wrapped observer forwards exactly when the flag was armed, forwards the stored value, and leaves the flag cleared; value and history are unchanged |
| LiveEvent.OneForwardPerArming | app/src/main/java/ru/nsk/kstatemachinesample/utils/SingleLiveEvent.kt:15-25 | with no setValue in between, any number of dispatches forward one value if the flag was armed and none if it was already consumed; a consumed gate is left as it was |
| LiveEvent.ForwardsBoundedBySets | app/src/main/java/ru/nsk/kstatemachinesample/utils/SingleLiveEvent.kt:17-32 | over any run of setValue calls and dispatches, forwarded deliveries never exceed the setValue calls (plus one if armed beforehand) |
| LiveEvent.SetsKeepLatest | app/src/main/java/ru/nsk/kstatemachinesample/utils/SingleLiveEvent.kt:28-32 | repeated setValue calls with no delivery leave the flag armed, hold only the latest value, forward nothing, and append exactly the set values, in order, to the history |
| LiveEvent.ForwardsLatestValue | app/src/main/java/ru/nsk/kstatemachinesample/utils/SingleLiveEvent.kt:20-32 | dispatches after setValue(v) forward v and nothing else |
| LiveEvent.SingleLiveEvent.constructor | app/src/main/java/ru/nsk/kstatemachinesample/utils/SingleLiveEvent.kt:17-18 | a new event starts not pending, with nothing emitted |
| LiveEvent.SingleLiveEvent.SetValue | app/src/main/java/ru/nsk/kstatemachinesample/utils/SingleLiveEvent.kt:28-32 | arms the flag and stores the value |
| LiveEvent.SingleLiveEvent.Call | app/src/main/java/ru/nsk/kstatemachinesample/utils/SingleLiveEvent.kt:34-37 | same new state as setValue(null) |
| LiveEvent.SingleLiveEvent.Dispatch | app/src/main/java/ru/nsk/kstatemachinesample/utils/SingleLiveEvent.kt:20-26 | test-and-clear of the flag; the result and new state are those of Deliver |
| HeroMachine.LandingTarget | app/src/main/java/ru/nsk/kstatemachinesample/ui/main/MainViewModel.kt:69-71 | definition of the delivery-time target (Ducking if isDownPressed, else Standing); its properties are proved in LandingAfterAttack and AirAttackLanding |
| HeroMachine.MovementTransition | app/src/main/java/ru/nsk/kstatemachinesample/ui/main/MainViewModel.kt:47-78 | definition of the Movement transition table; its properties are proved in MovementFollowsTable, AirAttackTracksDuck and LandingAfterAttack |
| HeroMachine.CanShoot | app/src/main/java/ru/nsk/kstatemachinesample/ui/main/MainViewModel.kt:87 | definition of the guard ammoLeft > 0; its properties are proved in FireFollowsTable and FirePressWithoutAmmo |
| HeroMachine.FireTransition | app/src/main/java/ru/nsk/kstatemachinesample/ui/main/MainViewModel.kt:85-93 | definition of the Fire transition table; its properties are proved in FireFollowsTable |
| HeroMachine.Published | app/src/main/java/ru/nsk/kstatemachinesample/ui/main/MainViewModel.kt:109-112 | definition: an entered hero state is set on currentStateChanged; its properties are proved in FirePressWithoutAmmo (no entry, no notice) |
| HeroMachine.EnterMovement | app/src/main/java/ru/nsk/kstatemachinesample/ui/main/MainViewModel.kt:53-67 | definition of the Movement entry hooks (Jumping starts a jump timer, AirAttacking sets isDownPressed); its properties are proved in AirAttackArmsDuck and LandingTimerMatchesJump |
| HeroMachine.ExitFire | app/src/main/java/ru/nsk/kstatemachinesample/ui/main/MainViewModel.kt:105 | definition of Shooting's exit hook (cancel the ticker); its properties are proved in TickWhileShooting and NoTicksAfterCancel |
| HeroMachine.EnterFire | app/src/main/java/ru/nsk/kstatemachinesample/ui/main/MainViewModel.kt:95-104 | definition of Shooting's entry hook (launch the ticker); its properties are proved in FullMagazine and the ticker clause of Inv (kept by ReactFire) |
| HeroMachine.Decrement | app/src/main/java/ru/nsk/kstatemachinesample/ui/main/MainViewModel.kt:153-157 | definition of decrement on the value: UInt decrement plus one call() notice; its properties are proved in TickWhileShooting, TicksSpendAmmo and AnnouncementsMatchRounds |
| HeroMachine.UIntDec | app/src/main/java/ru/nsk/kstatemachinesample/ui/main/MainViewModel.kt:153-154 | UInt decrement: one less for a positive value, 2^32-1 for 0 |
| HeroMachine.Initial | app/src/main/java/ru/nsk/kstatemachinesample/ui/main/MainViewModel.kt:38-148 | the initial {Standing, NotShooting}, 40 rounds, isDownPressed set, no timers: satisfies the invariant |
| HeroMachine.ReactMovement | app/src/main/java/ru/nsk/kstatemachinesample/ui/main/MainViewModel.kt:41-79 | the Movement region's reaction (table, AirAttacking actions, Jumping and AirAttacking entry hooks) preserves the invariant |
| HeroMachine.ReactFire | app/src/main/java/ru/nsk/kstatemachinesample/ui/main/MainViewModel.kt:81-107 | the Fire region's reaction (guarded FirePress, Shooting exit then entry hooks) preserves the invariant |
| HeroMachine.Process | app/src/main/java/ru/nsk/kstatemachinesample/ui/main/MainViewModel.kt:38-112 | processing an event in both regions preserves the invariant (ammo within 0..40, ticker iff Shooting, a jump timer pending while airborne) |
| HeroMachine.SendEvent | app/src/main/java/ru/nsk/kstatemachinesample/ui/main/MainViewModel.kt:115-118 | publishing then processing an event preserves the invariant |
| HeroMachine.TickerEmits | app/src/main/java/ru/nsk/kstatemachinesample/ui/main/MainViewModel.kt:95-104 | one ticker emission preserves the invariant, so ammo never underflows |
| HeroMachine.JumpTimerFires | app/src/main/java/ru/nsk/kstatemachinesample/ui/main/MainViewModel.kt:52-57 | a jump timer's expiry (JumpComplete, then the timer completes) preserves the invariant |
| HeroMachine.ReloadAmmo | app/src/main/java/ru/nsk/kstatemachinesample/ui/main/MainViewModel.kt:120-123 | reloading preserves the invariant |
| HeroMachine.Step | app/src/main/java/ru/nsk/kstatemachinesample/ui/main/MainViewModel.kt:95-123 | any single stimulus (event, tick, jump-timer expiry, reload) preserves the invariant |
| HeroMachine.Run | app/src/main/java/ru/nsk/kstatemachinesample/ui/main/MainViewModel.kt:38-123 | the invariant holds after any sequence of stimuli |
| HeroProperties.MovementFollowsTable | app/src/main/java/ru/nsk/kstatemachinesample/ui/main/MainViewModel.kt:47-78 | Movement only changes along a listed edge; from every state but AirAttacking, a listed edge is always taken |
| HeroProperties.FireFollowsTable | app/src/main/java/ru/nsk/kstatemachinesample/ui/main/MainViewModel.kt:85-93 | Fire changes exactly on FirePress with ammo > 0 from NotShooting, or on FireRelease/OutOfAmmo from Shooting |
| HeroProperties.RegionsAreOrthogonal | app/src/main/java/ru/nsk/kstatemachinesample/ui/main/MainViewModel.kt:38-107 | a Movement event leaves the Fire state and ticker unchanged; a Fire event leaves the Movement state, isDownPressed and jump timers unchanged |
| HeroProperties.ProcessKeepsAmmo | app/src/main/java/ru/nsk/kstatemachinesample/ui/main/MainViewModel.kt:144-161 | no transition touches the ammo counter or its notices, so ammo persists across Shooting activations |
| HeroProperties.AirAttackArmsDuck | app/src/main/java/ru/nsk/kstatemachinesample/ui/main/MainViewModel.kt:58-67 | DuckPress in Jumping enters AirAttacking with isDownPressed set |
| HeroProperties.AirAttackTracksDuck | app/src/main/java/ru/nsk/kstatemachinesample/ui/main/MainViewModel.kt:72-77 | in AirAttacking, DuckPress/DuckRelease set/clear isDownPressed and change nothing else |
| HeroProperties.LandingAfterAttack | app/src/main/java/ru/nsk/kstatemachinesample/ui/main/MainViewModel.kt:69-71 | JumpComplete in AirAttacking goes to Ducking exactly when isDownPressed holds at delivery, otherwise to Standing |
| HeroProperties.FirePressWithoutAmmo | app/src/main/java/ru/nsk/kstatemachinesample/ui/main/MainViewModel.kt:85-89 | FirePress with 0 ammo changes nothing but the published control event: no Shooting entry, no ticker |
| HeroProperties.TickWhileShooting | app/src/main/java/ru/nsk/kstatemachinesample/ui/main/MainViewModel.kt:97-105 | a tick with ammo left spends exactly one round and emits exactly one notice, staying in Shooting; at 0 it sends OutOfAmmo, leaves Shooting and cancels the ticker |
| HeroProperties.ReloadProperties | app/src/main/java/ru/nsk/kstatemachinesample/ui/main/MainViewModel.kt:120-123 | reload sets ammo to 40, keeps both active states and the ticker, is idempotent, and is a no-op at full ammo |
| HeroProperties.TicksSpendAmmo | app/src/main/java/ru/nsk/kstatemachinesample/ui/main/MainViewModel.kt:95-101 | while ammo lasts, n ticks spend exactly n rounds with n notices and stay in Shooting |
| HeroProperties.NoTicksAfterCancel | app/src/main/java/ru/nsk/kstatemachinesample/ui/main/MainViewModel.kt:105 | after the ticker is cancelled, further ticks change nothing |
| HeroProperties.FullMagazine | app/src/main/java/ru/nsk/kstatemachinesample/ui/main/MainViewModel.kt:81-106 | from the start, FirePress enters Shooting; 40 ticks give 40 notices and 0 ammo; the next tick returns to NotShooting and stops the ticker; later ticks do nothing |
| HeroProperties.AirAttackLanding | app/src/main/java/ru/nsk/kstatemachinesample/ui/main/MainViewModel.kt:47-77 | JumpPress then DuckPress reaches AirAttacking; the timer lands it in Ducking, or in Standing if Duck was released first |
| HeroProperties.AnnouncementsMatchRounds | app/src/main/java/ru/nsk/kstatemachinesample/ui/main/MainViewModel.kt:98-101 | over any run without reloads, ammo plus ammo-decremented notices is constant: one notice per spent round |
| HeroProperties.LandingTimerMatchesJump | app/src/main/java/ru/nsk/kstatemachinesample/ui/main/MainViewModel.kt:52-59 | with only screen inputs, ticks, expiries and reloads, exactly one jump timer is pending while airborne and none on the ground, although the timer is never cancelled |
| ViewModel.AirAttackingState.constructor | app/src/main/java/ru/nsk/kstatemachinesample/ui/main/MainViewModel.kt:140-142 | isDownPressed starts true |
| ViewModel.ShootingState.constructor | app/src/main/java/ru/nsk/kstatemachinesample/ui/main/MainViewModel.kt:144-151 | ammo starts at 40, no ticker, announcing on the given channel |
| ViewModel.ShootingState.Decrement | app/src/main/java/ru/nsk/kstatemachinesample/ui/main/MainViewModel.kt:153-157 | ammo is UInt-decremented and the channel gets call() |
| ViewModel.ShootingState.Reload | app/src/main/java/ru/nsk/kstatemachinesample/ui/main/MainViewModel.kt:159-162 | ammo is back to 40 and the ticker is untouched |
| ViewModel.MainViewModel.constructor | app/src/main/java/ru/nsk/kstatemachinesample/ui/main/MainViewModel.kt:22-113 | a new view model is valid, in {Standing, NotShooting} with 40 rounds and isDownPressed set |
| ViewModel.MainViewModel.SendEvent | app/src/main/java/ru/nsk/kstatemachinesample/ui/main/MainViewModel.kt:115-118 | the new state is HeroMachine.SendEvent of the old one, and validity is kept |
| ViewModel.MainViewModel.ReloadAmmo | app/src/main/java/ru/nsk/kstatemachinesample/ui/main/MainViewModel.kt:120-123 | the new state is HeroMachine.ReloadAmmo of the old one, and validity is kept |
| ViewModel.MainViewModel.TickerEmits | app/src/main/java/ru/nsk/kstatemachinesample/ui/main/MainViewModel.kt:95-104 | the new state is HeroMachine.TickerEmits of the old one, and validity is kept |
| ViewModel.MainViewModel.JumpTimerFires | app/src/main/java/ru/nsk/kstatemachinesample/ui/main/MainViewModel.kt:52-57 | the new state is HeroMachine.JumpTimerFires of the old one, and validity is kept |
| ViewModel.MainViewModel.ProcessEvent | app/src/main/java/ru/nsk/kstatemachinesample/ui/main/MainViewModel.kt:38-112 | the new state is HeroMachine.Process of the old one, and validity is kept |
| ViewModel.MainViewModel.ReactMovement | app/src/main/java/ru/nsk/kstatemachinesample/ui/main/MainViewModel.kt:41-79 | the new state is the Movement region's reaction to the event, and validity is kept |
| ViewModel.MainViewModel.ReactFire | app/src/main/java/ru/nsk/kstatemachinesample/ui/main/MainViewModel.kt:81-107 | the new state is the Fire region's reaction to the event, and validity is kept |

## Left out

- KStateMachine's internals are not part of this model: `createStateMachine`, `processEvent` queuing and run-to-completion, `requireState`. Event delivery is a direct call. The jump timer's JumpComplete arrives from its coroutine after the timer's delay, never inside a hook, so it is its own next step. The ticker's first emission does run inside Shooting's entry hook, during the FirePress processing. There it can only spend a round, never send OutOfAmmo, because the FirePress guard (MainViewModel.kt line 87) has just required ammo > 0. Later emissions come after the ticker's delay, so an OutOfAmmo they send is processed as its own step.
- The coroutine timers (`utils/Timers.kt`, `utils/SingleShotTimer.kt`, `viewModelScope.launch`, `delay`) and the durations `JUMP_DURATION_MS` and `SHOOTING_INTERVAL_MS` are not modelled. Ticks and expiries are inputs instead. `tickerFlow` emits once before its first delay. In the source, the ticker is launched from Shooting's entry hook on the main thread, so the first `decrement()` normally runs inside the FirePress processing itself. The model makes that first emission a separate `TickerEmits` step after entry. It therefore also admits runs the source does not have, such as a FireRelease before the first round is spent. Every property proved holds for all runs, so it also holds for the ones the source produces.
- HeroMachine.TickerEmits: an emission that arrives after the ticker was cancelled is modelled as a no-op. The model does not represent a ticker coroutine being cancelled while it is mid-emission.
- The `_activeStates` and `_ammoLeft` LiveData mirrors (MainViewModel.kt lines 29-33, 110, 155, 161) and the logger (line 39) are not modelled. The active states are `movement` and `fire`. The ammo mirror always equals Shooting's counter.
- HeroMachine.Initial: the model's `currentStateChanged` channel starts unarmed, with no history. In the source, `onStateChanged` (MainViewModel.kt lines 109-112) is registered in the builder before the machine enters its initial states. So after construction that channel is already armed with one of Standing or NotShooting, whichever is entered last. The model omits these start-up notices. The same holds for ViewModel.MainViewModel.constructor.
- LiveData's observer bookkeeping is abstracted as `Dispatch`: which observers are attached, lifecycle activity, and version numbers. A SingleLiveEvent that was never set is modelled with a null value. Nothing forwards it anyway, because the flag is not armed.
- `AtomicBoolean` thread safety is not modelled. All operations are `@MainThread` and sequential.
- `mvi/Mvi.kt`, `ui/main/MainFragment.kt` and `utils/TouchListener.kt` are not part of this model (UI plumbing and input capture). Neither are the Koin modules and build files (dependency injection and build configuration).
- Timer handles with generation tags and a shutdown error do not exist in this code, so they are not modelled.

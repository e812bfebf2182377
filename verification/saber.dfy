/**
 * The lightsaber interaction state machine shared by the three saber
 * components: a permission gate, a power toggle and a motion handler.
 * The three components differ only in constants, collected in `Config`.
 *
 * Each browser callback (a button press, the settling of the permission
 * promise, a `devicemotion` sample) is one atomic `Step` that returns the
 * next state and the effects it requested, in order.
 */
module Saber {
  import opened Wrappers
  import opened Motion

  /** A sound the component asks the audio library to play. */
  datatype Sound = PowerOn | PowerOff | Swing(variant: nat)

  /** What one step asks of its collaborators. */
  datatype Effect = Play(sound: Sound) | RequestPermission

  /** How a permission request settled. */
  datatype Outcome =
    | Answered(state: string)   // the prompt's promise resolved with this state
    | Failed                    // the prompt's promise rejected
    | NoPromptApi               // the platform has no prompt: access is implicit

  datatype Event =
    | Click                     // the power switch
    | EnableMotion              // the separate "enable motion sensor" button
    | PermissionResolved(outcome: Outcome)
    | Sample(now: int, acceleration: Option<Axes>, draw: Unit)

  /** The on-screen debug panel: the time of the last examined sample and the permission status. */
  datatype Debug = Debug(lastSample: int, permissionStatus: string)

  /**
   * The component's state. `lastSwing` is the cooldown timestamp held by the
   * current motion listener; `subscribed` says whether a listener is attached.
   */
  datatype State = State(
    isOn: bool,
    hasPermission: bool,
    lastSwing: int,
    subscribed: bool,
    debug: Debug)

  /** The constants that tell the components apart. */
  datatype Config = Config(
    cooldown: nat,               // milliseconds between two swings
    threshold: real,             // a swing needs a magnitude strictly above this
    swingVariants: nat,          // number of interchangeable swing sounds
    hasDebugPanel: bool,
    hasPermissionButton: bool)

  predicate ValidConfig(c: Config) {
    c.threshold >= 0.0 && c.swingVariants >= 1
  }

  const LightsaberV2: Config := Config(500, 15.0, 1, false, false)
  const Lightsaber: Config := Config(500, 15.0, 1, true, true)
  const LightsaberV3: Config := Config(250, 8.0, 5, false, false)

  const InitialDebug: Debug := Debug(0, "unknown")

  /** On mount: off, not permitted, no listener, cooldown timestamp 0. */
  const Init: State := State(false, false, 0, false, InitialDebug)

  /** The sounds among `effects`, in order. */
  function Sounds(effects: seq<Effect>): seq<Sound> {
    if effects == [] then []
    else (if effects[0].Play? then [effects[0].sound] else []) + Sounds(effects[1..])
  }

  /** Whether a state change makes React re-run the motion effect. */
  predicate Rerenders(before: State, after: State) {
    before.isOn != after.isOn || before.hasPermission != after.hasPermission
  }

  /**
   * Commits a state update. When `isOn` or `hasPermission` changed, the
   * motion effect is torn down and re-run: the old listener is removed, a
   * fresh one with its own `lastSwing = 0` is attached exactly when
   * permission is held. Otherwise the listener and its timestamp survive.
   */
  function Commit(before: State, after: State): (r: State)
    ensures r.isOn == after.isOn && r.hasPermission == after.hasPermission
    ensures r.debug == after.debug
    ensures Rerenders(before, after) ==> r.subscribed == after.hasPermission && r.lastSwing == 0
    ensures !Rerenders(before, after) ==> r == after
  {
    if Rerenders(before, after) then after.(subscribed := after.hasPermission, lastSwing := 0)
    else after
  }

  /**
   * The power switch. It asks for permission when none is held, plays the
   * sound chosen by the state before the press, and flips the power.
   */
  function Toggle(s: State): (r: (State, seq<Effect>))
    ensures r.0.isOn == !s.isOn
    ensures r.0.hasPermission == s.hasPermission && r.0.debug == s.debug
    ensures r.0.subscribed == s.hasPermission && r.0.lastSwing == 0
    ensures Sounds(r.1) == [if s.isOn then PowerOff else PowerOn]
    ensures RequestPermission in r.1 <==> !s.hasPermission
  {
    var request := if s.hasPermission then [] else [RequestPermission];
    var sound := if s.isOn then PowerOff else PowerOn;
    assert Sounds([Play(sound)]) == [sound];
    (Commit(s, s.(isOn := !s.isOn)), request + [Play(sound)])
  }

  /** The separate permission button, shown only while permission is missing. */
  function PressEnable(c: Config, s: State): (r: (State, seq<Effect>))
    ensures r.0 == s
    ensures Sounds(r.1) == []
    ensures RequestPermission in r.1 <==> c.hasPermissionButton && !s.hasPermission
  {
    if c.hasPermissionButton && !s.hasPermission then (s, [RequestPermission]) else (s, [])
  }

  /**
   * The permission promise settles. An answer grants exactly when it is
   * `"granted"`; a rejection keeps the current permission; a platform with
   * no prompt grants. The debug panel, when present, shows the outcome.
   */
  function Resolve(c: Config, s: State, o: Outcome): (r: State)
    ensures r.isOn == s.isOn
    ensures o.Answered? ==> (r.hasPermission <==> o.state == "granted")
    ensures o.Failed? ==> r.hasPermission == s.hasPermission
    ensures o.NoPromptApi? ==> r.hasPermission
    ensures c.hasDebugPanel && o.Answered? ==> r.debug.permissionStatus == o.state
    ensures c.hasDebugPanel && o.Failed? ==> r.debug.permissionStatus == "error"
    ensures c.hasDebugPanel && o.NoPromptApi? ==> r.debug.permissionStatus == "granted (default)"
    ensures r.debug.lastSample == s.debug.lastSample
    ensures !c.hasDebugPanel ==> r.debug == s.debug
    ensures r.hasPermission != s.hasPermission ==> r.subscribed == r.hasPermission && r.lastSwing == 0
    ensures r.hasPermission == s.hasPermission ==> r.subscribed == s.subscribed && r.lastSwing == s.lastSwing
  {
    var (permitted, status) := match o
      case Answered(state) => (state == "granted", state)
      case Failed => (s.hasPermission, "error")
      case NoPromptApi => (true, "granted (default)");
    var debug := if c.hasDebugPanel then s.debug.(permissionStatus := status) else s.debug;
    Commit(s, s.(hasPermission := permitted, debug := debug))
  }

  /** The listener's early-return guard: attached, powered on and out of cooldown. */
  predicate PassesGate(c: Config, s: State, now: int) {
    s.subscribed && s.isOn && now - s.lastSwing >= c.cooldown
  }

  /** Whether a sample plays a swing: it passes the gate and carries an acceleration above the threshold. */
  predicate Fires(c: Config, s: State, now: int, acceleration: Option<Axes>) {
    PassesGate(c, s, now) && acceleration.Some? && Exceeds(acceleration.value, c.threshold)
  }

  /**
   * A `devicemotion` sample. Without an attached listener nothing runs.
   * A sample that fires plays one swing variant picked from `draw` and
   * moves the cooldown timestamp to `now`; any other sample leaves the
   * saber as it was, except that the debug panel records the time of every
   * sample that passes the gate with an acceleration.
   */
  function OnSample(c: Config, s: State, now: int, acceleration: Option<Axes>, draw: Unit)
    : (r: (State, seq<Effect>))
    requires ValidConfig(c)
    ensures r.0.isOn == s.isOn && r.0.hasPermission == s.hasPermission
    ensures r.0.subscribed == s.subscribed
    ensures Fires(c, s, now, acceleration) ==>
              r.1 == [Play(Swing(VariantIndex(draw, c.swingVariants)))] && r.0.lastSwing == now
    ensures !Fires(c, s, now, acceleration) ==> r.1 == [] && r.0.lastSwing == s.lastSwing
    ensures r.0.debug.permissionStatus == s.debug.permissionStatus
    ensures c.hasDebugPanel && PassesGate(c, s, now) && acceleration.Some? ==>
              r.0.debug.lastSample == now
    ensures !(c.hasDebugPanel && PassesGate(c, s, now) && acceleration.Some?) ==>
              r.0.debug == s.debug
  {
    if !PassesGate(c, s, now) then (s, [])
    else
      match acceleration
      case None => (s, [])
      case Some(a) =>
        var debug := if c.hasDebugPanel then s.debug.(lastSample := now) else s.debug;
        if Exceeds(a, c.threshold) then
          (s.(lastSwing := now, debug := debug), [Play(Swing(VariantIndex(draw, c.swingVariants)))])
        else
          (s.(debug := debug), [])
  }

  /** Whether event `e` fires a swing in state `s`. */
  predicate FiredBy(c: Config, s: State, e: Event) {
    e.Sample? && Fires(c, s, e.now, e.acceleration)
  }

  /**
   * One event. Each event plays at most one sound: a click exactly one
   * power sound, a firing sample exactly one swing, anything else none.
   * Only clicks change the power and only permission outcomes change the
   * permission.
   */
  function Step(c: Config, s: State, e: Event): (r: (State, seq<Effect>))
    requires ValidConfig(c)
    ensures e.Click? ==> Sounds(r.1) == [if s.isOn then PowerOff else PowerOn]
    ensures FiredBy(c, s, e) ==> Sounds(r.1) == [Swing(VariantIndex(e.draw, c.swingVariants))]
    ensures !e.Click? && !FiredBy(c, s, e) ==> Sounds(r.1) == []
    ensures r.0.isOn == (if e.Click? then !s.isOn else s.isOn)
    ensures !e.PermissionResolved? ==> r.0.hasPermission == s.hasPermission
    ensures RequestPermission in r.1 ==> !s.hasPermission
  {
    match e
    case Click => Toggle(s)
    case EnableMotion => PressEnable(c, s)
    case PermissionResolved(o) => (Resolve(c, s, o), [])
    case Sample(now, acceleration, draw) =>
      var r := OnSample(c, s, now, acceleration, draw);
      assert Sounds(r.1) == (if r.1 == [] then [] else [r.1[0].sound]);
      r
  }
}

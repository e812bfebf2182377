/**
 * Runs of the saber over a sequence of events, and the properties that
 * relate the steps of a run: the listener follows the permission, power
 * sounds alternate one per click, swings are spaced by the cooldown while
 * the listener lives, and nothing swings before power and permission.
 */
module Traces {
  import opened Wrappers
  import opened Motion
  import opened Saber

  /** The final state and every effect requested, in order, after `events` from `s`. */
  function Run(c: Config, s: State, events: seq<Event>): (State, seq<Effect>)
    requires ValidConfig(c)
    decreases |events|
  {
    if events == [] then (s, [])
    else
      var (s1, out1) := Step(c, s, events[0]);
      var (s2, out2) := Run(c, s1, events[1..]);
      (s2, out1 + out2)
  }

  /** The `now` of every sample that fired a swing during the run, in order. */
  function SwingTimes(c: Config, s: State, events: seq<Event>): seq<int>
    requires ValidConfig(c)
    decreases |events|
  {
    if events == [] then []
    else
      (if FiredBy(c, s, events[0]) then [events[0].now] else [])
      + SwingTimes(c, Step(c, s, events[0]).0, events[1..])
  }

  /** The power sounds among `ss`. */
  function PowerSounds(ss: seq<Sound>): seq<Sound> {
    if ss == [] then []
    else (if ss[0].Swing? then [] else [ss[0]]) + PowerSounds(ss[1..])
  }

  /** The swing sounds among `ss`. */
  function SwingSounds(ss: seq<Sound>): seq<Sound> {
    if ss == [] then []
    else (if ss[0].Swing? then [ss[0]] else []) + SwingSounds(ss[1..])
  }

  /** The number of power-switch presses among `events`. */
  function Clicks(events: seq<Event>): nat {
    if events == [] then 0
    else (if events[0].Click? then 1 else 0) + Clicks(events[1..])
  }

  /** The `k`-th power sound (from 0) of a run that starts with the power `wasOn`. */
  function PowerSoundAt(wasOn: bool, k: nat): Sound {
    if wasOn == (k % 2 == 0) then PowerOff else PowerOn
  }

  /** Whether `e` is a permission outcome that grants. */
  predicate Grants(e: Event) {
    e.PermissionResolved? &&
    (e.outcome.NoPromptApi? || (e.outcome.Answered? && e.outcome.state == "granted"))
  }

  /**
   * What every reachable state satisfies: a listener is attached exactly
   * when permission is held, and without a debug panel the debug fields
   * never move.
   */
  predicate Consistent(c: Config, s: State) {
    s.subscribed == s.hasPermission && (!c.hasDebugPanel ==> s.debug == InitialDebug)
  }

  /**
   * Whether no step of the run changes `isOn` or `hasPermission`, so the
   * motion listener attached before the run stays attached, with its own
   * timestamp, throughout: samples, the enable button, a rejected prompt
   * and an answer that keeps the permission all qualify; a click never does.
   */
  predicate KeepsListener(c: Config, s: State, events: seq<Event>)
    requires ValidConfig(c)
    decreases |events|
  {
    events == [] ||
    (!Rerenders(s, Step(c, s, events[0]).0) && KeepsListener(c, Step(c, s, events[0]).0, events[1..]))
  }

  /** Times spaced by at least `gap`, the first at least `gap` after `from`. */
  predicate SpacedFrom(times: seq<int>, from: int, gap: int) {
    (|times| > 0 ==> times[0] - from >= gap) &&
    (forall k :: 0 < k < |times| ==> times[k] - times[k - 1] >= gap)
  }

  lemma {:induction false} SoundsAppend(a: seq<Effect>, b: seq<Effect>)
    ensures Sounds(a + b) == Sounds(a) + Sounds(b)
    decreases |a|
  {
    if a == [] {
      assert a + b == b;
    } else {
      var first := (if a[0].Play? then [a[0].sound] else []);
      assert (a + b)[0] == a[0];
      assert (a + b)[1..] == a[1..] + b;
      assert Sounds(a + b) == first + Sounds(a[1..] + b);
      SoundsAppend(a[1..], b);
      assert Sounds(a) == first + Sounds(a[1..]);
    }
  }

  lemma {:induction false} PowerSoundsAppend(a: seq<Sound>, b: seq<Sound>)
    ensures PowerSounds(a + b) == PowerSounds(a) + PowerSounds(b)
    decreases |a|
  {
    if a == [] {
      assert a + b == b;
    } else {
      var first := (if a[0].Swing? then [] else [a[0]]);
      assert (a + b)[0] == a[0];
      assert (a + b)[1..] == a[1..] + b;
      assert PowerSounds(a + b) == first + PowerSounds(a[1..] + b);
      PowerSoundsAppend(a[1..], b);
      assert PowerSounds(a) == first + PowerSounds(a[1..]);
    }
  }

  lemma {:induction false} SwingSoundsAppend(a: seq<Sound>, b: seq<Sound>)
    ensures SwingSounds(a + b) == SwingSounds(a) + SwingSounds(b)
    decreases |a|
  {
    if a == [] {
      assert a + b == b;
    } else {
      var first := (if a[0].Swing? then [a[0]] else []);
      assert (a + b)[0] == a[0];
      assert (a + b)[1..] == a[1..] + b;
      assert SwingSounds(a + b) == first + SwingSounds(a[1..] + b);
      SwingSoundsAppend(a[1..], b);
      assert SwingSounds(a) == first + SwingSounds(a[1..]);
    }
  }

  /** Every step keeps a consistent state consistent. */
  lemma StepKeepsConsistent(c: Config, s: State, e: Event)
    requires ValidConfig(c) && Consistent(c, s)
    ensures Consistent(c, Step(c, s, e).0)
  {
  }

  lemma {:induction false} RunKeepsConsistent(c: Config, s: State, events: seq<Event>)
    requires ValidConfig(c) && Consistent(c, s)
    ensures Consistent(c, Run(c, s, events).0)
    decreases |events|
  {
    if events != [] {
      StepKeepsConsistent(c, s, events[0]);
      RunKeepsConsistent(c, Step(c, s, events[0]).0, events[1..]);
    }
  }

  /**
   * In every state reachable from mount, the motion listener is attached
   * exactly when permission is held; a component without a debug panel
   * never touches the debug fields.
   */
  lemma ListenerIffPermitted(c: Config, events: seq<Event>)
    requires ValidConfig(c)
    ensures Run(c, Init, events).0.subscribed == Run(c, Init, events).0.hasPermission
    ensures !c.hasDebugPanel ==> Run(c, Init, events).0.debug == InitialDebug
  {
    RunKeepsConsistent(c, Init, events);
  }

  /**
   * Over any run, the power sounds are exactly one per click and alternate,
   * starting with the one chosen by the power before the run.
   */
  lemma {:induction false} PowerSoundsAlternate(c: Config, s: State, events: seq<Event>)
    requires ValidConfig(c)
    ensures var ps := PowerSounds(Sounds(Run(c, s, events).1));
            |ps| == Clicks(events) &&
            forall k :: 0 <= k < |ps| ==> ps[k] == PowerSoundAt(s.isOn, k)
    decreases |events|
  {
    if events != [] {
      var e := events[0];
      var s1 := Step(c, s, e).0;
      PowerSoundsAlternate(c, s1, events[1..]);
      var ps1 := StepPowerSounds(c, s, e);
      var ps2 := PowerSounds(Sounds(Run(c, s1, events[1..]).1));
      var ps := RunPowerSounds(c, s, events);
      assert ps == ps1 + ps2;
      assert Clicks(events) == (if e.Click? then 1 else 0) + Clicks(events[1..]);
      if e.Click? {
        assert s1.isOn == !s.isOn;
        AlternationExtends(s.isOn, ps2);
      } else {
        assert ps == ps2;
      }
    }
  }

  /** Prefixing the first power sound to an alternation that starts flipped gives an alternation. */
  lemma AlternationExtends(wasOn: bool, rest: seq<Sound>)
    requires forall k :: 0 <= k < |rest| ==> rest[k] == PowerSoundAt(!wasOn, k)
    ensures forall k :: 0 <= k < |rest| + 1 ==>
              ([PowerSoundAt(wasOn, 0)] + rest)[k] == PowerSoundAt(wasOn, k)
  {
    forall k | 0 < k < |rest| + 1
      ensures ([PowerSoundAt(wasOn, 0)] + rest)[k] == PowerSoundAt(wasOn, k)
    {
      NextPowerSound(wasOn, k - 1);
    }
  }

  /** The power sound after the `k`-th of one run is the `k`-th of a run that starts flipped. */
  lemma NextPowerSound(wasOn: bool, k: nat)
    ensures PowerSoundAt(!wasOn, k) == PowerSoundAt(wasOn, k + 1)
  {
  }

  /** Over any run, the final power is the initial one flipped once per click. */
  lemma {:induction false} PowerFlipsPerClick(c: Config, s: State, events: seq<Event>)
    requires ValidConfig(c)
    ensures Run(c, s, events).0.isOn == (s.isOn != (Clicks(events) % 2 == 1))
    decreases |events|
  {
    if events != [] {
      PowerFlipsPerClick(c, Step(c, s, events[0]).0, events[1..]);
    }
  }

  /** The power sounds of one step: the click's, and nothing for any other event. */
  lemma StepPowerSounds(c: Config, s: State, e: Event) returns (ps: seq<Sound>)
    requires ValidConfig(c)
    ensures ps == PowerSounds(Sounds(Step(c, s, e).1))
    ensures ps == if e.Click? then [PowerSoundAt(s.isOn, 0)] else []
  {
    ps := PowerSounds(Sounds(Step(c, s, e).1));
    if e.Click? {
      assert PowerSounds([if s.isOn then PowerOff else PowerOn]) == [PowerSoundAt(s.isOn, 0)];
    } else if FiredBy(c, s, e) {
      assert PowerSounds([Swing(VariantIndex(e.draw, c.swingVariants))]) == [];
    }
  }

  /** The power sounds of a non-empty run split at its first step. */
  lemma RunPowerSounds(c: Config, s: State, events: seq<Event>) returns (ps: seq<Sound>)
    requires ValidConfig(c) && events != []
    ensures ps == PowerSounds(Sounds(Run(c, s, events).1))
    ensures ps == PowerSounds(Sounds(Step(c, s, events[0]).1))
                  + PowerSounds(Sounds(Run(c, Step(c, s, events[0]).0, events[1..]).1))
  {
    var (s1, out1) := Step(c, s, events[0]);
    var out2 := Run(c, s1, events[1..]).1;
    SoundsAppend(out1, out2);
    PowerSoundsAppend(Sounds(out1), Sounds(out2));
    ps := PowerSounds(Sounds(Run(c, s, events).1));
  }

  /**
   * The swing times of a run are those of its swing sounds: one recorded
   * time per swing played, and every swing names one of the configured
   * variants.
   */
  lemma {:induction false} SwingTimesMatchSwings(c: Config, s: State, events: seq<Event>)
    requires ValidConfig(c)
    ensures |SwingTimes(c, s, events)| == |SwingSounds(Sounds(Run(c, s, events).1))|
    ensures forall k :: 0 <= k < |SwingSounds(Sounds(Run(c, s, events).1))| ==>
              SwingSounds(Sounds(Run(c, s, events).1))[k].Swing? &&
              SwingSounds(Sounds(Run(c, s, events).1))[k].variant < c.swingVariants
    decreases |events|
  {
    if events != [] {
      var e := events[0];
      var (s1, out1) := Step(c, s, e);
      var out2 := Run(c, s1, events[1..]).1;
      SwingTimesMatchSwings(c, s1, events[1..]);
      SoundsAppend(out1, out2);
      SwingSoundsAppend(Sounds(out1), Sounds(out2));
      var sw1, sw2 := SwingSounds(Sounds(out1)), SwingSounds(Sounds(out2));
      var sw := SwingSounds(Sounds(Run(c, s, events).1));
      assert sw == sw1 + sw2;
      if FiredBy(c, s, e) {
        assert sw1 == [Swing(VariantIndex(e.draw, c.swingVariants))];
      } else {
        assert sw1 == [];
      }
      forall k | 0 <= k < |sw|
        ensures sw[k].Swing? && sw[k].variant < c.swingVariants
      {
        if k >= |sw1| {
          assert sw[k] == sw2[k - |sw1|];
        }
      }
    }
  }

  /**
   * During the lifetime of one listener (no step changes `isOn` or
   * `hasPermission`, so the effect is not re-run), the swings fire at
   * times spaced by at least the cooldown, the first at least the cooldown
   * after the listener's timestamp.
   */
  lemma {:induction false} SwingsSpacedByCooldown(c: Config, s: State, events: seq<Event>)
    requires ValidConfig(c)
    requires KeepsListener(c, s, events)
    ensures SpacedFrom(SwingTimes(c, s, events), s.lastSwing, c.cooldown)
    decreases |events|
  {
    if events != [] {
      var e := events[0];
      var s1 := Step(c, s, e).0;
      SwingsSpacedByCooldown(c, s1, events[1..]);
      var rest := SwingTimes(c, s1, events[1..]);
      var times := SwingTimes(c, s, events);
      if FiredBy(c, s, e) {
        assert s1.lastSwing == e.now;
        assert times == [e.now] + rest;
        forall k | 0 < k < |times|
          ensures times[k] - times[k - 1] >= c.cooldown
        {
          if k > 1 {
            assert times[k] == rest[k - 1] && times[k - 1] == rest[k - 2];
          }
        }
      } else {
        assert !Rerenders(s, s1);
        assert s1.lastSwing == s.lastSwing;
        assert times == rest;
      }
    }
  }

  /** During the lifetime of one listener, the cooldown timestamp never decreases. */
  lemma {:induction false} CooldownTimestampMonotone(c: Config, s: State, events: seq<Event>)
    requires ValidConfig(c)
    requires KeepsListener(c, s, events)
    ensures Run(c, s, events).0.lastSwing >= s.lastSwing
    decreases |events|
  {
    if events != [] {
      CooldownTimestampMonotone(c, Step(c, s, events[0]).0, events[1..]);
    }
  }

  /** A saber that is off and is never clicked plays no swing, whatever the samples. */
  lemma {:induction false} NoSwingWhileOff(c: Config, s: State, events: seq<Event>)
    requires ValidConfig(c) && !s.isOn
    requires forall k :: 0 <= k < |events| ==> !events[k].Click?
    ensures SwingSounds(Sounds(Run(c, s, events).1)) == []
    decreases |events|
  {
    if events != [] {
      var (s1, out1) := Step(c, s, events[0]);
      var out2 := Run(c, s1, events[1..]).1;
      NoSwingWhileOff(c, s1, events[1..]);
      SoundsAppend(out1, out2);
      SwingSoundsAppend(Sounds(out1), Sounds(out2));
    }
  }

  /**
   * Until some permission outcome grants, no swing is played: without
   * permission no listener is attached, so samples are never examined.
   */
  lemma {:induction false} NoSwingWithoutGrant(c: Config, s: State, events: seq<Event>)
    requires ValidConfig(c) && Consistent(c, s) && !s.hasPermission
    requires forall k :: 0 <= k < |events| ==> !Grants(events[k])
    ensures SwingSounds(Sounds(Run(c, s, events).1)) == []
    ensures !Run(c, s, events).0.hasPermission
    decreases |events|
  {
    if events != [] {
      var (s1, out1) := Step(c, s, events[0]);
      var out2 := Run(c, s1, events[1..]).1;
      StepKeepsConsistent(c, s, events[0]);
      assert !Grants(events[0]);
      NoSwingWithoutGrant(c, s1, events[1..]);
      SoundsAppend(out1, out2);
      SwingSoundsAppend(Sounds(out1), Sounds(out2));
    }
  }

  /**
   * Igniting a permitted saber attaches a fresh listener with timestamp 0,
   * so the first sample above the threshold afterwards fires whatever the
   * previous swing's time, as soon as `now` is at least the cooldown.
   */
  lemma IgnitionResetsCooldown(c: Config, s: State, now: int, a: Axes, draw: Unit)
    requires ValidConfig(c) && !s.isOn && s.hasPermission
    requires now >= c.cooldown && Exceeds(a, c.threshold)
    ensures FiredBy(c, Step(c, s, Click).0, Sample(now, Some(a), draw))
  {
  }

  /**
   * On a platform without a prompt the permission branch runs inside the
   * click itself; the click followed at once by the `NoPromptApi` outcome
   * ends in the state of a single batched update: power flipped,
   * permission granted, a fresh listener attached.
   */
  lemma ClickWithoutPrompt(c: Config, s: State)
    requires ValidConfig(c) && !s.hasPermission
    ensures Run(c, s, [Click, PermissionResolved(NoPromptApi)]).0 ==
              s.(isOn := !s.isOn, hasPermission := true, subscribed := true, lastSwing := 0,
                 debug := if c.hasDebugPanel then s.debug.(permissionStatus := "granted (default)")
                          else s.debug)
    ensures Sounds(Run(c, s, [Click, PermissionResolved(NoPromptApi)]).1) ==
              [if s.isOn then PowerOff else PowerOn]
  {
  }

  /**
   * Settling the permission twice with the same outcome is the same as
   * settling it once: the second time permission does not change, so the
   * listener and its cooldown timestamp are kept.
   */
  lemma ResolveIdempotent(c: Config, s: State, o: Outcome)
    requires ValidConfig(c)
    ensures Resolve(c, Resolve(c, s, o), o) == Resolve(c, s, o)
  {
  }

  /**
   * Without a debug panel, a sample that does not fire leaves the state
   * exactly as it was and requests nothing: samples below the threshold,
   * without acceleration, inside the cooldown, with the saber off or with
   * no listener attached.
   */
  lemma QuietSampleChangesNothing(c: Config, s: State, e: Event)
    requires ValidConfig(c) && !c.hasDebugPanel && e.Sample?
    requires !FiredBy(c, s, e)
    ensures Step(c, s, e) == (s, [])
  {
  }
}

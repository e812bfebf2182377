/**
 * Concrete runs of the three configured components, showing the cooldown,
 * the strict threshold, the debug panel and the effect of re-ignition on
 * particular inputs.
 */
module Scenarios {
  import opened Wrappers
  import opened Motion
  import opened Saber
  import opened Traces

  /** The three shipped configurations satisfy the model's assumptions. */
  lemma ConfigsValid()
    ensures ValidConfig(LightsaberV2) && ValidConfig(Lightsaber) && ValidConfig(LightsaberV3)
  {
  }

  /** A sample of magnitude 10 on two axes, the third missing. */
  const Ten: Option<Axes> := Some(Axes(Some(6.0), Some(8.0), None))

  /** A sample of magnitude 20 on two axes, the third missing. */
  const Twenty: Option<Axes> := Some(Axes(Some(12.0), Some(16.0), None))

  /** An ignited, permitted saber's fresh listener. */
  const Ignited: State := State(true, true, 0, true, InitialDebug)

  /** Mount, ignite, grant: the saber ends ignited and listening, having asked once for permission. */
  lemma MountIgniteGrant(c: Config)
    requires ValidConfig(c) && !c.hasDebugPanel
    ensures Run(c, Init, [Click, PermissionResolved(Answered("granted"))]) ==
              (Ignited, [RequestPermission, Play(PowerOn)])
  {
    var grant := PermissionResolved(Answered("granted"));
    var s1 := Init.(isOn := true);
    var out := [RequestPermission, Play(PowerOn)];
    assert Toggle(Init).0 == s1;
    assert Toggle(Init).1 == [RequestPermission] + [Play(PowerOn)] == out;
    assert Step(c, Init, Click) == Toggle(Init);
    assert Step(c, s1, grant) == (Ignited, []);
    assert [grant][1..] == [];
    assert Run(c, s1, [grant]).0 == Ignited;
    assert Run(c, s1, [grant]).1 == [] + [];
    assert [Click, grant][1..] == [grant];
    assert Run(c, Init, [Click, grant]).0 == Ignited;
    assert Run(c, Init, [Click, grant]).1 == out + [] == out;
  }

  /**
   * With the third component's constants (cooldown 250, threshold 8): a
   * magnitude-10 sample swings, the same sample 100 ms later is dropped,
   * and 300 ms after the first it swings again. The times start at 1000
   * because a fresh listener's timestamp is 0, so samples earlier than the
   * cooldown are dropped (see `FreshListenerDropsEarlySample`).
   */
  lemma CooldownScenario()
    ensures SwingTimes(LightsaberV3, Ignited, [Sample(1000, Ten, 0.5), Sample(1100, Ten, 0.5), Sample(1300, Ten, 0.5)])
              == [1000, 1300]
    ensures Run(LightsaberV3, Ignited, [Sample(1000, Ten, 0.5), Sample(1100, Ten, 0.5), Sample(1300, Ten, 0.5)]).1
              == [Play(Swing(2)), Play(Swing(2))]
  {
    var c := LightsaberV3;
    var events := [Sample(1000, Ten, 0.5), Sample(1100, Ten, 0.5), Sample(1300, Ten, 0.5)];
    assert VariantIndex(0.5, 5) == 2;
    var s1 := Ignited.(lastSwing := 1000);
    assert Step(c, Ignited, events[0]) == (s1, [Play(Swing(2))]);
    assert Step(c, s1, events[1]) == (s1, []);
    var s3 := Ignited.(lastSwing := 1300);
    assert Step(c, s1, events[2]) == (s3, [Play(Swing(2))]);
    assert events[1..] == [events[1], events[2]];
    assert events[1..][1..] == [events[2]];
    assert events[1..][1..][1..] == [];
    assert Run(c, s1, [events[2]]).1 == [Play(Swing(2))] + [];
    assert SwingTimes(c, s1, [events[2]]) == [1300];
    assert Run(c, s1, events[1..]).1 == [] + [Play(Swing(2))];
    assert Run(c, Ignited, events).1 == [Play(Swing(2))] + [Play(Swing(2))];
    assert SwingTimes(c, s1, events[1..]) == [1300];
  }

  /**
   * A fresh listener starts with `lastSwing = 0`, so with the third
   * component's constants a strong sample at time 0 is dropped
   * (0 - 0 < 250) and the same sample at time 250 fires.
   */
  lemma FreshListenerDropsEarlySample()
    ensures !FiredBy(LightsaberV3, Ignited, Sample(0, Ten, 0.0))
    ensures Step(LightsaberV3, Ignited, Sample(0, Ten, 0.0)) == (Ignited, [])
    ensures FiredBy(LightsaberV3, Ignited, Sample(250, Ten, 0.0))
  {
  }

  /** A sample of magnitude exactly the threshold never swings: the comparison is strict. */
  lemma ThresholdIsStrict(c: Config, s: State, now: int, draw: Unit)
    requires ValidConfig(c)
    ensures !FiredBy(c, s, Sample(now, Some(Axes(Some(c.threshold), None, None)), draw))
    ensures !FiredBy(c, s, Sample(now, Some(Axes(None, Some(0.0 - c.threshold), None)), draw))
  {
  }

  /**
   * The debug panel's "last swing" field records every examined sample,
   * swing or not, so after a weak sample it differs from the cooldown
   * timestamp the listener keeps.
   */
  lemma DebugTimestampDiffers()
    ensures var s := Ignited.(debug := Debug(0, "granted"));
            var r := Step(Lightsaber, s, Sample(2000, Some(Axes(Some(1.0), None, None)), 0.0)).0;
            r.debug.lastSample == 2000 && r.lastSwing == 0
  {
  }

  /**
   * Switching off and on between two swings attaches a fresh listener, so
   * the second swing, 1 ms after the first, is not held back by the 500 ms
   * cooldown.
   */
  lemma ReigniteSkipsCooldown()
    ensures SwingTimes(LightsaberV2, Ignited, [Sample(1000, Twenty, 0.0), Click, Click, Sample(1001, Twenty, 0.0)])
              == [1000, 1001]
  {
    var c := LightsaberV2;
    var events := [Sample(1000, Twenty, 0.0), Click, Click, Sample(1001, Twenty, 0.0)];
    var s1 := Ignited.(lastSwing := 1000);
    assert Step(c, Ignited, events[0]).0 == s1;
    var s2 := Step(c, s1, Click).0;
    assert s2 == Ignited.(isOn := false);
    assert Step(c, s2, Click).0 == Ignited;
    assert FiredBy(c, Ignited, events[3]);
    assert events[1..] == [Click, Click, events[3]];
    assert events[1..][1..] == [Click, events[3]];
    assert events[1..][1..][1..] == [events[3]];
    assert events[1..][1..][1..][1..] == [];
    assert SwingTimes(c, Ignited, [events[3]]) == [1001];
    assert SwingTimes(c, s2, events[1..][1..]) == [1001];
    assert SwingTimes(c, s1, events[1..]) == [1001];
  }
}

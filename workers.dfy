/**
 * The two device workers of Toy_Controller.py, one loop iteration at a time.
 * Each tick reads a snapshot of the shared state (the environment), may send
 * one command, updates the worker's local state and sleeps. The pure step
 * functions are the specification; the classes run the same loops in place.
 */
module Workers {
  import opened Wrappers
  import opened Devices

  /** Python's `int(x)` on a float: truncation toward zero. */
  function TruncToInt(x: real): (n: int)
    ensures 0.0 <= x ==> n as real <= x < n as real + 1.0
    ensures x < 0.0 ==> n as real - 1.0 < x <= n as real
  {
    if x >= 0.0 then x.Floor else -((-x).Floor)
  }

  const HomePosition: real := 0.5
  const HomeDurationMs: int := 700
  const PollInterval: real := 0.1
  const PistonErrorBackoff: real := 1.0
  const DefaultInterval: real := 1.0
  const DefaultStrength: real := 0.0
  /** The initial `last_sent_strength`, below every real strength. */
  const NeverSent: real := -1.0

  /** The outcome of a run of ticks: the final local state, the commands
      sent (attempted) in order, and the sleep after each tick. */
  datatype Run<S> = Run(final: S, sent: seq<Command>, slept: seq<real>)

  // ---------------------------------------------------------------------
  // piston_worker
  // ---------------------------------------------------------------------

  /** What one piston tick reads: the piston mode, the bound linear actuator,
      PISTON_SPEED_MAP, the range as it stands when the command returns, and
      whether the actuator command raises. */
  datatype PistonEnv = PistonEnv(
    mode: int,
    actuator: Option<Actuator>,
    speedMap: map<int, real>,
    posMin: real,
    posMax: real,
    fails: bool)

  /** The locals `is_homed` and `target_position`. */
  datatype PistonState = PistonState(isHomed: bool, target: real)

  datatype PistonTick = PistonTick(next: PistonState, sent: Option<Command>, sleep: real)

  /** The state the worker starts in: homed, heading for the current max. */
  function PistonStart(posMax: real): PistonState {
    PistonState(true, posMax)
  }

  /** `PISTON_SPEED_MAP.get(mode, 1.0)`: the stroke interval in seconds. An
      unknown mode strokes once a second; with positive intervals in the map
      the interval is always positive. */
  function Interval(e: PistonEnv): (r: real)
    ensures e.mode in e.speedMap ==> r == e.speedMap[e.mode]
    ensures e.mode !in e.speedMap ==> r == 1.0
    ensures (forall m :: m in e.speedMap ==> e.speedMap[m] > 0.0) ==> r > 0.0
  {
    MapGet(e.speedMap, e.mode, DefaultInterval)
  }

  /** `int(interval * 1000)`: the stroke duration in milliseconds, the whole
      milliseconds of a non-negative interval with the fraction dropped. */
  function StrokeDurationMs(e: PistonEnv): (ms: int)
    ensures Interval(e) >= 0.0 ==> 0 <= ms && ms as real <= Interval(e) * 1000.0 < ms as real + 1.0
  {
    TruncToInt(Interval(e) * 1000.0)
  }

  /** One iteration of piston_worker's loop. */
  function PistonStep(s: PistonState, e: PistonEnv): (t: PistonTick)
    ensures t.sent.Some? <==> e.actuator.Some? && (e.mode > 0 || (e.mode == 0 && !s.isHomed))
    ensures t.sent.Some? ==> t.sent.value.MoveTo? && t.sent.value.actuator == e.actuator.value
    ensures t.sent.None? ==> t.next == s
    ensures e.fails ==> t.next.target == s.target && (t.sent.Some? ==> t.sleep == PistonErrorBackoff)
  {
    if e.mode > 0 && e.actuator.Some? then
      var cmd := MoveTo(e.actuator.value, s.target, StrokeDurationMs(e));
      if e.fails then
        PistonTick(PistonState(false, s.target), Some(cmd), PistonErrorBackoff)
      else
        var next := if s.target == e.posMax then e.posMin else e.posMax;
        PistonTick(PistonState(false, next), Some(cmd), Interval(e))
    else if e.mode == 0 && !s.isHomed && e.actuator.Some? then
      var cmd := MoveTo(e.actuator.value, HomePosition, HomeDurationMs);
      if e.fails then
        PistonTick(s, Some(cmd), PistonErrorBackoff)
      else
        PistonTick(PistonState(true, e.posMax), Some(cmd), PollInterval)
    else
      PistonTick(s, None, PollInterval)
  }

  /** The piston worker run over a sequence of ticks. */
  function PistonRun(s: PistonState, envs: seq<PistonEnv>): (r: Run<PistonState>)
    ensures |r.sent| <= |envs| && |r.slept| == |envs|
  {
    if envs == [] then Run(s, [], [])
    else
      var prev := PistonRun(s, envs[..|envs| - 1]);
      var t := PistonStep(prev.final, envs[|envs| - 1]);
      Run(t.next, prev.sent + OptionToSeq(t.sent), prev.slept + [t.sleep])
  }

  /** Running two stretches of ticks one after the other is running their
      concatenation. */
  lemma {:induction false} PistonRunAppend(s: PistonState, a: seq<PistonEnv>, b: seq<PistonEnv>)
    ensures var ra := PistonRun(s, a);
      var rb := PistonRun(ra.final, b);
      PistonRun(s, a + b) == Run(rb.final, ra.sent + rb.sent, ra.slept + rb.slept)
    decreases |b|
  {
    if b != [] {
      var b' := b[..|b| - 1];
      assert (a + b)[..|a + b| - 1] == a + b';
      assert (a + b)[|a + b| - 1] == b[|b| - 1];
      PistonRunAppend(s, a, b');
    } else {
      assert a + b == a;
    }
  }

  /** A tick that strokes: mode on, the actuator `a` bound, the command
      delivered, and the range fixed at [lo, hi]. */
  predicate Cycling(e: PistonEnv, a: Actuator, lo: real, hi: real) {
    e.mode > 0 && e.actuator == Some(a) && !e.fails && e.posMin == lo && e.posMax == hi
  }

  /** A tick with the mode off, the actuator `a` bound and the command
      delivered. */
  predicate Idle(e: PistonEnv, a: Actuator) {
    e.mode == 0 && e.actuator == Some(a) && !e.fails
  }

  /** The end of the range the i-th stroke goes to. */
  function StrokeEnd(i: nat, lo: real, hi: real): real {
    if i % 2 == 0 then hi else lo
  }

  /** One stroke of a cycling stretch: heading for the k-th stroke end, the
      tick moves there and heads for the next one. */
  lemma CyclingStep(st: PistonState, e: PistonEnv, a: Actuator, lo: real, hi: real, k: nat)
    requires st.target == StrokeEnd(k, lo, hi) && Cycling(e, a, lo, hi)
    ensures PistonStep(st, e) == PistonTick(
      PistonState(false, StrokeEnd(k + 1, lo, hi)),
      Some(MoveTo(a, StrokeEnd(k, lo, hi), StrokeDurationMs(e))),
      Interval(e))
  {
  }

  /** While the mode is on, the strokes start at max and alternate max, min,
      max, ...; each lasts `int(interval * 1000)` ms and is followed by a
      sleep of the same interval; the worker is no longer homed. */
  lemma {:induction false} CyclingAlternates(s: PistonState, envs: seq<PistonEnv>, a: Actuator, lo: real, hi: real)
    requires s.target == hi
    requires forall i :: 0 <= i < |envs| ==> Cycling(envs[i], a, lo, hi)
    ensures var r := PistonRun(s, envs);
      && |r.sent| == |envs|
      && (forall i :: 0 <= i < |envs| ==>
            r.sent[i] == MoveTo(a, StrokeEnd(i, lo, hi), StrokeDurationMs(envs[i]))
            && r.slept[i] == Interval(envs[i]))
      && r.final.target == StrokeEnd(|envs|, lo, hi)
      && (envs != [] ==> !r.final.isHomed)
  {
    if envs != [] {
      var n := |envs|;
      var init, e := envs[..n - 1], envs[n - 1];
      assert forall i :: 0 <= i < |init| ==> init[i] == envs[i];
      CyclingAlternates(s, init, a, lo, hi);
      var prev := PistonRun(s, init);
      CyclingStep(prev.final, e, a, lo, hi, n - 1);
      var r := PistonRun(s, envs);
      assert r.sent == prev.sent + [MoveTo(a, StrokeEnd(n - 1, lo, hi), StrokeDurationMs(e))];
      assert r.slept == prev.slept + [Interval(e)];
      forall i | 0 <= i < n
        ensures r.sent[i] == MoveTo(a, StrokeEnd(i, lo, hi), StrokeDurationMs(envs[i]))
        ensures r.slept[i] == Interval(envs[i])
      {
        if i < n - 1 {
          assert init[i] == envs[i];
        }
      }
    }
  }

  /** With a non-degenerate range no two consecutive strokes go to the same
      position. */
  lemma StrokesAlternate(s: PistonState, envs: seq<PistonEnv>, a: Actuator, lo: real, hi: real)
    requires s.target == hi && lo != hi
    requires forall i :: 0 <= i < |envs| ==> Cycling(envs[i], a, lo, hi)
    ensures forall i {:trigger PistonRun(s, envs).sent[i]} :: 0 < i < |PistonRun(s, envs).sent| ==>
      var sent := PistonRun(s, envs).sent;
      sent[i].MoveTo? && sent[i - 1].MoveTo? && sent[i].position != sent[i - 1].position
  {
    CyclingAlternates(s, envs, a, lo, hi);
  }

  /** Once the mode drops to 0 after cycling, exactly one command is sent: to
      the home position 0.5 over 700 ms. The worker is then homed and heads
      for the max again, and stays silent while the mode stays 0. */
  lemma {:induction false} HomesOnce(s: PistonState, envs: seq<PistonEnv>, a: Actuator)
    requires !s.isHomed && envs != []
    requires forall i :: 0 <= i < |envs| ==> Idle(envs[i], a)
    ensures PistonRun(s, envs).sent == [MoveTo(a, HomePosition, HomeDurationMs)]
    ensures PistonRun(s, envs).final == PistonState(true, envs[0].posMax)
  {
    var n := |envs|;
    if n > 1 {
      var init := envs[..n - 1];
      assert forall i :: 0 <= i < |init| ==> init[i] == envs[i];
      HomesOnce(s, init, a);
    }
  }

  /** A homed worker sends nothing while the mode is 0, whatever else holds. */
  lemma {:induction false} HomedStaysSilent(s: PistonState, envs: seq<PistonEnv>)
    requires s.isHomed
    requires forall i :: 0 <= i < |envs| ==> envs[i].mode == 0
    ensures PistonRun(s, envs).sent == [] && PistonRun(s, envs).final == s
  {
    if envs != [] {
      var init := envs[..|envs| - 1];
      assert forall i :: 0 <= i < |init| ==> init[i] == envs[i];
      HomedStaysSilent(s, init);
    }
  }

  /** The strokes of a cycling stretch. */
  function Strokes(envs: seq<PistonEnv>, a: Actuator, lo: real, hi: real): seq<Command> {
    seq(|envs|, i requires 0 <= i < |envs| => MoveTo(a, StrokeEnd(i, lo, hi), StrokeDurationMs(envs[i])))
  }

  /** A fresh (or freshly homed) worker whose target is the max: the mode
      turns on for a while and then off. The commands are the alternating
      strokes followed by exactly one home command. */
  lemma CycleThenHome(hi: real, lo: real, a: Actuator, cycling: seq<PistonEnv>, idle: seq<PistonEnv>)
    requires cycling != [] && idle != []
    requires forall i :: 0 <= i < |cycling| ==> Cycling(cycling[i], a, lo, hi)
    requires forall i :: 0 <= i < |idle| ==> Idle(idle[i], a)
    ensures PistonRun(PistonStart(hi), cycling + idle).sent
         == Strokes(cycling, a, lo, hi) + [MoveTo(a, HomePosition, HomeDurationMs)]
    ensures PistonRun(PistonStart(hi), cycling + idle).final == PistonStart(idle[0].posMax)
  {
    var s := PistonStart(hi);
    PistonRunAppend(s, cycling, idle);
    CyclingAlternates(s, cycling, a, lo, hi);
    var mid := PistonRun(s, cycling).final;
    HomesOnce(mid, idle, a);
    assert PistonRun(s, cycling).sent == Strokes(cycling, a, lo, hi);
  }

  /** The target is latched one stroke ahead: when the max is moved from `hi`
      to `hi2` while the worker is heading for `hi`, the next stroke still
      goes to the old `hi` (beyond the new range when `hi2 < hi`), and the
      one after goes to `hi2` rather than to the min. */
  lemma {:induction false} RangeChangeLagsOneStroke(a: Actuator, lo: real, hi: real, hi2: real, e1: PistonEnv, e2: PistonEnv)
    requires hi != hi2
    requires Cycling(e1, a, lo, hi2) && Cycling(e2, a, lo, hi2)
    ensures PistonRun(PistonState(false, hi), [e1, e2]).sent
         == [MoveTo(a, hi, StrokeDurationMs(e1)), MoveTo(a, hi2, StrokeDurationMs(e2))]
  {
    var s0 := PistonState(false, hi);
    assert [e1, e2][..1] == [e1];
    assert [e1][..0] == [];
    var t1 := PistonStep(s0, e1);
    assert t1.sent == Some(MoveTo(a, hi, StrokeDurationMs(e1))) && t1.next == PistonState(false, hi2);
    assert OptionToSeq(t1.sent) == [MoveTo(a, hi, StrokeDurationMs(e1))];
    assert PistonRun(s0, []) == Run(s0, [], []);
    var r1 := PistonRun(s0, [e1]);
    assert r1.final == PistonState(false, hi2) && r1.sent == [MoveTo(a, hi, StrokeDurationMs(e1))];
  }

  /** The general rule behind the lag: whatever end was latched before a
      slider moved (even one now outside [lo2, hi2]) is the next stroke's
      target; the stroke after goes to lo2 when the latched end equals the
      new max, and to hi2 otherwise. */
  lemma {:induction false} RangeChangeLatchedEnd(a: Actuator, latched: real, lo2: real, hi2: real, e1: PistonEnv, e2: PistonEnv)
    requires Cycling(e1, a, lo2, hi2) && Cycling(e2, a, lo2, hi2)
    ensures PistonRun(PistonState(false, latched), [e1, e2]).sent
         == [MoveTo(a, latched, StrokeDurationMs(e1)),
             MoveTo(a, if latched == hi2 then lo2 else hi2, StrokeDurationMs(e2))]
  {
    var s0 := PistonState(false, latched);
    var next := if latched == hi2 then lo2 else hi2;
    assert [e1, e2][..1] == [e1];
    assert [e1][..0] == [];
    var t1 := PistonStep(s0, e1);
    assert t1.sent == Some(MoveTo(a, latched, StrokeDurationMs(e1))) && t1.next == PistonState(false, next);
    assert OptionToSeq(t1.sent) == [MoveTo(a, latched, StrokeDurationMs(e1))];
    assert PistonRun(s0, []) == Run(s0, [], []);
    var r1 := PistonRun(s0, [e1]);
    assert r1.final == PistonState(false, next) && r1.sent == [MoveTo(a, latched, StrokeDurationMs(e1))];
    var t2 := PistonStep(r1.final, e2);
    assert t2.sent == Some(MoveTo(a, next, StrokeDurationMs(e2)));
  }

  /** The max slider pulled below the latched min drags the min with it,
      yet the next stroke still goes to the old min, outside the new range. */
  lemma StrokeLeavesRangeAfterMaxDropsBelowMin(a: Actuator, lo: real, hi2: real, e1: PistonEnv, e2: PistonEnv)
    requires hi2 < lo
    requires Cycling(e1, a, hi2, hi2) && Cycling(e2, a, hi2, hi2)
    ensures var sent := PistonRun(PistonState(false, lo), [e1, e2]).sent;
            |sent| == 2 && sent[0].MoveTo? && sent[0].position == lo && sent[0].position > hi2
  {
    RangeChangeLatchedEnd(a, lo, hi2, hi2, e1, e2);
  }

  // ---------------------------------------------------------------------
  // vibe_worker
  // ---------------------------------------------------------------------

  /** What one vibe tick reads: the vibe mode, the bound vibrator,
      VIBE_STRENGTH_MAP, and whether the actuator command raises. */
  datatype VibeEnv = VibeEnv(
    mode: int,
    actuator: Option<Actuator>,
    strengthMap: map<int, real>,
    fails: bool)

  /** `next` is the local `last_sent_strength` after the tick. */
  datatype VibeTick = VibeTick(next: real, sent: Option<Command>, sleep: real)

  /** `VIBE_STRENGTH_MAP.get(mode, 0.0)`: an unknown mode means stop. With
      strengths in [0, 1] in the map the target is in [0, 1], so it never
      equals the initial last-sent value -1.0. */
  function TargetStrength(e: VibeEnv): (r: real)
    ensures e.mode in e.strengthMap ==> r == e.strengthMap[e.mode]
    ensures e.mode !in e.strengthMap ==> r == 0.0
    ensures (forall m :: m in e.strengthMap ==> 0.0 <= e.strengthMap[m] <= 1.0) ==> 0.0 <= r <= 1.0 && r != NeverSent
  {
    MapGet(e.strengthMap, e.mode, DefaultStrength)
  }

  /** One iteration of vibe_worker's loop. A command that raises leaves the
      last sent strength alone, and that branch does not sleep. */
  function VibeStep(last: real, e: VibeEnv): (t: VibeTick)
    ensures t.sent.Some? <==> e.actuator.Some? && TargetStrength(e) != last
    ensures t.sent.Some? ==> t.sent.value == Vibrate(e.actuator.value, TargetStrength(e))
    ensures t.next != last ==> t.sent.Some? && !e.fails && t.next == TargetStrength(e)
    ensures t.sleep == if t.sent.Some? && e.fails then 0.0 else PollInterval
  {
    var target := TargetStrength(e);
    if e.actuator.Some? && target != last then
      var cmd := Vibrate(e.actuator.value, target);
      if e.fails then VibeTick(last, Some(cmd), 0.0)
      else VibeTick(target, Some(cmd), PollInterval)
    else
      VibeTick(last, None, PollInterval)
  }

  /** The vibe worker run over a sequence of ticks. */
  function VibeRun(last: real, envs: seq<VibeEnv>): (r: Run<real>)
    ensures |r.sent| <= |envs| && |r.slept| == |envs|
    ensures forall i :: 0 <= i < |envs| ==>
      (r.slept[i] == PollInterval || r.slept[i] == 0.0) && (r.slept[i] == 0.0 ==> envs[i].fails)
  {
    if envs == [] then Run(last, [], [])
    else
      var prev := VibeRun(last, envs[..|envs| - 1]);
      var t := VibeStep(prev.final, envs[|envs| - 1]);
      Run(t.next, prev.sent + OptionToSeq(t.sent), prev.slept + [t.sleep])
  }

  /** A tick whose command is delivered leaves nothing to send on a repeat of
      the same tick. */
  lemma VibeStepIdempotent(last: real, e: VibeEnv)
    requires !e.fails
    ensures VibeStep(VibeStep(last, e).next, e).sent.None?
  {
  }

  /** Without failures the worker never sends the same strength twice in a
      row: every command differs from the one before it (the first from the
      initial last-sent value), and the last-sent value is the strength of
      the last command. */
  lemma {:induction false} VibeRunNoRepeats(last: real, envs: seq<VibeEnv>)
    requires forall i :: 0 <= i < |envs| ==> !envs[i].fails
    ensures var r := VibeRun(last, envs);
      && (forall i :: 0 <= i < |r.sent| ==> r.sent[i].Vibrate?)
      && (forall i :: 0 < i < |r.sent| ==> r.sent[i].speed != r.sent[i - 1].speed)
      && (r.sent == [] ==> r.final == last)
      && (r.sent != [] ==> r.sent[0].speed != last && r.final == r.sent[|r.sent| - 1].speed)
  {
    if envs != [] {
      var init := envs[..|envs| - 1];
      assert forall i :: 0 <= i < |init| ==> init[i] == envs[i];
      VibeRunNoRepeats(last, init);
    }
  }

  /** From the worker's start, after a failure-free tick with a vibrator
      bound, the last command sent carries the current mode's strength,
      provided that strength is not the sentinel -1.0. That command may have
      gone to a vibrator bound earlier: see RebindKeepsStaleStrength. */
  lemma VibeRunTracksTarget(envs: seq<VibeEnv>)
    requires envs != []
    requires forall i :: 0 <= i < |envs| ==> !envs[i].fails
    requires envs[|envs| - 1].actuator.Some?
    requires TargetStrength(envs[|envs| - 1]) != NeverSent
    ensures var r := VibeRun(NeverSent, envs);
      && r.final == TargetStrength(envs[|envs| - 1])
      && r.sent != [] && r.sent[|r.sent| - 1].Vibrate? && r.sent[|r.sent| - 1].speed == r.final
  {
    var init := envs[..|envs| - 1];
    assert forall i :: 0 <= i < |init| ==> init[i] == envs[i];
    VibeRunNoRepeats(NeverSent, init);
  }

  /** With only the vibrator `a` ever bound, every command goes to `a`. */
  lemma {:induction false} VibeRunSendsTo(last: real, envs: seq<VibeEnv>, a: Actuator)
    requires forall i :: 0 <= i < |envs| && envs[i].actuator.Some? ==> envs[i].actuator == Some(a)
    ensures forall c :: c in VibeRun(last, envs).sent ==> c.Vibrate? && c.actuator == a
  {
    if envs != [] {
      var init := envs[..|envs| - 1];
      assert forall i :: 0 <= i < |init| ==> init[i] == envs[i];
      VibeRunSendsTo(last, init, a);
      var prev := VibeRun(last, init);
      var t := VibeStep(prev.final, envs[|envs| - 1]);
      assert envs[|envs| - 1].actuator.Some? ==> envs[|envs| - 1].actuator == Some(a);
      assert VibeRun(last, envs).sent == prev.sent + OptionToSeq(t.sent);
    }
  }

  /** While one vibrator `a` stays bound (or none is), the last command `a`
      received from the start is the current mode's strength. */
  lemma OneVibratorTracksTarget(envs: seq<VibeEnv>, a: Actuator)
    requires envs != []
    requires forall i :: 0 <= i < |envs| ==> !envs[i].fails
    requires forall i :: 0 <= i < |envs| && envs[i].actuator.Some? ==> envs[i].actuator == Some(a)
    requires envs[|envs| - 1].actuator.Some?
    requires TargetStrength(envs[|envs| - 1]) != NeverSent
    ensures var r := VibeRun(NeverSent, envs);
      r.sent != [] && r.sent[|r.sent| - 1] == Vibrate(a, TargetStrength(envs[|envs| - 1]))
  {
    VibeRunTracksTarget(envs);
    VibeRunSendsTo(NeverSent, envs, a);
  }

  /** Rebinding does not reset the last sent strength. With strengths
      {1: 0.5, 2: 1.0}: mode 1 on vibrator b, mode 2 on vibrator a, then
      mode 2 back on b. The last tick sends nothing, so b keeps 0.5 while
      the mode asks for 1.0. */
  lemma RebindKeepsStaleStrength(a: Actuator, b: Actuator)
    requires a != b
    ensures var m := map[1 := 0.5, 2 := 1.0];
      var envs := [VibeEnv(1, Some(b), m, false), VibeEnv(2, Some(a), m, false), VibeEnv(2, Some(b), m, false)];
      && VibeRun(NeverSent, envs).sent == [Vibrate(b, 0.5), Vibrate(a, 1.0)]
      && TargetStrength(envs[2]) == 1.0
  {
    var m := map[1 := 0.5, 2 := 1.0];
    var e1, e2, e3 := VibeEnv(1, Some(b), m, false), VibeEnv(2, Some(a), m, false), VibeEnv(2, Some(b), m, false);
    var envs := [e1, e2, e3];
    assert envs[..2] == [e1, e2] && [e1, e2][..1] == [e1] && [e1][..0] == [];
    assert VibeRun(NeverSent, [e1]).sent == [Vibrate(b, 0.5)] && VibeRun(NeverSent, [e1]).final == 0.5;
    assert VibeRun(NeverSent, [e1, e2]).sent == [Vibrate(b, 0.5), Vibrate(a, 1.0)];
  }

  // ---------------------------------------------------------------------
  // The workers as loops over their local state
  // ---------------------------------------------------------------------

  /** piston_worker: its locals and the commands it has sent. */
  class PistonWorker {
    var isHomed: bool
    var targetPosition: real
    var sent: seq<Command>

    /** The worker starts homed, heading for the max it reads at start. */
    constructor (posMax: real)
      ensures State() == PistonStart(posMax) && sent == []
    {
      isHomed := true;
      targetPosition := posMax;
      sent := [];
    }

    function State(): PistonState
      reads this
    {
      PistonState(isHomed, targetPosition)
    }

    /** One pass of the `while not is_shutting_down` loop. */
    method Tick(e: PistonEnv) returns (sleep: real)
      modifies this
      ensures var t := PistonStep(old(State()), e);
        State() == t.next && sent == old(sent) + OptionToSeq(t.sent) && sleep == t.sleep
    {
      if e.mode > 0 && e.actuator.Some? {
        isHomed := false;
        var interval := MapGet(e.speedMap, e.mode, DefaultInterval);
        sent := sent + [MoveTo(e.actuator.value, targetPosition, TruncToInt(interval * 1000.0))];
        if e.fails {
          sleep := PistonErrorBackoff;
        } else {
          targetPosition := if targetPosition == e.posMax then e.posMin else e.posMax;
          sleep := interval;
        }
      } else if e.mode == 0 && !isHomed && e.actuator.Some? {
        sent := sent + [MoveTo(e.actuator.value, HomePosition, HomeDurationMs)];
        if e.fails {
          sleep := PistonErrorBackoff;
        } else {
          isHomed := true;
          targetPosition := e.posMax;
          sleep := PollInterval;
        }
      } else {
        sleep := PollInterval;
      }
    }

    /** The loop over a finite sequence of ticks. */
    method Run(envs: seq<PistonEnv>) returns (slept: seq<real>)
      modifies this
      ensures var r := PistonRun(old(State()), envs);
        State() == r.final && sent == old(sent) + r.sent && slept == r.slept
    {
      slept := [];
      var i := 0;
      while i < |envs|
        invariant 0 <= i <= |envs|
        invariant var r := PistonRun(old(State()), envs[..i]);
          State() == r.final && sent == old(sent) + r.sent && slept == r.slept
      {
        assert envs[..i + 1][..i] == envs[..i];
        var pause := Tick(envs[i]);
        slept := slept + [pause];
        i := i + 1;
      }
      assert envs[..i] == envs;
    }
  }

  /** vibe_worker: its local and the commands it has sent. */
  class VibeWorker {
    var lastSentStrength: real
    var sent: seq<Command>

    constructor ()
      ensures lastSentStrength == NeverSent && sent == []
    {
      lastSentStrength := NeverSent;
      sent := [];
    }

    /** One pass of the `while not is_shutting_down` loop. */
    method Tick(e: VibeEnv) returns (sleep: real)
      modifies this
      ensures var t := VibeStep(old(lastSentStrength), e);
        lastSentStrength == t.next && sent == old(sent) + OptionToSeq(t.sent) && sleep == t.sleep
    {
      var target := MapGet(e.strengthMap, e.mode, DefaultStrength);
      sleep := PollInterval;
      if e.actuator.Some? && target != lastSentStrength {
        sent := sent + [Vibrate(e.actuator.value, target)];
        if e.fails {
          sleep := 0.0;
          return;
        }
        lastSentStrength := target;
      }
    }

    /** The loop over a finite sequence of ticks. */
    method Run(envs: seq<VibeEnv>) returns (slept: seq<real>)
      modifies this
      ensures var r := VibeRun(old(lastSentStrength), envs);
        lastSentStrength == r.final && sent == old(sent) + r.sent && slept == r.slept
    {
      slept := [];
      var i := 0;
      while i < |envs|
        invariant 0 <= i <= |envs|
        invariant var r := VibeRun(old(lastSentStrength), envs[..i]);
          lastSentStrength == r.final && sent == old(sent) + r.sent && slept == r.slept
      {
        assert envs[..i + 1][..i] == envs[..i];
        var pause := Tick(envs[i]);
        slept := slept + [pause];
        i := i + 1;
      }
      assert envs[..i] == envs;
    }
  }
}

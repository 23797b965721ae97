/** The arithmetic of the polyrhythm scheduler, as functions of the
    clock reading `now`: how long a layer's beat is, where a layer that
    appears mid-session joins, how many events one look-ahead pass takes
    from a layer, which of them sound and with what voice parameters.
    The engine class steps through the same computation in place and is
    proved equal to `Pass`. */
module Scheduler {
  import opened Layers

  /** How far ahead of the clock a pass schedules, in seconds. */
  const ScheduleAheadTime: real := 0.1
  /** Offset of the cycle origin after a start call, in seconds. */
  const StartDelay: real := 0.1
  /** An event further than this in the past is skipped, not played. */
  const StaleTolerance: real := 0.05
  /** Voice envelope: linear attack, then decay, then the oscillator stops. */
  const Attack: real := 0.005
  const Release: real := 0.1

  // ---------------------------------------------------------------------
  // Real arithmetic helpers

  lemma MulLe(a: real, b: real, c: real)
    requires a <= b && c > 0.0
    ensures a * c <= b * c
  {
    assert b * c - a * c == (b - a) * c;
  }

  lemma MulLt(a: real, b: real, c: real)
    requires a < b && c > 0.0
    ensures a * c < b * c
  {
    assert b * c - a * c == (b - a) * c;
  }

  /** `q = ⌊x/d⌋` satisfies `q·d ≤ x < (q+1)·d`. */
  lemma FloorDiv(x: real, d: real)
    requires d > 0.0
    ensures (x / d).Floor as real * d <= x < ((x / d).Floor as real + 1.0) * d
  {
    var q := x / d;
    var f := q.Floor as real;
    assert f <= q < f + 1.0;
    assert q * d == x;
    MulLe(f, q, d);
    assert f * d <= x;
    MulLt(q, f + 1.0, d);
    assert x < (f + 1.0) * d;
  }

  /** The first multiple of `d` strictly after `x` is at most `d` past
      it, and is a positive multiple when `x` is not negative. */
  lemma NextBoundary(x: real, d: real)
    requires d > 0.0
    ensures x < ((x / d).Floor + 1) as real * d <= x + d
    ensures x >= 0.0 ==> (x / d).Floor >= 0
  {
    var f := (x / d).Floor;
    FloorDiv(x, d);
    assert ((f + 1) as real) * d == f as real * d + d;
    if x >= 0.0 && f < 0 {
      MulLe((f + 1) as real, 0.0, d);
    }
  }

  // ---------------------------------------------------------------------
  // Durations

  /** The master cycle lasts 60/tempo seconds (tempo in cycles per minute). */
  function CycleDuration(tempo: real): (d: real)
    requires tempo > 0.0
    ensures d > 0.0
    ensures d * tempo == 60.0
  {
    60.0 / tempo
  }

  /** Effective beats per cycle: beats × (speed || 1). */
  function EffectiveBeats(l: RhythmLayer): (e: real)
    requires WellFormed(l)
    ensures e > 0.0
    ensures l.speed == 0.0 ==> e == l.beats as real
    ensures l.speed > 0.0 ==> e == l.beats as real * l.speed
  {
    l.beats as real * EffectiveSpeed(l.speed)
  }

  /** One beat of layer `l`: `effectiveBeats` of them fill one cycle exactly. */
  function BeatDuration(tempo: real, l: RhythmLayer): (bd: real)
    requires tempo > 0.0 && WellFormed(l)
    ensures bd > 0.0
    ensures bd * EffectiveBeats(l) == CycleDuration(tempo)
  {
    CycleDuration(tempo) / EffectiveBeats(l)
  }

  // ---------------------------------------------------------------------
  // Per-layer phase state

  /** The two maps keyed by layer id: next event time and event index. */
  datatype Phases = Phases(times: map<string, real>, counts: map<string, int>)

  /** Both maps are always written together, so they have the same keys. */
  predicate Consistent(p: Phases) {
    p.times.Keys == p.counts.Keys
  }

  datatype Event = Event(time: real, index: int)

  /** Where a layer the scheduler has not seen joins a running session:
      on the first beat boundary after `now`, counted from the start of
      the master cycle that `now` falls in. */
  function JoinPoint(now: real, cycleStart: real, cycleDur: real, bd: real): (e: Event)
    requires cycleDur > 0.0 && bd > 0.0
    ensures now < e.time <= now + bd
    ensures e.index >= 1
  {
    var cycleCount := ((now - cycleStart) / cycleDur).Floor;
    var currentCycleStart := cycleStart + cycleCount as real * cycleDur;
    var beatsPassed := ((now - currentCycleStart) / bd).Floor;
    FloorDiv(now - cycleStart, cycleDur);
    NextBoundary(now - currentCycleStart, bd);
    Event(currentCycleStart + (beatsPassed + 1) as real * bd, beatsPassed + 1)
  }

  /** The number of loop iterations of one pass for one layer: the least
      `n` with `t0 + n·bd ≥ window`. */
  function StepCount(t0: real, bd: real, window: real): (n: nat)
    requires bd > 0.0
    ensures t0 + n as real * bd >= window
    ensures n > 0 ==> t0 + (n - 1) as real * bd < window
  {
    if t0 >= window then 0
    else
      var q := (window - t0) / bd;
      var f := q.Floor;
      assert q * bd == window - t0;
      if f as real == q then
        assert f >= 1;
        assert (f - 1) as real * bd == q * bd - bd;
        f
      else
        assert f >= 0;
        MulLt(q, (f + 1) as real, bd);
        MulLt(f as real, q, bd);
        assert t0 + f as real * bd < window;
        assert (f + 1 - 1) as real == f as real;
        f + 1
  }

  /** Every step the count admits lands before the window's end ... */
  lemma {:induction false} BeforeWindow(t0: real, bd: real, window: real, i: nat)
    requires bd > 0.0
    requires i < StepCount(t0, bd, window)
    ensures t0 + i as real * bd < window
  {
    var n := StepCount(t0, bd, window);
    MulLe(i as real, (n - 1) as real, bd);
  }

  /** ... and every later one is at or past the window's end: the loop
      that steps by `bd` while below the window runs exactly
      `StepCount` times. */
  lemma PastWindow(t0: real, bd: real, window: real, i: nat)
    requires bd > 0.0
    requires i >= StepCount(t0, bd, window)
    ensures t0 + i as real * bd >= window
  {
    var n := StepCount(t0, bd, window);
    MulLe(n as real, i as real, bd);
    calc {
      window;
      <= t0 + n as real * bd;
      <= t0 + i as real * bd;
    }
  }

  lemma StepCountUnique(t0: real, bd: real, window: real, m: nat)
    requires bd > 0.0
    requires t0 + m as real * bd >= window
    requires m > 0 ==> t0 + (m - 1) as real * bd < window
    ensures StepCount(t0, bd, window) == m
  {
    var n := StepCount(t0, bd, window);
    if m < n {
      BeforeWindow(t0, bd, window, m);
    } else if n < m {
      PastWindow(t0, bd, window, m - 1);
    }
  }

  /** Taking one step before the window leaves one step fewer. */
  lemma StepCountNext(t: real, bd: real, window: real)
    requires bd > 0.0 && t < window
    ensures StepCount(t, bd, window) >= 1
    ensures StepCount(t + bd, bd, window) == StepCount(t, bd, window) - 1
  {
    var n := StepCount(t, bd, window);
    assert n >= 1;
    assert (t + bd) + (n - 1) as real * bd == t + n as real * bd;
    if n - 1 > 0 {
      assert (t + bd) + (n - 2) as real * bd == t + (n - 1) as real * bd;
    }
    StepCountUnique(t + bd, bd, window, n - 1);
  }

  /** The event one beat after `e`. */
  function Next(e: Event, bd: real): (f: Event)
    ensures f.time == e.time + bd && f.index == e.index + 1
  {
    Event(e.time + bd, e.index + 1)
  }

  /** The first `n` events of a layer from `s` on, each the `Next` of
      the one before. */
  function Ticks(s: Event, bd: real, n: nat): (evs: seq<Event>)
    ensures |evs| == n
    decreases n
  {
    if n == 0 then [] else [s] + Ticks(Next(s, bd), bd, n - 1)
  }

  /** The event `n` steps after `s`. */
  function After(s: Event, bd: real, n: nat): Event
    decreases n
  {
    if n == 0 then s else After(Next(s, bd), bd, n - 1)
  }

  /** Event `i` of a run is `i` beats after its first. */
  lemma {:induction false} TicksAt(s: Event, bd: real, n: nat, i: nat)
    requires i < n
    ensures Ticks(s, bd, n)[i] == Event(s.time + i as real * bd, s.index + i)
    decreases n
  {
    if i > 0 {
      TicksAt(Next(s, bd), bd, n - 1, i - 1);
      assert s.time + bd + (i - 1) as real * bd == s.time + i as real * bd;
    }
  }

  /** `n` steps take the time `n` beats and the index `n` further. */
  lemma {:induction false} AfterAt(s: Event, bd: real, n: nat)
    ensures After(s, bd, n) == Event(s.time + n as real * bd, s.index + n)
    decreases n
  {
    if n > 0 {
      AfterAt(Next(s, bd), bd, n - 1);
      assert s.time + bd + (n - 1) as real * bd == s.time + n as real * bd;
    }
  }

  // ---------------------------------------------------------------------
  // Voices

  datatype Waveform = Sine | Triangle

  /** The parameters of one scheduled tone: which layer and event, when it
      starts, its pitch, timbre, peak gain, pan and envelope. */
  datatype Voice = Voice(
    layerId: string,
    beatIndex: int,
    time: real,
    accented: bool,
    frequency: real,
    waveform: Waveform,
    velocity: real,
    pan: real,
    attack: real,
    decay: real,
    stopTime: real)

  /** The voice for event `beatIndex` of layer `l` at `time`. */
  function PlayOscillator(l: RhythmLayer, time: real, beatIndex: int): (v: Voice)
    requires l.beats >= 1
    ensures v.layerId == l.id && v.time == time && v.beatIndex == beatIndex
  {
    var isFirstBeat := beatIndex % l.beats == 0;
    var decay := if isFirstBeat then 0.2 else 0.1;
    Voice(l.id, beatIndex, time, isFirstBeat,
      if isFirstBeat then l.frequency * 2.0 else l.frequency,
      if isFirstBeat then Triangle else Sine,
      (if isFirstBeat then 0.8 else 0.4) * l.volume,
      l.pan, Attack, decay, time + Attack + decay + Release)
  }

  /** The voice rule: the first event of every `beats` is accented (the
      test `beatIndex % beats == 0` agrees with a truncating remainder,
      since only divisibility is asked); an accented event sounds an
      octave higher, as a triangle, at twice the gain and with a longer
      decay; the oscillator stops after attack, decay and release. */
  lemma VoiceRule(l: RhythmLayer, time: real, beatIndex: int)
    requires l.beats >= 1
    ensures var v := PlayOscillator(l, time, beatIndex);
            && (v.accented <==> beatIndex % l.beats == 0)
            && v.frequency == l.frequency * (if v.accented then 2.0 else 1.0)
            && v.waveform == (if v.accented then Triangle else Sine)
            && v.velocity == (if v.accented then 0.8 else 0.4) * l.volume
            && v.decay == (if v.accented then 0.2 else 0.1)
            && v.attack == Attack && v.pan == l.pan
            && time < time + v.attack + v.decay < v.stopTime == time + v.attack + v.decay + Release
  {
  }

  lemma MulAtLeast(b: int, d: int)
    requires b >= 1 && d >= 1
    ensures b * d >= b
  {
    assert b * d == b * (d - 1) + b;
  }

  /** Euclidean division is unique. */
  lemma DivModUnique(x: int, b: int, q: int, r: int)
    requires b >= 1 && x == b * q + r && 0 <= r < b
    ensures x / b == q && x % b == r
  {
    var q', r' := x / b, x % b;
    assert x == b * q' + r';
    if q' > q {
      assert b * q' - b * q == b * (q' - q);
      MulAtLeast(b, q' - q);
    } else if q' < q {
      assert b * q - b * q' == b * (q - q');
      MulAtLeast(b, q - q');
    }
  }

  /** The accent repeats every `beats` events: events `k` and `k + m·beats`
      sound alike, whatever the layer's speed. */
  lemma AccentPeriodic(l: RhythmLayer, t: real, t': real, k: int, m: int, speed: real)
    requires l.beats >= 1
    ensures var v, w := PlayOscillator(l, t, k), PlayOscillator(l.(speed := speed), t', k + m * l.beats);
            v.accented == w.accented && v.frequency == w.frequency && v.waveform == w.waveform
            && v.velocity == w.velocity && v.decay == w.decay
  {
    var b := l.beats;
    assert k == b * (k / b) + k % b;
    assert k + m * b == b * (k / b + m) + k % b;
    DivModUnique(k + m * b, b, k / b + m, k % b);
  }

  /** Every run of `beats` consecutive events holds an accented one. */
  lemma AccentInEveryBar(l: RhythmLayer, t: real, k0: int)
    requires l.beats >= 1
    ensures var w := k0 + (l.beats - k0 % l.beats) % l.beats;
            k0 <= w < k0 + l.beats && PlayOscillator(l, t, w).accented
  {
    var b := l.beats;
    var r := k0 % b;
    assert k0 == b * (k0 / b) + r;
    if r == 0 {
      DivModUnique(b - r, b, 1, 0);
      DivModUnique(k0, b, k0 / b, 0);
    } else {
      DivModUnique(b - r, b, 0, b - r);
      assert k0 + (b - r) == b * (k0 / b + 1) + 0;
      DivModUnique(k0 + (b - r), b, k0 / b + 1, 0);
    }
  }

  /** ... and only one: two accented events less than `beats` apart are the same event. */
  lemma AccentAtMostOncePerBar(l: RhythmLayer, t: real, i: int, j: int)
    requires l.beats >= 1
    requires i <= j < i + l.beats
    requires PlayOscillator(l, t, i).accented && PlayOscillator(l, t, j).accented
    ensures i == j
  {
    var b := l.beats;
    var qi, qj := i / b, j / b;
    assert i == b * qi && j == b * qj;
    if qi < qj {
      assert b * qj - b * qi == b * (qj - qi);
      MulAtLeast(b, qj - qi);
    } else if qj < qi {
      assert b * qi - b * qj == b * (qi - qj);
      MulAtLeast(b, qi - qj);
    }
  }

  // ---------------------------------------------------------------------
  // One look-ahead pass

  /** An unmuted event sounds unless it is more than the tolerance stale. */
  predicate Audible(l: RhythmLayer, time: real, now: real)
    ensures Audible(l, time, now) ==> !l.mute
    ensures !l.mute && time >= now ==> Audible(l, time, now)
  {
    !l.mute && time >= now - StaleTolerance
  }

  /** The voice an event triggers: one if it is audible, none otherwise. */
  function Sound(l: RhythmLayer, e: Event, now: real): (vs: seq<Voice>)
    requires l.beats >= 1
    ensures |vs| <= 1
    ensures |vs| == 1 <==> Audible(l, e.time, now)
    ensures |vs| == 1 ==> vs[0] == PlayOscillator(l, e.time, e.index)
  {
    if Audible(l, e.time, now) then [PlayOscillator(l, e.time, e.index)] else []
  }

  /** The voices a run of events triggers, oldest first. */
  function Emit(l: RhythmLayer, evs: seq<Event>, now: real): (vs: seq<Voice>)
    requires l.beats >= 1
    ensures |vs| <= |evs|
  {
    if evs == [] then [] else Sound(l, evs[0], now) + Emit(l, evs[1..], now)
  }

  /** Where a layer's events resume in this pass: its stored phase, or
      the join point if its id has no entry. A missing index reads as 0. */
  function LayerStart(p: Phases, l: RhythmLayer, now: real, cycleStart: real, tempo: real): (e: Event)
    requires tempo > 0.0 && WellFormed(l)
    ensures l.id in p.times ==> e.time == p.times[l.id]
    ensures l.id in p.times && l.id in p.counts ==> e.index == p.counts[l.id]
    ensures l.id in p.times && l.id !in p.counts ==> e.index == 0
    ensures l.id !in p.times ==> now < e.time <= now + BeatDuration(tempo, l) && e.index >= 1
  {
    if l.id in p.times then Event(p.times[l.id], if l.id in p.counts then p.counts[l.id] else 0)
    else JoinPoint(now, cycleStart, CycleDuration(tempo), BeatDuration(tempo, l))
  }

  datatype PassResult = PassResult(phases: Phases, voices: seq<Voice>)

  /** A layer's events from `s` on, one beat `bd` apart: every event
      before the look-ahead window's end is taken (and sounds if audible),
      and the layer's phase is stored just past the window. */
  function Advance(p: Phases, l: RhythmLayer, s: Event, bd: real, now: real): (r: PassResult)
    requires bd > 0.0 && l.beats >= 1 && Consistent(p)
    ensures Consistent(r.phases)
  {
    var n := StepCount(s.time, bd, now + ScheduleAheadTime);
    var e := After(s, bd, n);
    PassResult(Phases(p.times[l.id := e.time], p.counts[l.id := e.index]), Emit(l, Ticks(s, bd, n), now))
  }

  /** One layer's share of a pass: it resumes where it stopped, or at its
      join point, and never moves back. */
  function LayerPass(p: Phases, l: RhythmLayer, now: real, cycleStart: real, tempo: real): (r: PassResult)
    requires tempo > 0.0 && WellFormed(l) && Consistent(p)
    ensures Consistent(r.phases)
  {
    Advance(p, l, LayerStart(p, l, now, cycleStart, tempo), BeatDuration(tempo, l), now)
  }

  /** A whole pass: the layers in list order, each seeing the phases the
      earlier ones left (so a repeated id continues where it stopped). */
  function Pass(p: Phases, ls: seq<RhythmLayer>, now: real, cycleStart: real, tempo: real): (r: PassResult)
    requires tempo > 0.0 && AllWellFormed(ls) && Consistent(p)
    ensures Consistent(r.phases)
    decreases |ls|
  {
    if ls == [] then PassResult(p, [])
    else
      var r0 := Pass(p, ls[..|ls| - 1], now, cycleStart, tempo);
      var r1 := LayerPass(r0.phases, ls[|ls| - 1], now, cycleStart, tempo);
      PassResult(r1.phases, r0.voices + r1.voices)
  }

  /** The phases a start call leaves, adding the layers in list order:
      every listed layer at the cycle origin with index 0, and nothing
      else. */
  function StartPhases(ls: seq<RhythmLayer>, cycleStart: real): (p: Phases)
    ensures Consistent(p)
    decreases |ls|
  {
    if ls == [] then Phases(map[], map[])
    else
      var q := StartPhases(ls[..|ls| - 1], cycleStart);
      var l := ls[|ls| - 1];
      Phases(q.times[l.id := cycleStart], q.counts[l.id := 0])
  }

  /** Unwrapped cycle progress: elapsed time over the cycle length. */
  function CycleProgressAt(now: real, cycleStart: real, tempo: real): (progress: real)
    requires tempo > 0.0
    ensures progress * CycleDuration(tempo) == now - cycleStart
    ensures now == cycleStart ==> progress == 0.0
  {
    (now - cycleStart) / CycleDuration(tempo)
  }
}

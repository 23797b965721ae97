/** Properties of the look-ahead pass: what one layer's events look like,
    what a whole pass does to the phase maps, how layers join, and how
    the cycle-progress clock lines up with the audio events. */
module SchedulerProperties {
  import opened Layers
  import opened Scheduler

  // ---------------------------------------------------------------------
  // Events of one layer

  /** Every voice is an audible event of `l` on the grid that starts at
      `s` with step `bd`, among its first `n` events. */
  predicate OnGrid(vs: seq<Voice>, l: RhythmLayer, s: Event, bd: real, n: int, now: real)
    requires l.beats >= 1
  {
    forall i :: 0 <= i < |vs| ==>
      && s.index <= vs[i].beatIndex < s.index + n
      && vs[i].time == s.time + (vs[i].beatIndex - s.index) as real * bd
      && Audible(l, vs[i].time, now)
      && vs[i] == PlayOscillator(l, vs[i].time, vs[i].beatIndex)
  }

  /** Oldest first, with strictly increasing indices. */
  predicate Chronological(vs: seq<Voice>) {
    forall i, j :: 0 <= i < j < |vs| ==> vs[i].beatIndex < vs[j].beatIndex && vs[i].time < vs[j].time
  }

  /** A muted layer triggers no voice. */
  lemma {:induction false} EmitMuted(l: RhythmLayer, evs: seq<Event>, now: real)
    requires l.beats >= 1 && l.mute
    ensures Emit(l, evs, now) == []
  {
    if evs != [] {
      EmitMuted(l, evs[1..], now);
    }
  }

  /** Putting the sound of tick `s` before the voices of the ticks after
      it keeps the voices on the grid from `s`. */
  lemma OnGridCons(l: RhythmLayer, s: Event, bd: real, n: nat, now: real, rest: seq<Voice>)
    requires l.beats >= 1 && bd > 0.0 && n > 0
    requires OnGrid(rest, l, Next(s, bd), bd, n - 1, now)
    ensures OnGrid(Sound(l, s, now) + rest, l, s, bd, n, now)
  {
    var head := Sound(l, s, now);
    var vs := head + rest;
    forall i | 0 <= i < |vs|
      ensures s.index <= vs[i].beatIndex < s.index + n
      ensures vs[i].time == s.time + (vs[i].beatIndex - s.index) as real * bd
      ensures Audible(l, vs[i].time, now)
      ensures vs[i] == PlayOscillator(l, vs[i].time, vs[i].beatIndex)
    {
      if i >= |head| {
        var r := rest[i - |head|];
        assert vs[i] == r;
        var k := r.beatIndex - s.index;
        assert s.index + 1 <= r.beatIndex < s.index + 1 + (n - 1);
        assert r.time == (s.time + bd) + (r.beatIndex - (s.index + 1)) as real * bd;
        assert (s.time + bd) + (k - 1) as real * bd == s.time + k as real * bd;
      } else {
        assert vs[i] == PlayOscillator(l, s.time, s.index);
      }
    }
    assert OnGrid(vs, l, s, bd, n, now);
  }

  /** ... and oldest first. */
  lemma ChronologicalCons(l: RhythmLayer, s: Event, bd: real, n: nat, now: real, rest: seq<Voice>)
    requires l.beats >= 1 && bd > 0.0 && n > 0
    requires OnGrid(rest, l, Next(s, bd), bd, n - 1, now) && Chronological(rest)
    ensures Chronological(Sound(l, s, now) + rest)
  {
    var head := Sound(l, s, now);
    var vs := head + rest;
    forall j | 0 <= j < |rest|
      ensures s.index < rest[j].beatIndex && s.time < rest[j].time
    {
      var k := rest[j].beatIndex - (s.index + 1);
      assert k as real * bd >= 0.0;
    }
    forall i, j | 0 <= i < j < |vs|
      ensures vs[i].beatIndex < vs[j].beatIndex && vs[i].time < vs[j].time
    {
      assert vs[j] == rest[j - |head|];
      if i >= |head| {
        assert vs[i] == rest[i - |head|];
      }
    }
  }

  /** The voices of a run of ticks are audible ticks on the layer's grid,
      oldest first. */
  lemma {:induction false} TicksEmitOnGrid(l: RhythmLayer, s: Event, bd: real, n: nat, now: real)
    requires l.beats >= 1 && bd > 0.0
    ensures OnGrid(Emit(l, Ticks(s, bd, n), now), l, s, bd, n, now)
    ensures Chronological(Emit(l, Ticks(s, bd, n), now))
    decreases n
  {
    if n > 0 {
      TicksEmitOnGrid(l, Next(s, bd), bd, n - 1, now);
      var evs := Ticks(s, bd, n);
      assert evs[0] == s && evs[1..] == Ticks(Next(s, bd), bd, n - 1);
      var rest := Emit(l, Ticks(Next(s, bd), bd, n - 1), now);
      OnGridCons(l, s, bd, n, now, rest);
      ChronologicalCons(l, s, bd, n, now, rest);
    }
  }

  /** Voice `i` is event `s.index + i` at `s.time + i·bd`, for each of
      the first `n` events. */
  predicate EveryTick(vs: seq<Voice>, l: RhythmLayer, s: Event, bd: real, n: nat)
    requires l.beats >= 1
  {
    |vs| == n && forall i :: 0 <= i < n ==> vs[i] == PlayOscillator(l, s.time + i as real * bd, s.index + i)
  }

  lemma EveryTickCons(l: RhythmLayer, s: Event, bd: real, n: nat, now: real, rest: seq<Voice>)
    requires l.beats >= 1 && bd > 0.0 && n > 0
    requires !l.mute && s.time >= now - StaleTolerance
    requires EveryTick(rest, l, Next(s, bd), bd, n - 1)
    ensures EveryTick(Sound(l, s, now) + rest, l, s, bd, n)
  {
    var vs := Sound(l, s, now) + rest;
    assert Sound(l, s, now) == [PlayOscillator(l, s.time, s.index)];
    forall i | 0 <= i < n
      ensures vs[i] == PlayOscillator(l, s.time + i as real * bd, s.index + i)
    {
      if i > 0 {
        assert vs[i] == rest[i - 1];
        assert s.time + bd + (i - 1) as real * bd == s.time + i as real * bd;
      }
    }
  }

  /** When the layer is unmuted and its first tick is not stale, every
      tick sounds. */
  lemma {:induction false} TicksEmitAll(l: RhythmLayer, s: Event, bd: real, n: nat, now: real)
    requires l.beats >= 1 && bd > 0.0
    requires !l.mute && s.time >= now - StaleTolerance
    ensures EveryTick(Emit(l, Ticks(s, bd, n), now), l, s, bd, n)
    decreases n
  {
    if n > 0 {
      TicksEmitAll(l, Next(s, bd), bd, n - 1, now);
      var evs := Ticks(s, bd, n);
      assert evs[0] == s && evs[1..] == Ticks(Next(s, bd), bd, n - 1);
      EveryTickCons(l, s, bd, n, now, Emit(l, Ticks(Next(s, bd), bd, n - 1), now));
    }
  }

  /** Every audible event of a run sounds, wherever it stands in the run:
      stale or muted events before it do not stop it. */
  lemma {:induction false} EmitHas(l: RhythmLayer, evs: seq<Event>, now: real, i: nat)
    requires l.beats >= 1 && i < |evs| && Audible(l, evs[i].time, now)
    ensures PlayOscillator(l, evs[i].time, evs[i].index) in Emit(l, evs, now)
    decreases i
  {
    if i > 0 {
      assert evs[1..][i - 1] == evs[i];
      EmitHas(l, evs[1..], now, i - 1);
    }
  }

  /** In a run that starts with stale events (a backlog after a stall),
      each event that is audible still sounds: event `i` of the run,
      `i` beats after the first, with index `s.index + i`. */
  lemma EmitComplete(l: RhythmLayer, s: Event, bd: real, n: nat, now: real, i: nat)
    requires l.beats >= 1 && i < n && Audible(l, s.time + i as real * bd, now)
    ensures PlayOscillator(l, s.time + i as real * bd, s.index + i) in Emit(l, Ticks(s, bd, n), now)
  {
    TicksAt(s, bd, n, i);
    EmitHas(l, Ticks(s, bd, n), now, i);
  }

  /** Voices on the grid of the first `StepCount` ticks lie between the
      first tick and the window's end. */
  lemma GridInWindow(vs: seq<Voice>, l: RhythmLayer, s: Event, bd: real, now: real)
    requires l.beats >= 1 && bd > 0.0
    requires OnGrid(vs, l, s, bd, StepCount(s.time, bd, now + ScheduleAheadTime), now)
    ensures forall i :: 0 <= i < |vs| ==> s.time <= vs[i].time < now + ScheduleAheadTime
  {
    forall i | 0 <= i < |vs|
      ensures s.time <= vs[i].time < now + ScheduleAheadTime
    {
      var k := vs[i].beatIndex - s.index;
      BeforeWindow(s.time, bd, now + ScheduleAheadTime, k);
      assert k as real * bd >= 0.0;
    }
  }

  /** An advance moves a layer's time and index in lock step, one beat
      per event. */
  lemma AdvanceLockStep(p: Phases, l: RhythmLayer, s: Event, bd: real, now: real)
    requires bd > 0.0 && l.beats >= 1 && Consistent(p)
    ensures Advance(p, l, s, bd, now).phases.times[l.id]
            == s.time + (Advance(p, l, s, bd, now).phases.counts[l.id] - s.index) as real * bd
  {
    var n := StepCount(s.time, bd, now + ScheduleAheadTime);
    AfterAt(s, bd, n);
    assert Advance(p, l, s, bd, now).phases.counts[l.id] - s.index == n;
  }

  /** The voices of an advance from `s` with beat `bd` are audible events
      on its grid, among the events it steps over, between `s` and the
      window's end, oldest first. */
  lemma AdvanceVoices(p: Phases, l: RhythmLayer, s: Event, bd: real, now: real)
    requires bd > 0.0 && l.beats >= 1 && Consistent(p)
    ensures OnGrid(Advance(p, l, s, bd, now).voices, l, s, bd,
                   Advance(p, l, s, bd, now).phases.counts[l.id] - s.index, now)
    ensures Chronological(Advance(p, l, s, bd, now).voices)
    ensures forall i :: 0 <= i < |Advance(p, l, s, bd, now).voices| ==>
              s.time <= Advance(p, l, s, bd, now).voices[i].time < now + ScheduleAheadTime
  {
    var n := StepCount(s.time, bd, now + ScheduleAheadTime);
    var vs := Advance(p, l, s, bd, now).voices;
    AfterAt(s, bd, n);
    assert Advance(p, l, s, bd, now).phases.counts[l.id] - s.index == n;
    assert vs == Emit(l, Ticks(s, bd, n), now);
    TicksEmitOnGrid(l, s, bd, n, now);
    GridInWindow(vs, l, s, bd, now);
  }

  /** With nothing stale and the layer unmuted, the advance sounds every
      event it takes: consecutive indices, exactly one beat apart. */
  lemma AdvanceComplete(p: Phases, l: RhythmLayer, s: Event, bd: real, now: real)
    requires bd > 0.0 && l.beats >= 1 && Consistent(p)
    requires !l.mute && s.time >= now - StaleTolerance
    ensures Advance(p, l, s, bd, now).phases.counts[l.id] >= s.index
    ensures EveryTick(Advance(p, l, s, bd, now).voices, l, s, bd,
                      Advance(p, l, s, bd, now).phases.counts[l.id] - s.index)
  {
    var n := StepCount(s.time, bd, now + ScheduleAheadTime);
    AfterAt(s, bd, n);
    assert Advance(p, l, s, bd, now).voices == Emit(l, Ticks(s, bd, n), now);
    TicksEmitAll(l, s, bd, n, now);
  }

  /** One layer's pass, spelled out: from where it resumes, `StepCount`
      events one beat apart. */
  lemma LayerPassSteps(p: Phases, l: RhythmLayer, now: real, cycleStart: real, tempo: real)
    requires tempo > 0.0 && WellFormed(l) && Consistent(p)
    ensures var s := LayerStart(p, l, now, cycleStart, tempo);
            var bd := BeatDuration(tempo, l);
            var n := StepCount(s.time, bd, now + ScheduleAheadTime);
            LayerPass(p, l, now, cycleStart, tempo)
            == PassResult(Phases(p.times[l.id := After(s, bd, n).time], p.counts[l.id := After(s, bd, n).index]),
                          Emit(l, Ticks(s, bd, n), now))
  {
  }

  /** One iteration of a layer's loop: an event `e` before the window
      sounds first, and the rest of the pass continues from `Next(e)`
      with one step fewer, reaching the same end. */
  lemma StepBeforeWindow(l: RhythmLayer, e: Event, bd: real, window: real, now: real)
    requires l.beats >= 1 && bd > 0.0 && e.time < window
    ensures StepCount(e.time, bd, window) >= 1
    ensures StepCount(Next(e, bd).time, bd, window) == StepCount(e.time, bd, window) - 1
    ensures Emit(l, Ticks(e, bd, StepCount(e.time, bd, window)), now)
            == Sound(l, e, now) + Emit(l, Ticks(Next(e, bd), bd, StepCount(Next(e, bd).time, bd, window)), now)
    ensures After(e, bd, StepCount(e.time, bd, window))
            == After(Next(e, bd), bd, StepCount(Next(e, bd).time, bd, window))
  {
    StepCountNext(e.time, bd, window);
    var m := StepCount(e.time, bd, window);
    assert Ticks(e, bd, m) == [e] + Ticks(Next(e, bd), bd, m - 1);
    assert Ticks(e, bd, m)[1..] == Ticks(Next(e, bd), bd, m - 1);
  }

  /** One turn of the stepping loop keeps its bookkeeping: what was
      emitted so far, the current event's sound and what the rest of the
      window emits add up to the layer's whole emission, and the layer
      still ends where it would have. */
  lemma StepKeeps(l: RhythmLayer, s: Event, n: nat, acc: seq<Voice>, e: Event, bd: real, window: real, now: real)
    requires l.beats >= 1 && bd > 0.0 && e.time < window
    requires acc + Emit(l, Ticks(e, bd, StepCount(e.time, bd, window)), now) == Emit(l, Ticks(s, bd, n), now)
    requires After(e, bd, StepCount(e.time, bd, window)) == After(s, bd, n)
    ensures StepCount(Next(e, bd).time, bd, window) < StepCount(e.time, bd, window)
    ensures (acc + Sound(l, e, now)) + Emit(l, Ticks(Next(e, bd), bd, StepCount(Next(e, bd).time, bd, window)), now)
            == Emit(l, Ticks(s, bd, n), now)
    ensures After(Next(e, bd), bd, StepCount(Next(e, bd).time, bd, window)) == After(s, bd, n)
  {
    StepBeforeWindow(l, e, bd, window, now);
    var rest := Emit(l, Ticks(Next(e, bd), bd, StepCount(Next(e, bd).time, bd, window)), now);
    assert acc + (Sound(l, e, now) + rest) == (acc + Sound(l, e, now)) + rest;
  }

  /** Once the event reaches the window's end the loop stops: nothing
      is left to emit and the layer stays where it is. */
  lemma StepsDone(l: RhythmLayer, e: Event, bd: real, window: real, now: real)
    requires l.beats >= 1 && bd > 0.0 && e.time >= window
    ensures Emit(l, Ticks(e, bd, StepCount(e.time, bd, window)), now) == []
    ensures After(e, bd, StepCount(e.time, bd, window)) == e
  {
  }

  /** Muting changes nothing about a layer's phase: a muted layer
      advances its time and index exactly as the unmuted one would, and
      triggers no voice. */
  lemma LayerMuted(p: Phases, l: RhythmLayer, now: real, cycleStart: real, tempo: real)
    requires tempo > 0.0 && WellFormed(l) && Consistent(p)
    ensures LayerPass(p, l.(mute := true), now, cycleStart, tempo).phases
            == LayerPass(p, l.(mute := false), now, cycleStart, tempo).phases
    ensures LayerPass(p, l.(mute := true), now, cycleStart, tempo).voices == []
  {
    var m, u := l.(mute := true), l.(mute := false);
    var s := LayerStart(p, m, now, cycleStart, tempo);
    var bd := BeatDuration(tempo, m);
    assert EffectiveBeats(m) == EffectiveBeats(u);
    assert bd == BeatDuration(tempo, u);
    assert s == LayerStart(p, u, now, cycleStart, tempo);
    EmitMuted(m, Ticks(s, bd, StepCount(s.time, bd, now + ScheduleAheadTime)), now);
  }

  /** An advance writes the layer's own entry and no other: the entry
      ends at or past the window's end, never before where it resumed. */
  lemma AdvanceFrame(p: Phases, l: RhythmLayer, s: Event, bd: real, now: real)
    requires bd > 0.0 && l.beats >= 1 && Consistent(p)
    ensures Advance(p, l, s, bd, now).phases.times.Keys == p.times.Keys + {l.id}
    ensures s.time <= Advance(p, l, s, bd, now).phases.times[l.id]
    ensures s.index <= Advance(p, l, s, bd, now).phases.counts[l.id]
    ensures Advance(p, l, s, bd, now).phases.times[l.id] >= now + ScheduleAheadTime
    ensures forall id :: id in p.times && id != l.id ==>
              && Advance(p, l, s, bd, now).phases.times[id] == p.times[id]
              && Advance(p, l, s, bd, now).phases.counts[id] == p.counts[id]
  {
    var n := StepCount(s.time, bd, now + ScheduleAheadTime);
    AfterAt(s, bd, n);
    assert n as real * bd >= 0.0;
  }

  /** One layer's share of a pass writes that layer's entry and no
      other; the entry ends at or past the window's end and never moves
      back. */
  lemma LayerPassFrame(p: Phases, l: RhythmLayer, now: real, cycleStart: real, tempo: real)
    requires tempo > 0.0 && WellFormed(l) && Consistent(p)
    ensures LayerPass(p, l, now, cycleStart, tempo).phases.times.Keys == p.times.Keys + {l.id}
    ensures LayerPass(p, l, now, cycleStart, tempo).phases.times[l.id] >= now + ScheduleAheadTime
    ensures l.id in p.times ==> LayerPass(p, l, now, cycleStart, tempo).phases.times[l.id] >= p.times[l.id]
    ensures forall id :: id in p.times && id != l.id ==>
              && LayerPass(p, l, now, cycleStart, tempo).phases.times[id] == p.times[id]
              && LayerPass(p, l, now, cycleStart, tempo).phases.counts[id] == p.counts[id]
  {
    AdvanceFrame(p, l, LayerStart(p, l, now, cycleStart, tempo), BeatDuration(tempo, l), now);
  }

  // ---------------------------------------------------------------------
  // A whole pass

  /** A pass over one more layer is the pass over the shorter list
      followed by that layer's share. */
  lemma PassSnoc(p: Phases, ls: seq<RhythmLayer>, j: nat, now: real, cycleStart: real, tempo: real)
    requires tempo > 0.0 && AllWellFormed(ls) && Consistent(p) && j < |ls|
    ensures Pass(p, ls[..j + 1], now, cycleStart, tempo)
            == PassResult(
                 LayerPass(Pass(p, ls[..j], now, cycleStart, tempo).phases, ls[j], now, cycleStart, tempo).phases,
                 Pass(p, ls[..j], now, cycleStart, tempo).voices
                   + LayerPass(Pass(p, ls[..j], now, cycleStart, tempo).phases, ls[j], now, cycleStart, tempo).voices)
  {
    assert ls[..j + 1][..j] == ls[..j];
  }

  /** After a pass every listed layer's next time lies at or past the
      window's end. */
  lemma {:induction false} PassWindow(p: Phases, ls: seq<RhythmLayer>, now: real, cycleStart: real, tempo: real)
    requires tempo > 0.0 && AllWellFormed(ls) && Consistent(p)
    ensures forall i :: 0 <= i < |ls| ==>
              && ls[i].id in Pass(p, ls, now, cycleStart, tempo).phases.times
              && Pass(p, ls, now, cycleStart, tempo).phases.times[ls[i].id] >= now + ScheduleAheadTime
    decreases |ls|
  {
    if ls != [] {
      var k := |ls| - 1;
      PassWindow(p, ls[..k], now, cycleStart, tempo);
      var r0 := Pass(p, ls[..k], now, cycleStart, tempo);
      LayerPassFrame(r0.phases, ls[k], now, cycleStart, tempo);
      var r := Pass(p, ls, now, cycleStart, tempo);
      assert r.phases == LayerPass(r0.phases, ls[k], now, cycleStart, tempo).phases;
      forall i | 0 <= i < |ls|
        ensures ls[i].id in r.phases.times && r.phases.times[ls[i].id] >= now + ScheduleAheadTime
      {
        if i < k && ls[i].id != ls[k].id {
          assert ls[..k][i] == ls[i];
        }
      }
    }
  }

  /** A pass never moves a stored next time backwards. */
  lemma {:induction false} PassMonotone(p: Phases, ls: seq<RhythmLayer>, now: real, cycleStart: real, tempo: real)
    requires tempo > 0.0 && AllWellFormed(ls) && Consistent(p)
    ensures forall id :: id in p.times ==>
              && id in Pass(p, ls, now, cycleStart, tempo).phases.times
              && Pass(p, ls, now, cycleStart, tempo).phases.times[id] >= p.times[id]
    decreases |ls|
  {
    if ls != [] {
      PassMonotone(p, ls[..|ls| - 1], now, cycleStart, tempo);
      LayerPassFrame(Pass(p, ls[..|ls| - 1], now, cycleStart, tempo).phases, ls[|ls| - 1], now, cycleStart, tempo);
    }
  }

  /** A pass neither creates, drops nor changes the entry of an id that
      is not in its layer list: phase entries of removed layers stay. */
  lemma {:induction false} PassFrame(p: Phases, ls: seq<RhythmLayer>, now: real, cycleStart: real, tempo: real, id: string)
    requires tempo > 0.0 && AllWellFormed(ls) && Consistent(p)
    requires forall i :: 0 <= i < |ls| ==> ls[i].id != id
    ensures id in Pass(p, ls, now, cycleStart, tempo).phases.times <==> id in p.times
    ensures id in p.times ==>
              && Pass(p, ls, now, cycleStart, tempo).phases.times[id] == p.times[id]
              && Pass(p, ls, now, cycleStart, tempo).phases.counts[id] == p.counts[id]
    decreases |ls|
  {
    if ls != [] {
      PassFrame(p, ls[..|ls| - 1], now, cycleStart, tempo, id);
      LayerPassFrame(Pass(p, ls[..|ls| - 1], now, cycleStart, tempo).phases, ls[|ls| - 1], now, cycleStart, tempo);
    }
  }

  /** Two phase values agree on a set of ids: each id has an entry in
      one exactly when it has one in the other, and the same one. */
  predicate AgreeOn(p: Phases, q: Phases, ids: set<string>) {
    forall id :: id in ids ==>
      && (id in p.times <==> id in q.times) && (id in p.counts <==> id in q.counts)
      && (id in p.times && id in q.times ==> p.times[id] == q.times[id])
      && (id in p.counts && id in q.counts ==> p.counts[id] == q.counts[id])
  }

  /** One layer's share of a pass reads only that layer's own entry. */
  lemma LayerPassAgree(p: Phases, q: Phases, l: RhythmLayer, now: real, cycleStart: real, tempo: real, ids: set<string>)
    requires tempo > 0.0 && WellFormed(l) && Consistent(p) && Consistent(q)
    requires l.id in ids && AgreeOn(p, q, ids)
    ensures LayerPass(p, l, now, cycleStart, tempo).voices == LayerPass(q, l, now, cycleStart, tempo).voices
    ensures AgreeOn(LayerPass(p, l, now, cycleStart, tempo).phases, LayerPass(q, l, now, cycleStart, tempo).phases, ids)
  {
    assert LayerStart(p, l, now, cycleStart, tempo) == LayerStart(q, l, now, cycleStart, tempo);
  }

  /** What a pass schedules and how it moves the listed layers depends
      only on the entries of the listed ids: the entries the code never
      drops for removed layers have no effect on later passes. */
  lemma {:induction false} PassIgnoresUnlisted(p: Phases, q: Phases, ls: seq<RhythmLayer>, now: real, cycleStart: real,
                                               tempo: real, ids: set<string>)
    requires tempo > 0.0 && AllWellFormed(ls) && Consistent(p) && Consistent(q)
    requires forall i :: 0 <= i < |ls| ==> ls[i].id in ids
    requires AgreeOn(p, q, ids)
    ensures Pass(p, ls, now, cycleStart, tempo).voices == Pass(q, ls, now, cycleStart, tempo).voices
    ensures AgreeOn(Pass(p, ls, now, cycleStart, tempo).phases, Pass(q, ls, now, cycleStart, tempo).phases, ids)
    decreases |ls|
  {
    if ls != [] {
      var k := |ls| - 1;
      var pre := ls[..k];
      assert forall i :: 0 <= i < |pre| ==> pre[i] == ls[i];
      PassIgnoresUnlisted(p, q, pre, now, cycleStart, tempo, ids);
      LayerPassAgree(Pass(p, pre, now, cycleStart, tempo).phases, Pass(q, pre, now, cycleStart, tempo).phases,
                     ls[k], now, cycleStart, tempo, ids);
    }
  }

  /** A pass over layers that are all already scheduled past the window
      does nothing. */
  lemma {:induction false} PassSettled(p: Phases, ls: seq<RhythmLayer>, now: real, cycleStart: real, tempo: real)
    requires tempo > 0.0 && AllWellFormed(ls) && Consistent(p)
    requires forall i :: 0 <= i < |ls| ==> ls[i].id in p.times && p.times[ls[i].id] >= now + ScheduleAheadTime
    ensures Pass(p, ls, now, cycleStart, tempo) == PassResult(p, [])
    decreases |ls|
  {
    if ls != [] {
      PassSettled(p, ls[..|ls| - 1], now, cycleStart, tempo);
      var l := ls[|ls| - 1];
      var s := LayerStart(p, l, now, cycleStart, tempo);
      var bd := BeatDuration(tempo, l);
      assert StepCount(s.time, bd, now + ScheduleAheadTime) == 0;
      assert p.times[l.id := s.time + 0 as real * bd] == p.times;
      assert p.counts[l.id := s.index + 0] == p.counts;
    }
  }

  /** A start call puts every listed layer at the cycle origin with
      index 0 ... */
  lemma {:induction false} StartPhasesListed(ls: seq<RhythmLayer>, cycleStart: real)
    ensures forall i :: 0 <= i < |ls| ==>
              && ls[i].id in StartPhases(ls, cycleStart).times
              && StartPhases(ls, cycleStart).times[ls[i].id] == cycleStart
              && StartPhases(ls, cycleStart).counts[ls[i].id] == 0
    decreases |ls|
  {
    if ls != [] {
      StartPhasesListed(ls[..|ls| - 1], cycleStart);
      forall i | 0 <= i < |ls| - 1
        ensures ls[..|ls| - 1][i] == ls[i]
      {
      }
    }
  }

  /** ... and keeps no other entry. */
  lemma {:induction false} StartPhasesOnlyListed(ls: seq<RhythmLayer>, cycleStart: real, id: string)
    requires id in StartPhases(ls, cycleStart).times
    ensures exists i :: 0 <= i < |ls| && ls[i].id == id
    decreases |ls|
  {
    var k := |ls| - 1;
    if ls[k].id != id {
      StartPhasesOnlyListed(ls[..k], cycleStart, id);
      var i :| 0 <= i < k && ls[..k][i].id == id;
      assert ls[i].id == id;
    }
  }

  /** A second pass at the same clock reading triggers nothing and
      changes nothing. */
  lemma PassIdempotent(p: Phases, ls: seq<RhythmLayer>, now: real, cycleStart: real, tempo: real)
    requires tempo > 0.0 && AllWellFormed(ls) && Consistent(p)
    ensures var r := Pass(p, ls, now, cycleStart, tempo);
            Pass(r.phases, ls, now, cycleStart, tempo) == PassResult(r.phases, [])
  {
    var r := Pass(p, ls, now, cycleStart, tempo);
    PassWindow(p, ls, now, cycleStart, tempo);
    PassSettled(r.phases, ls, now, cycleStart, tempo);
  }

  /** The pass a start call runs at once triggers nothing: every layer
      waits at the cycle origin, which is exactly the window's end. */
  lemma StartPassSilent(ls: seq<RhythmLayer>, now: real, tempo: real)
    requires tempo > 0.0 && AllWellFormed(ls)
    ensures var p := StartPhases(ls, now + StartDelay);
            Pass(p, ls, now, now + StartDelay, tempo) == PassResult(p, [])
  {
    StartPhasesListed(ls, now + StartDelay);
    PassSettled(StartPhases(ls, now + StartDelay), ls, now, now + StartDelay, tempo);
  }

  // ---------------------------------------------------------------------
  // Joining mid-session and the progress clock

  /** A worked example: cycle 4 s (tempo 15), 4 beats at speed 1,
      first seen 5.1 s after the origin: it joins at 6 s with index 2, and
      the pass leaves it waiting there. */
  lemma JoinExample(p: Phases, l: RhythmLayer, cycleStart: real)
    requires Consistent(p) && l.id !in p.times
    requires l.beats == 4 && l.speed == 1.0
    ensures LayerStart(p, l, cycleStart + 5.1, cycleStart, 15.0) == Event(cycleStart + 6.0, 2)
    ensures var r := LayerPass(p, l, cycleStart + 5.1, cycleStart, 15.0);
            r.phases.times[l.id] == cycleStart + 6.0 && r.phases.counts[l.id] == 2 && r.voices == []
  {
    assert CycleDuration(15.0) == 4.0;
    assert BeatDuration(15.0, l) == 1.0;
    assert 1.0 <= 5.1 / 4.0 < 2.0;
    assert ((cycleStart + 5.1 - cycleStart) / 4.0).Floor == 1;
    assert (cycleStart + 5.1 - (cycleStart + 1 as real * 4.0)) / 1.0 == 1.1;
    assert (1.1).Floor == 1;
    var s := LayerStart(p, l, cycleStart + 5.1, cycleStart, 15.0);
    assert s == Event(cycleStart + 6.0, 2);
    assert StepCount(s.time, 1.0, cycleStart + 5.1 + ScheduleAheadTime) == 0;
  }

  /** A joining layer lands on its own beat grid within the current
      cycle: the progress clock reads the current cycle number plus
      index/effectiveBeats at its join time. */
  lemma JoinProgress(now: real, cycleStart: real, tempo: real, l: RhythmLayer)
    requires tempo > 0.0 && WellFormed(l)
    ensures var e := JoinPoint(now, cycleStart, CycleDuration(tempo), BeatDuration(tempo, l));
            CycleProgressAt(e.time, cycleStart, tempo)
            == CycleProgressAt(now, cycleStart, tempo).Floor as real + e.index as real / EffectiveBeats(l)
  {
    var cd := CycleDuration(tempo);
    var bd := BeatDuration(tempo, l);
    var eb := EffectiveBeats(l);
    var e := JoinPoint(now, cycleStart, cd, bd);
    var cc := ((now - cycleStart) / cd).Floor as real;
    var k := e.index as real;
    assert e.time - cycleStart == cc * cd + k * bd;
    assert bd / cd == 1.0 / eb;
    assert (cc * cd + k * bd) / cd == cc + k * (bd / cd);
  }

  /** For a layer that started with the session, the progress clock
      reads exactly i/effectiveBeats at its i-th event: the visual and
      the audio clocks agree. */
  lemma TicksProgress(cycleStart: real, tempo: real, l: RhythmLayer, n: nat, i: nat)
    requires tempo > 0.0 && WellFormed(l) && i < n
    ensures var e := Ticks(Event(cycleStart, 0), BeatDuration(tempo, l), n)[i];
            e.index == i && CycleProgressAt(e.time, cycleStart, tempo) * EffectiveBeats(l) == i as real
  {
    var cd := CycleDuration(tempo);
    var bd := BeatDuration(tempo, l);
    var eb := EffectiveBeats(l);
    TicksAt(Event(cycleStart, 0), bd, n, i);
    assert (i as real * bd) / cd * eb == i as real * (bd * eb) / cd;
  }

  /** Progress examples at tempo 15 (a 4-second cycle): half a cycle
      after the origin it reads 0.5, and it is not wrapped after a full
      cycle. */
  lemma ProgressExample(cycleStart: real)
    ensures CycleProgressAt(cycleStart + 2.0, cycleStart, 15.0) == 0.5
    ensures CycleProgressAt(cycleStart + 6.0, cycleStart, 15.0) == 1.5
  {
    assert CycleDuration(15.0) == 4.0;
  }

  /** Two layers of 3 and 4 beats started together at tempo 15 sound at
      the same instant only on the first beat of the cycle. */
  lemma ThreeAgainstFour(cycleStart: real, a: RhythmLayer, b: RhythmLayer, i: nat, j: nat)
    requires a.beats == 3 && b.beats == 4 && a.speed == 1.0 && b.speed == 1.0
    requires i < 3 && j < 4
    requires Ticks(Event(cycleStart, 0), BeatDuration(15.0, a), 3)[i].time
          == Ticks(Event(cycleStart, 0), BeatDuration(15.0, b), 4)[j].time
    ensures i == 0 && j == 0
  {
    assert CycleDuration(15.0) == 4.0;
    assert BeatDuration(15.0, a) == 4.0 / 3.0;
    assert BeatDuration(15.0, b) == 1.0;
    TicksAt(Event(cycleStart, 0), 4.0 / 3.0, 3, i);
    TicksAt(Event(cycleStart, 0), 1.0, 4, j);
    assert i as real * (4.0 / 3.0) == j as real;
  }
}

/** The audio engine object: its transport flags, the cycle origin, the
    layer list, tempo and volume it was last given, and the two per-layer
    phase maps that a look-ahead pass reads and updates in place. The
    audio clock reading `now` is a parameter of every operation that
    reads it; each scheduled tone is returned as a `Voice` record. */
module Engine {
  import opened Layers
  import opened Scheduler
  import opened SchedulerProperties

  class AudioEngine {
    /** Whether the audio context (and its master gain node) exists. */
    var hasContext: bool
    /** The master gain node's target value, once the node exists. */
    var gain: real
    var isPlaying: bool
    /** Whether a re-run of the pass is pending on the timer. */
    var timerArmed: bool
    var cycleStartTime: real
    var currentRhythms: seq<RhythmLayer>
    /** Cycles per minute. */
    var currentTempo: real
    var currentMasterVol: real
    /** Next event time of each layer id seen since the last start. */
    var nextTimes: map<string, real>
    /** Index of that next event. */
    var beatCounts: map<string, int>

    /** Both maps are written together; the tempo and layers the pass
        divides by are positive; a session runs only on a live context,
        and exactly while its timer is pending; once the gain node exists
        its target is the last volume set. */
    ghost predicate Valid()
      reads this
    {
      && nextTimes.Keys == beatCounts.Keys
      && currentTempo > 0.0
      && AllWellFormed(currentRhythms)
      && (isPlaying ==> hasContext)
      && timerArmed == isPlaying
      && (hasContext ==> gain == currentMasterVol)
    }

    /** The two phase maps as one value. */
    function Phases(): (p: Scheduler.Phases)
      reads this
      ensures p.times == nextTimes && p.counts == beatCounts
    {
      Scheduler.Phases(nextTimes, beatCounts)
    }

    /** A fresh engine: no context yet, stopped, tempo 60, volume 0.5. */
    constructor()
      ensures Valid()
      ensures !hasContext && !isPlaying && !timerArmed
      ensures cycleStartTime == 0.0 && currentRhythms == []
      ensures currentTempo == 60.0 && currentMasterVol == 0.5
      ensures nextTimes == map[] && beatCounts == map[]
    {
      hasContext := false;
      gain := 0.0;
      isPlaying := false;
      timerArmed := false;
      cycleStartTime := 0.0;
      currentRhythms := [];
      currentTempo := 60.0;
      currentMasterVol := 0.5;
      nextTimes := map[];
      beatCounts := map[];
    }

    /** Creates the context on first use, its gain set to the current
        master volume; later calls change nothing. */
    method Init()
      requires Valid()
      modifies this`hasContext, this`gain
      ensures Valid() && hasContext
      ensures gain == if old(hasContext) then old(gain) else currentMasterVol
    {
      if !hasContext {
        hasContext := true;
        gain := currentMasterVol;
      }
    }

    method SetRhythms(rhythms: seq<RhythmLayer>)
      requires Valid() && AllWellFormed(rhythms)
      modifies this`currentRhythms
      ensures Valid() && currentRhythms == rhythms
    {
      currentRhythms := rhythms;
    }

    method SetTempo(bpm: real)
      requires Valid() && bpm > 0.0
      modifies this`currentTempo
      ensures Valid() && currentTempo == bpm
    {
      currentTempo := bpm;
    }

    /** Records the volume and, once the gain node exists, makes it the
        gain's target. */
    method SetVolume(vol: real)
      requires Valid()
      modifies this`currentMasterVol, this`gain
      ensures Valid() && currentMasterVol == vol
      ensures gain == if hasContext then vol else old(gain)
    {
      currentMasterVol := vol;
      if hasContext {
        gain := vol;
      }
    }

    /** Starts a session (returning what its first pass schedules) or
        stops one: the flag drops and the pending re-run is cancelled.
        A start reads the clock twice: `now` for the reset, `passNow` for
        its first pass. */
    method TogglePlay(play: bool, now: real, passNow: real) returns (voices: seq<Voice>)
      requires Valid()
      modifies this`hasContext, this`gain, this`isPlaying, this`timerArmed
      modifies this`nextTimes, this`beatCounts, this`cycleStartTime
      ensures Valid() && isPlaying == play
      ensures play ==> hasContext && gain == currentMasterVol && cycleStartTime == now + StartDelay
      ensures play ==> Phases() == Pass(StartPhases(currentRhythms, cycleStartTime), currentRhythms,
                                        passNow, cycleStartTime, currentTempo).phases
      ensures play ==> voices == Pass(StartPhases(currentRhythms, cycleStartTime), currentRhythms,
                                      passNow, cycleStartTime, currentTempo).voices
      ensures play && passNow == now ==> Phases() == StartPhases(currentRhythms, cycleStartTime) && voices == []
      ensures !play ==> !timerArmed && voices == [] && hasContext == old(hasContext) && gain == old(gain)
      ensures !play ==> Phases() == old(Phases()) && cycleStartTime == old(cycleStartTime)
    {
      if play {
        voices := StartPolyrhythmScheduler(now, passNow);
      } else {
        isPlaying := false;
        if timerArmed {
          timerArmed := false;
        }
        voices := [];
      }
    }

    /** The cycle count elapsed since the origin, unwrapped; 0 while
        stopped. */
    function CycleProgress(now: real): (progress: real)
      reads this
      requires Valid()
      ensures !hasContext || !isPlaying ==> progress == 0.0
      ensures hasContext && isPlaying ==> progress * CycleDuration(currentTempo) == now - cycleStartTime
    {
      if !hasContext || !isPlaying then 0.0 else CycleProgressAt(now, cycleStartTime, currentTempo)
    }

    /** Clears both maps and puts every current layer at the new cycle
        origin, 0.1 s after `now`, with index 0. */
    method ResetRhythmTracking(now: real)
      requires Valid() && hasContext
      modifies this`nextTimes, this`beatCounts, this`cycleStartTime
      ensures Valid()
      ensures cycleStartTime == now + StartDelay
      ensures Phases() == StartPhases(currentRhythms, cycleStartTime)
    {
      nextTimes := map[];
      beatCounts := map[];
      var startTime := now + StartDelay;
      cycleStartTime := startTime;
      var i := 0;
      while i < |currentRhythms|
        invariant 0 <= i <= |currentRhythms|
        invariant cycleStartTime == startTime
        invariant Phases() == StartPhases(currentRhythms[..i], startTime)
      {
        var r := currentRhythms[i];
        ghost var q := StartPhases(currentRhythms[..i], startTime);
        assert currentRhythms[..i + 1][..i] == currentRhythms[..i];
        assert StartPhases(currentRhythms[..i + 1], startTime)
               == Scheduler.Phases(q.times[r.id := startTime], q.counts[r.id := 0]);
        nextTimes := nextTimes[r.id := startTime];
        beatCounts := beatCounts[r.id := 0];
        i := i + 1;
      }
      assert currentRhythms[..i] == currentRhythms;
      assert Consistent(Phases());
    }

    /** Starts a session: context created if needed, playing, phases
        reset at clock reading `now`, and one pass run at once at clock
        reading `passNow`. When both readings agree that pass schedules
        nothing, since every layer waits exactly at the window's end;
        when the clock has moved on in between, the origin's events fall
        inside the window and are scheduled by it. */
    method StartPolyrhythmScheduler(now: real, passNow: real) returns (voices: seq<Voice>)
      requires Valid()
      modifies this`hasContext, this`gain, this`isPlaying, this`timerArmed
      modifies this`nextTimes, this`beatCounts, this`cycleStartTime
      ensures Valid() && hasContext && isPlaying && timerArmed
      ensures gain == currentMasterVol
      ensures old(hasContext) ==> gain == old(gain)
      ensures cycleStartTime == now + StartDelay
      ensures Phases() == Pass(StartPhases(currentRhythms, cycleStartTime), currentRhythms,
                               passNow, cycleStartTime, currentTempo).phases
      ensures voices == Pass(StartPhases(currentRhythms, cycleStartTime), currentRhythms,
                             passNow, cycleStartTime, currentTempo).voices
      ensures passNow == now ==> Phases() == StartPhases(currentRhythms, cycleStartTime) && voices == []
    {
      if !hasContext {
        Init();
      }
      isPlaying := true;
      timerArmed := true;
      ResetRhythmTracking(now);
      voices := RunPolyScheduler(passNow);
      if passNow == now {
        StartPassSilent(currentRhythms, now, currentTempo);
      }
    }

    /** One look-ahead pass at clock reading `now`. While stopped it does
        nothing; otherwise it takes every layer's events before
        `now + 0.1`, leaves the maps as `Pass` describes, returns the
        voices it triggers and re-arms the timer. */
    method RunPolyScheduler(now: real) returns (voices: seq<Voice>)
      requires Valid()
      modifies this`nextTimes, this`beatCounts, this`timerArmed
      ensures Valid()
      ensures !old(isPlaying) ==> voices == [] && Phases() == old(Phases()) && timerArmed == old(timerArmed)
      ensures old(isPlaying) ==>
                && Phases() == Pass(old(Phases()), currentRhythms, now, cycleStartTime, currentTempo).phases
                && voices == Pass(old(Phases()), currentRhythms, now, cycleStartTime, currentTempo).voices
                && timerArmed
    {
      voices := [];
      if !isPlaying || !hasContext {
        return;
      }
      var window := now + ScheduleAheadTime;
      ghost var p0 := Phases();
      var j := 0;
      while j < |currentRhythms|
        invariant 0 <= j <= |currentRhythms|
        invariant timerArmed == old(timerArmed)
        invariant Pass(p0, currentRhythms[..j], now, cycleStartTime, currentTempo) == PassResult(Phases(), voices)
      {
        var rhythm := currentRhythms[j];
        PassSnoc(p0, currentRhythms, j, now, cycleStartTime, currentTempo);
        var vs := ScheduleLayer(rhythm, now, window);
        voices := voices + vs;
        j := j + 1;
      }
      assert currentRhythms[..j] == currentRhythms;
      timerArmed := true;
    }

    /** The body of the pass for one layer: resume its stored phase or
        join it, then step through its events before `window`, sounding
        the audible ones. */
    method ScheduleLayer(rhythm: RhythmLayer, now: real, window: real) returns (vs: seq<Voice>)
      requires Valid() && WellFormed(rhythm) && window == now + ScheduleAheadTime
      modifies this`nextTimes, this`beatCounts
      ensures nextTimes.Keys == beatCounts.Keys
      ensures Phases() == LayerPass(old(Phases()), rhythm, now, cycleStartTime, currentTempo).phases
      ensures vs == LayerPass(old(Phases()), rhythm, now, cycleStartTime, currentTempo).voices
    {
      ghost var p := Phases();
      var beatDuration := BeatDuration(currentTempo, rhythm);
      var nextTime: real;
      if rhythm.id !in nextTimes {
        var join := JoinPoint(now, cycleStartTime, CycleDuration(currentTempo), beatDuration);
        nextTime := join.time;
        nextTimes := nextTimes[rhythm.id := nextTime];
        beatCounts := beatCounts[rhythm.id := join.index];
      } else {
        nextTime := nextTimes[rhythm.id];
      }
      assert rhythm.id in beatCounts;
      var beatCount := if rhythm.id in beatCounts then beatCounts[rhythm.id] else 0;
      ghost var s := LayerStart(p, rhythm, now, cycleStartTime, currentTempo);
      assert Event(nextTime, beatCount) == s;
      ghost var e := After(s, beatDuration, StepCount(s.time, beatDuration, window));
      ghost var times1, counts1 := nextTimes, beatCounts;
      assert times1[rhythm.id := e.time] == p.times[rhythm.id := e.time];
      assert counts1[rhythm.id := e.index] == p.counts[rhythm.id := e.index];
      vs := StepThroughWindow(rhythm, nextTime, beatCount, beatDuration, now, window);
      LayerPassSteps(p, rhythm, now, cycleStartTime, currentTempo);
    }

    /** The while loop of a pass for one layer: from event `index` at
        `time`, while the event is before `window`, sound it if audible
        and step the layer's time by `bd` and its index by one, storing
        both in the maps. */
    method StepThroughWindow(rhythm: RhythmLayer, time: real, index: int, bd: real, now: real, window: real)
      returns (vs: seq<Voice>)
      requires WellFormed(rhythm) && bd > 0.0
      requires rhythm.id in nextTimes && nextTimes[rhythm.id] == time
      requires rhythm.id in beatCounts && beatCounts[rhythm.id] == index
      modifies this`nextTimes, this`beatCounts
      ensures nextTimes == old(nextTimes)[rhythm.id := After(Event(time, index), bd, StepCount(time, bd, window)).time]
      ensures beatCounts == old(beatCounts)[rhythm.id := After(Event(time, index), bd, StepCount(time, bd, window)).index]
      ensures vs == Emit(rhythm, Ticks(Event(time, index), bd, StepCount(time, bd, window)), now)
    {
      ghost var s, n := Event(time, index), StepCount(time, bd, window);
      ghost var times0, counts0 := nextTimes, beatCounts;
      var nextTime, beatCount := time, index;
      vs := [];
      while nextTime < window
        invariant nextTimes == times0[rhythm.id := nextTime]
        invariant beatCounts == counts0[rhythm.id := beatCount]
        invariant After(Event(nextTime, beatCount), bd, StepCount(nextTime, bd, window)) == After(s, bd, n)
        invariant vs + Emit(rhythm, Ticks(Event(nextTime, beatCount), bd, StepCount(nextTime, bd, window)), now)
                  == Emit(rhythm, Ticks(s, bd, n), now)
        decreases StepCount(nextTime, bd, window)
      {
        ghost var e := Event(nextTime, beatCount);
        StepKeeps(rhythm, s, n, vs, e, bd, window, now);
        ghost var vs0 := vs;
        if !rhythm.mute {
          if nextTime >= now - StaleTolerance {
            vs := vs + [PlayOscillator(rhythm, nextTime, beatCount)];
          }
        }
        assert vs == vs0 + Sound(rhythm, e, now);
        nextTime := nextTime + bd;
        beatCount := beatCount + 1;
        nextTimes := nextTimes[rhythm.id := nextTime];
        beatCounts := beatCounts[rhythm.id := beatCount];
      }
      StepsDone(rhythm, Event(nextTime, beatCount), bd, window, now);
    }
  }
}

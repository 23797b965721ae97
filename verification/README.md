# POLYARBOR polyrhythm scheduler: a Dafny model

POLYARBOR is a browser polyrhythm generator. The user stacks rhythm layers. Each layer has a beat count, a speed multiplier, a mute flag, a pitch, a volume and a pan. All layers share one master cycle, whose length is set by a tempo in cycles per minute.

This project models four parts of it:

- **The audio engine's look-ahead scheduler** (`services/audioEngine.ts`). It is a class whose methods update their fields in place, including two per-layer phase maps: next event time and event index.
  - A pass takes every event of every layer that falls before `now + 0.1` s.
  - It plays the audible events.
  - It stores each layer's phase just past the window.
  - A layer the engine has not seen joins on the next beat boundary of the current master cycle.
- **The voice rule** (`playOscillator`), modelled as a function returning a voice record. The first event of every `beats` is accented: an octave up, a triangle wave, twice the gain and a longer decay.
- **The application's layer editor and state** (`App.tsx`):
  - the pure add, remove and update list transforms;
  - the initial layers;
  - the speed options;
  - the component state that a play toggle and an effect push into the engine.
- **The control arithmetic of the synth widgets** (`components/SynthUI.tsx`): the range map, knob and LCD drag values, the cycling selector, and the tooltip edge offset.

Files:
- `layers.dfy` (module `Layers`): the layer record, partial updates (`Patch`), and the constant tables.
- `scheduler.dfy` (module `Scheduler`): one pass as pure functions of the phases and the clock reading. These are `BeatDuration`, `JoinPoint`, `StepCount`, `Ticks`, `Emit`, `LayerPass`, `Pass` and `StartPhases`. The module also holds the voice record and the progress formula.
- `scheduler_props.dfy` (module `SchedulerProperties`): lemmas about a pass:
  - what one layer emits;
  - what a pass does to the maps;
  - idempotence;
  - mute;
  - joining;
  - agreement between the audio and visual clocks.
- `engine.dfy` (module `Engine`): class `AudioEngine`. Its methods (`ResetRhythmTracking`, `RunPolyScheduler` with its per-layer `ScheduleLayer` and stepping loop `StepThroughWindow`, `TogglePlay`, and the setters) update the maps and are proved equal to the functions in `Scheduler`.
- `synth_ui.dfy` (module `SynthUI`): the widget value rules.
- `app.dfy` (module `App`): the list edits and class `AppState`.

The clock reading `now` is a parameter of every operation that reads the audio clock. A pass reads it once. A start reads it twice: `now` for the reset and `passNow` for the pass that follows. Every scheduled tone is returned as a `Voice` record. A pass returns them layer by layer in list order, and each layer's tones oldest first. So a later layer's early tone comes after an earlier layer's late tone. Times are exact reals.

The scheduler's intended design drops the phase of a layer once it leaves the list, skips layers with no beats, clamps pan and volume, and makes a second start harmless. The code differs from that design in these places, and this model follows the code:
- **A pass never drops the phase entry of a removed layer; only a start clears them** (`Scheduler.StartPhases`). A pass neither creates nor touches the entry of an id that is not in its list (`SchedulerProperties.PassFrame`). A layer removed and re-added with no start in between therefore resumes its old phase instead of rejoining. Such leftover entries never change what a pass schedules for the listed layers (`SchedulerProperties.PassIgnoresUnlisted`).
- **A layer with no beats is not skipped.** The model requires `beats ≥ 1` and `speed ≥ 0` instead, because the code would divide by zero or loop forever. The controls never produce such a layer (`App.ControlsPatchWellFormed`).
- **Pan and volume are not clamped by the engine.**
- **Starting is not idempotent.** Each start resets all phases to the new cycle origin. A start while already playing also sets off a second timer chain; see "## Left out".

The pass a start runs straight after its reset schedules nothing when both clock readings agree, because every layer then waits at the cycle origin, exactly at the window's end (`SchedulerProperties.StartPassSilent`). If the clock moves between the two reads, the origin falls inside that pass's window and its events are scheduled by it. `Engine.AudioEngine.StartPolyrhythmScheduler` states both cases.

## Model

| member | source | states |
|---|---|---|
| Layers.Merge | polyarbor/App.tsx:74-76 | for each of the eight fields: a field the patch carries takes the patch's value, any other keeps the layer's |
| Layers.EffectiveSpeed | polyarbor/services/audioEngine.ts:110 | `speed \|\| 1`: a zero speed counts as 1, a positive speed is itself; always positive |
| Layers.MergeWellFormed | polyarbor/App.tsx:74-76 | a well-formed patch keeps a layer schedulable (beats ≥ 1, speed ≥ 0) |
| Scheduler.CycleDuration | polyarbor/services/audioEngine.ts:103 | the cycle is positive and lasts exactly 60/tempo seconds |
| Scheduler.EffectiveBeats | polyarbor/services/audioEngine.ts:110 | beats per cycle are positive: `beats · speed` for a positive speed (speed 2 doubles them), `beats` for speed 0 |
| Scheduler.BeatDuration | polyarbor/services/audioEngine.ts:111 | a beat is positive and exactly `effectiveBeats` beats fill a cycle |
| Scheduler.JoinPoint | polyarbor/services/audioEngine.ts:114-129 | an unseen layer joins strictly after `now`, at most one beat later, with index ≥ 1 |
| Scheduler.StepCount | polyarbor/services/audioEngine.ts:134-149 | the loop's iteration count is the least n with `t0 + n·bd ≥ window` |
| Scheduler.BeforeWindow | polyarbor/services/audioEngine.ts:134 | every step below the count lands before the window's end |
| Scheduler.PastWindow | polyarbor/services/audioEngine.ts:134 | every step at or beyond the count is at or past the window's end |
| Scheduler.StepCountUnique | polyarbor/services/audioEngine.ts:134-149 | any n with the least-step property equals the count |
| Scheduler.StepCountNext | polyarbor/services/audioEngine.ts:143-144 | one step taken before the window leaves exactly one step fewer |
| Scheduler.Next | polyarbor/services/audioEngine.ts:143-144 | a step adds one beat to the time and one to the index |
| Scheduler.Ticks | polyarbor/services/audioEngine.ts:134-149 | the run of events a loop visits has exactly n events |
| Scheduler.TicksAt | polyarbor/services/audioEngine.ts:143-144 | event i of a run is at `s.time + i·bd` with index `s.index + i` |
| Scheduler.AfterAt | polyarbor/services/audioEngine.ts:143-148 | n steps move the time by n beats and the index by n |
| Scheduler.PlayOscillator | polyarbor/services/audioEngine.ts:155-193 | the voice belongs to the layer and event it was asked for, at the asked time |
| Scheduler.VoiceRule | polyarbor/services/audioEngine.ts:167-192 | accented iff `beatIndex % beats == 0`; accent doubles pitch, uses a triangle, gains 0.8 instead of 0.4 and decays 0.2 s instead of 0.1 s; attack 5 ms; stop after release |
| Scheduler.AccentPeriodic | polyarbor/services/audioEngine.ts:167 | the accent pattern repeats every `beats` events whatever the speed |
| Scheduler.AccentInEveryBar | polyarbor/services/audioEngine.ts:167 | every `beats` consecutive events hold an accented one |
| Scheduler.AccentAtMostOncePerBar | polyarbor/services/audioEngine.ts:167 | two accented events less than `beats` apart are the same event |
| Scheduler.Audible | polyarbor/services/audioEngine.ts:136-138 | only an unmuted event can sound, and every unmuted event not yet in the past does |
| Scheduler.Sound | polyarbor/services/audioEngine.ts:136-141 | an event triggers one voice exactly when it is audible, and that voice is `PlayOscillator` of its time and index; otherwise none |
| Scheduler.Emit | polyarbor/services/audioEngine.ts:134-149 | a run of events triggers at most one voice per event |
| Scheduler.LayerStart | polyarbor/services/audioEngine.ts:106-131 | a layer with an entry resumes at its stored time and index (a missing index reading 0); one without joins strictly after `now`, at most one beat later, with index ≥ 1 |
| Scheduler.Advance | polyarbor/services/audioEngine.ts:131-149 | one layer's stepping keeps both maps on the same keys |
| Scheduler.LayerPass | polyarbor/services/audioEngine.ts:105-149 | one layer's share of a pass keeps both maps on the same keys |
| Scheduler.Pass | polyarbor/services/audioEngine.ts:105-150 | a whole pass keeps both maps on the same keys |
| Scheduler.StartPhases | polyarbor/services/audioEngine.ts:77-88 | the reset phases have both maps on the same keys |
| Scheduler.CycleProgressAt | polyarbor/services/audioEngine.ts:63-66 | progress × cycle length is the time elapsed since the origin; 0 at the origin |
| SchedulerProperties.EmitMuted | polyarbor/services/audioEngine.ts:136 | a muted layer triggers no voice |
| SchedulerProperties.TicksEmitOnGrid | polyarbor/services/audioEngine.ts:134-149 | each voice is an audible event on the layer's beat grid, among the events visited, oldest first |
| SchedulerProperties.EmitHas | polyarbor/services/audioEngine.ts:134-141 | every audible event of a run sounds, whatever stale or muted events come before it |
| SchedulerProperties.EmitComplete | polyarbor/services/audioEngine.ts:134-144 | in a run with a stale backlog, event i sounds at `s.time + i·bd` with index `s.index + i` whenever it is audible |
| SchedulerProperties.TicksEmitAll | polyarbor/services/audioEngine.ts:136-141 | unmuted and not stale: voice i is event `s.index + i` at `s.time + i·bd`, every event sounding |
| SchedulerProperties.GridInWindow | polyarbor/services/audioEngine.ts:133-134 | voices on the grid lie between the resume time and the window's end |
| SchedulerProperties.AdvanceLockStep | polyarbor/services/audioEngine.ts:143-148 | the stored time equals the resume time plus (index advance) beats |
| SchedulerProperties.AdvanceVoices | polyarbor/services/audioEngine.ts:133-149 | the voices of a layer are on its grid, within the window, oldest first |
| SchedulerProperties.AdvanceComplete | polyarbor/services/audioEngine.ts:136-144 | with nothing stale and unmuted, every visited event sounds, consecutive and one beat apart |
| SchedulerProperties.StepBeforeWindow | polyarbor/services/audioEngine.ts:134-149 | a loop turn below the window sounds the event, then continues from the next with one step fewer and the same end |
| SchedulerProperties.StepKeeps | polyarbor/services/audioEngine.ts:134-149 | the loop's accumulated voices plus the rest of the window make the layer's whole emission |
| SchedulerProperties.StepsDone | polyarbor/services/audioEngine.ts:134 | at or past the window nothing more is emitted and the phase stays |
| SchedulerProperties.LayerMuted | polyarbor/services/audioEngine.ts:136-148 | a muted layer advances its phase exactly as if unmuted and emits nothing |
| SchedulerProperties.AdvanceFrame | polyarbor/services/audioEngine.ts:143-148 | stepping writes only the layer's entry, never backwards, ending at or past the window |
| SchedulerProperties.LayerPassFrame | polyarbor/services/audioEngine.ts:105-149 | a layer's share writes only its own entry, ends at or past the window, never moves back |
| SchedulerProperties.PassWindow | polyarbor/services/audioEngine.ts:105-150 | after a pass every listed layer has an entry at or past the window's end |
| SchedulerProperties.PassMonotone | polyarbor/services/audioEngine.ts:105-150 | a pass never drops an entry nor moves a next time backwards |
| SchedulerProperties.PassFrame | polyarbor/services/audioEngine.ts:105-150 | entries of ids not listed are neither created, dropped nor changed |
| SchedulerProperties.LayerPassAgree | polyarbor/services/audioEngine.ts:106-149 | a layer's share of a pass reads only its own entry: agreeing maps give the same voices and stay agreeing |
| SchedulerProperties.PassIgnoresUnlisted | polyarbor/services/audioEngine.ts:105-150 | two phase maps that agree on the listed ids give a pass the same voices and leave them agreeing there: stale entries of removed layers have no effect |
| SchedulerProperties.PassSettled | polyarbor/services/audioEngine.ts:134 | layers already scheduled past the window make the pass a no-op |
| SchedulerProperties.StartPhasesListed | polyarbor/services/audioEngine.ts:83-87 | every current layer starts at the cycle origin with index 0 |
| SchedulerProperties.StartPhasesOnlyListed | polyarbor/services/audioEngine.ts:78-79 | the reset maps hold no other id |
| SchedulerProperties.PassIdempotent | polyarbor/services/audioEngine.ts:99-153 | a second pass at the same clock reading emits nothing and changes nothing |
| SchedulerProperties.StartPassSilent | polyarbor/services/audioEngine.ts:90-97 | a pass at the reset's own clock reading emits nothing and changes nothing |
| SchedulerProperties.JoinExample | polyarbor/services/audioEngine.ts:114-129 | tempo 15, 4 beats, seen 5.1 s in: joins at 6 s with index 2 |
| SchedulerProperties.JoinProgress | polyarbor/services/audioEngine.ts:114-129 | at its join time, the progress clock reads the current cycle plus index/effectiveBeats |
| SchedulerProperties.TicksProgress | polyarbor/services/audioEngine.ts:59-67 | for a layer started with the session, progress·effectiveBeats equals i at its i-th event |
| SchedulerProperties.ProgressExample | polyarbor/services/audioEngine.ts:63-66 | at tempo 15 progress is 0.5 after 2 s and 1.5 (not wrapped) after 6 s |
| SchedulerProperties.ThreeAgainstFour | polyarbor/constants.ts:27-30 | the initial 3- and 4-beat layers coincide only on the cycle's first beat |
| Engine.AudioEngine.constructor | polyarbor/services/audioEngine.ts:4-21 | no context, stopped, tempo 60, volume 0.5, empty maps |
| Engine.AudioEngine.Init | polyarbor/services/audioEngine.ts:23-30 | the context is created once, its gain set to the current volume; later calls change nothing |
| Engine.AudioEngine.SetRhythms | polyarbor/services/audioEngine.ts:32-34 | the layer list is replaced |
| Engine.AudioEngine.SetTempo | polyarbor/services/audioEngine.ts:36-38 | the tempo is replaced |
| Engine.AudioEngine.SetVolume | polyarbor/services/audioEngine.ts:40-45 | the volume is recorded, and becomes the gain target once the context exists |
| Engine.AudioEngine.TogglePlay | polyarbor/services/audioEngine.ts:47-57 | play: a live context whose gain is the master volume, phases reset at `now`, then the first pass at `passNow`; stop: the flag and timer drop, and context, gain and phases stay |
| Engine.AudioEngine.CycleProgress | polyarbor/services/audioEngine.ts:59-67 | 0 while stopped; otherwise progress × cycle length = time elapsed since the origin |
| Engine.AudioEngine.ResetRhythmTracking | polyarbor/services/audioEngine.ts:77-88 | maps cleared and refilled: every layer at `now + 0.1` with index 0; origin set to `now + 0.1` |
| Engine.AudioEngine.StartPolyrhythmScheduler | polyarbor/services/audioEngine.ts:90-97 | context created if missing with the master volume as gain, playing, phases reset at `now`, and the result is `Pass` of the reset phases at `passNow`; with one reading it emits nothing |
| Engine.AudioEngine.RunPolyScheduler | polyarbor/services/audioEngine.ts:99-153 | stopped: nothing; otherwise the maps and the voices are exactly `Pass` of the old maps, and the timer is re-armed |
| Engine.AudioEngine.ScheduleLayer | polyarbor/services/audioEngine.ts:106-149 | one layer's body of the pass leaves the maps and voices of `LayerPass` |
| Engine.AudioEngine.StepThroughWindow | polyarbor/services/audioEngine.ts:131-149 | the while loop leaves the layer at `After(s, StepCount)`, other entries untouched, and returns the emission of the visited events |
| SynthUI.MapRange | polyarbor/components/SynthUI.tsx:23-25 | the output's offset from outMin over the output width equals the input's offset from inMin over the input width |
| SynthUI.MapRangeEnds | polyarbor/components/SynthUI.tsx:23-25 | inMin maps to outMin and inMax to outMax |
| SynthUI.MapRangeInverse | polyarbor/components/SynthUI.tsx:23-25 | mapping back onto the input range gives the value back |
| SynthUI.MapRangeMonotone | polyarbor/components/SynthUI.tsx:23-25 | between increasing ranges the map keeps order |
| SynthUI.KnobAngle | polyarbor/components/SynthUI.tsx:186-187 | `(angle + 135)·(max − min) = (value − min)·270`: the value's share of the range is the angle's share of 270° |
| SynthUI.KnobAngleDirect | polyarbor/components/SynthUI.tsx:186-187 | the angle is the value mapped from [min, max] onto [-135, 135] |
| SynthUI.KnobAngleRange | polyarbor/components/SynthUI.tsx:186-187 | -135° at min, 135° at max, and between them for values between |
| SynthUI.Clamp | polyarbor/components/SynthUI.tsx:167 | the result is in [lo, hi] when lo ≤ hi, is x when x is in range, hi above the range and lo below it, and is always x, lo or hi |
| SynthUI.ClampMonotone | polyarbor/components/SynthUI.tsx:167 | clamping keeps order |
| SynthUI.KnobDrag | polyarbor/components/SynthUI.tsx:158-168 | a knob drag yields a value in [min, max]: the start value plus the drag's KnobDelta when that lies in range, max above the range and min below it |
| SynthUI.KnobDelta | polyarbor/components/SynthUI.tsx:161-164 | the change is proportional to the drag, `d·150 = deltaY·(max − min)`: no movement asks for no change, and 150 px of upward drag ask for the whole range |
| SynthUI.KnobDeltaMonotone | polyarbor/components/SynthUI.tsx:161-164 | a longer upward drag asks for at least as large a change |
| SynthUI.KnobDragProperties | polyarbor/components/SynthUI.tsx:161-167 | no movement keeps an in-range value; dragging further up never lowers it |
| SynthUI.Round | polyarbor/components/SynthUI.tsx:254 | `Math.round` is the integer within half a unit, halves rounded up |
| SynthUI.LcdDrag | polyarbor/components/SynthUI.tsx:248-256 | an LCD drag yields a value in [min, max]: the start value plus the drag's rounded LcdDelta when that lies in range, max above the range and min below it |
| SynthUI.LcdDelta | polyarbor/components/SynthUI.tsx:252-254 | the change is the integer nearest the scaled drag (within half a unit); no movement asks for none |
| SynthUI.LcdDragIntegral | polyarbor/components/SynthUI.tsx:252-256 | an integral start and integral bounds give an integral result |
| SynthUI.LcdMove | polyarbor/components/SynthUI.tsx:258-260 | a change is reported iff the new value differs from the current one, and it carries the new value |
| SynthUI.LcdMoveSettles | polyarbor/components/SynthUI.tsx:258-260 | once the reported value is current, the same drag reports nothing |
| SynthUI.FindIndex | polyarbor/components/SynthUI.tsx:308 | -1 iff the value is absent; otherwise the first index holding it |
| SynthUI.SelectorNext | polyarbor/components/SynthUI.tsx:307-311 | the next option after the current one, wrapping; an absent value selects the first |
| SynthUI.FindIndexDistinct | polyarbor/components/SynthUI.tsx:308 | with distinct values, each option's value is found at its own index |
| SynthUI.SelectorCycles | polyarbor/components/SynthUI.tsx:307-311 | with distinct values, a click moves option i to option i+1 and the last to the first |
| SynthUI.SelectorLabel | polyarbor/components/SynthUI.tsx:313 | the first matching caption, or "?" when none matches or that caption is empty; never empty |
| SynthUI.TooltipOffset | polyarbor/components/SynthUI.tsx:46-56 | past the left margin it lands on the margin; else past the right margin it lands on that margin; else 0 |
| SynthUI.TooltipFits | polyarbor/components/SynthUI.tsx:42-56 | a bubble no wider than the window less the margins ends up inside both margins |
| App.SpeedOptionsDistinct | polyarbor/App.tsx:13-20 | the offered speeds are positive and pairwise different |
| App.SpeedOptionsCycle | polyarbor/App.tsx:223-228 | the speed selector cycles through the six speeds in order and shows each one's caption |
| App.SpeedSelectorPositive | polyarbor/App.tsx:223-228 | any click on the speed selector yields a positive speed |
| App.NextBeats | polyarbor/App.tsx:54-60 | a new layer never gets more than 16 beats, and gets 2 on an empty list |
| App.NextBeatsRange | polyarbor/App.tsx:54-60 | a new layer gets the last layer's beats + 1, or 2 after 16 or on an empty list; always 2..16 |
| App.NewLayer | polyarbor/App.tsx:58-67 | the new layer has the given id, `NextBeats` beats, the length-selected colour and pitch, volume 0.6, speed 1, unmuted, a pan in [-0.5, 0.5), and is well formed after a well-formed list |
| App.AddLayer | polyarbor/App.tsx:52-68 | no change at 12 layers; otherwise the list is kept and one layer is appended with the given id, `NextBeats` beats, cycling colour and pitch, volume 0.6, speed 1, unmuted, pan in [-0.5, 0.5) |
| App.AddLayerKeeps | polyarbor/App.tsx:52-68 | adding keeps at most 12 layers, all well formed |
| App.RemoveLayer | polyarbor/App.tsx:70-72 | no layer with the id remains, and every remaining layer was there before |
| App.RemoveConcat | polyarbor/App.tsx:70-72 | removal distributes over concatenation, which fixes the survivors' order and multiplicity |
| App.RemoveAbsent | polyarbor/App.tsx:70-72 | removing an id no layer carries changes nothing |
| App.RemoveKeepsOthers | polyarbor/App.tsx:70-72 | every layer with another id survives |
| App.RemoveLayerIdempotent | polyarbor/App.tsx:70-72 | removing twice is removing once; removal keeps layers well formed |
| App.RemoveAppended | polyarbor/App.tsx:70-72 | removing an id also removes a layer of that id appended at the end |
| App.AddThenRemove | polyarbor/App.tsx:52-72 | removing a freshly added layer restores the list |
| App.UpdateLayer | polyarbor/App.tsx:74-76 | the list keeps its length |
| App.UpdateLayerProperties | polyarbor/App.tsx:74-76 | only layers with the id are merged with the patch; an empty patch changes nothing; ids and well-formedness are kept |
| App.UpdateThenRemove | polyarbor/App.tsx:70-76 | removal discards an earlier update to the removed layer |
| App.InitialLayers | polyarbor/App.tsx:28-38 | two well-formed layers: 3 beats on `PentatonicScale[2]` in `Colors[1]`, 4 beats on `PentatonicScale[4]` in `Colors[2]`; both unmuted, volume 0.6, speed 1, centred, with the given ids |
| App.ControlsPatchWellFormed | polyarbor/App.tsx:216-228 | the beat LCD yields a whole count in [1, 32] and the speed selector a positive speed, so edits keep layers schedulable |
| App.AppState.constructor | polyarbor/App.tsx:22-44 | initial state (stopped, tempo 15, volume 0.5, the initial layers) pushed to the engine, whose context stays and whose gain becomes 0.5 if the context exists |
| App.AppState.Sync | polyarbor/App.tsx:40-44 | the engine receives the layers, tempo and volume, and its phases stay |
| App.AppState.TogglePlay | polyarbor/App.tsx:46-50 | the flag flips; a start leaves a live context with the master volume as gain and the first pass's result; a stop keeps context, gain and phases |
| App.AppState.AddRhythm | polyarbor/App.tsx:52-68 | the list becomes `AddLayer` of the old one; the engine sees it, gain and phases untouched |
| App.AppState.RemoveRhythm | polyarbor/App.tsx:70-72 | the list becomes `RemoveLayer` of the old one; the engine sees it, gain and phases untouched |
| App.AppState.UpdateRhythm | polyarbor/App.tsx:74-76 | the list becomes `UpdateLayer` of the old one; the engine sees it, gain and phases untouched |
| App.AppState.DragTempo | polyarbor/App.tsx:122-127 | the tempo becomes the LCD drag result, in [5, 120], and reaches the engine; gain and phases untouched |
| App.AppState.DragVolume | polyarbor/App.tsx:139-145 | the volume becomes the knob drag result, in [0, 1], and the engine's gain target once it exists |

## Left out

- Web Audio. The model leaves out the audio context, oscillator, gain and panner nodes, their connections, and the ramp shapes (`setValueAtTime`, `linearRampToValueAtTime`, `exponentialRampToValueAtTime`, `setTargetAtTime`). A scheduled tone is a `Voice` record. The master gain is its target value.
- Timers. The 25 ms `setTimeout` re-arm and `clearTimeout` are replaced by a `timerArmed` flag. One pass is one `RunPolyScheduler` call. A start while already playing sets off a second `setTimeout` chain in the source (audioEngine.ts:96 and :152), and only the newest timer id is kept. One flag cannot represent two chains, so the model does not capture the extra passes of such a chain, nor that a stop cancels only the newest timer.
- The context's `resume()` on a suspended context is not modelled, nor is its asynchrony.
- Clock reads. `ctx.currentTime` is the parameter `now`. The source reads the clock several times within one pass, and the model assumes they all agree within that pass. A start's reset and its first pass are two separate readings (`now`, `passNow`). `getContextTime` is a plain clock read and is not modelled.
- Floating point. Times and durations are exact reals, so IEEE-754 rounding of `nextTime += beatDuration` is not captured. `Math.floor` and `Math.round` are `Floor`.
- Fresh ids and the random pan. `generateId` and `Math.random()` become parameters (`id`, `random`).
- DOM and React plumbing:
  - mouse handlers and the `isDragging` flag;
  - the refs holding the drag start and the latest props;
  - `getBoundingClientRect`, the tooltip's show and hide timers;
  - rendering.
  Rectangles and mouse positions are parameters. The tooltip offset is computed, not stored.
- The canvas visualiser, the UI context, the credits modal and the neumorphic controls are not part of this model. They only consume the progress value or render markup.
- Engine.AudioEngine.SetRhythms: requires every layer to have `beats ≥ 1` and `speed ≥ 0`. The source accepts any list, but such a layer would make the pass divide by zero or never leave its loop.
- Engine.AudioEngine.SetTempo: requires a positive tempo. The only caller passes the tempo LCD's value, which is clamped to [5, 120].
- SynthUI.MapRange: requires `inMin ≠ inMax`. The source would produce NaN or an infinity there, which reals cannot represent. KnobAngle likewise requires `min ≠ max`.
- SynthUI.SelectorNext: requires at least one option. With none, the source's `% 0` yields NaN and the `.value` access throws.
- Scheduler.Emit: its own contract only bounds the number of voices. What the voices are is stated by `SchedulerProperties.EmitHas` (every audible event sounds) and `SchedulerProperties.TicksEmitOnGrid` (every voice is an audible event of the run, oldest first).
- App.AppState.UpdateRhythm: requires a well-formed patch (`beats ≥ 1`, `speed ≥ 0`). The pure `App.UpdateLayer` accepts any patch. Every call site passes such a patch (`App.ControlsPatchWellFormed`) or only changes mute, pan or volume.
- The layer editor's remaining controls (the mute toggle, the pan and volume knobs) are covered by `UpdateRhythm` with a patch of that one field. Their knob arithmetic is `SynthUI.KnobDrag`.

/** The application shell: its layer-list edits (add, remove, update,
    written as whole-list replacements) and the component state that a
    play toggle and a state-change effect hand to the audio engine. Fresh
    ids and the random pan are parameters. */
module App {
  import opened Layers
  import opened Scheduler
  import opened Engine
  import SynthUI

  /** The speeds the per-layer selector cycles through. */
  const SpeedOptions: seq<SynthUI.SelectorOption> := [
    SynthUI.SelectorOption("1/4", 0.25),
    SynthUI.SelectorOption("1/2", 0.5),
    SynthUI.SelectorOption("1x", 1.0),
    SynthUI.SelectorOption("2x", 2.0),
    SynthUI.SelectorOption("3x", 3.0),
    SynthUI.SelectorOption("4x", 4.0)
  ]

  /** The offered speeds are positive and pairwise different. */
  lemma SpeedOptionsDistinct()
    ensures SynthUI.DistinctValues(SpeedOptions)
    ensures forall j :: 0 <= j < |SpeedOptions| ==> SpeedOptions[j].value > 0.0
  {
  }

  /** A click from any offered speed moves to the next one, the last
      wrapping to the first, and the selector shows that speed's caption. */
  lemma SpeedOptionsCycle(i: int)
    requires 0 <= i < |SpeedOptions|
    ensures SynthUI.SelectorNext(SpeedOptions, SpeedOptions[i].value) == SpeedOptions[(i + 1) % 6].value
    ensures SynthUI.SelectorLabel(SpeedOptions, SpeedOptions[i].value) == SpeedOptions[i].caption
  {
    SpeedOptionsDistinct();
    SynthUI.FindIndexDistinct(SpeedOptions, i);
    SynthUI.SelectorCycles(SpeedOptions, i);
  }

  /** A click on the speed selector always yields a speed a layer may
      carry, whatever the current speed is. */
  lemma SpeedSelectorPositive(current: real)
    ensures SynthUI.SelectorNext(SpeedOptions, current) > 0.0
  {
    SpeedOptionsDistinct();
    var j := (SynthUI.FindIndex(SpeedOptions, current) + 1) % |SpeedOptions|;
    assert SynthUI.SelectorNext(SpeedOptions, current) == SpeedOptions[j].value;
  }

  /** The most layers the editor lets a user add up to. */
  const MaxLayers := 12
  /** The beat count above which a new layer starts over at 2. */
  const MaxNewBeats := 16
  /** The bounds of the tempo LCD, in cycles per minute. */
  const MinTempo: real := 5.0
  const MaxTempo: real := 120.0
  /** The bounds of a layer's beat LCD. */
  const MinBeats: real := 1.0
  const MaxBeats: real := 32.0

  /** The beats of a new layer: one more than the last layer's (a missing
      layer or zero beats counting as 1), wrapping to 2 past 16. */
  function NextBeats(rs: seq<RhythmLayer>): (beats: int)
    ensures beats <= MaxNewBeats
    ensures rs == [] ==> beats == 2
  {
    var last := if rs == [] || rs[|rs| - 1].beats == 0 then 1 else rs[|rs| - 1].beats;
    if last + 1 > MaxNewBeats then 2 else last + 1
  }

  /** After a layer of `b ≥ 1` beats comes one of `b + 1`, up to 16,
      and then 2 again; so a new layer always has 2 to 16 beats. */
  lemma NextBeatsRange(rs: seq<RhythmLayer>)
    requires AllWellFormed(rs)
    ensures 2 <= NextBeats(rs) <= MaxNewBeats
    ensures rs != [] && rs[|rs| - 1].beats < MaxNewBeats ==> NextBeats(rs) == rs[|rs| - 1].beats + 1
    ensures rs != [] && rs[|rs| - 1].beats >= MaxNewBeats ==> NextBeats(rs) == 2
    ensures rs == [] ==> NextBeats(rs) == 2
  {
    if rs != [] {
      assert WellFormed(rs[|rs| - 1]);
    }
  }

  /** The layer `AddLayer` appends, with id `id` and a pan of
      `random - 0.5`, where `random` is drawn from `[0, 1)`. */
  function NewLayer(rs: seq<RhythmLayer>, id: string, random: real): (l: RhythmLayer)
    ensures l.id == id && !l.mute && l.beats == NextBeats(rs)
    ensures l.color == Colors[|rs| % 8] && l.frequency == PentatonicScale[|rs| % 10]
    ensures l.volume == 0.6 && l.speed == 1.0
    ensures 0.0 <= random < 1.0 ==> -0.5 <= l.pan < 0.5
    ensures AllWellFormed(rs) ==> WellFormed(l)
  {
    RhythmLayer(id, NextBeats(rs), false, Colors[|rs| % |Colors|], 0.6,
      PentatonicScale[|rs| % |PentatonicScale|], random - 0.5, 1.0)
  }

  /** The "add layer" edit: nothing at 12 layers or more; otherwise the
      list grows by one unmuted layer at the end, with the colour and
      pitch the list length selects (cycling through 8 colours and the 10
      scale notes), volume 0.6, speed 1, and a pan in `[-0.5, 0.5)`. */
  function AddLayer(rs: seq<RhythmLayer>, id: string, random: real): (r: seq<RhythmLayer>)
    ensures |rs| >= MaxLayers ==> r == rs
    ensures |rs| < MaxLayers ==>
              && |r| == |rs| + 1 && r[..|rs|] == rs
              && r[|rs|].id == id && !r[|rs|].mute && r[|rs|].beats == NextBeats(rs)
              && r[|rs|].color == Colors[|rs| % 8]
              && r[|rs|].frequency == PentatonicScale[|rs| % 10]
              && r[|rs|].volume == 0.6 && r[|rs|].speed == 1.0
              && (0.0 <= random < 1.0 ==> -0.5 <= r[|rs|].pan < 0.5)
  {
    if |rs| >= MaxLayers then rs else rs + [NewLayer(rs, id, random)]
  }

  /** Adding keeps the list within 12 layers and every layer well formed. */
  lemma AddLayerKeeps(rs: seq<RhythmLayer>, id: string, random: real)
    requires AllWellFormed(rs) && |rs| <= MaxLayers
    ensures AllWellFormed(AddLayer(rs, id, random)) && |AddLayer(rs, id, random)| <= MaxLayers
  {
    NextBeatsRange(rs);
    var r := AddLayer(rs, id, random);
    forall i | 0 <= i < |r|
      ensures WellFormed(r[i])
    {
      if i < |rs| {
        assert r[i] == rs[i];
      }
    }
  }

  /** The "remove layer" edit: every layer whose id is `id` goes, the rest
      stay in order. */
  function RemoveLayer(rs: seq<RhythmLayer>, id: string): (r: seq<RhythmLayer>)
    ensures |r| <= |rs|
    ensures forall i :: 0 <= i < |r| ==> r[i].id != id
    ensures forall l :: l in r ==> l in rs
  {
    if rs == [] then []
    else if rs[0].id == id then RemoveLayer(rs[1..], id)
    else [rs[0]] + RemoveLayer(rs[1..], id)
  }

  /** Removing an id no layer carries changes nothing. */
  lemma {:induction false} RemoveAbsent(rs: seq<RhythmLayer>, id: string)
    requires forall i :: 0 <= i < |rs| ==> rs[i].id != id
    ensures RemoveLayer(rs, id) == rs
  {
    if rs != [] {
      assert rs[0].id != id;
      RemoveAbsent(rs[1..], id);
    }
  }

  /** Every layer with a different id survives removal. */
  lemma {:induction false} RemoveKeepsOthers(rs: seq<RhythmLayer>, id: string, l: RhythmLayer)
    requires l in rs && l.id != id
    ensures l in RemoveLayer(rs, id)
  {
    if l != rs[0] {
      RemoveKeepsOthers(rs[1..], id, l);
    }
  }

  /** Removing is idempotent, and removal keeps every layer well formed. */
  lemma RemoveLayerIdempotent(rs: seq<RhythmLayer>, id: string)
    requires AllWellFormed(rs)
    ensures RemoveLayer(RemoveLayer(rs, id), id) == RemoveLayer(rs, id)
    ensures AllWellFormed(RemoveLayer(rs, id))
  {
    var r := RemoveLayer(rs, id);
    RemoveAbsent(r, id);
    forall i | 0 <= i < |r|
      ensures WellFormed(r[i])
    {
      assert r[i] in rs;
    }
  }

  /** Removal works piece by piece: removing from two lists joined is
      joining what survives of each. With `RemoveLayer([l], id)` being
      `[l]` or `[]` as `l.id` differs or not, this fixes the survivors,
      their order and their multiplicity. */
  lemma {:induction false} RemoveConcat(a: seq<RhythmLayer>, b: seq<RhythmLayer>, id: string)
    ensures RemoveLayer(a + b, id) == RemoveLayer(a, id) + RemoveLayer(b, id)
  {
    if a != [] {
      assert (a + b)[0] == a[0];
      assert (a + b)[1..] == a[1..] + b;
      RemoveConcat(a[1..], b, id);
    } else {
      assert a + b == b;
    }
  }

  /** Removing a layer just added, under an id no other layer carries,
      gives back the list from before. */
  lemma AddThenRemove(rs: seq<RhythmLayer>, id: string, random: real)
    requires forall i :: 0 <= i < |rs| ==> rs[i].id != id
    ensures RemoveLayer(AddLayer(rs, id, random), id) == rs
  {
    if |rs| < MaxLayers {
      RemoveAppended(rs, NewLayer(rs, id, random), id);
    }
    RemoveAbsent(rs, id);
  }

  lemma {:induction false} RemoveAppended(rs: seq<RhythmLayer>, l: RhythmLayer, id: string)
    requires l.id == id
    ensures RemoveLayer(rs + [l], id) == RemoveLayer(rs, id)
  {
    if rs == [] {
      assert [l][1..] == [];
    } else {
      assert (rs + [l])[1..] == rs[1..] + [l];
      RemoveAppended(rs[1..], l, id);
    }
  }

  /** The "update layer" edit: every layer whose id is `id` has the
      patch's fields written over its own; the others stay as they are. */
  function UpdateLayer(rs: seq<RhythmLayer>, id: string, p: Patch): (r: seq<RhythmLayer>)
    ensures |r| == |rs|
  {
    seq(|rs|, i requires 0 <= i < |rs| => if rs[i].id == id then Merge(rs[i], p) else rs[i])
  }

  /** The update touches exactly the layers with that id; an empty patch
      changes nothing; a patch that keeps ids and is well formed keeps
      every id and every layer well formed. */
  lemma UpdateLayerProperties(rs: seq<RhythmLayer>, id: string, p: Patch)
    ensures forall i :: 0 <= i < |rs| && rs[i].id != id ==> UpdateLayer(rs, id, p)[i] == rs[i]
    ensures forall i :: 0 <= i < |rs| && rs[i].id == id ==> UpdateLayer(rs, id, p)[i] == Merge(rs[i], p)
    ensures UpdateLayer(rs, id, NoChange) == rs
    ensures p.id.None? ==> forall i :: 0 <= i < |rs| ==> UpdateLayer(rs, id, p)[i].id == rs[i].id
    ensures AllWellFormed(rs) && PatchWellFormed(p) ==> AllWellFormed(UpdateLayer(rs, id, p))
  {
    var r := UpdateLayer(rs, id, NoChange);
    forall i | 0 <= i < |rs|
      ensures r[i] == rs[i]
    {
      assert Merge(rs[i], NoChange) == rs[i];
    }
    if AllWellFormed(rs) && PatchWellFormed(p) {
      forall i | 0 <= i < |rs|
        ensures WellFormed(UpdateLayer(rs, id, p)[i])
      {
        assert WellFormed(rs[i]);
        MergeWellFormed(rs[i], p);
      }
    }
  }

  /** Removing a layer discards any update made to it beforehand. */
  lemma {:induction false} UpdateThenRemove(rs: seq<RhythmLayer>, id: string, p: Patch)
    requires p.id.None?
    ensures RemoveLayer(UpdateLayer(rs, id, p), id) == RemoveLayer(rs, id)
  {
    if rs != [] {
      assert UpdateLayer(rs, id, p)[1..] == UpdateLayer(rs[1..], id, p);
      UpdateThenRemove(rs[1..], id, p);
    }
  }

  /** The layers present when the application opens, given two fresh ids:
      3 beats on C4 and 4 beats on E4, unmuted, volume 0.6, centred. */
  function InitialLayers(ids: seq<string>): (r: seq<RhythmLayer>)
    requires |ids| == |InitialRhythms|
    ensures |r| == 2 && AllWellFormed(r)
    ensures r[0].beats == 3 && r[0].frequency == PentatonicScale[2] && r[0].color == Colors[1]
    ensures r[1].beats == 4 && r[1].frequency == PentatonicScale[4] && r[1].color == Colors[2]
    ensures forall i :: 0 <= i < 2 ==>
              r[i].id == ids[i] && !r[i].mute && r[i].volume == 0.6 && r[i].speed == 1.0 && r[i].pan == 0.0
  {
    seq(|InitialRhythms|, i requires 0 <= i < |InitialRhythms| =>
      var s := InitialRhythms[i];
      RhythmLayer(ids[i], s.beats, false, s.color, 0.6, s.freq, 0.0, if s.speed == 0.0 then 1.0 else s.speed))
  }

  /** A layer-list change coming from the controls keeps every layer well
      formed: the beat LCD, dragged from a whole count, yields a whole
      count in `[1, 32]`, and the speed selector offers only positive
      speeds. */
  lemma ControlsPatchWellFormed(startBeats: int, startY: real, clientY: real, currentSpeed: real)
    ensures var v := SynthUI.LcdDrag(startBeats as real, startY, clientY, MinBeats, MaxBeats);
            && v == v.Floor as real && 1 <= v.Floor <= 32
            && PatchWellFormed(NoChange.(beats := Some(v.Floor)))
    ensures PatchWellFormed(NoChange.(speed := Some(SynthUI.SelectorNext(SpeedOptions, currentSpeed))))
  {
    SynthUI.LcdDragIntegral(startBeats as real, startY, clientY, MinBeats, MaxBeats);
    SpeedSelectorPositive(currentSpeed);
  }

  /** The component's state: the transport flag, tempo, master volume and
      layer list, and the engine its effect feeds. */
  class AppState {
    const engine: AudioEngine
    var isPlaying: bool
    var tempo: real
    var masterVolume: real
    var rhythms: seq<RhythmLayer>

    /** The engine holds what the component last handed it, and agrees
        with it on whether a session runs; the tempo stays within its
        LCD's bounds and the list within 12 well-formed layers. */
    ghost predicate Valid()
      reads this, engine
    {
      && engine.Valid()
      && MinTempo <= tempo <= MaxTempo
      && AllWellFormed(rhythms) && |rhythms| <= MaxLayers
      && engine.currentRhythms == rhythms
      && engine.currentTempo == tempo
      && engine.currentMasterVol == masterVolume
      && engine.isPlaying == isPlaying
    }

    /** Mounting: the initial state, then the effect's first run. */
    constructor(e: AudioEngine, ids: seq<string>)
      requires e.Valid() && !e.isPlaying && |ids| == |InitialRhythms|
      modifies e`currentRhythms, e`currentTempo, e`currentMasterVol, e`gain
      ensures Valid() && engine == e
      ensures !isPlaying && tempo == 15.0 && masterVolume == 0.5
      ensures rhythms == InitialLayers(ids)
      ensures e.hasContext == old(e.hasContext)
      ensures e.gain == if e.hasContext then masterVolume else old(e.gain)
      ensures e.Phases() == old(e.Phases())
    {
      engine := e;
      isPlaying := false;
      tempo := 15.0;
      masterVolume := 0.5;
      rhythms := InitialLayers(ids);
      new;
      Sync();
    }

    /** The effect that runs after a change of layers, tempo or volume:
        all three are handed to the engine, whose phases stay as they
        are, so a running session picks the change up on its next pass. */
    method Sync()
      requires engine.Valid() && engine.isPlaying == isPlaying
      requires MinTempo <= tempo <= MaxTempo && AllWellFormed(rhythms) && |rhythms| <= MaxLayers
      modifies engine`currentRhythms, engine`currentTempo, engine`currentMasterVol, engine`gain
      ensures Valid()
      ensures engine.gain == if engine.hasContext then masterVolume else old(engine.gain)
    {
      engine.SetRhythms(rhythms);
      engine.SetTempo(tempo);
      engine.SetVolume(masterVolume);
    }

    /** The play button: flips the flag and starts or stops the engine
        to match. A start resets the phases at clock reading `now` and
        runs its first pass at `passNow`, returning what that pass
        schedules. */
    method TogglePlay(now: real, passNow: real) returns (voices: seq<Voice>)
      requires Valid()
      modifies this`isPlaying
      modifies engine`hasContext, engine`gain, engine`isPlaying, engine`timerArmed
      modifies engine`nextTimes, engine`beatCounts, engine`cycleStartTime
      ensures Valid() && isPlaying == !old(isPlaying)
      ensures engine.hasContext ==> engine.gain == masterVolume
      ensures isPlaying ==> engine.hasContext && engine.cycleStartTime == now + StartDelay
      ensures isPlaying ==> engine.Phases() == Pass(StartPhases(rhythms, engine.cycleStartTime), rhythms,
                                                    passNow, engine.cycleStartTime, tempo).phases
      ensures isPlaying ==> voices == Pass(StartPhases(rhythms, engine.cycleStartTime), rhythms,
                                           passNow, engine.cycleStartTime, tempo).voices
      ensures isPlaying && passNow == now ==> engine.Phases() == StartPhases(rhythms, engine.cycleStartTime) && voices == []
      ensures !isPlaying ==> !engine.timerArmed && voices == [] && engine.Phases() == old(engine.Phases())
      ensures !isPlaying ==> engine.hasContext == old(engine.hasContext) && engine.gain == old(engine.gain)
    {
      var newState := !isPlaying;
      isPlaying := newState;
      voices := engine.TogglePlay(newState, now, passNow);
    }

    /** The "add layer" button followed by the effect. */
    method AddRhythm(id: string, random: real)
      requires Valid()
      modifies this`rhythms, engine`currentRhythms, engine`currentTempo, engine`currentMasterVol, engine`gain
      ensures Valid() && rhythms == AddLayer(old(rhythms), id, random)
      ensures engine.gain == old(engine.gain)
      ensures engine.Phases() == old(engine.Phases())
    {
      AddLayerKeeps(rhythms, id, random);
      rhythms := AddLayer(rhythms, id, random);
      Sync();
    }

    /** A layer's remove button followed by the effect. */
    method RemoveRhythm(id: string)
      requires Valid()
      modifies this`rhythms, engine`currentRhythms, engine`currentTempo, engine`currentMasterVol, engine`gain
      ensures Valid() && rhythms == RemoveLayer(old(rhythms), id)
      ensures engine.gain == old(engine.gain)
      ensures engine.Phases() == old(engine.Phases())
    {
      RemoveLayerIdempotent(rhythms, id);
      rhythms := RemoveLayer(rhythms, id);
      Sync();
    }

    /** A layer control's change followed by the effect. */
    method UpdateRhythm(id: string, p: Patch)
      requires Valid() && PatchWellFormed(p)
      modifies this`rhythms, engine`currentRhythms, engine`currentTempo, engine`currentMasterVol, engine`gain
      ensures Valid() && rhythms == UpdateLayer(old(rhythms), id, p)
      ensures engine.gain == old(engine.gain)
      ensures engine.Phases() == old(engine.Phases())
    {
      UpdateLayerProperties(rhythms, id, p);
      rhythms := UpdateLayer(rhythms, id, p);
      Sync();
    }

    /** A drag on the tempo LCD followed by the effect: the tempo becomes
        whatever the drag produces, always within 5 to 120. */
    method DragTempo(startVal: real, startY: real, clientY: real)
      requires Valid()
      modifies this`tempo, engine`currentRhythms, engine`currentTempo, engine`currentMasterVol, engine`gain
      ensures Valid() && tempo == SynthUI.LcdDrag(startVal, startY, clientY, MinTempo, MaxTempo)
      ensures engine.gain == old(engine.gain)
      ensures engine.Phases() == old(engine.Phases())
    {
      tempo := SynthUI.LcdDrag(startVal, startY, clientY, MinTempo, MaxTempo);
      Sync();
    }

    /** A turn of the master-volume knob followed by the effect: the
        volume stays within 0 to 1 and becomes the gain's target once the
        audio context exists. */
    method DragVolume(startVal: real, startY: real, clientY: real)
      requires Valid()
      modifies this`masterVolume, engine`currentRhythms, engine`currentTempo, engine`currentMasterVol, engine`gain
      ensures Valid() && masterVolume == SynthUI.KnobDrag(startVal, startY, clientY, 0.0, 1.0)
      ensures 0.0 <= masterVolume <= 1.0
      ensures engine.hasContext ==> engine.gain == masterVolume
      ensures engine.Phases() == old(engine.Phases())
    {
      masterVolume := SynthUI.KnobDrag(startVal, startY, clientY, 0.0, 1.0);
      Sync();
    }
  }
}

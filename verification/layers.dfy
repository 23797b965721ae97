/** The rhythm-layer record shared by the scheduler and the layer editor,
    and the fixed tables the editor draws new layers from. */
module Layers {

  /** One rhythmic voice. `beats` is the number of base events per master
      cycle, `speed` the multiplier applied to it. */
  datatype RhythmLayer = RhythmLayer(
    id: string,
    beats: int,
    mute: bool,
    color: string,
    volume: real,
    frequency: real,
    pan: real,
    speed: real)

  datatype Option<T> = None | Some(value: T)

  /** A partial layer: the fields a caller wants to overwrite. */
  datatype Patch = Patch(
    id: Option<string>,
    beats: Option<int>,
    mute: Option<bool>,
    color: Option<string>,
    volume: Option<real>,
    frequency: Option<real>,
    pan: Option<real>,
    speed: Option<real>)

  const NoChange: Patch := Patch(None, None, None, None, None, None, None, None)

  function Pick<T>(o: Option<T>, current: T): T {
    match o
    case Some(v) => v
    case None => current
  }

  /** Object spread `{ ...l, ...p }`: every field the patch carries wins. */
  function Merge(l: RhythmLayer, p: Patch): (r: RhythmLayer)
    ensures p.id.Some? ==> r.id == p.id.value
    ensures p.id.None? ==> r.id == l.id
    ensures p.beats.Some? ==> r.beats == p.beats.value
    ensures p.beats.None? ==> r.beats == l.beats
    ensures p.mute.Some? ==> r.mute == p.mute.value
    ensures p.mute.None? ==> r.mute == l.mute
    ensures p.color.Some? ==> r.color == p.color.value
    ensures p.color.None? ==> r.color == l.color
    ensures p.volume.Some? ==> r.volume == p.volume.value
    ensures p.volume.None? ==> r.volume == l.volume
    ensures p.frequency.Some? ==> r.frequency == p.frequency.value
    ensures p.frequency.None? ==> r.frequency == l.frequency
    ensures p.pan.Some? ==> r.pan == p.pan.value
    ensures p.pan.None? ==> r.pan == l.pan
    ensures p.speed.Some? ==> r.speed == p.speed.value
    ensures p.speed.None? ==> r.speed == l.speed
  {
    RhythmLayer(
      Pick(p.id, l.id), Pick(p.beats, l.beats), Pick(p.mute, l.mute),
      Pick(p.color, l.color), Pick(p.volume, l.volume), Pick(p.frequency, l.frequency),
      Pick(p.pan, l.pan), Pick(p.speed, l.speed))
  }

  /** `speed || 1`: a zero speed counts as 1. */
  function EffectiveSpeed(speed: real): (s: real)
    requires speed >= 0.0
    ensures s > 0.0
    ensures speed > 0.0 ==> s == speed
    ensures speed == 0.0 ==> s == 1.0
  {
    if speed == 0.0 then 1.0 else speed
  }

  /** What the scheduler needs of a layer so that a beat has a positive
      length: at least one beat and a non-negative speed. */
  predicate WellFormed(l: RhythmLayer) {
    l.beats >= 1 && l.speed >= 0.0
  }

  predicate AllWellFormed(ls: seq<RhythmLayer>) {
    forall i :: 0 <= i < |ls| ==> WellFormed(ls[i])
  }

  /** A patch keeps a well-formed layer well-formed. */
  predicate PatchWellFormed(p: Patch) {
    (p.beats.Some? ==> p.beats.value >= 1) && (p.speed.Some? ==> p.speed.value >= 0.0)
  }

  lemma MergeWellFormed(l: RhythmLayer, p: Patch)
    requires WellFormed(l) && PatchWellFormed(p)
    ensures WellFormed(Merge(l, p))
  {
  }

  /** A two-octave major pentatonic scale starting on G3, in Hz. */
  const PentatonicScale: seq<real> :=
    [196.00, 220.00, 261.63, 293.66, 329.63, 392.00, 440.00, 523.25, 587.33, 659.25]

  const Colors: seq<string> :=
    ["#FF6B6B", "#4ECDC4", "#45B7D1", "#96CEB4", "#FFEEAD", "#D4A5A5", "#9B59B6", "#3498DB"]

  /** The seed of a layer present when the application opens. */
  datatype Seed = Seed(beats: int, freq: real, color: string, speed: real)

  const InitialRhythms: seq<Seed> := [
    Seed(3, PentatonicScale[2], Colors[1], 1.0),
    Seed(4, PentatonicScale[4], Colors[2], 1.0)
  ]
}

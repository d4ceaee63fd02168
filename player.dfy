/** The sound table of the native player: the preloaded sounds with their
    volumes, the global volume bounds, and the updates that clamp a volume
    to them. Volumes are reals; rounding of the source's `float` is not
    modelled. */
module Player {
  import Wav

  /** The bounds before anyone sets them. */
  const InitialMaxVolume: real := 2.0
  const InitialMinVolume: real := 0.0

  /** The volume of a freshly loaded sound. */
  const DefaultVolume: real := 1.0

  /** The step the bindings use when the caller gives none. */
  const DefaultStep: real := 0.1

  /** A loaded sound: its format record, its samples and its volume. */
  datatype SoundData = SoundData(format: seq<Wav.byte>, buffer: seq<Wav.byte>, volume: real)

  /** The volume after a step up: the sum, capped at the ceiling. */
  function Raised(vol: real, step: real, ceiling: real): (r: real)
    ensures r <= vol + step && r <= ceiling
    ensures r == vol + step || r == ceiling
  {
    var v := vol + step;
    if v > ceiling then ceiling else v
  }

  /** The volume after a step down: the difference, held at the floor. */
  function Lowered(vol: real, step: real, floor: real): (r: real)
    ensures r >= vol - step && r >= floor
    ensures r == vol - step || r == floor
  {
    var v := vol - step;
    if v < floor then floor else v
  }

  /** The table with one sound's volume replaced; a sound that is not loaded
      is left alone, and no sound is added. */
  function WithVolume(m: map<string, SoundData>, key: string, vol: real): (r: map<string, SoundData>)
    ensures r.Keys == m.Keys
    ensures key in m ==> r[key] == m[key].(volume := vol)
    ensures forall k | k in m && k != key :: r[k] == m[k]
  {
    if key in m then m[key := m[key].(volume := vol)] else m
  }

  /** Every volume in the table lies between the bounds. */
  predicate AllWithin(m: map<string, SoundData>, floor: real, ceiling: real) {
    forall k | k in m :: floor <= m[k].volume <= ceiling
  }

  /** The two global bounds shared by every player. */
  class VolumeBounds {
    var maxValue: real
    var minValue: real

    constructor()
      ensures maxValue == InitialMaxVolume && minValue == InitialMinVolume
    {
      maxValue := InitialMaxVolume;
      minValue := InitialMinVolume;
    }
  }

  class SoundPlayer {
    var soundMap: map<string, SoundData>
    const bounds: VolumeBounds

    /** Loads every file of `sounds` (name to file contents); a file that does
        not load is skipped, the others get the default volume. */
    constructor(sounds: map<string, seq<Wav.byte>>, bounds: VolumeBounds)
      ensures this.bounds == bounds
      ensures forall k :: k in soundMap <==> k in sounds && Wav.ParseWav(sounds[k]).Ok?
      ensures forall k | k in soundMap ::
                soundMap[k] == SoundData(Wav.ParseWav(sounds[k]).value.format,
                                         Wav.ParseWav(sounds[k]).value.buffer, DefaultVolume)
    {
      var loaded: map<string, SoundData> := map[];
      var todo := sounds.Keys;
      while todo != {}
        invariant todo <= sounds.Keys
        invariant forall k :: k in loaded <==> k in sounds && k !in todo && Wav.ParseWav(sounds[k]).Ok?
        invariant forall k | k in loaded ::
                    loaded[k] == SoundData(Wav.ParseWav(sounds[k]).value.format,
                                           Wav.ParseWav(sounds[k]).value.buffer, DefaultVolume)
        decreases |todo|
      {
        var k :| k in todo;
        var r := Wav.LoadWav(sounds[k]);
        if r.Ok? {
          loaded := loaded[k := SoundData(r.value.format, r.value.buffer, DefaultVolume)];
        }
        todo := todo - {k};
      }
      soundMap := loaded;
      this.bounds := bounds;
    }

    /** Sets a loaded sound's volume as given, without clamping. */
    method SetVolume(key: string, vol: real)
      modifies this
      ensures soundMap == WithVolume(old(soundMap), key, vol)
    {
      if key in soundMap {
        soundMap := soundMap[key := soundMap[key].(volume := vol)];
      }
    }

    /** Raises a loaded sound's volume by `step`, capped at the global maximum. */
    method VolumeUp(key: string, step: real)
      modifies this
      ensures key in old(soundMap) ==>
                soundMap == WithVolume(old(soundMap), key, Raised(old(soundMap)[key].volume, step, bounds.maxValue))
      ensures key !in old(soundMap) ==> soundMap == old(soundMap)
      ensures step >= 0.0 && bounds.minValue <= bounds.maxValue &&
              AllWithin(old(soundMap), bounds.minValue, bounds.maxValue) ==>
                AllWithin(soundMap, bounds.minValue, bounds.maxValue)
    {
      if key in soundMap {
        var vol := soundMap[key].volume + step;
        if vol > bounds.maxValue {
          vol := bounds.maxValue;
        }
        soundMap := soundMap[key := soundMap[key].(volume := vol)];
      }
    }

    /** Lowers a loaded sound's volume by `step`, held at the global minimum. */
    method VolumeDown(key: string, step: real)
      modifies this
      ensures key in old(soundMap) ==>
                soundMap == WithVolume(old(soundMap), key, Lowered(old(soundMap)[key].volume, step, bounds.minValue))
      ensures key !in old(soundMap) ==> soundMap == old(soundMap)
      ensures step >= 0.0 && bounds.minValue <= bounds.maxValue &&
              AllWithin(old(soundMap), bounds.minValue, bounds.maxValue) ==>
                AllWithin(soundMap, bounds.minValue, bounds.maxValue)
    {
      if key in soundMap {
        var vol := soundMap[key].volume - step;
        if vol < bounds.minValue {
          vol := bounds.minValue;
        }
        soundMap := soundMap[key := soundMap[key].(volume := vol)];
      }
    }

    method SetMaxVolume(maxVol: real)
      modifies bounds
      ensures bounds.maxValue == maxVol && bounds.minValue == old(bounds.minValue)
    {
      bounds.maxValue := maxVol;
    }

    method SetMinVolume(minVol: real)
      modifies bounds
      ensures bounds.minValue == minVol && bounds.maxValue == old(bounds.maxValue)
    {
      bounds.minValue := minVol;
    }

    method GetMaxVolume() returns (v: real)
      ensures v == bounds.maxValue
    {
      v := bounds.maxValue;
    }

    method GetMinVolume() returns (v: real)
      ensures v == bounds.minValue
    {
      v := bounds.minValue;
    }
  }

  /** A step up keeps a volume that lies between the bounds between them. */
  lemma RaisedStaysWithin(vol: real, step: real, floor: real, ceiling: real)
    requires floor <= vol <= ceiling && step >= 0.0
    ensures floor <= Raised(vol, step, ceiling) <= ceiling
  {
  }

  /** A step down keeps a volume that lies between the bounds between them. */
  lemma LoweredStaysWithin(vol: real, step: real, floor: real, ceiling: real)
    requires floor <= vol <= ceiling && step >= 0.0
    ensures floor <= Lowered(vol, step, floor) <= ceiling
  {
  }

  /** When the maximum is set below a sound's volume, "up" lowers that sound
      to the maximum. */
  lemma RaisingAboveCeilingLowers(vol: real, step: real, ceiling: real)
    requires vol > ceiling && step >= 0.0
    ensures Raised(vol, step, ceiling) == ceiling < vol
  {
  }

  /** Away from the bounds, a step down undoes a step up, and the other way round. */
  lemma StepsUndoEachOther(vol: real, step: real, floor: real, ceiling: real)
    requires step >= 0.0 && floor <= vol && vol + step <= ceiling
    ensures Lowered(Raised(vol, step, ceiling), step, floor) == vol
    ensures Raised(Lowered(vol + step, step, floor), step, ceiling) == vol + step
  {
  }

  /** The volume after `n` steps up. */
  function RaisedTimes(vol: real, step: real, ceiling: real, n: nat): (r: real)
    ensures n > 0 ==> r <= ceiling
    ensures step >= 0.0 && vol <= ceiling ==> vol <= r
  {
    if n == 0 then vol else Raised(RaisedTimes(vol, step, ceiling, n - 1), step, ceiling)
  }

  /** The sum of `n` steps. */
  function StepsTotal(step: real, n: nat): real {
    if n == 0 then 0.0 else StepsTotal(step, n - 1) + step
  }

  /** Enough steps up reach the maximum, and further steps keep it there. */
  lemma {:induction false} RaisedTimesReachesCeiling(vol: real, step: real, ceiling: real, n: nat)
    requires step >= 0.0 && vol <= ceiling && vol + StepsTotal(step, n) >= ceiling
    ensures RaisedTimes(vol, step, ceiling, n) == ceiling
  {
    if n == 0 {
    } else if vol + StepsTotal(step, n - 1) >= ceiling {
      RaisedTimesReachesCeiling(vol, step, ceiling, n - 1);
    } else {
      RaisedTimesBelowCeiling(vol, step, ceiling, n - 1);
    }
  }

  /** While the sum stays under the maximum, `n` steps up add `n` steps. */
  lemma {:induction false} RaisedTimesBelowCeiling(vol: real, step: real, ceiling: real, n: nat)
    requires step >= 0.0 && vol + StepsTotal(step, n) <= ceiling
    ensures RaisedTimes(vol, step, ceiling, n) == vol + StepsTotal(step, n)
  {
    if n > 0 {
      RaisedTimesBelowCeiling(vol, step, ceiling, n - 1);
    }
  }

  /** A volume set outside the bounds stays there: setting does not clamp. */
  lemma SettingDoesNotClamp(m: map<string, SoundData>, key: string, vol: real, floor: real, ceiling: real)
    requires key in m && !(floor <= vol <= ceiling)
    ensures !AllWithin(WithVolume(m, key, vol), floor, ceiling)
  {
    assert WithVolume(m, key, vol)[key].volume == vol;
  }
}

/** The listener's side of the sound table: the volume settings it makes when
    it starts, and the volume keys, each of which performs at most one step
    on one sound. */
module Listener {
  import opened Wrappers
  import KeyInput
  import Player
  import Wav
  import Shot

  /** The bounds and volumes the listener sets when it starts. */
  const StartMaxVolume: real := 2.5
  const StartMinVolume: real := 0.0
  const StartGoodVolume: real := 0.3
  const StartBadVolume: real := 0.3
  const StartOverlapVolume: real := 0.6

  /** The sound an action steps, if any. */
  function Target(a: Option<KeyInput.VolumeAction>): Option<string> {
    match a
    case Some(SoundUp(s)) => Some(s)
    case Some(SoundDown(s)) => Some(s)
    case _ => None
  }

  /** The sound table after an action with the default step: a step up or
      down on its sound, and nothing for a master action or no action. */
  function TableAfter(m: map<string, Player.SoundData>, a: Option<KeyInput.VolumeAction>,
                      floor: real, ceiling: real): (r: map<string, Player.SoundData>)
    ensures r.Keys == m.Keys
    ensures forall k | k in m && Target(a) != Some(k) :: r[k] == m[k]
    ensures forall s | a == Some(KeyInput.SoundUp(s)) && s in m ::
              r[s] == m[s].(volume := Player.Raised(m[s].volume, Player.DefaultStep, ceiling))
    ensures forall s | a == Some(KeyInput.SoundDown(s)) && s in m ::
              r[s] == m[s].(volume := Player.Lowered(m[s].volume, Player.DefaultStep, floor))
  {
    match a
    case Some(SoundUp(s)) =>
      if s in m then Player.WithVolume(m, s, Player.Raised(m[s].volume, Player.DefaultStep, ceiling)) else m
    case Some(SoundDown(s)) =>
      if s in m then Player.WithVolume(m, s, Player.Lowered(m[s].volume, Player.DefaultStep, floor)) else m
    case _ => m
  }

  /** Performs the action bound to `name`: the first binding in the dispatch
      order that equals it decides, and a name bound to nothing does nothing. */
  method HandleVolume(player: Player.SoundPlayer, name: string, b: KeyInput.Bindings)
    modifies player
    ensures player.soundMap ==
              TableAfter(old(player.soundMap), KeyInput.ActionFor(name, b),
                         player.bounds.minValue, player.bounds.maxValue)
  {
    var action := KeyInput.ActionFor(name, b);
    match action {
      case Some(SoundUp(s)) =>
        player.VolumeUp(s, Player.DefaultStep);
      case Some(SoundDown(s)) =>
        player.VolumeDown(s, Player.DefaultStep);
      case _ =>
    }
  }

  /** A key press: the volume key it names, if any, performs its action. */
  method OnKeyPress(player: Player.SoundPlayer, ch: Option<string>, vk: Option<int>, b: KeyInput.Bindings)
    modifies player
    ensures player.soundMap ==
              match KeyInput.VolumeKeyName(ch, vk, b)
              case None => old(player.soundMap)
              case Some(name) =>
                TableAfter(old(player.soundMap), KeyInput.ActionFor(name, b),
                           player.bounds.minValue, player.bounds.maxValue)
  {
    var name := KeyInput.VolumeKeyName(ch, vk, b);
    if name.Some? {
      HandleVolume(player, name.value, b);
    }
  }

  /** The table with three distinct sounds' volumes replaced. */
  function WithVolumes(m: map<string, Player.SoundData>, k1: string, v1: real, k2: string, v2: real,
                       k3: string, v3: real): (r: map<string, Player.SoundData>)
    requires k1 != k2 && k1 != k3 && k2 != k3
    ensures r.Keys == m.Keys
    ensures forall k | k in m :: r[k] == m[k].(volume := r[k].volume)
    ensures forall k | k in m && k != k1 && k != k2 && k != k3 :: r[k] == m[k]
    ensures k1 in m ==> r[k1].volume == v1
    ensures k2 in m ==> r[k2].volume == v2
    ensures k3 in m ==> r[k3].volume == v3
  {
    var with1 := Player.WithVolume(m, k1, v1);
    var with2 := Player.WithVolume(with1, k2, v2);
    Player.WithVolume(with2, k3, v3)
  }

  /** The table after the start-up volumes: the three cues that are loaded get
      their start volumes, which lie within the start-up bounds; formats and
      samples, and every other sound, are unchanged. */
  function StartVolumes(m: map<string, Player.SoundData>): (r: map<string, Player.SoundData>)
    ensures r.Keys == m.Keys
    ensures forall k | k in m :: r[k] == m[k].(volume := r[k].volume)
    ensures forall k | k in m && k != Shot.GoodSound && k != Shot.BadSound && k != Shot.OverlapSound ::
              r[k] == m[k]
    ensures Shot.GoodSound in m ==> r[Shot.GoodSound].volume == StartGoodVolume
    ensures Shot.BadSound in m ==> r[Shot.BadSound].volume == StartBadVolume
    ensures Shot.OverlapSound in m ==> r[Shot.OverlapSound].volume == StartOverlapVolume
    ensures m.Keys <= {Shot.GoodSound, Shot.BadSound, Shot.OverlapSound} ==>
              Player.AllWithin(r, StartMinVolume, StartMaxVolume)
  {
    assert Shot.GoodSound[0] != Shot.BadSound[0] && Shot.GoodSound[0] != Shot.OverlapSound[0]
        && Shot.BadSound[0] != Shot.OverlapSound[0];
    WithVolumes(m, Shot.GoodSound, StartGoodVolume, Shot.BadSound, StartBadVolume,
                Shot.OverlapSound, StartOverlapVolume)
  }

  /** Loads the three cues and sets the start-up bounds and volumes. */
  method Start(good: seq<Wav.byte>, bad: seq<Wav.byte>, overlap: seq<Wav.byte>)
    returns (player: Player.SoundPlayer)
    ensures fresh(player) && fresh(player.bounds)
    ensures player.bounds.maxValue == StartMaxVolume && player.bounds.minValue == StartMinVolume
    ensures player.soundMap.Keys <= {Shot.GoodSound, Shot.BadSound, Shot.OverlapSound}
    ensures Shot.GoodSound in player.soundMap <==> Wav.ParseWav(good).Ok?
    ensures Shot.BadSound in player.soundMap <==> Wav.ParseWav(bad).Ok?
    ensures Shot.OverlapSound in player.soundMap <==> Wav.ParseWav(overlap).Ok?
    ensures Shot.GoodSound in player.soundMap ==>
              player.soundMap[Shot.GoodSound] ==
                Player.SoundData(Wav.ParseWav(good).value.format, Wav.ParseWav(good).value.buffer, StartGoodVolume)
    ensures Shot.BadSound in player.soundMap ==>
              player.soundMap[Shot.BadSound] ==
                Player.SoundData(Wav.ParseWav(bad).value.format, Wav.ParseWav(bad).value.buffer, StartBadVolume)
    ensures Shot.OverlapSound in player.soundMap ==>
              player.soundMap[Shot.OverlapSound] ==
                Player.SoundData(Wav.ParseWav(overlap).value.format, Wav.ParseWav(overlap).value.buffer,
                                 StartOverlapVolume)
    ensures Player.AllWithin(player.soundMap, player.bounds.minValue, player.bounds.maxValue)
  {
    var files := map[Shot.GoodSound := good, Shot.BadSound := bad, Shot.OverlapSound := overlap];
    var bounds := new Player.VolumeBounds();
    player := new Player.SoundPlayer(files, bounds);
    ghost var loaded := player.soundMap;
    assert loaded.Keys <= {Shot.GoodSound, Shot.BadSound, Shot.OverlapSound};
    assert files[Shot.GoodSound] == good && files[Shot.BadSound] == bad && files[Shot.OverlapSound] == overlap;
    player.SetMaxVolume(StartMaxVolume);
    player.SetMinVolume(StartMinVolume);
    // the master volume is set to 1 here; the mastering voice is not modelled
    player.SetVolume(Shot.GoodSound, StartGoodVolume);
    player.SetVolume(Shot.BadSound, StartBadVolume);
    player.SetVolume(Shot.OverlapSound, StartOverlapVolume);
    assert player.soundMap == StartVolumes(loaded);
  }

  /** Stepping with the default step keeps every volume within the bounds
      that hold it. */
  lemma TableAfterStaysWithin(m: map<string, Player.SoundData>, a: Option<KeyInput.VolumeAction>,
                              floor: real, ceiling: real)
    requires floor <= ceiling && Player.AllWithin(m, floor, ceiling)
    ensures Player.AllWithin(TableAfter(m, a, floor, ceiling), floor, ceiling)
  {
    var r := TableAfter(m, a, floor, ceiling);
    forall k | k in r
      ensures floor <= r[k].volume <= ceiling
    {
      if Target(a) == Some(k) {
        Player.RaisedStaysWithin(m[k].volume, Player.DefaultStep, floor, ceiling);
        Player.LoweredStaysWithin(m[k].volume, Player.DefaultStep, floor, ceiling);
      }
    }
  }

  /** A name bound to no volume key leaves the table as it is. */
  lemma UnboundNameChangesNothing(m: map<string, Player.SoundData>, name: string, b: KeyInput.Bindings,
                                  floor: real, ceiling: real)
    requires name !in KeyInput.Keys(b)
    ensures TableAfter(m, KeyInput.ActionFor(name, b), floor, ceiling) == m
  {
  }
}

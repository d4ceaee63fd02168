/**
 * Which volume action a key press asks for (input_events.py, the volume part of
 * `_on_key_press` and `_handle_volume`).
 *
 * The eight volume key names come from the configuration, already lower-cased;
 * here they are a `Bindings` value.
 */
module KeyInput {
  import opened Wrappers

  /** The configured key names of the eight volume actions (`VOLUME_KEYS`). */
  datatype Bindings = Bindings(
    masterUp: string, masterDown: string,
    badUp: string, badDown: string,
    overlapUp: string, overlapDown: string,
    goodUp: string, goodDown: string)

  /** The bindings written to a fresh configuration file (config.py). */
  const DefaultBindings: Bindings :=
    Bindings("kp+", "kp-", "kp1", "kp2", "kp4", "kp5", "kp7", "kp8")

  /** A volume action: the master volume, or the volume of one named sound. */
  datatype VolumeAction = MasterUp | MasterDown | SoundUp(sound: string) | SoundDown(sound: string)

  /** The actions in the order the dispatch tests their keys. */
  const DispatchOrder: seq<VolumeAction> := [
    MasterUp, MasterDown,
    SoundUp("bad"), SoundDown("bad"),
    SoundUp("overlap"), SoundDown("overlap"),
    SoundUp("good"), SoundDown("good")]

  /** The configured key names, in the same order as `DispatchOrder`. */
  function Keys(b: Bindings): seq<string> {
    [b.masterUp, b.masterDown, b.badUp, b.badDown, b.overlapUp, b.overlapDown, b.goodUp, b.goodDown]
  }

  /** The action for a key name (`_handle_volume`): the first binding, in dispatch
      order, that equals the name; none when no binding does. */
  function ActionFor(name: string, b: Bindings): (r: Option<VolumeAction>)
    ensures r.None? <==> name !in Keys(b)
    ensures r.Some? ==>
      exists i | 0 <= i < |DispatchOrder| ::
        DispatchOrder[i] == r.value && Keys(b)[i] == name &&
        forall j | 0 <= j < i :: Keys(b)[j] != name
  {
    var keys := Keys(b);
    if name == b.masterUp then assert keys[0] == name; Some(MasterUp)
    else if name == b.masterDown then assert keys[1] == name; Some(MasterDown)
    else if name == b.badUp then assert keys[2] == name; Some(SoundUp("bad"))
    else if name == b.badDown then assert keys[3] == name; Some(SoundDown("bad"))
    else if name == b.overlapUp then assert keys[4] == name; Some(SoundUp("overlap"))
    else if name == b.overlapDown then assert keys[5] == name; Some(SoundDown("overlap"))
    else if name == b.goodUp then assert keys[6] == name; Some(SoundUp("good"))
    else if name == b.goodDown then assert keys[7] == name; Some(SoundDown("good"))
    else None
  }

  /** When two actions share a key, the one tested first wins. */
  lemma SharedKeyGoesToFirstAction(b: Bindings)
    requires b.goodUp == b.badUp
    ensures ActionFor(b.goodUp, b) != Some(SoundUp("good"))
  {
  }

  /** The numeric-keypad virtual-key codes the listener recognises (`NUMPAD_KEY_MAP`). */
  const NumpadKeyMap: map<int, string> := map[
    107 := "kp+", 109 := "kp-",
    97 := "kp1", 98 := "kp2",
    100 := "kp4", 101 := "kp5",
    103 := "kp7", 104 := "kp8"]

  /** The name of a keypad key, by virtual-key code. */
  function NumpadName(vk: int): (r: Option<string>)
    ensures r.Some? <==> vk in {97, 98, 100, 101, 103, 104, 107, 109}
    ensures r.Some? ==> |r.value| == 3 && r.value[..2] == "kp"
  {
    if vk in NumpadKeyMap then Some(NumpadKeyMap[vk]) else None
  }

  /** No two keypad keys share a name. */
  lemma NumpadNamesDistinct(vk1: int, vk2: int)
    requires vk1 != vk2 && NumpadName(vk1).Some?
    ensures NumpadName(vk1) != NumpadName(vk2)
  {
  }

  /** ASCII lower-casing of one character. */
  function LowerChar(c: char): char {
    if 'A' <= c <= 'Z' then (c as int + 32) as char else c
  }

  /** ASCII lower-casing of a string: same length, no upper-case ASCII letter
      left, every other character kept. */
  function Lower(s: string): (r: string)
    ensures |r| == |s|
    ensures forall i | 0 <= i < |r| :: !('A' <= r[i] <= 'Z')
    ensures forall i | 0 <= i < |s| && !('A' <= s[i] <= 'Z') :: r[i] == s[i]
    ensures forall i | 0 <= i < |s| && 'A' <= s[i] <= 'Z' :: r[i] as int == s[i] as int + ('a' as int - 'A' as int)
  {
    seq(|s|, i requires 0 <= i < |s| => LowerChar(s[i]))
  }

  /** Lower-casing a lower-cased name changes nothing. */
  lemma LowerIsIdempotent(s: string)
    ensures Lower(Lower(s)) == Lower(s)
  {
  }

  /** The volume key name a key press is dispatched with, if any.  A press carries
      an optional character and an optional virtual-key code; the lower-cased
      character is tried first, then the keypad name of the code. */
  function VolumeKeyName(ch: Option<string>, vk: Option<int>, b: Bindings): (r: Option<string>)
    ensures r.Some? ==> r.value in Keys(b)
    // a non-empty character that lower-cases to a bound name wins
    ensures ch.Some? && ch.value != "" && Lower(ch.value) in Keys(b) ==> r == Some(Lower(ch.value))
    // otherwise the keypad name of the code is used when it is bound
    ensures r.Some? && !(ch.Some? && ch.value != "" && Lower(ch.value) in Keys(b)) ==>
              vk.Some? && NumpadName(vk.value) == r
    ensures r.None? ==> vk.None? || NumpadName(vk.value).None? || NumpadName(vk.value).value !in Keys(b)
  {
    if ch.Some? && ch.value != "" && Lower(ch.value) in Keys(b) then Some(Lower(ch.value))
    else if vk.Some? && vk.value in NumpadKeyMap && NumpadKeyMap[vk.value] in Keys(b) then
      Some(NumpadKeyMap[vk.value])
    else None
  }

  /** The keypad codes of the default bindings, in dispatch order. */
  const DefaultPadCodes: seq<int> := [107, 109, 97, 98, 100, 101, 103, 104]

  /** With the default bindings, the eight keypad keys select the eight actions
      in dispatch order, each a different one. */
  lemma DefaultKeypadSelectsEveryAction()
    ensures forall i | 0 <= i < |DefaultPadCodes| ::
              ActionFor(VolumeKeyName(None, Some(DefaultPadCodes[i]), DefaultBindings).value, DefaultBindings)
                == Some(DispatchOrder[i])
  {
    var keys := Keys(DefaultBindings);
    // the default key names differ in their last character
    assert forall k, l | 0 <= k < l < |keys| :: keys[k][2] != keys[l][2];
    forall i | 0 <= i < |DefaultPadCodes|
      ensures VolumeKeyName(None, Some(DefaultPadCodes[i]), DefaultBindings) == Some(keys[i])
    {
    }
  }

  /** A character key whose lower case is not bound does nothing when its code
      is outside the keypad table. */
  lemma UnboundKeyDoesNothing(c: string, vk: int, b: Bindings)
    requires c != "" && Lower(c) !in Keys(b) && vk !in NumpadKeyMap
    ensures VolumeKeyName(Some(c), Some(vk), b) == None
  {
  }

  /** For instance "W" under the default bindings, whatever its non-keypad code. */
  lemma UnboundLetterDoesNothing(vk: int)
    requires vk !in NumpadKeyMap
    ensures VolumeKeyName(Some("W"), Some(vk), DefaultBindings) == None
  {
    assert Lower("W") == "w";
    UnboundKeyDoesNothing("W", vk, DefaultBindings);
  }
}

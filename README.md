# cStrafe shot feedback: verdicts, volume keys, WAV loading and the sound table

This project models the core of a counter-strafe trainer.

- **Shot verdicts.** When the left mouse button is pressed, the input listener takes the raw classification of the shot and refines it into a final verdict (`Overlap`, `Counter‑strafe` or `Bad`). The refinement uses two fixed latency thresholds: 230 ms, and 215 ms/215 ms. The listener then plays one sound cue for the verdict.
- **Volume keys.** A key press can name a volume key, either through its character or through its numeric-keypad virtual-key code. The listener dispatches it to the first matching action in a fixed order: master up/down, then bad, overlap and good up/down.
- **WAV loading.** The native sound player preloads one WAV file per sound. Its loader walks the RIFF/WAVE chunk layout: the `RIFF` and `WAVE` magic, the format chunk, a scan over chunks up to `data`, and the sample bytes.
- **The sound table.** The player keeps a table from sound name to loaded sound and volume. Global minimum and maximum volumes bound the "up" and "down" steps. A direct "set" is not clamped.

Modules, one per concern:

- `Wrappers` (wrappers.dfy): `Option` and `Result`.
- `Shot` (shot.dfy): label strings, the classification record, the refinement policy and the cue choice.
- `KeyInput` (keyinput.dfy): volume key bindings, the numeric-keypad table, key-name resolution and the ordered dispatch.
- `Wav` (wav.dfy): the loader.
  - `ParseWav` is a function on the file's bytes.
  - `LoadWav`, `SkipToData` and `ReadDataChunk` are methods with the source's cursor, its `while` loop over chunk ids and its data read, proved equal to `ParseWav`.
  - A writer (`BuildWav`) states the round trip.
  - A model of the C++ stream, as the source reads it, shows the second and third findings below (the scan that spins and the torn chunk id).
- `Player` (player.dfy):
  - `VolumeBounds` holds the two globals `g_volume_max_value` and `g_volume_min_value`.
  - The `SoundPlayer` class holds `sound_map`. Its methods update the map in place.
- `Listener` (listener.dfy): the listener's start-up volume settings, `_handle_volume` run against the player, and a key press end to end.

Three behaviours of the refinement policy shape the model:

- The counter-strafe label is spelled `Counter‑strafe`, with U+2011 NON-BREAKING HYPHEN. Any other spelling, the ASCII hyphen included, grades as `Bad`.
- An `Overlap` verdict keeps only its `overlap_time`; its `cs_time` and `shot_delay` are dropped.
- Every label other than `Overlap` and `Counter‑strafe` becomes `Bad` with no fields.

Volumes and times are `real`, because only additions and comparisons are made on them. The default step of 0.1 that the Python bindings supply is `Player.DefaultStep`.

## Model

| member | source | states |
|---|---|---|
| Shot.ParseLabel | input_events.py:165-167 | a label string is `Overlap`, `Counter‑strafe` (U+2011) or `Bad` exactly when it equals that spelling; every other string is `Other` |
| Shot.LabelTextRoundTrip | input_events.py:165-175 | every label string the policy writes is recognised as that same label by the string tests that choose the cue (input_events.py:129-134) |
| Shot.AsciiHyphenIsNotCounterStrafe | input_events.py:167-175 | "Counter-strafe" with an ASCII hyphen is not recognised, and its shot grades as `Bad` with no fields, even with good timings |
| Shot.BuildClassification | input_events.py:164-175 | an overlap keeps only its overlap time; the result is `Overlap` iff the input is; it is `Counter‑strafe` iff the input is a counter-strafe with both times present and not too slow; it is never unrecognised; a graded counter-strafe keeps both times; anything ungraded carries none |
| Shot.LateShotIsBad | input_events.py:170-172 | a counter-strafe with a shot delay over 230 ms is `Bad` with both times unchanged |
| Shot.SlowReversalIsBad | input_events.py:171-172 | a reversal over 215 ms followed by a delay over 215 ms is `Bad` with both times, even when the delay is at most 230 ms |
| Shot.BoundariesStayGood | input_events.py:171-173 | the comparisons are strict: a delay of exactly 230 ms with a reversal of at most 215 ms, or both times exactly 215 ms, stay `Counter‑strafe` |
| Shot.CuesFor | input_events.py:129-134 | the three label tests play at most one cue: "good" iff `Counter‑strafe`, "bad" iff `Bad`, "overlap" iff `Overlap`, none iff the label is unrecognised |
| Shot.EveryShotPlaysOneCue | input_events.py:125-134 | every shot plays exactly one of the three cues, "good" iff the raw counter-strafe grades as good, "overlap" iff the raw label is an overlap |
| KeyInput.ActionFor | input_events.py:146-162 | a name gives no action iff it equals none of the eight bound key names; otherwise it gives the action at the first position, in dispatch order, whose binding equals it |
| KeyInput.SharedKeyGoesToFirstAction | input_events.py:151-160 | when "good up" and "bad up" share a key, the key never raises "good" |
| KeyInput.NumpadName | input_events.py:84-97 | exactly the eight keypad codes 97, 98, 100, 101, 103, 104, 107 and 109 have a name, and each name is "kp" and one character |
| KeyInput.NumpadNamesDistinct | input_events.py:85-94 | no two keypad codes share a name |
| KeyInput.Lower | input_events.py:76 | lower-casing keeps the length, leaves no upper-case ASCII letter, turns each upper-case ASCII letter into its own lower-case letter and keeps every other character |
| KeyInput.LowerIsIdempotent | input_events.py:76 | lower-casing an already lower-cased name changes nothing |
| KeyInput.VolumeKeyName | input_events.py:60-101 | a resolved name is always a bound name; a non-empty character whose lower case is bound wins; otherwise the bound keypad name of the code is used; nothing is resolved when neither path gives a bound name |
| KeyInput.DefaultKeypadSelectsEveryAction | config.py:18-25 | with the default bindings, the eight keypad keys select the eight dispatch actions in order |
| KeyInput.UnboundKeyDoesNothing | input_events.py:68-101 | under any bindings, a non-empty character whose lower case is not bound, with a code outside the keypad table, resolves to no volume key |
| KeyInput.UnboundLetterDoesNothing | input_events.py:68-101 | "W" under the default bindings, with a code outside the keypad table, resolves to no volume key |
| Wav.U32At | cpp_source/sound_player.cpp:43 | a little-endian `uint32_t` read from four bytes is below 2^32; `Wav.U32Bytes` is its inverse |
| Wav.IdAtSlice | cpp_source/sound_player.cpp:49 | the `memcmp` of four bytes against a chunk id (`Wav.IdAt`) holds exactly when those bytes are the id |
| Wav.U32BytesOfU32At | cpp_source/sound_player.cpp:43 | encoding the number read from four bytes gives those four bytes back, so `Wav.U32At` and `Wav.U32Bytes` are inverse both ways |
| Wav.U32Bytes | cpp_source/sound_player.cpp:42-43 | the four little-endian bytes of a 32-bit number read back as that number |
| Wav.ReadPadded | cpp_source/sound_player.cpp:59-60 | a read of n bytes into a zero-filled buffer has length n, holds the file's bytes as far as they go, and zeros after |
| Wav.FindData | cpp_source/sound_player.cpp:46-54 | a successful scan ends just after a "data" id inside the file; the only failure is a missing data chunk |
| Wav.DataBody | cpp_source/sound_player.cpp:56-60 | the size is the size field's bytes read over a zero initialiser, so a size field cut off by the end of the file keeps only the bytes it has; the buffer is exactly that long, holds the bytes after the size field as far as the file has them, and is zero beyond the file's end |
| Wav.ReadDataChunk | cpp_source/sound_player.cpp:56-60 | the two stream reads of the source, the size over a zeroed `uint32_t` and the payload into a buffer resized to that many zeros, give exactly `DataBody` |
| Wav.ParseWav | cpp_source/sound_player.cpp:26-63 | bytes 0-3 other than "RIFF" fail; bytes 8-11 other than "WAVE" fail; on success the format record is the format chunk's body then zeros, and the buffer has the data size read over zeros, the bytes after the size field as far as the file has them, and zeros beyond the file's end; with the header accepted, failure happens iff the scan finds no data chunk |
| Wav.LoadWav | cpp_source/sound_player.cpp:26-63 | the cursor-advancing loader returns exactly `ParseWav` of the file's bytes |
| Wav.SkipToData | cpp_source/sound_player.cpp:46-54 | the `while` loop over chunk ids stops where `FindData` does, or fails where it does |
| Wav.FindDataSkipsOne | cpp_source/sound_player.cpp:49-53 | a chunk whose id is not "data" is skipped by exactly 8 bytes plus its declared size |
| Wav.FindDataReadsFrom | cpp_source/sound_player.cpp:46-54 | the scan's result depends only on the bytes from its start onwards |
| Wav.DataBodyReadsFrom | cpp_source/sound_player.cpp:56-60 | the data read depends only on the bytes from its position onwards |
| Wav.IgnoredHeaderBytes | cpp_source/sound_player.cpp:30-41 | bytes 4-7, the RIFF size, and 12-15, the format chunk's id, never change the loader's result |
| Wav.FindDataSkipsChain | cpp_source/sound_player.cpp:46-54 | a run of stored chunks that are not "data" is skipped chunk by chunk, and the scan stops at the "data" id after them |
| Wav.ParseBuiltWav | cpp_source/sound_player.cpp:26-63 | for any RIFF size, format-chunk id, format body of at most 18 bytes, chunks to skip, payload and trailing bytes, the loader returns the format body padded with zeros and exactly the payload |
| Wav.StreamRead | cpp_source/sound_player.cpp:48-53 | a read on a failed stream changes neither the stream nor the destination; a full read advances the cursor and stores the file's bytes; a short read fails the stream at the end of the file and stores the bytes left followed by the destination's old tail |
| Wav.StreamIgnore | cpp_source/sound_player.cpp:52 | skipping on a failed stream changes nothing; a skip inside the file advances by the count; a skip past the end fails the stream at the end of the file |
| Wav.ScanStepAsWritten | cpp_source/sound_player.cpp:50-53 | one pass of the source's loop body leaves the stream inside the file and the id four bytes long |
| Wav.ScanStepAgreesWithFindData | cpp_source/sound_player.cpp:49-54 | while the file has the bytes, one pass of the source's loop moves to the chunk that `FindData` moves to |
| Wav.FailedScanNeverExits | cpp_source/sound_player.cpp:49-54 | once the stream has failed, a pass of the loop changes neither the stream nor the id |
| Wav.MissingDataChunkSpins | cpp_source/sound_player.cpp:49-54 | on a file with no data chunk, the source's loop reaches a failed stream holding "LIST" and is then at a fixed point; the model refuses the file |
| Wav.TornIdEndsScan | cpp_source/sound_player.cpp:49-57 | on a file cut off two bytes into its last chunk id, the short read completes "data" from the previous id's tail, the loop ends on a failed stream and the size read leaves zero, so the source accepts the file with an empty buffer; the model refuses the file |
| Wav.FormatCopyAsWritten | cpp_source/sound_player.cpp:44 | the source copies all `fmt_size` bytes of the format chunk that the file has, with no bound |
| Wav.ExtensibleFormatOverflows | cpp_source/sound_player.cpp:44 | an extensible file's 40-byte format chunk is copied whole into the 18-byte record; the model refuses the file |
| Player.Raised | cpp_source/sound_player.cpp:124-126 | the stepped-up volume is the smaller of volume plus step and the maximum |
| Player.Lowered | cpp_source/sound_player.cpp:133-135 | the stepped-down volume is the larger of volume minus step and the minimum |
| Player.WithVolume | cpp_source/sound_player.cpp:110-112 | replacing one sound's volume keeps the set of sounds, changes only that sound's volume, and leaves a missing sound alone |
| Player.VolumeBounds.constructor | cpp_source/sound_player.cpp:7-8 | the bounds start at 2.0 and 0.0 |
| Player.SoundPlayer.constructor | cpp_source/sound_player.cpp:76-84 | exactly the sounds whose files load are in the table, each with its loaded format and samples and volume 1.0 |
| Player.SoundPlayer.SetVolume | cpp_source/sound_player.cpp:110-112 | only an existing sound's volume changes, to the value given, unclamped; no sound is added |
| Player.SoundPlayer.VolumeUp | cpp_source/sound_player.cpp:122-129 | a present sound's volume becomes `min(old + step, max)` and nothing else changes; a missing sound leaves the table unchanged; a non-negative step keeps all volumes within the bounds |
| Player.SoundPlayer.VolumeDown | cpp_source/sound_player.cpp:131-138 | a present sound's volume becomes `max(old - step, min)` and nothing else changes; a missing sound leaves the table unchanged; a non-negative step keeps all volumes within the bounds |
| Player.SoundPlayer.SetMaxVolume | cpp_source/sound_player.cpp:10-12 | the maximum becomes the value given; the minimum is unchanged |
| Player.SoundPlayer.SetMinVolume | cpp_source/sound_player.cpp:14-16 | the minimum becomes the value given; the maximum is unchanged |
| Player.SoundPlayer.GetMaxVolume | cpp_source/sound_player.cpp:18-20 | returns the current maximum, the last value set |
| Player.SoundPlayer.GetMinVolume | cpp_source/sound_player.cpp:22-24 | returns the current minimum, the last value set |
| Player.RaisedStaysWithin | cpp_source/sound_player.cpp:122-129 | a step up with a non-negative step keeps a volume between the bounds |
| Player.LoweredStaysWithin | cpp_source/sound_player.cpp:131-138 | a step down with a non-negative step keeps a volume between the bounds |
| Player.RaisingAboveCeilingLowers | cpp_source/sound_player.cpp:124-126 | after the maximum is set below a sound's volume, "up" lowers that volume to the maximum |
| Player.StepsUndoEachOther | cpp_source/sound_player.cpp:122-138 | away from the bounds, a step down undoes a step up and a step up undoes a step down |
| Player.RaisedTimes | cpp_source/sound_player.cpp:122-129 | after one or more steps up the volume is at most the maximum, and from a volume at most the maximum, with a non-negative step, it never falls below the start |
| Player.RaisedTimesReachesCeiling | cpp_source/sound_player.cpp:124-126 | once n steps add up to the gap, n presses of "up" leave the volume at the maximum |
| Player.RaisedTimesBelowCeiling | cpp_source/sound_player.cpp:124-125 | while the sum stays within the maximum, n presses of "up" add exactly n steps |
| Player.SettingDoesNotClamp | cpp_source/sound_player.cpp:110-112 | a volume set outside the bounds leaves the table outside the bounds |
| Listener.TableAfter | input_events.py:146-162 | after a volume action the table has the same sounds; only the action's sound changes, by one default step up or down, clamped; master actions and no action change nothing |
| Listener.HandleVolume | input_events.py:146-162 | the player's table afterwards is `TableAfter` of the action the name selects, with the player's bounds |
| Listener.OnKeyPress | input_events.py:60-101 | a press that resolves to no volume key leaves the table alone; one that does runs that key's action |
| Listener.WithVolumes | input_events.py:35-37 | three set-volume calls on distinct sounds keep the set of sounds and each record's format and samples, give each present sound its volume and leave every other sound alone |
| Listener.StartVolumes | input_events.py:35-37 | the start-up volumes 0.3, 0.3 and 0.6 are given to whichever of "good", "bad" and "overlap" are loaded, and they lie within 0 and 2.5; formats, samples and all other sounds are unchanged |
| Listener.Start | input_events.py:26-37 | the player holds exactly the cues whose files load, each with its file's loaded format and samples and its start volume 0.3, 0.3 or 0.6; the bounds are 2.5 and 0; every volume is within the bounds |
| Listener.TableAfterStaysWithin | input_events.py:146-162 | a volume key keeps every volume within bounds that held them |
| Listener.UnboundNameChangesNothing | input_events.py:146-162 | a name bound to no action leaves the table unchanged |

## Left out

- classifier.py is not part of this model: the key timeline, `classify_shot`, `on_press` and `on_release`. The raw classification is any `Shot.Classification` value.
- The `shot_time` argument of `_build_classification` (input_events.py:164) is never used. `Shot.BuildClassification` does not take it.
- The keyboard and mouse listeners, the lock, and `start`/`stop` (input_events.py:39-48, 138-144) are not modelled: they are OS hooks and thread locking.
- `_on_key_release` is not modelled. Neither are the overlay toggle and terminate keys (input_events.py:51-58) or the movement keys passed to the classifier (input_events.py:72-74). They drive the overlay and the classifier, which are outside this model.
- The print and `std::cout` output, and the overlay update after a click (input_events.py:136), are not modelled.
- XAudio2, COM, `play`, the job queue, the worker thread and the destructor (cpp_source/sound_player.cpp:65-75, 86-108, 163-197) are not modelled. They are a foreign audio API and concurrency.
- The master volume lives in the XAudio2 mastering voice (cpp_source/sound_player.cpp:116-120 and 140-160, input_events.py:34) and is not modelled.
- Listener.HandleVolume: for the master up/down keys the sound table stays unchanged, and the master volume's new value is not modelled.
- Opening the file (cpp_source/sound_player.cpp:27-28) is not modelled. The loader and `Player.SoundPlayer.constructor` take each file's contents as bytes instead of a path.
- Float rounding is not modelled: volumes and times are `real`.
- KeyInput.Lower, KeyInput.VolumeKeyName: lower-casing is ASCII only. Python's Unicode `lower()` also lowers non-ASCII capitals ("Ä" to "ä"); the model keeps them.
- Wav.ParseWav: a file that ends inside the fixed header or the format chunk gives `Truncated`. In the source, the magic compare then reads partly uninitialised bytes, or the scan runs on a failed stream.
- Wav.ParseWav: a format chunk larger than 18 bytes gives `FormatTooLarge`, where the source overflows the record (Findings).
- Wav.ParseWav: a file with no data chunk gives `NoDataChunk`. The source then loops forever, or, when a short read at the end of the file completes "data" from the previous id's remaining bytes, accepts the file with an empty buffer (Findings).
- Wav.ParseWav: when a load fails, the source has already written part of the discarded `SoundData`. The model does not show those partial writes.
- RIFF's padding of odd-sized chunks to even length is ignored, as in the source.
- `Player.SoundPlayer.constructor` does not load the files in `std::map` key order, but the keys are distinct, so the resulting table is the same.

## Findings

| source | as written | input that shows it | evidently intended | confidence | as-written member | corrected member |
|---|---|---|---|---|---|---|
| cpp_source/sound_player.cpp:44 | reads `fmt_size` bytes into the 18-byte `WAVEFORMATEX` with no bound | `Wav.ExtensibleWav`: a WAVE_FORMAT_EXTENSIBLE file whose format chunk is 40 bytes | refuse, or bound the copy by, a format chunk larger than the record | not executed | Wav.ExtensibleFormatOverflows | Wav.ParseWav |
| cpp_source/sound_player.cpp:49-54 | the chunk scan never checks the stream, so once a read fails with an id other than "data" it repeats with that id forever | `Wav.NoDataWav`: 28 bytes with a format chunk and a "LIST" chunk but no "data" chunk | fail when the file ends before a "data" id | not executed | Wav.MissingDataChunkSpins | Wav.FindData |
| cpp_source/sound_player.cpp:49-57 | a short read of the last chunk id keeps the previous id's remaining bytes; when they complete "data" the loop ends, the size read fails and leaves zero, and the file loads with an empty buffer | `Wav.TornDataWav`: 30 bytes ending in a "xxta" chunk and the two bytes "da" | fail when the file ends before a whole "data" id | not executed | Wav.TornIdEndsScan | Wav.FindData |

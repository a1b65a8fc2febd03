# Audio Loop Station — a verified model of the looper core

This project models, in Dafny, the core of the Audio Loop Station, a
Python audio looper. There are three modules, one for each core source file.

* **`LoopEngine`** (`loop_machine.dfy`, from `LoopMachine.py`) covers:
  * the loop geometry constants and the generated metronome click track;
  * the `Track` record: its defaults, its pitch-0 effect pass and its label;
  * the `LoopMachine` object.

  The `LoopMachine` arms a punch-in or punch-out checkpoint at a
  latency-compensated position. Its per-block `audio_callback` does five things:
  1. fires the armed action when the checkpoint falls in the block's cyclic window;
  2. writes the input block into the recording track's one-loop buffer, splitting the write at the end;
  3. mixes the click and every audible track into an int16 accumulator, zero-padding reads past the end of a buffer;
  4. clips the mix;
  5. advances the position.

  `LoopMachine` and `Track` are classes, and each track buffer is an `array`.
  The callback is split into `ResolveCheckpoint`, `Record`, `MixBlock`
  (with the track loop in `AddTracks`), `Capture` and `PlayBlock`, which
  `AudioCallback` composes. Every output sample is specified by
  `MixedSample`, a function of the machine's state.
* **`TrackLayout`** (`layout.dfy`, from `assets/layout.py`) covers `map_tracks` and
  the ordering and count logic of `update_track_section`:
  * the uids of recorded tracks replace `Dummy_` placeholders;
  * the result is numbered from 1 through an insertion-ordered dict;
  * one section is emitted per numbered track, newest first.

  These are pure functions.
* **`LoopState`** (`loop_state.dfy`, from `loop.py`) covers the `Loop` state holder:
  * its play, pause and stop flags and its playhead;
  * its track list, with mute, unmute, add, remove and discard-unfinished operations.

  Tracks are records `(uid, muted, fileLoaded)`. The track-list methods
  (stop recording, mute, unmute, add, remove) are each proved against a
  specification function whose properties are proved as lemmas. Play, pause,
  stop and rename state their new fields directly.

`wrappers.dfy` holds the shared `Option` type.

The model follows the code as written, including these behaviours:

* **The mix wraps.** The source labels the final step `# Prevent clipping`
  (`LoopMachine.py:198`). The accumulator is an int16 numpy array, so each in-place
  `+=` wraps modulo 2^16. The clip at `LoopMachine.py:199` therefore never
  changes a value. `MixWrapsInsteadOfSaturating` exhibits this.
* **The position resets instead of wrapping.** It returns to 0 rather than
  advancing modulo the loop length. With 1024-frame blocks, the cycle is
  87 blocks (89088 frames), not 88200 frames (`ChunkCycleLength`).
* **The click is not wrapped.** Reads past the end of the click track are
  zero-padded.

## Model

| member | source | states |
|---|---|---|
| LoopEngine.LoopGeometry | LoopMachine.py:14-20 | FRAMES_PER_LOOP·BPM = 60·BEATS_PER_LOOP·RATE (88200 frames). A beat is 22050 samples and a loop is 4 beats. The 50 ms tone is 2205 samples, shorter than a beat. |
| LoopEngine.Wrap16 | LoopMachine.py:140 | The int16 stored for a sum is in [-32768, 32767] and congruent to the sum modulo 65536. It is the sum itself when that already fits. |
| LoopEngine.Clip16 | LoopMachine.py:199 | np.clip to the int16 range yields an int16 and leaves int16 values unchanged. |
| LoopEngine.WrapAccumulates | LoopMachine.py:186-196 | Adding into the int16 accumulator one term at a time gives the wrapped total of all terms. |
| LoopEngine.MixWrapsInsteadOfSaturating | LoopMachine.py:196-199 | 20000 + 20000 mixes to -25536 and the clip keeps it. A saturating clip of the true sum would give 32767. |
| LoopEngine.BeatsLayout | LoopMachine.py:50-51 | n beat segments stacked back to back are n·samples_per_beat long. Sample k is sample k mod samples_per_beat of the segment. |
| LoopEngine.ClickTrackLayout | LoopMachine.py:35-51 | The click track is BEATS_PER_LOOP·samples_per_beat = FRAMES_PER_LOOP long. Each beat is a 2205-sample tone followed by zeros. Beat 0 uses the first tone and the other beats the regular one. The track opens with the first tone. |
| LoopEngine.NatToStringRoundTrip | LoopMachine.py:87 | The decimal text of a natural number reads back as that number. |
| LoopEngine.DisplayName | LoopMachine.py:81 | The name element is never empty. It is the track's name when that name is set and non-empty, and "Untitled" otherwise. |
| LoopEngine.PitchRoundTrip | LoopMachine.py:86-89 | The pitch element (" +n", " -n", or nothing for 0) determines the pitch. |
| LoopEngine.FlagsRoundTrip | LoopMachine.py:83-89 | The elements after the name (an optional " M", then the pitch element) determine both the mute flag and the pitch. |
| LoopEngine.TrackLabelShape | LoopMachine.py:78-91 | A label starts with "<" and ends with ">". The display name comes first, and the rest parses back to (muted, pitch). |
| LoopEngine.Track.constructor | LoopMachine.py:54-60 | A new track has a fresh all-zero raw buffer one loop long. The playback buffer is that same array. The track is unmuted, at pitch 0, unnamed and not recording. |
| LoopEngine.Track.ApplyPitchShift | LoopMachine.py:62-74 | At pitch 0, the playback buffer becomes a fresh array equal element-wise to the raw buffer and no longer aliasing it. Otherwise it holds the shifter's result. |
| LoopEngine.ReachedIffCovered | LoopMachine.py:146-151 | For a non-empty block, the window test holds iff (cp − start) mod FRAMES_PER_LOOP < frames. Equivalently, it holds iff some sample i of the block falls on loop frame cp. |
| LoopEngine.EmptyBlockReachesEverything | LoopMachine.py:146-151 | A zero-frame block has start = end, so the test takes its wrapped branch and fires any checkpoint. |
| LoopEngine.WrappedBlockFindsLastFrame | LoopMachine.py:147-151 | A block that runs past the end of the loop (end wraps to 3) finds a checkpoint on the last frame. |
| LoopEngine.RecordedIsCircularWrite | LoopMachine.py:165-177 | The split write puts block[i] at (position + i) mod FRAMES_PER_LOOP, and only there. Every other buffer index keeps its sample. |
| LoopEngine.RecordedKeepsInt16 | LoopMachine.py:168-177 | Writing an int16 block into an int16 buffer leaves every sample of the buffer int16. |
| LoopEngine.NextPosition | LoopMachine.py:202-205 | The advanced position always lies in [0, FRAMES_PER_LOOP). |
| LoopEngine.ResetAgreesWithWrapIff | LoopMachine.py:202-205 | The reset to 0 equals (position + frames) mod FRAMES_PER_LOOP exactly when the block does not run past the end of the loop. |
| LoopEngine.ChunkCycleLength | LoopMachine.py:202-205 | From 0, with CHUNK-sized blocks, the position is nonzero after 1 to 86 blocks and 0 after 87 blocks (89088 ≠ 88200 frames). |
| LoopEngine.AddSegment | LoopMachine.py:182-186 | Adding a zero-padded slice to the accumulator keeps its length and leaves every entry in int16 range. |
| LoopEngine.SilentTracksAddNothing | LoopMachine.py:189-190 | Muted and recording tracks contribute nothing to the mix. |
| LoopEngine.AppendedTrackSum | LoopMachine.py:189-196 | Appending a track changes the mix exactly by that track's contribution. |
| LoopEngine.MixTrackStep | LoopMachine.py:192-196 | Adding one audible track's padded segment extends the wrapped running sum by that track. |
| LoopEngine.LoopMachine.constructor | LoopMachine.py:94-109 | A new machine has no tracks and no current track, position and checkpoint 0, and no action armed. Its click track is the generated one. The click is muted, playing is on, and the latency compensation is as given. The invariant holds. |
| LoopEngine.LoopMachine.OnlyLastTrackRecords | LoopMachine.py:152-161 | Under the invariant, no track but the last one is recording. |
| LoopEngine.LoopMachine.SetCheckpointNow | LoopMachine.py:135-136 | checkpoint = (position + latency) mod FRAMES_PER_LOOP, and nothing else changes. |
| LoopEngine.LoopMachine.StartRecording | LoopMachine.py:122-127 | It arms NEW at the compensated position and unmutes the click. Tracks and position are untouched. |
| LoopEngine.LoopMachine.StopRecording | LoopMachine.py:129-133 | It arms STOP at the compensated position. Tracks, position and the click are untouched. |
| LoopEngine.LoopMachine.ResolveCheckpoint | LoopMachine.py:145-162 | `reached` is the window test. A reach clears the action, even an empty one. On STOP or NEW the current track stops recording and is released. On NEW exactly one fresh zeroed track, aliased and recording, is appended and becomes current. Otherwise nothing changes. |
| LoopEngine.LoopMachine.Record | LoopMachine.py:164-177 | The current track's raw buffer becomes the circular write of the block at the position. |
| LoopEngine.LoopMachine.AddTracks | LoopMachine.py:188-196 | Each accumulator entry becomes the wrapped sum of itself and every audible track's zero-padded sample. |
| LoopEngine.LoopMachine.MixBlock | LoopMachine.py:179-200 | Output sample i is MixedSample: the wrapped sum of the zero-padded click sample (when the click is unmuted) and every audible track's sample from (position + latency) mod FRAMES_PER_LOOP. The sample is int16. |
| LoopEngine.LoopMachine.Capture | LoopMachine.py:145-177 | The checkpoint step followed by the write, with their combined effect on the action, the current track, the track list and the raw buffers. A take closed by the checkpoint keeps its samples. |
| LoopEngine.LoopMachine.PlayBlock | LoopMachine.py:145-205 | The whole playing path: checkpoint, recording, the mixed output and the reset-style advance. The invariant is kept. The other tracks' samples are unchanged, and so are those of a take closed by this block (a fired STOP, or NEW while recording). |
| LoopEngine.LoopMachine.AudioCallback | LoopMachine.py:138-205 | When paused, the output is silence and nothing changes. When playing, it has the effect of PlayBlock. The output is always int16. The other tracks keep their samples, and so does a take closed by this block. |
| LoopEngine.LoopMachine.SummaryLines | LoopMachine.py:281-285 | The summary has one line per track after its header when no label spans lines. |
| LoopEngine.LoopMachine.SummaryLine | LoopMachine.py:281-285 | After the "Tracks (n):" header, line k of the summary is "\n  k: " followed by the label of track k, between the lines of the tracks before it and after it. |
| LoopEngine.SummaryEntry | LoopMachine.py:281-285 | The summary text splits at any track k into the header and earlier lines, the line for k, and the later lines numbered on from k + 1. |
| LoopEngine.ListingAppend | LoopMachine.py:283-284 | Listing a + b lists a, then lists b numbered on from where a stopped. |
| LoopEngine.ListingLine | LoopMachine.py:283-284 | Line k of the listing is "\n  k: " followed by label k. |
| LoopEngine.SummaryLineCount | LoopMachine.py:281-285 | "Tracks (n):" followed by the listing holds exactly one newline per label. |
| LoopEngine.ListingLineCount | LoopMachine.py:283-284 | The enumerated listing adds exactly one line per label. |
| TrackLayout.SplitClassifies | assets/layout.py:525-528 | The first filter holds only non-`Dummy_` entries and the second only `Dummy_` entries. |
| TrackLayout.SplitIsPartition | assets/layout.py:525-528 | Together, the two filtered lists hold every input entry exactly as often as the input does. |
| TrackLayout.UidListMembers | assets/layout.py:525 | An entry is in the uid list iff it is in the input and is not a placeholder. |
| TrackLayout.DummyListMembers | assets/layout.py:527-528 | An entry is in the placeholder list iff it is in the input and is a placeholder. |
| TrackLayout.UidListAppend | assets/layout.py:525 | Filtering keeps input order: the uids of a + b are the uids of a followed by those of b. |
| TrackLayout.DummyListAppend | assets/layout.py:527-528 | The placeholder filter keeps input order: the placeholders of a + b are those of a followed by those of b. |
| TrackLayout.UpdatedTracks | assets/layout.py:532-535 | The updated list has length max(#uids, #dummies). It starts with the uid list, and everything after that is a placeholder. |
| TrackLayout.UpdatedTracksKeepsUids | assets/layout.py:532-535 | Every input uid survives, no placeholder comes before a uid, and nothing new is introduced. |
| TrackLayout.AssignLookup | assets/layout.py:539 | After `d[key] = value`, the key reads back the value and every other key reads as before. |
| TrackLayout.AssignKeys | assets/layout.py:539 | An existing key keeps its place and only a new key is appended. |
| TrackLayout.NumberingLookup | assets/layout.py:537-539 | Each entry is numbered by its last position plus 1, and nothing else has a number. |
| TrackLayout.NumberingKeys | assets/layout.py:537-539 | The dict's keys are the entries of the updated list, each exactly once. |
| TrackLayout.NumberingDistinct | assets/layout.py:537-539 | With distinct entries, the k-th entry maps to k + 1, so the values are exactly 1..n in order. |
| TrackLayout.DocstringExample | assets/layout.py:511-518 | The documented example: three placeholders and two uids give the updated list and numbers 1, 2, 3 shown there. |
| TrackLayout.SectionsIndex | assets/layout.py:447-501 | The append loop emits one section per dict item, in item order, showing that item's number. |
| TrackLayout.ReversedIndex | assets/layout.py:505 | Element i of the reversed list is element n − 1 − i of the original. |
| TrackLayout.SectionOrder | assets/layout.py:434-505 | There is one section per dict item, in reverse item order, and the updated list is returned as map_tracks built it. |
| TrackLayout.NewestFirst | assets/layout.py:502-505 | With distinct entries, section i shows track number n − i, so the newest track is on top. |
| LoopState.Loop.constructor | loop.py:9-13 | A new loop has the given name, is not playing, has no tracks and has its playhead at 0. |
| LoopState.Loop.Play | loop.py:16-24 | Afterwards the loop is playing. Nothing else changes, and a second call changes nothing. |
| LoopState.Loop.Pause | loop.py:34-37 | Playing stops, and the playhead is untouched. |
| LoopState.Loop.Stop | loop.py:39-43 | Playing stops and the playhead returns to 0. |
| LoopState.Loop.StopRecording | loop.py:52-58 | The track list becomes Discarded of the old list. |
| LoopState.Discarded | loop.py:52-58 | The last track is removed iff the list is non-empty and that track's audio is not loaded. Otherwise the list is unchanged. |
| LoopState.DiscardedThenLoaded | loop.py:52-58 | Appending an unfinished track and discarding gives back the list. A loaded last track is kept. |
| LoopState.Loop.SetMuted | loop.py:60-76 | The nested loops over ids and tracks leave exactly WithMuted(old tracks, ids, flag). |
| LoopState.Loop.MuteTracks | loop.py:69-76 | The tracks become WithMuted(old tracks, ids, true). |
| LoopState.Loop.UnmuteTracks | loop.py:60-67 | The tracks become WithMuted(old tracks, ids, false). |
| LoopState.WithMutedChangesOnlyFlags | loop.py:60-76 | Only the mute flag of tracks whose uid is named changes. Uids, loaded flags and order stay the same. |
| LoopState.WithMutedAppend | loop.py:63-76 | Handling the ids one at a time equals handling them all at once. |
| LoopState.WithMutedIdempotent | loop.py:69-76 | Muting or unmuting the same ids twice is the same as doing it once. |
| LoopState.UnmuteUndoesMute | loop.py:60-76 | Unmuting what was just muted restores tracks that were unmuted before. |
| LoopState.Loop.AddTracks | loop.py:78-83 | The tracks become the old tracks followed by TracksAmong(args). |
| LoopState.TracksAmongMembers | loop.py:78-83 | A track is added iff it is one of the arguments. Any other argument adds nothing. |
| LoopState.TracksAmongAppend | loop.py:78-83 | Adding two argument lists in turn equals adding their concatenation, so argument order is kept. |
| LoopState.Loop.RemoveTracks | loop.py:85-88 | The tracks become Remaining(old tracks, ids). |
| LoopState.RemainingMembers | loop.py:87 | A track survives iff it was present and its uid is not named. |
| LoopState.RemainingAppend | loop.py:87 | Removal keeps order: removing from a + b is removing from a, then from b. |
| LoopState.RemainingIdempotent | loop.py:87 | Removing the same ids again removes nothing more. |
| LoopState.RemainingNothingNamed | loop.py:87 | Removing ids that no track carries leaves the list as it was, in order. |
| LoopState.Loop.Rename | loop.py:90-93 | Only the name changes, to the new name. |

## Left out

- Audio device I/O is not modelled: the `sd.Stream` setup, start, stop and close, and `LoopMachine.stop`, which closes the stream and sets an attribute nothing reads. The latency probe is not modelled either: `latencyCompensationSamples` is a constructor parameter standing for `int(latency · RATE · 0.75)`.
- The callback is not driven by a device. Its `time` and `status` arguments are dropped. `outdata` is the method's result. Audio is mono, one `int` per frame.
- AudioCallback: requires `|indata| == frames <= FRAMES_PER_LOOP`. The stream is opened with `blocksize=CHUNK` (`LoopMachine.py:114`), so a block is always 1024 frames. Blocks longer than one loop are not modelled.
- Samples are unbounded `int`s: the int16 dtype of the input block and of the track buffers (`LoopMachine.py:15`, `:55`) is not an invariant of `LoopMachine.Valid`. The mix output is int16 whatever the inputs, because of the wrap, and `RecordedKeepsInt16` shows that recording int16 input keeps a buffer int16.
- The tone samples of `generate_click` come from floating-point sine synthesis. They are parameters; only their length (2205) and the zero silence are modelled.
- Track.ApplyPitchShift: the nonzero-pitch path calls librosa. Its int16 result is the parameter `shifted`. The worker thread is not modelled: the update is synchronous, so races with the callback are out.
- `_prewarm`, `save`, `load`, `repr_log`, `__repr__`, the `time` and `uid` fields and the interactive command loop are not modelled. They are threads, pickling, file and console I/O.
- Console messages (`print`) are not modelled.
- The Track label's integer formatting covers Python's `str` of an int (optional minus, decimal digits). Names are arbitrary strings.
- LoopState.Loop.Play: starting the playback thread (`_play_tracks`) is not modelled, and neither are `record` and the lock. These are threads, timing and file-backed recording in `track.py`, which is not part of this model.
- LoopState: tracks are values, so a Track object shared between two loops (aliasing) is not captured. Mute flags are updated by rebuilding the record at its index.
- The HTML markup that `update_track_section` builds is not modelled. A section is reduced to its track number, the only value it takes from the numbering.
- The Dash and webview front end, `callbacks.py`, `launch.py` and `check_input_channels.py` are not modelled. They are UI and device glue around the modelled core.

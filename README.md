# lsdj-ripper, modelled in Dafny

lsdj-ripper runs the LSDJ tracker ROM in the `rboy` Game Boy emulator. It
loads a save into cartridge RAM and attaches an audio sink that collects
every sample the emulator produces. It then drives the tracker's menus with a
fixed, timed script of key presses so that the tracker loads the song, presses
Start, and lets the emulator run for the requested number of seconds. When the
sink is dropped, it writes the whole recording as a two-channel WAV file.

Timing uses emulated time only. A duration becomes a tick count at the Game
Boy clock rate (2^22 ticks per second). The emulator is then stepped, one
`do_cycle` at a time, until the ticks those steps return add up to the target.

The model has four modules:

- `WavAudio` (`wav_audio.dfy`): the capture sink `Player` of
  `src/wav_audio.rs`. It is a class with an append-only sample buffer. The
  channel interleaving and sample conversion of `play` are functions, and the
  `Drop` write is a ghost record of the file written.
- `Emulator` (`device.dfy`): the emulator boundary that `src/main.rs` uses
  (`loadram`, `enable_audio`, `do_cycle`, `keydown`, `keyup`). It is a class
  `Device` whose behaviour is given by a `Core` value:
  - `cost(n)` is the tick count the n-th step returns, always positive;
  - `sound(n)` is the audio chunk that step hands to the player;
  - `accepts(save)` says whether `loadram` succeeds.

  The device keeps a ghost trace of every call made to it. Each step's entry
  records the keys held while it ran. Everything proved holds for every
  `Core`, so it holds whatever the emulated program does.
- `Schedule` (`schedule.dfy`): what `src/main.rs` does to the device, written
  as values. It covers:
  - the trace of the clock loop (`Waiting`, `WaitSteps`);
  - the trace of one timed key hold or idle wait (`InputTrace`);
  - a script of such inputs (`ScriptTrace`);
  - the load script (`LoadScript`, `IsLoadScript`);
  - the whole run (`RunTrace`, `RunSteps`).

  The lemmas here state what these traces contain.
- `Ripper` (`main.dfy`): the functions of `src/main.rs` as methods on a
  `Device`: `device_wait`, `many_key_press`, `key_press`, `load_song`, and the
  part of `main` from `loadram` to the end of the recording loop. Each method
  is proved to produce exactly the trace that `Schedule` describes, so the
  `Schedule` lemmas apply to the methods.

Durations are counted in tenths of a second, because every duration in the
program is a multiple of 0.1 s. `TicksFor` rounds to the nearest tick, with
halves rounding up. With the program's constants this gives 0.1 s → 419430
ticks, 3 s → 12582912, 5 s → 20971520 and 10 s → 41943040.

The program does not inspect the save file: src/main.rs:87-93 passes its
bytes to `loadram` unchanged, and `load_song` always runs.

## Model

| member | source | states |
|---|---|---|
| Schedule.TicksFor | src/main.rs:139 | the tick target is the duration times 2^22 rounded to the nearest whole tick (halves up): `10*r` lies within 5 of `tenths * 2^22` |
| Schedule.LoadScriptTargets | src/main.rs:16 | the script has ten inputs, and the targets of 0.1 s, 3 s, 5 s and 10 s are 419430, 12582912, 20971520 and 41943040 ticks |
| Schedule.WaitingBounds | src/main.rs:138-142 | the clock loop steps through cost(i), cost(i+1), … with the same keys held. It makes no step exactly when the target is already met. It stops with the total at or above the target, and the total before its last step is still below it. It makes at most `max - ticks` steps and no key event |
| Ripper.StepUntil | src/main.rs:138-142 | the loop `while ticks < max { ticks += do_cycle() }` appends exactly `Waiting` to the trace and takes `WaitSteps` steps. Keys, RAM and player stay as they were, and the player's buffer still holds all audio since it was attached |
| Ripper.DeviceWait | src/main.rs:137-143 | `device_wait` is the clock loop run to `TicksFor(duration)` |
| Schedule.KeyEventsAt | src/main.rs:146-152 | the key-down and key-up lists have one event per key, the j-th for the j-th key, in list order |
| Schedule.KeyEventsAppendKeys | src/main.rs:146-152 | the presses and releases of two key lists in a row are those of the first list followed by those of the second |
| Ripper.ManyKeyPress | src/main.rs:145-153 | `many_key_press` advances the device by exactly one `Hold(keys, duration)`: it presses the keys in list order, waits, and releases them in list order. The key set after the call is the old set plus the keys minus the keys |
| Schedule.InputShape | src/main.rs:145-153 | a hold's trace is its presses, then only steps, all taken with the old keys plus the held keys down, then its releases. Its length is two events per key plus the steps |
| Schedule.InputKeyEvents | src/main.rs:145-153 | a hold's only key events are its presses followed by its releases, and its steps together take at least the duration's ticks |
| Ripper.KeyPress | src/main.rs:155-157 | `key_press(k, d)` advances the device exactly as `many_key_press([k], d)` does |
| Ripper.LoadSong | src/main.rs:159-172 | `load_song` appends exactly the trace of the load script and takes its steps, ending with the key state `ScriptAfter` |
| Ripper.LoadSongRuns | src/main.rs:160-171 | the ten calls, in source order (holds of {Select, Up} 0.1, Down 3, A 0.1, A 0.1, Up 5, A 0.1, Left 0.1, A 0.1, idle 10, {Select, Down} 0.1), compose to carrying out the whole script |
| Schedule.FinishCons | src/main.rs:159-172 | running a non-empty script is running its first input, then the rest |
| Schedule.FinishAt | src/main.rs:159-172 | running a script from input k is running input k, then the inputs after it |
| Schedule.ScriptKeyEventsFixed | src/main.rs:159-172 | the key events of a script are the same whatever the step costs: each input's presses then its releases, input after input |
| Schedule.ScriptKeyEventsAppend | src/main.rs:159-172 | the key events of two scripts in a row are those of the first followed by those of the second |
| Schedule.ScriptReleases | src/main.rs:145-153 | after a script, every key any of its holds touched is up, and every other key is as it was |
| Schedule.LoadScriptKeyEvents | src/main.rs:160-171 | the load script's key events are exactly: Select, Up down then up; Down; A; A; Up; A; Left; A; nothing for the idle wait; then Select, Down down then up |
| Schedule.LoadScriptKeySet | src/main.rs:160-171 | the load script touches exactly the keys Select, Up, Down, A and Left |
| Schedule.LoadSongKeyEvents | src/main.rs:159-172 | `load_song` makes exactly those key events for every step-cost function. It releases every key it pressed, so it starts and ends with no key down when none was down before |
| Schedule.LoadScriptIs | src/main.rs:160-171 | the constant `LoadScript` is the ten inputs of `load_song`, in order |
| Schedule.LoadScriptUnique | src/main.rs:160-171 | any script with the ten inputs of `load_song`, in order, is the constant `LoadScript` |
| Schedule.StartupKeyEvents | src/main.rs:97-120 | between attaching audio and the recording loop, the only key events are the load script's followed by a press and release of Start, and no key is left down |
| Schedule.StartPress | src/main.rs:120 | `key_press(Start, 0.1)` makes one press and one release of Start, and afterwards Start is up |
| Schedule.RunKeyEvents | src/main.rs:93-128 | the run starts with `loadram` then `enable_audio`, and its only key events are those of the load script followed by Start |
| Schedule.RecordingShape | src/main.rs:118-128 | the recording loop runs with no key down. It records at least `length` seconds of ticks and overshoots by less than its last step |
| Ripper.Run | src/main.rs:93-128 | if `loadram` fails, nothing else happens. Otherwise the device makes exactly `RunTrace` (load, attach, 10 s wait, load script, Start, recording loop) over `RunSteps` steps. Dropping the player then writes, to the output path with 2 channels at the given rate, the converted audio of every step of the run. The recording loop runs to `RecordTarget`, the product computed without overflow, so for `length >= 1024` this is the intended program of "## Findings", not the as-written wrap |
| Ripper.RunComposes | src/main.rs:93-128 | the stages of the run, in source order, compose to `RunTrace` and `RunSteps` |
| Schedule.RecordTargetAsWritten | src/main.rs:118 | the `u32` product `length * TICKS_PER_SECOND` as written wraps with period 1024: it equals `(length % 1024) * 2^22` |
| Schedule.RecordTarget | src/main.rs:118 | the intended recording length is a whole number of seconds of ticks: divided by `TICKS_PER_SECOND` it gives back `length`, with no remainder |
| Schedule.RecordTargetAgrees | src/main.rs:118 | the u32 product `length * TICKS_PER_SECOND` equals the true product exactly when `length <= 1023` |
| Schedule.RecordTargetWrapsAt1024 | src/main.rs:118 | for `length = 1024` the u32 product is 0, while the intended target is 1024 * 2^22 ticks |
| Emulator.Device.constructor | src/main.rs:84-85 | a new device has no RAM contents, no player, no key down, no steps and an empty trace |
| Emulator.Device.LoadRam | src/main.rs:93 | `loadram` succeeds exactly when the core accepts the save. On success RAM holds the save; otherwise RAM is unchanged. The call is recorded |
| Emulator.Device.EnableAudio | src/main.rs:94 | `enable_audio` attaches the player from the current step on and is recorded |
| Emulator.Device.Step | src/main.rs:122 | `do_cycle` returns the positive tick count of the current step. It appends that step's audio, converted, to the attached player's buffer and records the step with the keys held |
| Emulator.Device.KeyDown | src/main.rs:147 | `keydown` adds the key to the keys down and records the press |
| Emulator.Device.KeyUp | src/main.rs:151 | `keyup` removes the key from the keys down and records the release |
| Emulator.RecordedNext | src/wav_audio.rs:46-49 | one more step extends the recording by exactly that step's converted audio |
| WavAudio.Player.New | src/wav_audio.rs:13-19 | a new player has an empty buffer and the given path and rate, unchanged, and has written nothing |
| WavAudio.Player.BoxedNew | src/wav_audio.rs:21-23 | `boxed_new` is a freshly allocated `new` |
| WavAudio.Interleave | src/wav_audio.rs:40-44 | the interleaved stream has two samples per frame of the shorter channel; the longer channel's extra samples are dropped |
| WavAudio.InterleaveAt | src/wav_audio.rs:40-44 | element 2i of the stream is `left[i]` and element 2i+1 is `right[i]` |
| WavAudio.InterleaveRoundTrip | src/wav_audio.rs:40-44 | splitting the stream into even and odd positions gives back both channels, cut to the shorter one |
| WavAudio.ToI16 | src/wav_audio.rs:45 | the real-number stand-in for the foreign `convert::<i16>()` (see "## Left out"): it rounds the amplitude times 2^15 to within half a unit, and saturates at -32768 below -32768.5 and at 32767 from 32767.5 on. This is the stand-in's rule, not one the program states |
| WavAudio.ToI16Exact | src/wav_audio.rs:45 | a sample value that is exactly representable converts to itself |
| WavAudio.Samples | src/wav_audio.rs:40-45 | one `play` produces `2 * min(|left|, |right|)` samples |
| WavAudio.SamplesAt | src/wav_audio.rs:40-45 | sample 2i of a `play` is the converted `left[i]`, and sample 2i+1 is the converted `right[i]` |
| WavAudio.Player.Play | src/wav_audio.rs:39-50 | `play` keeps the old buffer as a prefix, unchanged, and appends exactly that call's converted, interleaved samples |
| WavAudio.Recorded | src/wav_audio.rs:46-49 | the buffer after a series of `play` calls holds two samples per frame delivered |
| WavAudio.RecordedAppend | src/wav_audio.rs:46-49 | the buffer after two series of calls is the first series' samples followed by the second's, in call order, so an earlier buffer is never changed, only extended |
| WavAudio.RecordedSkipsEmpty | src/wav_audio.rs:39-49 | a `play` with an empty channel leaves the buffer unchanged |
| WavAudio.Player.SamplesRate | src/wav_audio.rs:52-54 | `samples_rate` returns the configured rate |
| WavAudio.Player.Underflowed | src/wav_audio.rs:56-58 | `underflowed` is always false |
| WavAudio.ToI32 | src/wav_audio.rs:31 | `sample_rate as i32` reads the u32 bit pattern as a signed 32-bit value: equal modulo 2^32, and unchanged below 2^31 |
| WavAudio.Player.Drop | src/wav_audio.rs:27-35 | dropping the player writes the entire current buffer once, with 2 channels, at the configured rate as `i32`, to the output path, and leaves the buffer as it was |

## Left out

- Argument parsing (src/main.rs:23-76), and reading the ROM and save files (src/main.rs:78-91): library plumbing and file I/O. `Run` takes the parsed values and the save bytes as parameters.
- The emulator itself (`rboy`): a foreign library. `Core` stands for its behaviour: step costs, audio per step and whether a save is accepted. What `keydown` and `keyup` do inside the emulator is not modelled, and neither is the ROM.
- The optional PNG screen capture and the spinner with its float percentage (src/main.rs:100-117, 123-133): optional features with file I/O and floating point. The `println!` messages are left out too.
- The f32 → i16 conversion of `wavers` and the WAV encoding of `wavers::write`: a foreign library. `ToI16` is an exact real-number stand-in: scale by 2^15, round to nearest, saturate. `f32` rounding of the inputs is not modelled.
- Durations as `f32`: the durations are whole tenths of a second and the tick rate is 2^22, so `TicksFor` works on tenths of a second instead of floats.
- The `Arc<Mutex<…>>` around the buffer (src/wav_audio.rs:9): the run is single-threaded, so the buffer is a plain field.
- `loadram` failing is modelled as `Run` returning `ok == false`; the program's `expect` panic and exit are not. A failing WAV write at drop is not modelled: `Drop` records the file as written.
- The tick counters of `device_wait` and the recording loop are `u32` in the program. The model counts ticks with unbounded integers, so it does not capture a counter wrapping when a target lies within one step of 2^32.
- Ripper.LoadSong and Ripper.Run take the load script as a ghost argument pinned by `IsLoadScript`. The constant `LoadScript` satisfies it (`LoadScriptIs`) and is the only script that does (`LoadScriptUnique`), so the argument is always the program's fixed script.

## Findings

| source | as written | input that shows it | evidently intended | confidence | as-written member | corrected member |
|---|---|---|---|---|---|---|
| src/main.rs:118 | `let max = length * TICKS_PER_SECOND;` multiplies two `u32` values. From `length` = 1024 on the product exceeds `u32`: a release build wraps, and a debug build panics | `-t 1024`: the product is 2^32, which wraps to 0. The recording loop then makes no step, so the file holds only the audio of the startup sequence | record `length` seconds, i.e. `length * 2^22` ticks, computed without overflow | not executed | Schedule.RecordTargetWrapsAt1024 (with Schedule.RecordTargetAsWritten) | Schedule.RecordingShape (with Schedule.RecordTarget, used by Ripper.Run) |

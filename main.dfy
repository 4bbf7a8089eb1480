/**
  The driver of src/main.rs: the clock loop `device_wait`, the timed key
  holds `many_key_press` and `key_press`, the menu script `load_song`, and
  the sequence `main` runs once its arguments and files are in hand. Each
  method is proved to make exactly the device calls that module Schedule
  describes as a value.
 */
module Ripper {
  import opened WavAudio
  import opened Emulator
  import opened Schedule

  /** What the driver sees of `device`: its trace, step count and keys down. */
  ghost function Snap(device: Device): Snapshot
    reads device
  {
    Snapshot(device.trace, device.steps, device.pressed)
  }

  /**
    The clock loop `while ticks < max { ticks += device.do_cycle() }` that
    `device_wait` runs and that `main` runs inline for the recording: steps
    the device until the ticks counted reach `max`; the keys stay as they are.
   */
  method StepUntil(device: Device, max: nat)
    requires device.Valid()
    modifies device, device.audio
    ensures device.Valid()
    ensures device.trace == old(device.trace) + Waiting(device.core.cost, old(device.steps), 0, max, old(device.pressed))
    ensures device.steps == old(device.steps) + WaitSteps(device.core.cost, old(device.steps), 0, max)
    ensures device.pressed == old(device.pressed) && device.ram == old(device.ram) && device.audio == old(device.audio)
    ensures device.attachedAt == old(device.attachedAt) && device.attachBuffer == old(device.attachBuffer)
  {
    ghost var c, s0, p, t0 := device.core.cost, device.steps, device.pressed, device.trace;
    var ticks: nat := 0;
    while ticks < max
      invariant device.Valid()
      invariant t0 + Waiting(c, s0, 0, max, p) == device.trace + Waiting(c, device.steps, ticks, max, p)
      invariant s0 + WaitSteps(c, s0, 0, max) == device.steps + WaitSteps(c, device.steps, ticks, max)
      invariant device.pressed == p && device.ram == old(device.ram) && device.audio == old(device.audio)
      invariant device.attachedAt == old(device.attachedAt) && device.attachBuffer == old(device.attachBuffer)
      decreases max - ticks
    {
      ghost var tr, st := device.trace, device.steps;
      var t := device.Step();
      assert Waiting(c, st, ticks, max, p) == [Cycle(t, p)] + Waiting(c, st + 1, ticks + t, max, p);
      AppendAssoc(tr, [Cycle(t, p)], Waiting(c, st + 1, ticks + t, max, p));
      ticks := ticks + t;
    }
  }

  /**
    `device_wait`: steps the device until the ticks counted reach the
    duration, rounded to whole ticks.
   */
  method DeviceWait(device: Device, tenths: nat)
    requires device.Valid()
    modifies device, device.audio
    ensures device.Valid()
    ensures device.trace
         == old(device.trace) + Waiting(device.core.cost, old(device.steps), 0, TicksFor(tenths), old(device.pressed))
    ensures device.steps == old(device.steps) + WaitSteps(device.core.cost, old(device.steps), 0, TicksFor(tenths))
    ensures device.pressed == old(device.pressed) && device.ram == old(device.ram) && device.audio == old(device.audio)
    ensures device.attachedAt == old(device.attachedAt) && device.attachBuffer == old(device.attachBuffer)
  {
    var maxTicks := TicksFor(tenths);
    StepUntil(device, maxTicks);
  }

  /**
    `many_key_press`: presses the keys in list order, waits the duration
    with them down, then releases them in list order.
   */
  method ManyKeyPress(device: Device, keys: seq<Key>, tenths: nat)
    requires device.Valid()
    modifies device, device.audio
    ensures device.Valid()
    ensures Snap(device) == Next(device.core.cost, old(Snap(device)), Hold(keys, tenths))
    ensures device.ram == old(device.ram) && device.audio == old(device.audio)
    ensures device.attachedAt == old(device.attachedAt) && device.attachBuffer == old(device.attachBuffer)
  {
    ghost var c, t0, s0, p0 := device.core.cost, device.trace, device.steps, device.pressed;
    for i := 0 to |keys|
      invariant device.Valid()
      invariant device.trace == t0 + Presses(keys[..i])
      invariant device.pressed == p0 + KeySet(keys[..i])
      invariant device.steps == old(device.steps) && device.ram == old(device.ram) && device.audio == old(device.audio)
      invariant device.attachedAt == old(device.attachedAt) && device.attachBuffer == old(device.attachBuffer)
    {
      device.KeyDown(keys[i]);
      KeysPrefix(keys, i);
    }
    assert keys[..|keys|] == keys;
    ghost var held := device.pressed;
    DeviceWait(device, tenths);
    ghost var t1 := device.trace;
    for i := 0 to |keys|
      invariant device.Valid()
      invariant device.trace == t1 + Releases(keys[..i])
      invariant device.pressed == held - KeySet(keys[..i])
      invariant device.ram == old(device.ram) && device.audio == old(device.audio)
      invariant device.attachedAt == old(device.attachedAt) && device.attachBuffer == old(device.attachBuffer)
      invariant device.steps == old(device.steps) + InputSteps(device.core.cost, old(device.steps), Hold(keys, tenths))
    {
      device.KeyUp(keys[i]);
      KeysPrefix(keys, i);
    }
    ghost var ps, w, rs := Presses(keys), Waiting(c, s0, 0, TicksFor(tenths), held), Releases(keys);
    assert device.trace == t0 + InputTrace(c, s0, p0, Hold(keys, tenths)) by {
      assert device.trace == t0 + ps + w + rs;
      AppendAssoc(t0 + ps, w, rs);
      AppendAssoc(t0, ps, w + rs);
      AppendAssoc(ps, w, rs);
    }
  }

  /** `key_press`: `many_key_press` with the one key. */
  method KeyPress(device: Device, key: Key, tenths: nat)
    requires device.Valid()
    modifies device, device.audio
    ensures device.Valid()
    ensures Snap(device) == Next(device.core.cost, old(Snap(device)), Hold([key], tenths))
    ensures device.ram == old(device.ram) && device.audio == old(device.audio)
    ensures device.attachedAt == old(device.attachedAt) && device.attachBuffer == old(device.attachBuffer)
  {
    ManyKeyPress(device, [key], tenths);
  }

  /** An idle input is a plain wait with the keys as they are. */
  lemma IdleIsWait(c: nat -> Ticks, i: nat, p: set<Key>, tenths: nat)
    ensures InputTrace(c, i, p, Idle(tenths)) == Waiting(c, i, 0, TicksFor(tenths), p)
    ensures After(p, Idle(tenths)) == p
  {
    assert KeySet([]) == {};
  }

  /**
    `load_song`: the fixed menu script that makes the tracker load the song
    from the save and return to the song screen.
   */
  method LoadSong(device: Device, ghost S: seq<Input>)
    requires device.Valid() && IsLoadScript(S)
    modifies device, device.audio
    ensures device.Valid()
    ensures device.trace == old(device.trace) + ScriptTrace(device.core.cost, old(device.steps), old(device.pressed), S)
    ensures device.steps == old(device.steps) + ScriptSteps(device.core.cost, old(device.steps), S)
    ensures device.pressed == ScriptAfter(old(device.pressed), S)
    ensures device.ram == old(device.ram) && device.audio == old(device.audio)
    ensures device.attachedAt == old(device.attachedAt) && device.attachBuffer == old(device.attachBuffer)
  {
    // dK: the device as input K of the script finds it
    ghost var c := device.core.cost;
    ghost var d0 := Snap(device);
    ManyKeyPress(device, [Select, Up], 1);
    ghost var d1 := Snap(device);
    assert d1 == Next(c, d0, Hold([Select, Up], 1));
    KeyPress(device, Down, 30);
    ghost var d2 := Snap(device);
    assert d2 == Next(c, d1, Hold([Down], 30));
    KeyPress(device, A, 1);
    ghost var d3 := Snap(device);
    assert d3 == Next(c, d2, Hold([A], 1));
    KeyPress(device, A, 1);
    ghost var d4 := Snap(device);
    assert d4 == Next(c, d3, Hold([A], 1));
    KeyPress(device, Up, 50);
    ghost var d5 := Snap(device);
    assert d5 == Next(c, d4, Hold([Up], 50));
    // load the song
    KeyPress(device, A, 1);
    ghost var d6 := Snap(device);
    assert d6 == Next(c, d5, Hold([A], 1));
    // discard the changes to the song being edited
    KeyPress(device, Left, 1);
    ghost var d7 := Snap(device);
    assert d7 == Next(c, d6, Hold([Left], 1));
    KeyPress(device, A, 1);
    ghost var d8 := Snap(device);
    assert d8 == Next(c, d7, Hold([A], 1));
    IdleIsWait(device.core.cost, device.steps, device.pressed, 100);
    DeviceWait(device, 100);
    ghost var d9 := Snap(device);
    assert d9 == Next(c, d8, Idle(100));
    ManyKeyPress(device, [Select, Down], 1);
    ghost var d10 := Snap(device);
    assert d10 == Next(c, d9, Hold([Select, Down], 1));
    LoadSongRuns(c, S, d0, d1, d2, d3, d4, d5, d6, d7, d8, d9, d10);
  }

  /** The ten calls of `load_song`, in order, carry out the load script. */
  lemma LoadSongRuns(c: nat -> Ticks, S: seq<Input>,
                     d0: Snapshot, d1: Snapshot, d2: Snapshot, d3: Snapshot, d4: Snapshot, d5: Snapshot,
                     d6: Snapshot, d7: Snapshot, d8: Snapshot, d9: Snapshot, d10: Snapshot)
    requires IsLoadScript(S)
    requires d1 == Next(c, d0, Hold([Select, Up], 1))
    requires d2 == Next(c, d1, Hold([Down], 30))
    requires d3 == Next(c, d2, Hold([A], 1))
    requires d4 == Next(c, d3, Hold([A], 1))
    requires d5 == Next(c, d4, Hold([Up], 50))
    requires d6 == Next(c, d5, Hold([A], 1))
    requires d7 == Next(c, d6, Hold([Left], 1))
    requires d8 == Next(c, d7, Hold([A], 1))
    requires d9 == Next(c, d8, Idle(100))
    requires d10 == Next(c, d9, Hold([Select, Down], 1))
    ensures d10 == Finish(c, d0, S)
  {
    LoadSongFirstHalf(c, S, d0, d1, d2, d3, d4, d5);
    LoadSongSecondHalf(c, S, d5, d6, d7, d8, d9, d10);
    SliceFrom0(S);
  }

  /** The first five calls of `load_song` carry out the first five inputs of the load script. */
  lemma LoadSongFirstHalf(c: nat -> Ticks, S: seq<Input>,
                          d0: Snapshot, d1: Snapshot, d2: Snapshot, d3: Snapshot, d4: Snapshot, d5: Snapshot)
    requires IsLoadScript(S)
    requires d1 == Next(c, d0, Hold([Select, Up], 1))
    requires d2 == Next(c, d1, Hold([Down], 30))
    requires d3 == Next(c, d2, Hold([A], 1))
    requires d4 == Next(c, d3, Hold([A], 1))
    requires d5 == Next(c, d4, Hold([Up], 50))
    ensures Finish(c, d0, S[0..]) == Finish(c, d5, S[5..])
  {
    assert Finish(c, d0, S[0..]) == Finish(c, d1, S[1..]) by { FinishAt(c, d0, S, 0); }
    assert Finish(c, d1, S[1..]) == Finish(c, d2, S[2..]) by { FinishAt(c, d1, S, 1); }
    assert Finish(c, d2, S[2..]) == Finish(c, d3, S[3..]) by { FinishAt(c, d2, S, 2); }
    assert Finish(c, d3, S[3..]) == Finish(c, d4, S[4..]) by { FinishAt(c, d3, S, 3); }
    assert Finish(c, d4, S[4..]) == Finish(c, d5, S[5..]) by { FinishAt(c, d4, S, 4); }
  }

  /** The last five calls of `load_song` carry out the rest of the load script. */
  lemma LoadSongSecondHalf(c: nat -> Ticks, S: seq<Input>,
                           d5: Snapshot, d6: Snapshot, d7: Snapshot, d8: Snapshot, d9: Snapshot, d10: Snapshot)
    requires IsLoadScript(S)
    requires d6 == Next(c, d5, Hold([A], 1))
    requires d7 == Next(c, d6, Hold([Left], 1))
    requires d8 == Next(c, d7, Hold([A], 1))
    requires d9 == Next(c, d8, Idle(100))
    requires d10 == Next(c, d9, Hold([Select, Down], 1))
    ensures Finish(c, d5, S[5..]) == d10
  {
    assert Finish(c, d5, S[5..]) == Finish(c, d6, S[6..]) by { FinishAt(c, d5, S, 5); }
    assert Finish(c, d6, S[6..]) == Finish(c, d7, S[7..]) by { FinishAt(c, d6, S, 6); }
    assert Finish(c, d7, S[7..]) == Finish(c, d8, S[8..]) by { FinishAt(c, d7, S, 7); }
    assert Finish(c, d8, S[8..]) == Finish(c, d9, S[9..]) by { FinishAt(c, d8, S, 8); }
    assert Finish(c, d9, S[9..]) == Finish(c, d10, S[10..]) by { FinishAt(c, d9, S, 9); }
    SliceFromEnd(S);
    FinishEmpty(c, d10);
  }

  /**
    The part of `main` after the arguments are parsed and the ROM and save
    files read: load the save into cartridge RAM, attach a fresh `Player`,
    wait 10 s for the tracker to boot, load the song, press Start, then step
    until `length` seconds of ticks have passed; ending the run drops the
    player, which writes the whole recording. `loadram` failing stops the
    program (`expect`); here it returns `ok == false` with nothing else done.
   */
  method Run(core: Core, save: seq<bv8>, outfile: string, sampleRate: U32, length: U32, ghost script: seq<Input>)
    returns (ok: bool, device: Device, player: Player?)
    requires IsLoadScript(script)
    ensures fresh(device) && device.core == core
    ensures ok == core.accepts(save)
    ensures device.ram == if ok then save else []
    ensures !ok ==> player == null && device.trace == [Loaded(save)] && device.steps == 0
    ensures ok ==> player != null && fresh(player)
    ensures ok ==> device.trace == RunTrace(core.cost, script, save, length)
    ensures ok ==> device.steps == RunSteps(core.cost, script, length)
    ensures ok ==> player.written == Some(WavFile(outfile, 2, ToI32(sampleRate), Recorded(SoundFrom(core.sound, 0, device.steps))))
  {
    device := new Device(core);
    ok := device.LoadRam(save);
    if !ok {
      player := null;
      return;
    }
    player := Player.BoxedNew(outfile, sampleRate);
    device.EnableAudio(player);
    ghost var c := core.cost;
    ghost var d0 := Snap(device);
    assert d0.trace == [Loaded(save), AudioEnabled];
    DeviceWait(device, 100);
    ghost var d1 := Snap(device);
    LoadSong(device, script);
    ghost var d2 := Snap(device);
    var max := RecordTarget(length);
    KeyPress(device, Start, 1);
    ghost var d3 := Snap(device);
    StepUntil(device, max);
    ghost var d4 := Snap(device);
    RunComposes(c, script, save, length, d0, d1, d2, d3, d4);
    assert device.attachBuffer + Recorded(SoundFrom(core.sound, 0, device.steps))
        == Recorded(SoundFrom(core.sound, 0, device.steps));
    player.Drop();
  }

  /** The stages of `main` after attaching audio add up to `RunTrace` and `RunSteps`. */
  lemma RunComposes(c: nat -> Ticks, script: seq<Input>, save: seq<bv8>, length: U32,
                    d0: Snapshot, d1: Snapshot, d2: Snapshot, d3: Snapshot, d4: Snapshot)
    requires d0 == Snapshot([Loaded(save), AudioEnabled], 0, {})
    requires d1 == Snapshot(d0.trace + Waiting(c, 0, 0, TicksFor(100), {}), WaitSteps(c, 0, 0, TicksFor(100)), {})
    requires d2.trace == d1.trace + ScriptTrace(c, d1.steps, {}, script)
    requires d2.steps == d1.steps + ScriptSteps(c, d1.steps, script) && d2.pressed == ScriptAfter({}, script)
    requires d3 == Next(c, d2, Hold([Start], 1))
    requires d4.trace == d3.trace + Waiting(c, d3.steps, 0, RecordTarget(length), d3.pressed)
    requires d4.steps == d3.steps + WaitSteps(c, d3.steps, 0, RecordTarget(length))
    ensures d4.trace == RunTrace(c, script, save, length)
    ensures d4.steps == RunSteps(c, script, length)
  {
    assert d1.steps == LoadStart(c) && d2.steps == StartAt(c, script);
    assert d3.trace == d0.trace + StartupTrace(c, script) by {
      var w, sc, st := Waiting(c, 0, 0, TicksFor(100), {}), ScriptTrace(c, d1.steps, {}, script), InputTrace(c, d2.steps, d2.pressed, Hold([Start], 1));
      assert StartupTrace(c, script) == StagesTrace(c, script, d1.steps, d2.steps) == w + sc + st;
      assert d3.trace == d0.trace + w + sc + st;
      AppendAssoc(d0.trace + w, sc, st);
      AppendAssoc(d0.trace, w + sc, st);
      AppendAssoc(d0.trace, w, sc);
    }
    assert d3.steps == StartupSteps(c, script);
    assert d3.pressed == After(ScriptAfter({}, script), Hold([Start], 1));
  }
}

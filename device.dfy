/**
  The boundary of the `rboy` emulator as src/main.rs uses it: a device that
  loads a save into cartridge RAM, takes an audio player, steps one CPU
  cycle at a time (`do_cycle`, returning the ticks it took) and has key-down
  and key-up inputs. What the emulated program does is not modelled; it is
  summarised by a `Core` value, so a property proved for every `Core` holds
  whatever the emulated program does.
 */
module Emulator {
  import opened WavAudio

  /** `rboy::KeypadKey`. */
  datatype Key = Right | Left | Up | Down | A | B | Select | Start

  /** A tick count returned by one `do_cycle`: never zero. */
  type Ticks = t: nat | 0 < t witness 1

  /**
    The observable behaviour of the emulated machine: `cost(n)` is what the
    n-th `do_cycle` returns, `sound(n)` the audio it hands to the attached
    player during that step, `accepts(save)` whether `loadram` succeeds.
   */
  datatype Core = Core(cost: nat -> Ticks, sound: nat -> Chunk, accepts: seq<bv8> -> bool)

  /**
    One call into the device, as recorded in its trace. A `Cycle` records
    the ticks it took and the set of keys held down while it ran.
   */
  datatype Event =
    | Loaded(save: seq<bv8>)
    | AudioEnabled
    | Press(key: Key)
    | Release(key: Key)
    | Cycle(ticks: Ticks, held: set<Key>)

  /** The audio chunks that steps `from` .. `to - 1` deliver. */
  function SoundFrom(sound: nat -> Chunk, from: nat, to: nat): seq<Chunk>
    requires from <= to
  {
    seq(to - from, j requires 0 <= j < to - from => sound(from + j))
  }

  /** One more step appends exactly that step's converted audio. */
  lemma RecordedNext(sound: nat -> Chunk, from: nat, to: nat)
    requires from <= to
    ensures Recorded(SoundFrom(sound, from, to + 1))
         == Recorded(SoundFrom(sound, from, to)) + Samples(sound(to).left, sound(to).right)
  {
    var xs, c := SoundFrom(sound, from, to), sound(to);
    assert SoundFrom(sound, from, to + 1) == xs + [c];
    assert (xs + [c])[..|xs|] == xs;
  }

  class Device {
    const core: Core
    var steps: nat
    var pressed: set<Key>
    var ram: seq<bv8>
    var audio: Player?
    ghost var trace: seq<Event>
    ghost var attachedAt: nat
    ghost var attachBuffer: seq<I16>

    /**
      Once a player is attached, its buffer holds what it had then followed
      by the audio of every step taken since, and it has not been dropped.
     */
    ghost predicate Valid()
      reads this, audio
    {
      audio != null ==>
        && attachedAt <= steps
        && audio.written == None
        && audio.buffer == attachBuffer + Recorded(SoundFrom(core.sound, attachedAt, steps))
    }

    /** `Device::new_cgb_from_buffer`: the ROM fixes `core`. */
    constructor (core: Core)
      ensures Valid()
      ensures this.core == core && steps == 0 && pressed == {} && ram == []
      ensures audio == null && trace == []
    {
      this.core := core;
      steps, pressed, ram, audio := 0, {}, [], null;
      trace, attachedAt, attachBuffer := [], 0, [];
    }

    /** `loadram`: copies the save into cartridge RAM when the core accepts it. */
    method LoadRam(save: seq<bv8>) returns (ok: bool)
      requires Valid()
      modifies this
      ensures Valid()
      ensures ok == core.accepts(save)
      ensures ram == if ok then save else old(ram)
      ensures trace == old(trace) + [Loaded(save)]
      ensures steps == old(steps) && pressed == old(pressed) && audio == old(audio)
      ensures attachedAt == old(attachedAt) && attachBuffer == old(attachBuffer)
    {
      ok := core.accepts(save);
      if ok {
        ram := save;
      }
      trace := trace + [Loaded(save)];
    }

    /** `enable_audio`: from now on every step delivers its audio to `player`. */
    method EnableAudio(player: Player)
      requires audio == null && player.written == None
      modifies this
      ensures Valid()
      ensures audio == player && attachedAt == steps && attachBuffer == player.buffer
      ensures trace == old(trace) + [AudioEnabled]
      ensures steps == old(steps) && pressed == old(pressed) && ram == old(ram)
    {
      audio := player;
      attachedAt := steps;
      attachBuffer := player.buffer;
      trace := trace + [AudioEnabled];
    }

    /** `do_cycle`: runs one step, feeds its audio to the player, returns its ticks. */
    method Step() returns (t: Ticks)
      requires Valid()
      modifies this, audio
      ensures Valid()
      ensures t == core.cost(old(steps)) && steps == old(steps) + 1
      ensures trace == old(trace) + [Cycle(t, pressed)]
      ensures pressed == old(pressed) && ram == old(ram) && audio == old(audio)
      ensures attachedAt == old(attachedAt) && attachBuffer == old(attachBuffer)
      ensures audio != null ==>
        audio.buffer == old(audio.buffer) + Samples(core.sound(old(steps)).left, core.sound(old(steps)).right)
    {
      t := core.cost(steps);
      var chunk := core.sound(steps);
      if audio != null {
        RecordedNext(core.sound, attachedAt, steps);
        AppendAssoc(attachBuffer, Recorded(SoundFrom(core.sound, attachedAt, steps)), Samples(chunk.left, chunk.right));
        audio.Play(chunk.left, chunk.right);
      }
      trace := trace + [Cycle(t, pressed)];
      steps := steps + 1;
    }

    /** `keydown`. */
    method KeyDown(key: Key)
      requires Valid()
      modifies this
      ensures Valid()
      ensures pressed == old(pressed) + {key}
      ensures trace == old(trace) + [Press(key)]
      ensures steps == old(steps) && ram == old(ram) && audio == old(audio)
      ensures attachedAt == old(attachedAt) && attachBuffer == old(attachBuffer)
    {
      pressed := pressed + {key};
      trace := trace + [Press(key)];
    }

    /** `keyup`. */
    method KeyUp(key: Key)
      requires Valid()
      modifies this
      ensures Valid()
      ensures pressed == old(pressed) - {key}
      ensures trace == old(trace) + [Release(key)]
      ensures steps == old(steps) && ram == old(ram) && audio == old(audio)
      ensures attachedAt == old(attachedAt) && attachBuffer == old(attachBuffer)
    {
      pressed := pressed - {key};
      trace := trace + [Release(key)];
    }
  }
}

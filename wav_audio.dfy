/**
  The audio capture sink of src/wav_audio.rs: a `Player` that the emulator
  hands its stereo output to, chunk by chunk, which keeps every converted
  sample in an append-only buffer and writes the whole buffer as a
  two-channel WAV file when it is dropped.
 */
module WavAudio {

  /** A signed 16-bit PCM sample (Rust `i16`). */
  type I16 = x: int | -0x8000 <= x < 0x8000

  /** An unsigned 32-bit integer (Rust `u32`). */
  type U32 = x: nat | x < 0x1_0000_0000

  datatype Option<T> = None | Some(value: T)

  /** One call of `play`: the left and right channel slices, amplitudes as reals. */
  datatype Chunk = Chunk(left: seq<real>, right: seq<real>)

  /** What the final `write` puts on disk: path, channel count, rate, samples. */
  datatype WavFile = WavFile(path: string, channels: nat, sampleRate: int, samples: seq<I16>)

  function Min(a: nat, b: nat): nat
  {
    if a <= b then a else b
  }

  /**
    The f32 -> i16 sample conversion: the amplitude scaled by 2^15, rounded
    to the nearest integer and saturated at the ends of the i16 range.
   */
  function ToI16(x: real): (s: I16)
    ensures -32768.5 <= x * 32768.0 < 32767.5 ==> x * 32768.0 - 0.5 < s as real <= x * 32768.0 + 0.5
    ensures x * 32768.0 < -32768.5 ==> s == -0x8000
    ensures x * 32768.0 >= 32767.5 ==> s == 0x7FFF
  {
    var q := (x * 32768.0 + 0.5).Floor;
    if q < -0x8000 then -0x8000 else if q > 0x7FFF then 0x7FFF else q
  }

  /** `sample_rate as i32`: the u32 bit pattern read as a signed 32-bit value. */
  function ToI32(x: U32): (r: int)
    ensures -0x8000_0000 <= r < 0x8000_0000
    ensures r % 0x1_0000_0000 == x
    ensures x < 0x8000_0000 ==> r == x
  {
    if x < 0x8000_0000 then x else x - 0x1_0000_0000
  }

  /**
    `left.iter().zip(right.iter()).flat_map(|t| [t.0, t.1])`: pairs up the
    two channels, left sample first, and stops at the end of the shorter one.
   */
  function Interleave(left: seq<real>, right: seq<real>): (r: seq<real>)
    ensures |r| == 2 * Min(|left|, |right|)
  {
    if left == [] || right == [] then []
    else [left[0], right[0]] + Interleave(left[1..], right[1..])
  }

  /** Even positions of the interleaved stream hold the left channel, odd ones the right. */
  lemma {:induction false} InterleaveAt(left: seq<real>, right: seq<real>)
    ensures var r := Interleave(left, right);
      forall j :: 0 <= j < |r| ==> r[j] == if j % 2 == 0 then left[j / 2] else right[j / 2]
    decreases |left|
  {
    if left != [] && right != [] {
      var rest := Interleave(left[1..], right[1..]);
      InterleaveAt(left[1..], right[1..]);
      var r := Interleave(left, right);
      assert r == [left[0], right[0]] + rest;
      forall j | 2 <= j < |r|
        ensures r[j] == if j % 2 == 0 then left[j / 2] else right[j / 2]
      {
        assert r[j] == rest[j - 2];
        assert (j - 2) % 2 == j % 2 && (j - 2) / 2 == j / 2 - 1;
      }
    }
  }

  /** The samples of one channel of an interleaved stereo stream (0 = left, 1 = right). */
  function Channel(s: seq<real>, side: nat): (r: seq<real>)
    requires side < 2
  {
    seq(|s| / 2, i requires 0 <= i < |s| / 2 => s[2 * i + side])
  }

  /** What one `play(left, right)` appends: the interleaved stream, converted sample by sample. */
  function Samples(left: seq<real>, right: seq<real>): (r: seq<I16>)
    ensures |r| == 2 * Min(|left|, |right|)
  {
    var x := Interleave(left, right);
    seq(|x|, j requires 0 <= j < |x| => ToI16(x[j]))
  }

  /** Sample `j` of a `play` call is the converted left (even `j`) or right (odd `j`) amplitude. */
  lemma SamplesAt(left: seq<real>, right: seq<real>)
    ensures var r := Samples(left, right);
      forall j :: 0 <= j < |r| ==> r[j] == ToI16(if j % 2 == 0 then left[j / 2] else right[j / 2])
  {
    InterleaveAt(left, right);
  }

  /** The number of stereo frames a chunk contributes: its shorter channel. */
  function Frames(calls: seq<Chunk>): nat
  {
    if calls == [] then 0
    else Frames(calls[..|calls| - 1]) + Min(|calls[|calls| - 1].left|, |calls[|calls| - 1].right|)
  }

  /** The buffer that a series of `play` calls leaves behind, starting from an empty one. */
  function Recorded(calls: seq<Chunk>): (r: seq<I16>)
    ensures |r| == 2 * Frames(calls)
  {
    if calls == [] then []
    else
      var last := calls[|calls| - 1];
      Recorded(calls[..|calls| - 1]) + Samples(last.left, last.right)
  }

  /** Splitting what `play` interleaves gives back both channels, cut to the shorter one. */
  lemma InterleaveRoundTrip(left: seq<real>, right: seq<real>)
    ensures var m := Min(|left|, |right|);
      Channel(Interleave(left, right), 0) == left[..m] && Channel(Interleave(left, right), 1) == right[..m]
  {
    var x, m := Interleave(left, right), Min(|left|, |right|);
    InterleaveAt(left, right);
    forall i | 0 <= i < m
      ensures Channel(x, 0)[i] == left[i] && Channel(x, 1)[i] == right[i]
    {
      assert (2 * i) % 2 == 0 && (2 * i) / 2 == i;
      assert (2 * i + 1) % 2 == 1 && (2 * i + 1) / 2 == i;
    }
  }

  /** A sample value that is exactly representable converts to itself. */
  lemma ToI16Exact(k: I16)
    ensures ToI16(k as real / 32768.0) == k
  {
    assert k as real / 32768.0 * 32768.0 == k as real;
    assert (k as real + 0.5).Floor == k;
  }

  /**
    The buffer after several `play` calls is the concatenation of what each
    call appends, in call order; in particular an earlier buffer is never
    changed, only extended.
   */
  lemma {:induction false} RecordedAppend(xs: seq<Chunk>, ys: seq<Chunk>)
    ensures Recorded(xs + ys) == Recorded(xs) + Recorded(ys)
    decreases |ys|
  {
    if ys == [] {
      assert xs + ys == xs;
    } else {
      var init, last := ys[..|ys| - 1], ys[|ys| - 1];
      var s := Samples(last.left, last.right);
      assert Recorded(xs + ys) == Recorded(xs + init) + s by {
        assert (xs + ys)[..|xs + ys| - 1] == xs + init;
        assert (xs + ys)[|xs + ys| - 1] == last;
      }
      assert Recorded(ys) == Recorded(init) + s;
      assert Recorded(xs + init) == Recorded(xs) + Recorded(init) by {
        RecordedAppend(xs, init);
      }
      AppendAssoc(Recorded(xs), Recorded(init), s);
    }
  }

  /** Concatenation is associative (stated once, used where the solver misses it). */
  lemma AppendAssoc<T>(a: seq<T>, b: seq<T>, c: seq<T>)
    ensures a + (b + c) == (a + b) + c
  {
  }

  /** The slice of a sequence from its start is the whole sequence. */
  lemma SliceFrom0<T>(s: seq<T>)
    ensures s[0..] == s
  {
  }

  /** The slice of a sequence from its end is empty. */
  lemma SliceFromEnd<T>(s: seq<T>)
    ensures s[|s|..] == []
  {
  }

  /** Playing an empty (or one-sided) chunk leaves the buffer as it was. */
  lemma {:induction false} RecordedSkipsEmpty(xs: seq<Chunk>, c: Chunk)
    requires c.left == [] || c.right == []
    ensures Recorded(xs + [c]) == Recorded(xs)
  {
    assert (xs + [c])[..|xs|] == xs;
    assert Samples(c.left, c.right) == [];
  }

  /**
    The sink handed to the emulator (`Player`). The Rust buffer sits behind
    an `Arc<Mutex<..>>`; the run is single-threaded, so it is a plain field.
    `written` records what the `Drop` implementation writes to disk.
   */
  class Player {
    const outfile: string
    const sampleRate: U32
    var buffer: seq<I16>
    ghost var written: Option<WavFile>

    /** `Player::new`: an empty buffer and the configuration, unchanged. */
    constructor New(outfile: string, sampleRate: U32)
      ensures this.outfile == outfile && this.sampleRate == sampleRate
      ensures buffer == [] && written == None
    {
      this.outfile := outfile;
      this.sampleRate := sampleRate;
      buffer := [];
      written := None;
    }

    /** `Player::boxed_new`: a freshly allocated `Player::new`. */
    static method BoxedNew(outfile: string, sampleRate: U32) returns (p: Player)
      ensures fresh(p)
      ensures p.outfile == outfile && p.sampleRate == sampleRate
      ensures p.buffer == [] && p.written == None
    {
      p := new Player.New(outfile, sampleRate);
    }

    /** `AudioPlayer::play`: appends the chunk's converted, interleaved samples. */
    method Play(left: seq<real>, right: seq<real>)
      requires written == None
      modifies this
      ensures buffer == old(buffer) + Samples(left, right)
      ensures written == None
    {
      var interleaved := Interleave(left, right);
      var converted := seq(|interleaved|, j requires 0 <= j < |interleaved| => ToI16(interleaved[j]));
      buffer := buffer + converted;
    }

    /** `AudioPlayer::samples_rate`: the rate the player was built with. */
    function SamplesRate(): (r: U32)
      ensures r == sampleRate
    {
      sampleRate
    }

    /** `AudioPlayer::underflowed`: the sink never reports an underflow. */
    function Underflowed(): (r: bool)
      ensures !r
    {
      false
    }

    /**
      `Drop::drop`: writes the whole buffer, two channels, at the configured
      rate (passed on as `i32`), to `outfile`. Rust runs it exactly once.
     */
    method Drop()
      requires written == None
      modifies this
      ensures buffer == old(buffer)
      ensures written == Some(WavFile(outfile, 2, ToI32(sampleRate), buffer))
    {
      written := Some(WavFile(outfile, 2, ToI32(sampleRate), buffer));
    }
  }
}

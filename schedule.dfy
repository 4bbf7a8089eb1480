/**
  What src/main.rs does to the device, as values: the tick clock
  (`device_wait`), a timed key hold (`many_key_press`), the fixed load
  script of `load_song`, and the whole run of `main`. Each is the trace of
  device calls it produces from a given step index and key state; the
  methods in module Ripper are proved to produce exactly these traces.
 */
module Schedule {
  import opened WavAudio
  import opened Emulator

  /** `TICKS_PER_SECOND`: the Game Boy clock, 2^22 ticks per second. */
  const TicksPerSecond: nat := 4_194_304

  /**
    `(seconds * TICKS_PER_SECOND as f32).round() as u32` for a duration
    given in tenths of a second: the nearest whole tick count, halves up.
   */
  function TicksFor(tenths: nat): (r: nat)
    ensures 10 * r <= tenths * TicksPerSecond + 5 < 10 * r + 10
  {
    (tenths * TicksPerSecond + 5) / 10
  }

  /**
    The calls the loop `while ticks < max { ticks += device.do_cycle() }`
    makes, starting at step `i` with `ticks` already counted, while the keys
    `held` are down.
   */
  function Waiting(cost: nat -> Ticks, i: nat, ticks: nat, max: nat, held: set<Key>): seq<Event>
    decreases if ticks < max then max - ticks else 0
  {
    if ticks >= max then []
    else [Cycle(cost(i), held)] + Waiting(cost, i + 1, ticks + cost(i), max, held)
  }

  /** How many `do_cycle` calls that loop makes. */
  function WaitSteps(cost: nat -> Ticks, i: nat, ticks: nat, max: nat): nat
    decreases if ticks < max then max - ticks else 0
  {
    if ticks >= max then 0
    else 1 + WaitSteps(cost, i + 1, ticks + cost(i), max)
  }

  /** The ticks the steps of a trace add up to. */
  function Elapsed(events: seq<Event>): nat
  {
    if events == [] then 0
    else (if events[0].Cycle? then events[0].ticks else 0) + Elapsed(events[1..])
  }

  /** The key events of a trace, in order, without the steps. */
  function KeyEvents(events: seq<Event>): seq<Event>
  {
    if events == [] then []
    else (if events[0].Press? || events[0].Release? then [events[0]] else []) + KeyEvents(events[1..])
  }

  /** The set of keys in a key list. */
  function KeySet(keys: seq<Key>): set<Key>
  {
    set k | k in keys
  }

  /** A key-down for each key, in list order. */
  function Presses(keys: seq<Key>): seq<Event>
  {
    if keys == [] then [] else [Press(keys[0])] + Presses(keys[1..])
  }

  /** A key-up for each key, in list order. */
  function Releases(keys: seq<Key>): seq<Event>
  {
    if keys == [] then [] else [Release(keys[0])] + Releases(keys[1..])
  }

  /** The `j`-th press or release is that of the `j`-th key: one event per key, in list order. */
  lemma {:induction false} KeyEventsAt(keys: seq<Key>)
    ensures |Presses(keys)| == |keys| && |Releases(keys)| == |keys|
    ensures forall j :: 0 <= j < |keys| ==> Presses(keys)[j] == Press(keys[j]) && Releases(keys)[j] == Release(keys[j])
    decreases |keys|
  {
    if keys != [] {
      KeyEventsAt(keys[1..]);
      forall j | 1 <= j < |keys|
        ensures Presses(keys)[j] == Press(keys[j]) && Releases(keys)[j] == Release(keys[j])
      {
        assert keys[1..][j - 1] == keys[j];
      }
    }
  }

  /** The presses (releases) of two key lists in a row are those of the first, then those of the second. */
  lemma {:induction false} KeyEventsAppendKeys(a: seq<Key>, b: seq<Key>)
    ensures Presses(a + b) == Presses(a) + Presses(b)
    ensures Releases(a + b) == Releases(a) + Releases(b)
    decreases |a|
  {
    if a == [] {
      assert a + b == b;
    } else {
      assert (a + b)[0] == a[0] && (a + b)[1..] == a[1..] + b;
      KeyEventsAppendKeys(a[1..], b);
      AppendAssoc([Press(a[0])], Presses(a[1..]), Presses(b));
      AppendAssoc([Release(a[0])], Releases(a[1..]), Releases(b));
    }
  }

  /** Extending a key list by its next key extends its presses, releases and key set by that key. */
  lemma KeysPrefix(keys: seq<Key>, i: nat)
    requires i < |keys|
    ensures Presses(keys[..i + 1]) == Presses(keys[..i]) + [Press(keys[i])]
    ensures Releases(keys[..i + 1]) == Releases(keys[..i]) + [Release(keys[i])]
    ensures KeySet(keys[..i + 1]) == KeySet(keys[..i]) + {keys[i]}
  {
    assert keys[..i + 1] == keys[..i] + [keys[i]];
    KeyEventsAppendKeys(keys[..i], [keys[i]]);
  }

  /**
    One step of the load script: hold `keys` for `tenths` tenths of a second
    (`many_key_press` / `key_press`), or wait that long with no key event
    (`device_wait`).
   */
  datatype Input = Hold(keys: seq<Key>, tenths: nat) | Idle(tenths: nat)
  {
    function Keys(): seq<Key>
    {
      if Hold? then keys else []
    }
  }

  /** The script of `load_song`, in order. */
  const LoadScript: seq<Input> := [
    Hold([Select, Up], 1),
    Hold([Down], 30),
    Hold([A], 1),
    Hold([A], 1),
    Hold([Up], 50),
    Hold([A], 1),     // load song
    Hold([Left], 1),  // discard changes
    Hold([A], 1),
    Idle(100),
    Hold([Select, Down], 1)
  ]

  /** The key state while an input's wait runs. */
  function HeldDuring(p: set<Key>, input: Input): set<Key>
  {
    p + KeySet(input.Keys())
  }

  /** The key state after an input. */
  function After(p: set<Key>, input: Input): set<Key>
  {
    p + KeySet(input.Keys()) - KeySet(input.Keys())
  }

  /** The calls one input makes, from step `i` with keys `p` already down. */
  function InputTrace(cost: nat -> Ticks, i: nat, p: set<Key>, input: Input): seq<Event>
  {
    match input
    case Hold(keys, tenths) =>
      Presses(keys) + Waiting(cost, i, 0, TicksFor(tenths), p + KeySet(keys)) + Releases(keys)
    case Idle(tenths) =>
      Waiting(cost, i, 0, TicksFor(tenths), p)
  }

  /** The steps one input takes. */
  function InputSteps(cost: nat -> Ticks, i: nat, input: Input): nat
  {
    WaitSteps(cost, i, 0, TicksFor(input.tenths))
  }

  /** The calls a script makes, input after input. */
  function ScriptTrace(cost: nat -> Ticks, i: nat, p: set<Key>, script: seq<Input>): seq<Event>
    decreases |script|
  {
    if script == [] then []
    else
      InputTrace(cost, i, p, script[0])
      + ScriptTrace(cost, i + InputSteps(cost, i, script[0]), After(p, script[0]), script[1..])
  }

  /** The steps a script takes. */
  function ScriptSteps(cost: nat -> Ticks, i: nat, script: seq<Input>): nat
    decreases |script|
  {
    if script == [] then 0
    else
      InputSteps(cost, i, script[0]) + ScriptSteps(cost, i + InputSteps(cost, i, script[0]), script[1..])
  }

  /** The key state after a script. */
  function ScriptAfter(p: set<Key>, script: seq<Input>): set<Key>
  {
    if script == [] then p else ScriptAfter(After(p, script[0]), script[1..])
  }

  /** The key events a script makes, whatever the device's step costs. */
  function ScriptKeyEvents(script: seq<Input>): seq<Event>
  {
    if script == [] then []
    else Presses(script[0].Keys()) + Releases(script[0].Keys()) + ScriptKeyEvents(script[1..])
  }

  /** Every key any input of a script holds. */
  function ScriptKeys(script: seq<Input>): set<Key>
  {
    if script == [] then {} else KeySet(script[0].Keys()) + ScriptKeys(script[1..])
  }

  // ----- the recording length of `main` -----

  /**
    `length * TICKS_PER_SECOND` as written: a `u32` product, which wraps
    (release build) once `length` reaches 1024.
   */
  function RecordTargetAsWritten(length: U32): (r: U32)
    ensures r == (length % 1024) * TicksPerSecond
  {
    (length * TicksPerSecond) % 0x1_0000_0000
  }

  /** The recording length in ticks, computed without overflow. */
  function RecordTarget(length: U32): (r: nat)
    ensures r / TicksPerSecond == length && r % TicksPerSecond == 0
  {
    length * TicksPerSecond
  }

  /** For `length` up to 1023 the product fits in `u32` and both agree; from 1024 on it does not. */
  lemma RecordTargetAgrees(length: U32)
    ensures length <= 1023 <==> RecordTargetAsWritten(length) == RecordTarget(length)
  {
    if length >= 1024 {
      assert RecordTarget(length) >= 0x1_0000_0000;
    }
  }

  /** With `-t 1024` the program as written records nothing after pressing Start. */
  lemma RecordTargetWrapsAt1024()
    ensures RecordTargetAsWritten(1024) == 0
    ensures RecordTarget(1024) == 1024 * TicksPerSecond
  {
  }

  // ----- the run of `main` -----

  /** The step at which the load script begins: after the 10 s wait. */
  function LoadStart(cost: nat -> Ticks): nat
  {
    WaitSteps(cost, 0, 0, TicksFor(100))
  }

  /** The step at which Start is pressed: after the load script `script` (`LoadScript` in the program). */
  function StartAt(cost: nat -> Ticks, script: seq<Input>): nat
  {
    LoadStart(cost) + ScriptSteps(cost, LoadStart(cost), script)
  }

  /** The steps `main` takes before the recording loop: 10 s wait, the load script, Start. */
  function StartupSteps(cost: nat -> Ticks, script: seq<Input>): nat
  {
    StartAt(cost, script) + InputSteps(cost, StartAt(cost, script), Hold([Start], 1))
  }

  /** The calls `main` makes before the recording loop, after attaching audio. */
  function StartupTrace(cost: nat -> Ticks, script: seq<Input>): seq<Event>
  {
    StagesTrace(cost, script, LoadStart(cost), StartAt(cost, script))
  }

  /** The startup calls when the load script begins at step `s1` and Start is pressed at step `s2`. */
  function StagesTrace(cost: nat -> Ticks, script: seq<Input>, s1: nat, s2: nat): seq<Event>
  {
    Waiting(cost, 0, 0, TicksFor(100), {})
    + ScriptTrace(cost, s1, {}, script)
    + InputTrace(cost, s2, ScriptAfter({}, script), Hold([Start], 1))
  }

  /** The recording loop of `main`. */
  function RecordingTrace(cost: nat -> Ticks, script: seq<Input>, length: U32): seq<Event>
  {
    Waiting(cost, StartupSteps(cost, script), 0, RecordTarget(length), After(ScriptAfter({}, script), Hold([Start], 1)))
  }

  /** Everything `main` asks of the device, in order, when the save loads. */
  function RunTrace(cost: nat -> Ticks, script: seq<Input>, save: seq<bv8>, length: U32): seq<Event>
  {
    [Loaded(save), AudioEnabled] + StartupTrace(cost, script) + RecordingTrace(cost, script, length)
  }

  /** The steps `main` takes in all. */
  function RunSteps(cost: nat -> Ticks, script: seq<Input>, length: U32): nat
  {
    StartupSteps(cost, script) + WaitSteps(cost, StartupSteps(cost, script), 0, RecordTarget(length))
  }

  // ----- lemmas -----

  lemma {:induction false} ElapsedAppend(a: seq<Event>, b: seq<Event>)
    ensures Elapsed(a + b) == Elapsed(a) + Elapsed(b)
  {
    if a != [] {
      assert (a + b)[0] == a[0] && (a + b)[1..] == a[1..] + b;
      ElapsedAppend(a[1..], b);
    } else {
      assert a + b == b;
    }
  }

  lemma {:induction false} KeyEventsAppend(a: seq<Event>, b: seq<Event>)
    ensures KeyEvents(a + b) == KeyEvents(a) + KeyEvents(b)
  {
    if a != [] {
      assert (a + b)[0] == a[0] && (a + b)[1..] == a[1..] + b;
      KeyEventsAppend(a[1..], b);
    } else {
      assert a + b == b;
    }
  }

  /**
    The clock loop: it steps through cost(i), cost(i+1), ... with the same
    keys held, makes no step at all when the target is already met, stops
    at the first step that reaches the target (never short of it, and past
    it by less than that last step), and makes at most `max - ticks` steps.
   */
  lemma {:induction false} WaitingBounds(cost: nat -> Ticks, i: nat, ticks: nat, max: nat, held: set<Key>)
    ensures var w := Waiting(cost, i, ticks, max, held);
      && |w| == WaitSteps(cost, i, ticks, max)
      && (forall j :: 0 <= j < |w| ==> w[j] == Cycle(cost(i + j), held))
      && (w == [] <==> ticks >= max)
      && ticks + Elapsed(w) >= max
      && (w != [] ==> ticks + Elapsed(w[..|w| - 1]) < max)
      && (ticks < max ==> |w| <= max - ticks)
      && KeyEvents(w) == []
    decreases if ticks < max then max - ticks else 0
  {
    var w := Waiting(cost, i, ticks, max, held);
    if ticks < max {
      var c, t := Cycle(cost(i), held), cost(i);
      var rest := Waiting(cost, i + 1, ticks + t, max, held);
      WaitingBounds(cost, i + 1, ticks + t, max, held);
      assert w == [c] + rest;
      assert w[0] == c && w[1..] == rest;
      forall j | 0 <= j < |w|
        ensures w[j] == Cycle(cost(i + j), held)
      {
        if j > 0 {
          assert w[j] == rest[j - 1];
        }
      }
      if rest != [] {
        assert w[..|w| - 1] == [c] + rest[..|rest| - 1];
        ElapsedAppend([c], rest[..|rest| - 1]);
      } else {
        assert w[..|w| - 1] == [];
      }
      ElapsedAppend([c], rest);
      KeyEventsAppend([c], rest);
    }
  }

  lemma KeyEventsOfKeys(es: seq<Event>)
    requires forall j :: 0 <= j < |es| ==> es[j].Press? || es[j].Release?
    ensures KeyEvents(es) == es
    decreases |es|
  {
    if es != [] {
      KeyEventsOfKeys(es[1..]);
    }
  }

  lemma ElapsedOfKeys(es: seq<Event>)
    requires forall j :: 0 <= j < |es| ==> es[j].Press? || es[j].Release?
    ensures Elapsed(es) == 0
    decreases |es|
  {
    if es != [] {
      ElapsedOfKeys(es[1..]);
    }
  }

  /**
    A hold presses its keys in list order, then only steps (all with the
    keys down), then releases them in list order; an idle wait makes no
    key event.
   */
  lemma InputShape(cost: nat -> Ticks, i: nat, p: set<Key>, input: Input)
    ensures var t := InputTrace(cost, i, p, input);
      var w := Waiting(cost, i, 0, TicksFor(input.tenths), HeldDuring(p, input));
      && t == Presses(input.Keys()) + w + Releases(input.Keys())
      && |t| == 2 * |input.Keys()| + InputSteps(cost, i, input)
  {
    var keys := input.Keys();
    var w := Waiting(cost, i, 0, TicksFor(input.tenths), HeldDuring(p, input));
    WaitingBounds(cost, i, 0, TicksFor(input.tenths), HeldDuring(p, input));
    KeyEventsAt(keys);
    if input.Idle? {
      assert Presses(keys) == [] && Releases(keys) == [];
      assert KeySet(keys) == {};
      assert HeldDuring(p, input) == p;
      assert InputTrace(cost, i, p, input) == Presses(keys) + w + Releases(keys);
    }
  }

  /**
    The only key events of an input are its presses and releases, and its
    steps take together at least the ticks of its duration.
   */
  lemma InputKeyEvents(cost: nat -> Ticks, i: nat, p: set<Key>, input: Input)
    ensures var t := InputTrace(cost, i, p, input);
      && KeyEvents(t) == Presses(input.Keys()) + Releases(input.Keys())
      && Elapsed(t) >= TicksFor(input.tenths)
  {
    var ps, rs := Presses(input.Keys()), Releases(input.Keys());
    var max := TicksFor(input.tenths);
    var w := Waiting(cost, i, 0, max, HeldDuring(p, input));
    assert InputTrace(cost, i, p, input) == ps + w + rs by {
      InputShape(cost, i, p, input);
    }
    assert KeyEvents(w) == [] && Elapsed(w) >= max by {
      WaitingBounds(cost, i, 0, max, HeldDuring(p, input));
    }
    assert forall j :: 0 <= j < |ps| ==> ps[j].Press? || ps[j].Release? by {
      KeyEventsAt(input.Keys());
    }
    assert forall j :: 0 <= j < |rs| ==> rs[j].Press? || rs[j].Release? by {
      KeyEventsAt(input.Keys());
    }
    KeysAround(ps, w, rs);
    assert ps + KeyEvents(w) == ps;
  }

  /** Key events around a run of steps add nothing to its time and pass through `KeyEvents` unchanged. */
  lemma KeysAround(ps: seq<Event>, w: seq<Event>, rs: seq<Event>)
    requires forall j :: 0 <= j < |ps| ==> ps[j].Press? || ps[j].Release?
    requires forall j :: 0 <= j < |rs| ==> rs[j].Press? || rs[j].Release?
    ensures KeyEvents(ps + w + rs) == ps + KeyEvents(w) + rs
    ensures Elapsed(ps + w + rs) == Elapsed(w)
  {
    KeyEventsOfKeys(ps);
    KeyEventsOfKeys(rs);
    ElapsedOfKeys(ps);
    ElapsedOfKeys(rs);
    KeyEventsAppend(ps, w);
    KeyEventsAppend(ps + w, rs);
    ElapsedAppend(ps, w);
    ElapsedAppend(ps + w, rs);
  }

  /** The key events of a script do not depend on how long the device's steps take. */
  lemma {:induction false} ScriptKeyEventsFixed(cost: nat -> Ticks, i: nat, p: set<Key>, script: seq<Input>)
    ensures KeyEvents(ScriptTrace(cost, i, p, script)) == ScriptKeyEvents(script)
    decreases |script|
  {
    if script != [] {
      var i', p' := i + InputSteps(cost, i, script[0]), After(p, script[0]);
      var head, tail := InputTrace(cost, i, p, script[0]), ScriptTrace(cost, i', p', script[1..]);
      var keys := Presses(script[0].Keys()) + Releases(script[0].Keys());
      assert ScriptTrace(cost, i, p, script) == head + tail;
      assert KeyEvents(head) == keys by {
        InputKeyEvents(cost, i, p, script[0]);
      }
      assert KeyEvents(tail) == ScriptKeyEvents(script[1..]) by {
        ScriptKeyEventsFixed(cost, i', p', script[1..]);
      }
      KeyEventsAppend(head, tail);
      assert ScriptKeyEvents(script) == keys + ScriptKeyEvents(script[1..]);
    }
  }

  /** What the driver sees of the device between two calls: its trace, step count and keys down. */
  datatype Snapshot = Snapshot(trace: seq<Event>, steps: nat, pressed: set<Key>)

  /** The device after carrying out `input` from `d`. */
  function Next(c: nat -> Ticks, d: Snapshot, input: Input): Snapshot
  {
    Snapshot(d.trace + InputTrace(c, d.steps, d.pressed, input), d.steps + InputSteps(c, d.steps, input), After(d.pressed, input))
  }

  /**
    The device after carrying out the inputs of `rest` from `d`: the script's
    calls appended to the trace, its steps taken, its key state reached.
   */
  function Finish(c: nat -> Ticks, d: Snapshot, rest: seq<Input>): Snapshot
  {
    Snapshot(d.trace + ScriptTrace(c, d.steps, d.pressed, rest), d.steps + ScriptSteps(c, d.steps, rest), ScriptAfter(d.pressed, rest))
  }

  /** Carrying out a non-empty script is carrying out its first input, then the rest. */
  lemma FinishCons(c: nat -> Ticks, d: Snapshot, rest: seq<Input>)
    requires rest != []
    ensures Finish(c, d, rest) == Finish(c, Next(c, d, rest[0]), rest[1..])
  {
    var x := InputTrace(c, d.steps, d.pressed, rest[0]);
    var y := ScriptTrace(c, d.steps + InputSteps(c, d.steps, rest[0]), After(d.pressed, rest[0]), rest[1..]);
    AppendAssoc(d.trace, x, y);
  }

  /**
    Carrying out a script from its input `k` on is carrying out input `k`
    (`Next`) and then the inputs after it: the script runs input by input.
   */
  lemma FinishAt(c: nat -> Ticks, d: Snapshot, script: seq<Input>, k: nat)
    requires k < |script|
    ensures Finish(c, d, script[k..]) == Finish(c, Next(c, d, script[k]), script[k + 1..])
  {
    FinishCons(c, d, script[k..]);
    assert script[k..][0] == script[k] && script[k..][1..] == script[k + 1..];
  }

  /** An empty script leaves the device as it is. */
  lemma FinishEmpty(c: nat -> Ticks, d: Snapshot)
    ensures Finish(c, d, []) == d
  {
    assert d.trace + [] == d.trace;
  }

  /** A script ends with every key it touched released and the other keys as they were. */
  lemma {:induction false} ScriptReleases(p: set<Key>, script: seq<Input>)
    ensures ScriptAfter(p, script) == p - ScriptKeys(script)
  {
    if script != [] {
      ScriptReleases(After(p, script[0]), script[1..]);
    }
  }

  /** The inputs of the load script, one by one. */
  ghost predicate IsLoadScript(s: seq<Input>)
  {
    && |s| == 10
    && s[0] == Hold([Select, Up], 1)
    && s[1] == Hold([Down], 30)
    && s[2] == Hold([A], 1)
    && s[3] == Hold([A], 1)
    && s[4] == Hold([Up], 50)
    && s[5] == Hold([A], 1)
    && s[6] == Hold([Left], 1)
    && s[7] == Hold([A], 1)
    && s[8] == Idle(100)
    && s[9] == Hold([Select, Down], 1)
  }

  /**
    The key events `load_song` makes, in order, one group per input:
    {Select, Up}, Down, A, A, Up, A, Left, A, (the idle wait makes none),
    {Select, Down}; each group's keys pressed in list order, then released
    in the same order.
   */
  const LoadSongEvents: seq<Event> :=
    [Press(Select), Press(Up), Release(Select), Release(Up)]
    + [Press(Down), Release(Down)]
    + [Press(A), Release(A)]
    + [Press(A), Release(A)]
    + [Press(Up), Release(Up)]
    + [Press(A), Release(A)]
    + [Press(Left), Release(Left)]
    + [Press(A), Release(A)]
    + [Press(Select), Press(Down), Release(Select), Release(Down)]

  /** The key events of the scripts `a` then `b` are those of `a`, then those of `b`. */
  lemma {:induction false} ScriptKeyEventsAppend(a: seq<Input>, b: seq<Input>)
    ensures ScriptKeyEvents(a + b) == ScriptKeyEvents(a) + ScriptKeyEvents(b)
    decreases |a|
  {
    if a == [] {
      assert a + b == b;
    } else {
      assert (a + b)[0] == a[0] && (a + b)[1..] == a[1..] + b;
      ScriptKeyEventsAppend(a[1..], b);
      var g := Presses(a[0].Keys()) + Releases(a[0].Keys());
      AppendAssoc(g, ScriptKeyEvents(a[1..]), ScriptKeyEvents(b));
    }
  }

  /** The key events of the first `k + 1` inputs: those of the first `k`, then input `k`'s. */
  lemma ScriptKeyEventsSnoc(s: seq<Input>, k: nat)
    requires k < |s|
    ensures ScriptKeyEvents(s[..k + 1]) == ScriptKeyEvents(s[..k]) + (Presses(s[k].Keys()) + Releases(s[k].Keys()))
  {
    assert s[..k + 1] == s[..k] + [s[k]];
    ScriptKeyEventsAppend(s[..k], [s[k]]);
    assert ScriptKeyEvents([s[k]]) == Presses(s[k].Keys()) + Releases(s[k].Keys()) + [];
  }

  /** The key events of holding one key: its press, then its release. */
  lemma HoldOne(k: Key)
    ensures Presses([k]) + Releases([k]) == [Press(k), Release(k)]
  {
    assert [k][1..] == [];
  }

  /** The key events of holding two keys: both presses, then both releases, in order. */
  lemma HoldTwo(a: Key, b: Key)
    ensures Presses([a, b]) + Releases([a, b]) == [Press(a), Press(b), Release(a), Release(b)]
  {
    assert [a, b][1..] == [b] && [b][1..] == [];
    assert Presses([b]) == [Press(b)] && Releases([b]) == [Release(b)];
    assert Presses([a, b]) == [Press(a), Press(b)];
    assert Releases([a, b]) == [Release(a), Release(b)];
  }

  /** The key events of the load script, input by input. */
  lemma LoadScriptKeyEvents(s: seq<Input>)
    requires IsLoadScript(s)
    ensures ScriptKeyEvents(s) == LoadSongEvents
  {
    assert s[..0] == [];
    var e1 := [Press(Select), Press(Up), Release(Select), Release(Up)];
    assert ScriptKeyEvents(s[..1]) == e1 by {
      ScriptKeyEventsSnoc(s, 0);
      HoldTwo(Select, Up);
    }
    var e2 := e1 + [Press(Down), Release(Down)];
    assert ScriptKeyEvents(s[..2]) == e2 by {
      ScriptKeyEventsSnoc(s, 1);
      HoldOne(Down);
    }
    var e3 := e2 + [Press(A), Release(A)];
    assert ScriptKeyEvents(s[..3]) == e3 by {
      ScriptKeyEventsSnoc(s, 2);
      HoldOne(A);
    }
    var e4 := e3 + [Press(A), Release(A)];
    assert ScriptKeyEvents(s[..4]) == e4 by {
      ScriptKeyEventsSnoc(s, 3);
      HoldOne(A);
    }
    var e5 := e4 + [Press(Up), Release(Up)];
    assert ScriptKeyEvents(s[..5]) == e5 by {
      ScriptKeyEventsSnoc(s, 4);
      HoldOne(Up);
    }
    var e6 := e5 + [Press(A), Release(A)];
    assert ScriptKeyEvents(s[..6]) == e6 by {
      ScriptKeyEventsSnoc(s, 5);
      HoldOne(A);
    }
    var e7 := e6 + [Press(Left), Release(Left)];
    assert ScriptKeyEvents(s[..7]) == e7 by {
      ScriptKeyEventsSnoc(s, 6);
      HoldOne(Left);
    }
    var e8 := e7 + [Press(A), Release(A)];
    assert ScriptKeyEvents(s[..8]) == e8 by {
      ScriptKeyEventsSnoc(s, 7);
      HoldOne(A);
    }
    var e9 := e8;
    assert ScriptKeyEvents(s[..9]) == e9 by {
      ScriptKeyEventsSnoc(s, 8);
      assert Presses([]) + Releases([]) == [];
    }
    var e10 := e9 + [Press(Select), Press(Down), Release(Select), Release(Down)];
    assert ScriptKeyEvents(s[..10]) == e10 by {
      ScriptKeyEventsSnoc(s, 9);
      HoldTwo(Select, Down);
    }
    assert s[..10] == s;
  }

  /** Unfolds `ScriptKeys` once at position `k`. */
  lemma ScriptKeysAt(s: seq<Input>, k: nat)
    requires k < |s|
    ensures ScriptKeys(s[k..]) == KeySet(s[k].Keys()) + ScriptKeys(s[k + 1..])
  {
    assert s[k..][0] == s[k] && s[k..][1..] == s[k + 1..];
  }

  /** The keys the last five inputs of the load script touch. */
  lemma LoadScriptTailKeys(s: seq<Input>)
    requires IsLoadScript(s)
    ensures ScriptKeys(s[5..]) == {Left, A, Select, Down}
  {
    assert ScriptKeys(s[9..]) == {Select, Down} by {
      assert s[10..] == [];
      assert KeySet([Select, Down]) == {Select, Down};
      ScriptKeysAt(s, 9);
    }
    assert ScriptKeys(s[8..]) == {Select, Down} by {
      assert KeySet([]) == {};
      ScriptKeysAt(s, 8);
    }
    assert ScriptKeys(s[7..]) == {A, Select, Down} by {
      assert KeySet([A]) == {A};
      ScriptKeysAt(s, 7);
    }
    assert ScriptKeys(s[6..]) == {Left, A, Select, Down} by {
      assert KeySet([Left]) == {Left};
      ScriptKeysAt(s, 6);
    }
    assert ScriptKeys(s[5..]) == {Left, A, Select, Down} by {
      assert KeySet([A]) == {A};
      ScriptKeysAt(s, 5);
    }
  }

  /** The keys the load script touches. */
  lemma LoadScriptKeySet(s: seq<Input>)
    requires IsLoadScript(s)
    ensures ScriptKeys(s) == {Select, Up, Down, A, Left}
  {
    LoadScriptTailKeys(s);
    assert ScriptKeys(s[4..]) == {Up, Left, A, Select, Down} by {
      assert KeySet([Up]) == {Up};
      ScriptKeysAt(s, 4);
    }
    assert ScriptKeys(s[3..]) == {Up, Left, A, Select, Down} by {
      assert KeySet([A]) == {A};
      ScriptKeysAt(s, 3);
    }
    assert ScriptKeys(s[2..]) == {Up, Left, A, Select, Down} by {
      assert KeySet([A]) == {A};
      ScriptKeysAt(s, 2);
    }
    assert ScriptKeys(s[1..]) == {Up, Left, A, Select, Down} by {
      assert KeySet([Down]) == {Down};
      ScriptKeysAt(s, 1);
    }
    assert ScriptKeys(s) == {Up, Left, A, Select, Down} by {
      assert KeySet([Select, Up]) == {Select, Up};
      ScriptKeysAt(s, 0);
      assert s[0..] == s;
    }
  }

  /**
    `load_song` makes exactly these key events, whatever the step costs:
    {Select, Up}, Down, A, A, Up, A, Left, A, then {Select, Down}, each
    pressed in order and released in the same order; it ends with every key
    it touched released, so it starts and ends with no key down when none
    was down before.
   */
  lemma LoadSongKeyEvents(cost: nat -> Ticks, i: nat, p: set<Key>, s: seq<Input>)
    requires IsLoadScript(s)
    ensures KeyEvents(ScriptTrace(cost, i, p, s)) == LoadSongEvents
    ensures ScriptAfter(p, s) == p - {Select, Up, Down, A, Left}
  {
    ScriptKeyEventsFixed(cost, i, p, s);
    ScriptReleases(p, s);
    LoadScriptKeyEvents(s);
    LoadScriptKeySet(s);
  }

  /** The tick targets of the load script. */
  lemma LoadScriptTargets()
    ensures |LoadScript| == 10
    ensures TicksFor(1) == 419430 && TicksFor(30) == 12582912
    ensures TicksFor(50) == 20971520 && TicksFor(100) == 41943040
  {
  }

  /**
    Between attaching audio and the recording loop, `main`'s only key
    events are those of the load script followed by Start, and it leaves
    no key down.
   */
  lemma StartupKeyEvents(cost: nat -> Ticks, script: seq<Input>)
    requires IsLoadScript(script)
    ensures KeyEvents(StartupTrace(cost, script)) == LoadSongEvents + [Press(Start), Release(Start)]
    ensures After(ScriptAfter({}, script), Hold([Start], 1)) == {}
  {
    var s1, s2 := LoadStart(cost), StartAt(cost, script);
    var w0 := Waiting(cost, 0, 0, TicksFor(100), {});
    var sc := ScriptTrace(cost, s1, {}, script);
    var pa := ScriptAfter({}, script);
    var st := InputTrace(cost, s2, pa, Hold([Start], 1));
    assert KeyEvents(StartupTrace(cost, script)) == KeyEvents(w0) + KeyEvents(sc) + KeyEvents(st) by {
      assert StartupTrace(cost, script) == StagesTrace(cost, script, s1, s2) == w0 + sc + st;
      KeyEventsAppend(w0, sc);
      KeyEventsAppend(w0 + sc, st);
    }
    assert KeyEvents(w0) == [] by {
      WaitingBounds(cost, 0, 0, TicksFor(100), {});
    }
    assert pa == {} && KeyEvents(sc) == LoadSongEvents by {
      LoadSongKeyEvents(cost, s1, {}, script);
    }
    StartPress(cost, s2, pa);
  }

  /** Holding Start alone makes one press and one release of Start and leaves it up. */
  lemma StartPress(cost: nat -> Ticks, i: nat, p: set<Key>)
    ensures KeyEvents(InputTrace(cost, i, p, Hold([Start], 1))) == [Press(Start), Release(Start)]
    ensures After(p, Hold([Start], 1)) == p - {Start}
  {
    InputKeyEvents(cost, i, p, Hold([Start], 1));
    assert Presses([Start]) == [Press(Start)] && Releases([Start]) == [Release(Start)];
    assert KeySet([Start]) == {Start};
  }

  /**
    The run of `main`: it loads the save, attaches audio, then its only key
    events are those of the load script followed by Start.
   */
  lemma RunKeyEvents(cost: nat -> Ticks, script: seq<Input>, save: seq<bv8>, length: U32)
    requires IsLoadScript(script)
    ensures var r := RunTrace(cost, script, save, length);
      && r[0] == Loaded(save) && r[1] == AudioEnabled
      && KeyEvents(r) == LoadSongEvents + [Press(Start), Release(Start)]
  {
    var pre := [Loaded(save), AudioEnabled];
    var su := StartupTrace(cost, script);
    var rec := RecordingTrace(cost, script, length);
    StartupKeyEvents(cost, script);
    WaitingBounds(cost, StartupSteps(cost, script), 0, RecordTarget(length), {});
    KeyEventsAppend(pre, su);
    KeyEventsAppend(pre + su, rec);
    assert KeyEvents(pre) == [] by {
      assert pre[1..][1..] == [];
    }
  }

  /**
    The recording loop of `main` runs with no key down and records at least
    `length` seconds of ticks, overshooting by less than its last step.
   */
  lemma RecordingShape(cost: nat -> Ticks, script: seq<Input>, length: U32)
    requires IsLoadScript(script)
    ensures var w := RecordingTrace(cost, script, length);
      && Elapsed(w) >= length * TicksPerSecond
      && (w != [] ==> Elapsed(w[..|w| - 1]) < length * TicksPerSecond)
      && (forall j :: 0 <= j < |w| ==> w[j].Cycle? && w[j].held == {})
  {
    StartupKeyEvents(cost, script);
    WaitingBounds(cost, StartupSteps(cost, script), 0, RecordTarget(length), {});
  }

  /** `LoadScript` is the load script input by input. */
  lemma LoadScriptIs()
    ensures IsLoadScript(LoadScript)
  {
  }

  /** The load script is the only script that `IsLoadScript` admits. */
  lemma LoadScriptUnique(s: seq<Input>)
    requires IsLoadScript(s)
    ensures s == LoadScript
  {
    assert forall k :: 0 <= k < 10 ==> s[k] == LoadScript[k];
  }
}

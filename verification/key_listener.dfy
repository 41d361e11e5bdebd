/** Hold-to-talk key handling (key_listener.py): the macOS globe-key toggle,
    the chord-based hold detector built on pynput's `HotKey`, and the choice
    between them. Callbacks are recorded, in the order they fire, in a log of
    `Signal`s; `Activate` stands for the user's `on_activate` (the
    transcriber's `start_recording`) and `Deactivate` for `on_deactivate`
    (`stop_recording`). */
module KeyListener {
  import opened Wrappers
  import opened Env

  /** A key as pynput reports it: a named special key such as `Key.ctrl`,
      which has no `vk` attribute, or a key code carrying an optional
      virtual-key number and an optional character. */
  datatype Key = Special(name: string) | Code(vk: Option<int>, ch: Option<char>)

  datatype KeyEvent = KeyDown(key: Key) | KeyUp(key: Key)

  /** A callback fired by a hold machine. */
  datatype Signal = Activate | Deactivate

  /** The virtual-key code of the macOS globe (fn) key. */
  const GLOBE_VK: int := 63

  /** `hasattr(key, "vk") and key.vk == 63`. */
  predicate IsGlobe(k: Key) {
    k.Code? && k.vk == Some(GLOBE_VK)
  }

  /** The callback expected at position `i` of a log that starts idle. */
  function Expected(i: nat): Signal {
    if i % 2 == 0 then Activate else Deactivate
  }

  /** Activate, Deactivate, Activate, ... with nothing repeated. */
  ghost predicate Alternating(log: seq<Signal>) {
    forall i :: 0 <= i < |log| ==> log[i] == Expected(i)
  }

  function Count(log: seq<Signal>, s: Signal): (n: nat)
    ensures n <= |log|
  {
    if log == [] then 0
    else Count(log[..|log| - 1], s) + (if log[|log| - 1] == s then 1 else 0)
  }

  lemma AlternatingExtend(log: seq<Signal>, s: Signal)
    requires Alternating(log) && s == Expected(|log|)
    ensures Alternating(log + [s])
  {
  }

  /** In an alternating log the activations outnumber the deactivations by
      exactly one when the log has odd length (the hold is on), and equal
      them otherwise. */
  lemma {:induction false} AlternatingCounts(log: seq<Signal>)
    requires Alternating(log)
    ensures Count(log, Activate) == Count(log, Deactivate) + |log| % 2
  {
    if log != [] {
      var prefix := log[..|log| - 1];
      assert Alternating(prefix) by {
        forall i | 0 <= i < |prefix| ensures prefix[i] == Expected(i) {
          assert prefix[i] == log[i];
        }
      }
      AlternatingCounts(prefix);
    }
  }

  // ---------------------------------------------------------------------
  // HoldGlobeKey (key_listener.py:27-47)
  // ---------------------------------------------------------------------

  /** One event delivered to `HoldGlobeKey`: the new `held` flag and the
      callbacks fired. Press and release are handled alike. */
  function GlobeStep(held: bool, e: KeyEvent): (bool, seq<Signal>) {
    if IsGlobe(e.key) then (!held, [if held then Deactivate else Activate])
    else (held, [])
  }

  /** A sequence of events delivered in order, starting from `held`. */
  function GlobeRun(held: bool, events: seq<KeyEvent>): (bool, seq<Signal>)
    decreases |events|
  {
    if events == [] then (held, [])
    else
      var before := GlobeRun(held, events[..|events| - 1]);
      var step := GlobeStep(before.0, events[|events| - 1]);
      (step.0, before.1 + step.1)
  }

  /** The number of globe-key events in a sequence. */
  function GlobeEvents(events: seq<KeyEvent>): (n: nat)
    ensures n <= |events|
  {
    if events == [] then 0
    else GlobeEvents(events[..|events| - 1]) + (if IsGlobe(events[|events| - 1].key) then 1 else 0)
  }

  /** From the initial `held = False`, whatever mix of presses and releases
      arrives: exactly one callback per globe-key event, the callbacks
      strictly alternate starting with activate, `held` is true exactly when
      one more activate than deactivate has fired. */
  lemma {:induction false} GlobeRunAlternates(events: seq<KeyEvent>)
    ensures var (held, log) := GlobeRun(false, events);
      && Alternating(log)
      && |log| == GlobeEvents(events)
      && held == (|log| % 2 == 1)
      && Count(log, Activate) == Count(log, Deactivate) + (if held then 1 else 0)
    decreases |events|
  {
    if events != [] {
      var rest := events[..|events| - 1];
      GlobeRunAlternates(rest);
      var (held, log) := GlobeRun(false, rest);
      if IsGlobe(events[|events| - 1].key) {
        AlternatingExtend(log, if held then Deactivate else Activate);
      }
    }
    var (held, log) := GlobeRun(false, events);
    AlternatingCounts(log);
  }

  /** macOS globe key: every press or release of the globe key toggles the
      hold and fires the matching callback (key_listener.py:27-47). */
  class HoldGlobeKey {
    var held: bool
    var log: seq<Signal>

    ghost predicate Valid()
      reads this
    {
      Alternating(log) && held == (|log| % 2 == 1)
    }

    constructor ()
      ensures Valid() && !held && log == []
    {
      held := false;
      log := [];
    }

    /** A non-globe key changes nothing; the globe key fires deactivate if
        held, activate if not, then flips `held`. */
    method Press(k: Key)
      requires Valid()
      modifies this
      ensures Valid()
      ensures !IsGlobe(k) ==> held == old(held) && log == old(log)
      ensures IsGlobe(k) ==> held == !old(held)
      ensures IsGlobe(k) ==> log == old(log) + [if old(held) then Deactivate else Activate]
      ensures (held, log) == (GlobeStep(old(held), KeyDown(k)).0, old(log) + GlobeStep(old(held), KeyDown(k)).1)
    {
      assert log + [] == log;
      if IsGlobe(k) {
        if held {
          log := log + [Deactivate];
        } else {
          log := log + [Activate];
        }
        AlternatingExtend(old(log), log[|log| - 1]);
        held := !held;
      }
    }

    /** Release signals are mixed with presses for the globe key, so a
        release is handled exactly like a press. */
    method Release(k: Key)
      requires Valid()
      modifies this
      ensures Valid()
      ensures !IsGlobe(k) ==> held == old(held) && log == old(log)
      ensures IsGlobe(k) ==> held == !old(held)
      ensures IsGlobe(k) ==> log == old(log) + [if old(held) then Deactivate else Activate]
      ensures (held, log) == (GlobeStep(old(held), KeyUp(k)).0, old(log) + GlobeStep(old(held), KeyUp(k)).1)
    {
      Press(k);
    }
  }

  // ---------------------------------------------------------------------
  // HoldHotKey (key_listener.py:6-24) over pynput's HotKey
  // ---------------------------------------------------------------------

  /** The state of one chord detector: pynput's `_state` (the chord keys
      currently pressed) and `HoldHotKey.active`. */
  datatype ChordState = ChordState(pressed: set<Key>, active: bool)

  const Idle: ChordState := ChordState({}, false)

  /** One event delivered to a `HoldHotKey` for `chord`.
      Press is pynput's `HotKey.press`: a chord key not yet pressed is added,
      and when the pressed set becomes the chord the activate callback sets
      `active` and fires. Release is pynput's `HotKey.release` (the key leaves
      the pressed set) followed by `HoldHotKey.release`: if the hold is active
      and the pressed set is no longer the chord, `active` is cleared and
      deactivate fires. */
  function ChordStep(chord: set<Key>, s: ChordState, e: KeyEvent): (ChordState, seq<Signal>) {
    match e
    case KeyDown(k) =>
      if k in chord && k !in s.pressed then
        var pressed := s.pressed + {k};
        if pressed == chord then (ChordState(pressed, true), [Activate])
        else (ChordState(pressed, s.active), [])
      else (s, [])
    case KeyUp(k) =>
      var pressed := s.pressed - {k};
      if s.active && pressed != chord then (ChordState(pressed, false), [Deactivate])
      else (ChordState(pressed, s.active), [])
  }

  function ChordRun(chord: set<Key>, s: ChordState, events: seq<KeyEvent>): (ChordState, seq<Signal>)
    decreases |events|
  {
    if events == [] then (s, [])
    else
      var before := ChordRun(chord, s, events[..|events| - 1]);
      var step := ChordStep(chord, before.0, events[|events| - 1]);
      (step.0, before.1 + step.1)
  }

  /** What every reachable detector state satisfies: only chord keys are
      tracked, an active hold means the whole chord is down, and the callbacks
      so far alternate, ending in activate exactly while the hold is active. */
  ghost predicate ChordInv(chord: set<Key>, s: ChordState, log: seq<Signal>) {
    && s.pressed <= chord
    && (s.active ==> s.pressed == chord)
    && Alternating(log)
    && s.active == (|log| % 2 == 1)
  }

  /** Each event keeps the invariant: activate can only fire while inactive
      (an active hold has every chord key down, so no press adds one) and
      deactivate only while active. */
  lemma ChordStepPreserves(chord: set<Key>, s: ChordState, log: seq<Signal>, e: KeyEvent)
    requires ChordInv(chord, s, log)
    ensures ChordInv(chord, ChordStep(chord, s, e).0, log + ChordStep(chord, s, e).1)
  {
    var (s', out) := ChordStep(chord, s, e);
    if out == [Activate] {
      assert !s.active;
      AlternatingExtend(log, Activate);
    } else if out == [Deactivate] {
      AlternatingExtend(log, Deactivate);
    } else {
      assert log + out == log;
    }
  }

  /** Any sequence of presses and releases from the idle state leaves the
      detector in a state satisfying the invariant. */
  lemma {:induction false} ChordRunInv(chord: set<Key>, events: seq<KeyEvent>)
    ensures ChordInv(chord, ChordRun(chord, Idle, events).0, ChordRun(chord, Idle, events).1)
    decreases |events|
  {
    if events != [] {
      var rest := events[..|events| - 1];
      ChordRunInv(chord, rest);
      var before := ChordRun(chord, Idle, rest);
      ChordStepPreserves(chord, before.0, before.1, events[|events| - 1]);
    }
  }

  /** Once the chord is broken (in particular once every key is released),
      every activation has been matched by exactly one deactivation, for any
      interleaving of presses and releases. */
  lemma ChordBalanced(chord: set<Key>, events: seq<KeyEvent>)
    requires ChordRun(chord, Idle, events).0.pressed != chord
    ensures var log := ChordRun(chord, Idle, events).1;
      Count(log, Activate) == Count(log, Deactivate)
  {
    ChordRunInv(chord, events);
    AlternatingCounts(ChordRun(chord, Idle, events).1);
  }

  /** Releasing any one chord key during an active hold ends it: deactivate
      fires once and the hold is cleared. */
  lemma AnyChordKeyReleaseEndsHold(chord: set<Key>, s: ChordState, log: seq<Signal>, k: Key)
    requires ChordInv(chord, s, log) && s.active && k in chord
    ensures ChordStep(chord, s, KeyUp(k)) == (ChordState(chord - {k}, false), [Deactivate])
  {
  }

  /** After a deactivation no sequence of releases fires anything: a new
      activation needs presses. */
  lemma {:induction false} ReleasesAloneAreSilent(chord: set<Key>, s: ChordState, events: seq<KeyEvent>)
    requires !s.active
    requires forall i :: 0 <= i < |events| ==> events[i].KeyUp?
    ensures ChordRun(chord, s, events).1 == []
    ensures !ChordRun(chord, s, events).0.active
    decreases |events|
  {
    if events != [] {
      ReleasesAloneAreSilent(chord, s, events[..|events| - 1]);
    }
  }

  /** Hold detector for a chord (key_listener.py:6-24). `pressed` is the
      `_state` of pynput's `HotKey`, a class not shown in the repository; its
      press and release are modelled as in `ChordStep`. */
  class HoldHotKey {
    const keys: set<Key>
    var pressed: set<Key>
    var active: bool
    var log: seq<Signal>

    ghost predicate Valid()
      reads this
    {
      ChordInv(keys, ChordState(pressed, active), log)
    }

    constructor (keys: set<Key>)
      ensures Valid()
      ensures this.keys == keys && pressed == {} && !active && log == []
    {
      this.keys := keys;
      pressed := {};
      active := false;
      log := [];
    }

    /** pynput `HotKey.press`; the activate callback sets `active` before the
        user's `on_activate` runs. */
    method Press(k: Key)
      requires Valid()
      modifies this
      ensures Valid()
      ensures pressed == (if k in keys then old(pressed) + {k} else old(pressed))
      ensures log == old(log) + (if k in keys && k !in old(pressed) && pressed == keys then [Activate] else [])
      ensures active == (old(active) || (k in keys && k !in old(pressed) && pressed == keys))
      ensures (ChordState(pressed, active), log)
           == (ChordStep(keys, old(ChordState(pressed, active)), KeyDown(k)).0,
               old(log) + ChordStep(keys, old(ChordState(pressed, active)), KeyDown(k)).1)
    {
      ChordStepPreserves(keys, ChordState(pressed, active), log, KeyDown(k));
      if k in keys && k !in pressed {
        pressed := pressed + {k};
        if pressed == keys {
          active := true;
          log := log + [Activate];
        }
      }
    }

    /** pynput `HotKey.release`, then: if the hold is active and the pressed
        set no longer equals the chord, `active` is cleared and deactivate
        fires. */
    method Release(k: Key)
      requires Valid()
      modifies this
      ensures Valid()
      ensures pressed == old(pressed) - {k}
      ensures log == old(log) + (if old(active) && pressed != keys then [Deactivate] else [])
      ensures active == (old(active) && pressed == keys)
      ensures (ChordState(pressed, active), log)
           == (ChordStep(keys, old(ChordState(pressed, active)), KeyUp(k)).0,
               old(log) + ChordStep(keys, old(ChordState(pressed, active)), KeyUp(k)).1)
    {
      ChordStepPreserves(keys, ChordState(pressed, active), log, KeyUp(k));
      pressed := pressed - {k};
      if active && pressed != keys {
        active := false;
        log := log + [Deactivate];
      }
    }
  }

  // ---------------------------------------------------------------------
  // create_keylistener (key_listener.py:50-65)
  // ---------------------------------------------------------------------

  /** Which detector `create_keylistener` builds. Both are wired with
      activate = `start_recording` and deactivate = `stop_recording`;
      `ChordListener` carries the hotkey string handed to `HotKey.parse`. */
  datatype Listener = GlobeListener | ChordListener(hotkey: string)

  const RECORD_HOTKEYS_VAR: string := "UTTERTYPE_RECORD_HOTKEYS"
  const GLOBE_HOTKEY: string := "<globe>"
  const FALLBACK_HOTKEY: string := "<ctrl>+<alt>+v"

  /** On macOS an unset, empty or `"<globe>"` setting selects the globe key;
      everywhere else the setting is a chord, with `<ctrl>+<alt>+v` when it is
      unset or empty. The chosen chord is never empty. */
  function CreateKeyListener(platform: string, env: Environment, envVar: string := RECORD_HOTKEYS_VAR): (r: Listener)
    ensures r.GlobeListener? <==>
      platform == "darwin" && (GetEnv(env, envVar, "") == GLOBE_HOTKEY || GetEnv(env, envVar, "") == "")
    ensures r.ChordListener? ==> r.hotkey != ""
    ensures r.ChordListener? && GetEnv(env, envVar, "") != "" ==> r.hotkey == env[envVar]
    ensures r.ChordListener? && GetEnv(env, envVar, "") == "" ==> r.hotkey == FALLBACK_HOTKEY
  {
    var keyCode := GetEnv(env, envVar, "");
    if platform == "darwin" && (keyCode == GLOBE_HOTKEY || keyCode == "") then GlobeListener
    else ChordListener(if keyCode != "" then keyCode else FALLBACK_HOTKEY)
  }

  /** Off macOS the listener is always a chord detector: `"<globe>"` is then
      taken literally as a chord string. */
  lemma ChordListenerOffMac(platform: string, env: Environment, envVar: string)
    requires platform != "darwin"
    ensures CreateKeyListener(platform, env, envVar).ChordListener?
  {
  }
}

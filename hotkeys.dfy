/**
 * The hotkey edge detector (hotkey_manager.py): a set of held key names and a
 * `recording` flag. A press that completes the key combination fires the start
 * callback; a release that breaks it fires the stop callback.
 */
module Hotkeys {
  import opened Wrappers
  import PyText
  import Config

  /**
   * A key as the keyboard listener delivers it: a character key, whose `char`
   * may be missing, or a special key, given by its `str()` text such as "Key.shift".
   */
  datatype Key = CharKey(ch: Option<char>) | SpecialKey(text: string)

  datatype KeyEvent = Press(key: Key) | Release(key: Key)

  /** The callback an event fires, if any. */
  datatype Signal = NoSignal | StartSignal | StopSignal

  /** The detector's state: the held key names and the `recording` flag. */
  datatype HotkeyState = HotkeyState(pressed: set<string>, recording: bool)

  const SPECIAL_PREFIX := "Key."

  /**
   * The name under which a key is held, or None when computing it raises
   * (a character key without a character: `None.lower()`).
   */
  function KeyName(key: Key): (r: Option<string>)
    ensures r.Some? ==> PyText.IsLowerCase(r.value)
    ensures key.CharKey? ==> (r.Some? <==> key.ch.Some?)
    ensures key.CharKey? && key.ch.Some? ==> r == Some([PyText.LowerChar(key.ch.value)])
  {
    match key
    case CharKey(c) =>
      if c.Some? then
        assert PyText.Lower([c.value]) == [PyText.LowerChar(c.value)];
        Some(PyText.Lower([c.value]))
      else None
    case SpecialKey(t) => Some(PyText.Lower(PyText.RemoveAll(t, SPECIAL_PREFIX)))
  }

  /** A special key is held under its text after "Key.", lower-cased. */
  lemma SpecialKeyName(name: string)
    requires PyText.Absent(name, SPECIAL_PREFIX)
    ensures KeyName(SpecialKey(SPECIAL_PREFIX + name)) == Some(PyText.Lower(name))
  {
    PyText.RemoveAllLeading(SPECIAL_PREFIX, name);
    PyText.RemoveAllAbsent(name, SPECIAL_PREFIX);
  }

  /** `_is_target_hotkey_pressed`: every target key is among the held keys. */
  predicate Held(target: set<string>, pressed: set<string>) {
    forall k :: k in target ==> k in pressed
  }

  /** `_on_press`: add the key's name; fire start if this completes the combination while not recording. */
  function PressStep(target: set<string>, s: HotkeyState, key: Key): (r: (HotkeyState, Signal))
    ensures KeyName(key).None? ==> r == (s, NoSignal)
    ensures KeyName(key).Some? ==> r.0.pressed == s.pressed + {KeyName(key).value}
    ensures r.1 == StartSignal <==> KeyName(key).Some? && !s.recording && Held(target, r.0.pressed)
    ensures r.1 != StopSignal
    ensures r.0.recording == (s.recording || r.1 == StartSignal)
  {
    match KeyName(key)
    case None => (s, NoSignal)
    case Some(name) =>
      var pressed := s.pressed + {name};
      if Held(target, pressed) && !s.recording then (HotkeyState(pressed, true), StartSignal)
      else (HotkeyState(pressed, s.recording), NoSignal)
  }

  /** `_on_release`: discard the key's name; fire stop if the combination is broken while recording. */
  function ReleaseStep(target: set<string>, s: HotkeyState, key: Key): (r: (HotkeyState, Signal))
    ensures KeyName(key).None? ==> r == (s, NoSignal)
    ensures KeyName(key).Some? ==> r.0.pressed == s.pressed - {KeyName(key).value}
    ensures KeyName(key).Some? && KeyName(key).value !in s.pressed ==> r.0.pressed == s.pressed
    ensures r.1 == StopSignal <==> KeyName(key).Some? && s.recording && !Held(target, r.0.pressed)
    ensures r.1 != StartSignal
    ensures r.0.recording == (s.recording && r.1 != StopSignal)
  {
    match KeyName(key)
    case None => (s, NoSignal)
    case Some(name) =>
      var pressed := s.pressed - {name};
      if !Held(target, pressed) && s.recording then (HotkeyState(pressed, false), StopSignal)
      else (HotkeyState(pressed, s.recording), NoSignal)
  }

  function Step(target: set<string>, s: HotkeyState, ev: KeyEvent): (HotkeyState, Signal) {
    match ev
    case Press(k) => PressStep(target, s, k)
    case Release(k) => ReleaseStep(target, s, k)
  }

  /** The flag agrees with the keys: recording exactly while the whole combination is held. */
  predicate Consistent(target: set<string>, s: HotkeyState) {
    s.recording == Held(target, s.pressed)
  }

  /** The detector starts consistent when the combination is not empty. */
  lemma InitialConsistent(target: set<string>)
    requires target != {}
    ensures Consistent(target, HotkeyState({}, false))
  {
    var k :| k in target;
  }

  /** Every event keeps the flag consistent with the held keys. */
  lemma StepConsistent(target: set<string>, s: HotkeyState, ev: KeyEvent)
    requires Consistent(target, s)
    ensures Consistent(target, Step(target, s, ev).0)
  {
  }

  /**
   * Edge triggering: in a consistent state, start fires exactly when the combination
   * goes from not held to held, and stop exactly when it goes from held to not held,
   * whichever of its keys is released first.
   */
  lemma EdgeTriggered(target: set<string>, s: HotkeyState, ev: KeyEvent)
    requires Consistent(target, s)
    ensures var (s', sig) := Step(target, s, ev);
      && (sig == StartSignal <==> !Held(target, s.pressed) && Held(target, s'.pressed))
      && (sig == StopSignal <==> Held(target, s.pressed) && !Held(target, s'.pressed))
  {
  }

  /** The callbacks fired by a sequence of events, in order, and the final state. */
  function Run(target: set<string>, s: HotkeyState, evs: seq<KeyEvent>): (r: (HotkeyState, seq<Signal>))
    ensures |r.1| <= |evs|
    ensures forall i :: 0 <= i < |r.1| ==> r.1[i] != NoSignal
    decreases |evs|
  {
    if evs == [] then (s, [])
    else
      var (s1, sig) := Step(target, s, evs[0]);
      var (s2, sigs) := Run(target, s1, evs[1..]);
      (s2, if sig == NoSignal then sigs else [sig] + sigs)
  }

  /** The i-th callback of a strictly alternating run that starts with the flag at `recording`. */
  function Expected(recording: bool, i: nat): Signal {
    if (i % 2 == 0) != recording then StartSignal else StopSignal
  }

  /** One event fires a callback exactly when it flips the flag, and the callback is the flip's direction. */
  lemma StepFlips(target: set<string>, s: HotkeyState, ev: KeyEvent)
    ensures var (s1, sig) := Step(target, s, ev);
      && (sig == NoSignal ==> s1.recording == s.recording)
      && (sig != NoSignal ==> s1.recording == !s.recording && sig == Expected(s.recording, 0))
  {
  }

  /** Flipping the flag shifts the expected callbacks by one. */
  lemma ExpectedShift(recording: bool, i: nat)
    ensures Expected(!recording, i) == Expected(recording, i + 1)
  {
  }

  /**
   * Over any sequence of events the callbacks strictly alternate, the first one being
   * start when not recording and stop when recording, and the flag ends up flipped
   * once per callback.
   */
  lemma {:induction false} RunAlternates(target: set<string>, s: HotkeyState, evs: seq<KeyEvent>)
    ensures var (s', sigs) := Run(target, s, evs);
      && (forall i :: 0 <= i < |sigs| ==> sigs[i] == Expected(s.recording, i))
      && s'.recording == (s.recording != (|sigs| % 2 == 1))
    decreases |evs|
  {
    if evs != [] {
      var (s1, sig) := Step(target, s, evs[0]);
      StepFlips(target, s, evs[0]);
      RunAlternates(target, s1, evs[1..]);
      var (s2, rest) := Run(target, s1, evs[1..]);
      if sig == NoSignal {
        assert Run(target, s, evs) == (s2, rest);
      } else {
        var sigs := [sig] + rest;
        assert Run(target, s, evs) == (s2, sigs);
        forall i | 0 <= i < |sigs|
          ensures sigs[i] == Expected(s.recording, i)
        {
          if i > 0 {
            ExpectedShift(s.recording, i - 1);
          }
        }
      }
    }
  }

  /** From the detector's initial state the callbacks go start, stop, start, ... */
  lemma StartsWithStart(target: set<string>, evs: seq<KeyEvent>)
    ensures var sigs := Run(target, HotkeyState({}, false), evs).1;
      forall i :: 0 <= i < |sigs| ==> sigs[i] == (if i % 2 == 0 then StartSignal else StopSignal)
  {
    RunAlternates(target, HotkeyState({}, false), evs);
  }

  /** HotkeyManager: the held-key set and the flag, updated in place by the two event handlers. */
  class HotkeyManager {
    const target: set<string>
    var pressedKeys: set<string>
    var recording: bool

    ghost predicate Valid()
      reads this
    {
      Consistent(target, State())
    }

    constructor ()
      ensures target == Config.RECORD_HOTKEY && pressedKeys == {} && !recording
      ensures Valid()
    {
      target := Config.RECORD_HOTKEY;
      pressedKeys := {};
      recording := false;
      new;
      InitialConsistent(Config.RECORD_HOTKEY);
    }

    function State(): HotkeyState
      reads this
    {
      HotkeyState(pressedKeys, recording)
    }

    /** `_is_target_hotkey_pressed`: a subset test, so the order of the presses does not matter. */
    function IsTargetHotkeyPressed(): (r: bool)
      reads this
      ensures r <==> target <= pressedKeys
    {
      Held(target, pressedKeys)
    }

    /** `_on_press`; returns the callback it fires. */
    method OnPress(key: Key) returns (signal: Signal)
      requires Valid()
      modifies this
      ensures Valid()
      ensures (State(), signal) == PressStep(target, old(State()), key)
    {
      StepConsistent(target, State(), Press(key));
      var name := KeyName(key);
      if name.None? {
        // the error is caught inside the handler and nothing changes
        signal := NoSignal;
        return;
      }
      pressedKeys := pressedKeys + {name.value};
      if IsTargetHotkeyPressed() && !recording {
        recording := true;
        signal := StartSignal;
      } else {
        signal := NoSignal;
      }
    }

    /** `_on_release`; returns the callback it fires. */
    method OnRelease(key: Key) returns (signal: Signal)
      requires Valid()
      modifies this
      ensures Valid()
      ensures (State(), signal) == ReleaseStep(target, old(State()), key)
    {
      StepConsistent(target, State(), Release(key));
      var name := KeyName(key);
      if name.None? {
        signal := NoSignal;
        return;
      }
      pressedKeys := pressedKeys - {name.value};
      if !IsTargetHotkeyPressed() && recording {
        recording := false;
        signal := StopSignal;
      } else {
        signal := NoSignal;
      }
    }
  }
}

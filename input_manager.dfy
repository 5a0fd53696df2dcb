/**
 * The keyboard controller: browser key codes are normalised and looked up in
 * a fixed key map; a TRIGGER key acts once when it goes down, a HOLD key acts
 * on every animation frame while it stays down. Actions go to the audio
 * engine (logged here as calls) and to the DJ store (whose state is held
 * here and updated by the store's reducers).
 */
module InputManager {
  import opened Wrappers
  import opened DJStore
  import opened Text

  datatype ActionType = Hold | Trigger

  datatype KeyCommand = KeyCommand(deck: Option<DeckIdx>, action: string, target: Option<ControlTarget>, kind: Option<ActionType>)

  /** A call made on the audio engine. */
  datatype EngineCall =
    | AdjustParam(deck: DeckIdx, target: ControlTarget, delta: real)
    | JumpToCue(deck: DeckIdx, index: Option<int>)
    | TogglePlay(deck: DeckIdx)
    | AdjustCrossFader(delta: real)
    | Sync

  /** What the controller drives: the store's state and the engine calls made so far. */
  datatype Ctl = Ctl(store: DJState, calls: seq<EngineCall>)

  function DeckKey(d: DeckIdx, action: string, kind: ActionType): KeyCommand {
    KeyCommand(Some(d), action, None, Some(kind))
  }

  function DeckKnobKey(d: DeckIdx, action: string, t: ControlTarget): KeyCommand {
    KeyCommand(Some(d), action, Some(t), Some(Hold))
  }

  function GlobalKey(action: string, target: Option<ControlTarget>, kind: ActionType): KeyCommand {
    KeyCommand(None, action, target, Some(kind))
  }

  /** `KEY_MAP`. */
  const KeyMap: map<string, KeyCommand> := map[
    "1" := DeckKey(Deck1, "CUE1", Trigger),
    "2" := DeckKey(Deck1, "CUE2", Trigger),
    "Q" := DeckKnobKey(Deck1, "UP", Mid),
    "A" := DeckKnobKey(Deck1, "DOWN", Mid),
    "W" := DeckKnobKey(Deck1, "UP", Bass),
    "S" := DeckKnobKey(Deck1, "DOWN", Bass),
    "E" := DeckKnobKey(Deck1, "UP", Filter),
    "D" := DeckKnobKey(Deck1, "DOWN", Filter),
    "R" := DeckKnobKey(Deck1, "UP", Fader),
    "F" := DeckKnobKey(Deck1, "DOWN", Fader),
    "G" := DeckKey(Deck1, "PLAY", Trigger),
    "V" := DeckKey(Deck1, "SCRATCH", Hold),
    "SHIFTLEFT" := DeckKey(Deck1, "UPLOAD", Trigger),
    "8" := DeckKey(Deck2, "CUE1", Trigger),
    "9" := DeckKey(Deck2, "CUE2", Trigger),
    "P" := DeckKnobKey(Deck2, "UP", Mid),
    ";" := DeckKnobKey(Deck2, "DOWN", Mid),
    "O" := DeckKnobKey(Deck2, "UP", Bass),
    "L" := DeckKnobKey(Deck2, "DOWN", Bass),
    "I" := DeckKnobKey(Deck2, "UP", Filter),
    "K" := DeckKnobKey(Deck2, "DOWN", Filter),
    "U" := DeckKnobKey(Deck2, "UP", Fader),
    "J" := DeckKnobKey(Deck2, "DOWN", Fader),
    "H" := DeckKey(Deck2, "PLAY", Trigger),
    "N" := DeckKey(Deck2, "SCRATCH", Hold),
    "SHIFTRIGHT" := DeckKey(Deck2, "UPLOAD", Trigger),
    "SPACE" := GlobalKey("BEAT_SYNC", None, Trigger),
    "ARROWLEFT" := GlobalKey("LEFT", Some(CrossFader), Hold),
    "ARROWRIGHT" := GlobalKey("RIGHT", Some(CrossFader), Hold),
    "ARROWUP" := GlobalKey("UP", Some(Bpm), Trigger),
    "ARROWDOWN" := GlobalKey("DOWN", Some(Bpm), Trigger),
    "NUMPAD1" := GlobalKey("CRUSH", None, Trigger),
    "NUMPAD2" := GlobalKey("FLANGER", None, Trigger),
    "NUMPAD4" := GlobalKey("SLICER", None, Trigger),
    "NUMPAD5" := GlobalKey("KICK", None, Trigger)
  ]

  /**
   * The shapes every key map entry takes: a deck knob held, a deck key with
   * no target, or a global key whose target (if any) is the crossfader (held)
   * or the tempo (triggered).
   */
  predicate WellShaped(c: KeyCommand) {
    && c.kind.Some?
    && (c.deck.Some? ==> c.target.None? || (IsDeckKnob(c.target.value) && c.kind == Some(Hold)))
    && (c.deck.None? && c.target.Some? ==>
          (c.target.value == CrossFader && c.kind == Some(Hold)) || (c.target.value == Bpm && c.kind == Some(Trigger)))
  }

  lemma KeyMapWellShaped()
    ensures forall k :: k in KeyMap ==> WellShaped(KeyMap[k])
  {
  }

  /** ASCII upper-casing of one character. */
  function UpperChar(c: char): (u: char)
    ensures !('a' <= u <= 'z')
    ensures !('a' <= c <= 'z') ==> u == c
  {
    if 'a' <= c <= 'z' then (c as int - 32) as char else c
  }

  function Upper(s: string): (u: string)
    ensures |u| == |s|
    ensures forall i :: 0 <= i < |s| ==> u[i] == UpperChar(s[i])
  {
    seq(|s|, i requires 0 <= i < |s| => UpperChar(s[i]))
  }

  /** The index of the first occurrence of p in s at or after `from`, if any. */
  function IndexOf(s: string, p: string, from: nat): (r: Option<nat>)
    ensures r.Some? ==> from <= r.value && OccursAt(s, p, r.value)
    ensures r.Some? ==> forall j :: from <= j < r.value ==> !OccursAt(s, p, j)
    ensures r.None? ==> forall j :: from <= j ==> !OccursAt(s, p, j)
    decreases |s| - from
  {
    if from + |p| > |s| then None
    else if s[from..from + |p|] == p then Some(from)
    else IndexOf(s, p, from + 1)
  }

  /** `s.replace(p, r)` with a string pattern: only the first occurrence is replaced. */
  function ReplaceFirst(s: string, p: string, r: string): string {
    match IndexOf(s, p, 0)
    case None => s
    case Some(i) => s[..i] + r + s[i + |p|..]
  }

  /** When s starts with p, replacing p's first occurrence by nothing strips the prefix. */
  lemma StripPrefix(s: string, p: string)
    requires StartsWith(s, p)
    ensures ReplaceFirst(s, p, "") == s[|p|..]
  {
    assert IndexOf(s, p, 0) == Some(0);
  }

  /** `normalizeKeyCode`. */
  function NormalizeKeyCode(code: string): string {
    var c := Upper(code);
    if StartsWith(c, "KEY") then ReplaceFirst(c, "KEY", "")
    else if StartsWith(c, "DIGIT") then ReplaceFirst(c, "DIGIT", "")
    else if c == "SEMICOLON" then ";"
    else c
  }

  /**
   * What normalisation does: "KEY" or "DIGIT" at the front of the upper-cased
   * code is dropped, "SEMICOLON" becomes ";", and every other code is only
   * upper-cased.
   */
  lemma {:induction false} NormalizeKeyCodeCases(code: string)
    ensures var c := Upper(code);
            && (StartsWith(c, "KEY") ==> NormalizeKeyCode(code) == c[3..])
            && (!StartsWith(c, "KEY") && StartsWith(c, "DIGIT") ==> NormalizeKeyCode(code) == c[5..])
            && (c == "SEMICOLON" ==> NormalizeKeyCode(code) == ";")
            && (!StartsWith(c, "KEY") && !StartsWith(c, "DIGIT") && c != "SEMICOLON" ==> NormalizeKeyCode(code) == c)
  {
    var c := Upper(code);
    NotPrefix("SEMICOLON", "KEY", 0);
    NotPrefix("SEMICOLON", "DIGIT", 0);
    if StartsWith(c, "KEY") {
      StripPrefix(c, "KEY");
    } else if StartsWith(c, "DIGIT") {
      StripPrefix(c, "DIGIT");
    }
  }

  /** Letter keys: the browser's "KeyG" reaches the key map's "G". */
  lemma LetterCodesReachKeyMap()
    ensures NormalizeKeyCode("KeyG") == "G" && "G" in KeyMap
    ensures NormalizeKeyCode("KeyQ") == "Q" && "Q" in KeyMap
  {
    StripPrefix(Upper("KeyG"), "KEY");
    StripPrefix(Upper("KeyQ"), "KEY");
  }

  /** Digit keys: the browser's "Digit1" reaches the key map's "1". */
  lemma DigitCodesReachKeyMap()
    ensures NormalizeKeyCode("Digit1") == "1" && "1" in KeyMap
    ensures NormalizeKeyCode("Digit9") == "9" && "9" in KeyMap
  {
    assert Upper("Digit1") == "DIGIT1";
    assert Upper("Digit9") == "DIGIT9";
    NotPrefix("DIGIT1", "KEY", 0);
    NotPrefix("DIGIT9", "KEY", 0);
    StripPrefix("DIGIT1", "DIGIT");
    StripPrefix("DIGIT9", "DIGIT");
  }

  /** Named keys: "Semicolon" becomes ";", and the others are only upper-cased. */
  lemma NamedCodesReachKeyMap()
    ensures NormalizeKeyCode("Semicolon") == ";" && ";" in KeyMap
    ensures NormalizeKeyCode("ShiftLeft") == "SHIFTLEFT" && "SHIFTLEFT" in KeyMap
    ensures NormalizeKeyCode("ArrowUp") == "ARROWUP" && "ARROWUP" in KeyMap
  {
    assert Upper("Semicolon") == "SEMICOLON";
    NotPrefix("SEMICOLON", "KEY", 0);
    NotPrefix("SEMICOLON", "DIGIT", 0);
    assert Upper("ShiftLeft") == "SHIFTLEFT";
    NotPrefix("SHIFTLEFT", "KEY", 0);
    NotPrefix("SHIFTLEFT", "DIGIT", 0);
    assert Upper("ArrowUp") == "ARROWUP";
    NotPrefix("ARROWUP", "KEY", 0);
    NotPrefix("ARROWUP", "DIGIT", 0);
  }

  predicate IsDigit(c: char) {
    '0' <= c <= '9'
  }

  function DigitValue(c: char): (d: nat)
    requires IsDigit(c)
    ensures d <= 9
  {
    assert '0' as int <= c as int <= '9' as int;
    c as int - '0' as int
  }

  /** The value of a string of decimal digits. */
  function DigitsValue(s: string): (v: nat)
    requires forall i :: 0 <= i < |s| ==> IsDigit(s[i])
  {
    if |s| == 0 then 0 else 10 * DigitsValue(s[..|s| - 1]) + DigitValue(s[|s| - 1])
  }

  /** The length of the run of digits at the front of s. */
  function DigitRun(s: string): (n: nat)
    ensures n <= |s|
    ensures forall i :: 0 <= i < n ==> IsDigit(s[i])
    ensures n < |s| ==> !IsDigit(s[n])
  {
    if |s| == 0 || !IsDigit(s[0]) then 0 else 1 + DigitRun(s[1..])
  }

  /** `parseInt` on a string with no leading sign or blanks: the leading digits' value, or NaN (None). */
  function ParseInt(s: string): (r: Option<int>)
    ensures r.None? <==> (|s| == 0 || !IsDigit(s[0]))
    ensures r.Some? ==> r.value >= 0
  {
    var n := DigitRun(s);
    if n == 0 then None else Some(DigitsValue(s[..n]))
  }

  /** The cue index a CUE action carries: "CUE1" jumps to cue 1 and "CUE2" to cue 2. */
  lemma CueIndices()
    ensures ParseInt(ReplaceFirst("CUE1", "CUE", "")) == Some(1)
    ensures ParseInt(ReplaceFirst("CUE2", "CUE", "")) == Some(2)
  {
    StripPrefix("CUE1", "CUE");
    StripPrefix("CUE2", "CUE");
    assert "CUE1"[3..] == "1";
    assert "CUE2"[3..] == "2";
    assert DigitRun("1") == 1 && "1"[..1] == "1";
    assert DigitRun("2") == 1 && "2"[..1] == "2";
  }

  /** A held key's step: +0.01 for UP and RIGHT, -0.01 for everything else. */
  function HoldDelta(action: string): (d: real)
    ensures d == 0.01 || d == -0.01
    ensures d == 0.01 <==> action == "UP" || action == "RIGHT"
  {
    if action == "UP" || action == "RIGHT" then 0.01 else -0.01
  }

  /** `processHoldAction`. */
  function HoldEffect(c: Ctl, cmd: KeyCommand): Ctl {
    if cmd.target.None? then c
    else
      var t := cmd.target.value;
      var delta := HoldDelta(cmd.action);
      var c1 := if cmd.deck.Some?
        then Ctl(UpdateValue(c.store, t, delta, cmd.deck), c.calls + [AdjustParam(cmd.deck.value, t, delta)])
        else c;
      if t == CrossFader
      then Ctl(UpdateValue(c1.store, CrossFader, delta, None), c1.calls + [AdjustCrossFader(delta)])
      else c1
  }

  /** `executeTriggerAction`. */
  function TriggerEffect(c: Ctl, cmd: KeyCommand): Ctl {
    var c1 :=
      if cmd.deck.Some? then
        var d := cmd.deck.value;
        var c0 := if StartsWith(cmd.action, "CUE")
          then c.(calls := c.calls + [JumpToCue(d, ParseInt(ReplaceFirst(cmd.action, "CUE", "")))])
          else c;
        if cmd.action == "PLAY"
        then Ctl(SetPlayState(c0.store, d, !DeckOf(c0.store, d).isplay), c0.calls + [TogglePlay(d)])
        else c0
      else c;
    var c2 := if cmd.action == "BEAT_SYNC" then c1.(calls := c1.calls + [Sync]) else c1;
    if cmd.target == Some(Bpm)
    then c2.(store := UpdateValue(c2.store, Bpm, if cmd.action == "UP" then 1.0 else -1.0, None))
    else c2
  }

  /** One key's turn in a frame: a HOLD key acts, any other key does nothing. */
  function FrameStep(c: Ctl, key: string): Ctl {
    if key in KeyMap && KeyMap[key].kind == Some(Hold) then HoldEffect(c, KeyMap[key]) else c
  }

  /** `updateLoop`'s pass over the held keys, in the order they went down. */
  function Frame(keys: seq<string>, c: Ctl): Ctl {
    if |keys| == 0 then c else FrameStep(Frame(keys[..|keys| - 1], c), keys[|keys| - 1])
  }

  /** Holding a deck knob key moves that knob of that deck by 0.01 (clamped) and tells the engine. */
  lemma {:induction false} HoldDeckKnob(c: Ctl, key: string)
    requires key in KeyMap && KeyMap[key].deck.Some? && KeyMap[key].target.Some?
    ensures var cmd := KeyMap[key];
            var i := cmd.deck.value;
            var t := cmd.target.value;
            var r := HoldEffect(c, cmd);
            && IsDeckKnob(t)
            && r.calls == c.calls + [AdjustParam(i, t, HoldDelta(cmd.action))]
            && r.store == UpdateValue(c.store, t, HoldDelta(cmd.action), Some(i))
            && Knob(DeckOf(r.store, i), t) == Numeric.Clamp(Knob(DeckOf(c.store, i), t) + HoldDelta(cmd.action), 0.0, 1.0)
            && DeckOf(r.store, Other(i)) == DeckOf(c.store, Other(i))
            && r.store.crossFader == c.store.crossFader && r.store.bpm == c.store.bpm
  {
    KeyMapWellShaped();
    var cmd := KeyMap[key];
    assert WellShaped(cmd);
    UpdateDeckKnob(c.store, cmd.target.value, HoldDelta(cmd.action), cmd.deck.value);
  }

  /** Holding an arrow key moves the crossfader by 0.01 (clamped) and tells the mixer. */
  lemma {:induction false} HoldCrossFader(c: Ctl, key: string)
    requires key in KeyMap && KeyMap[key].target == Some(CrossFader)
    ensures var cmd := KeyMap[key];
            var r := HoldEffect(c, cmd);
            && r.calls == c.calls + [AdjustCrossFader(HoldDelta(cmd.action))]
            && r.store == c.store.(crossFader := DJStore.StoreClamp(c.store.crossFader + HoldDelta(cmd.action), -1.0, 1.0))
  {
    KeyMapWellShaped();
    assert WellShaped(KeyMap[key]);
  }

  /** The PLAY key of deck d tells that deck to toggle and flips its play flag in the store, nothing else. */
  lemma {:induction false} TriggerPlay(c: Ctl, key: string)
    requires key in KeyMap && KeyMap[key].action == "PLAY"
    ensures KeyMap[key].deck.Some?
    ensures var d := KeyMap[key].deck.value;
            var r := TriggerEffect(c, KeyMap[key]);
            && r.calls == c.calls + [TogglePlay(d)]
            && DeckOf(r.store, d) == DeckOf(c.store, d).(isplay := !DeckOf(c.store, d).isplay)
            && DeckOf(r.store, Other(d)) == DeckOf(c.store, Other(d))
            && r.store.crossFader == c.store.crossFader && r.store.bpm == c.store.bpm
  {
    KeyMapWellShaped();
    var cmd := KeyMap[key];
    assert WellShaped(cmd);
    NotPrefix("PLAY", "CUE", 0);
    var d := cmd.deck.value;
    PlayStateOnlyFlag(c.store, d, !DeckOf(c.store, d).isplay);
  }

  /**
   * The tempo keys step the store's tempo by one (up for UP, down otherwise),
   * clamped to [60, 200], and call nothing on the engine.
   */
  lemma {:induction false} TriggerBpm(c: Ctl, key: string)
    requires key in KeyMap && KeyMap[key].target == Some(Bpm)
    ensures var cmd := KeyMap[key];
            var r := TriggerEffect(c, cmd);
            var step := if cmd.action == "UP" then 1.0 else -1.0;
            && r.calls == c.calls
            && r.store == c.store.(bpm := Numeric.Clamp(c.store.bpm + step, 60.0, 200.0))
  {
    KeyMapWellShaped();
    assert WellShaped(KeyMap[key]);
  }

  /** A CUE1 or CUE2 command for a deck asks that deck to jump to cue 1 or cue 2, and leaves the store alone. */
  lemma CueCommand(c: Ctl, cmd: KeyCommand)
    requires cmd.deck.Some? && (cmd.action == "CUE1" || cmd.action == "CUE2") && cmd.target != Some(Bpm)
    ensures TriggerEffect(c, cmd) ==
              c.(calls := c.calls + [JumpToCue(cmd.deck.value, Some(if cmd.action == "CUE1" then 1 else 2))])
  {
    assert StartsWith(cmd.action, "CUE");
    CueIndices();
  }

  /** A cue key of deck d asks that deck to jump to cue 1 (CUE1) or cue 2 (CUE2), and leaves the store alone. */
  lemma {:induction false} TriggerCue(c: Ctl, key: string)
    requires key in KeyMap && (KeyMap[key].action == "CUE1" || KeyMap[key].action == "CUE2")
    ensures var cmd := KeyMap[key];
            && cmd.deck.Some?
            && TriggerEffect(c, cmd) ==
                 c.(calls := c.calls + [JumpToCue(cmd.deck.value, Some(if cmd.action == "CUE1" then 1 else 2))])
  {
    KeyMapWellShaped();
    var cmd := KeyMap[key];
    assert WellShaped(cmd);
    CueCommand(c, cmd);
  }

  /** The space bar asks the mixer to sync, and leaves the store alone. */
  lemma TriggerSync(c: Ctl)
    ensures TriggerEffect(c, KeyMap["SPACE"]) == c.(calls := c.calls + [Sync])
  {
    NotPrefix("BEAT_SYNC", "CUE", 0);
  }

  /** A command that is no cue, play, sync or tempo step does nothing when triggered. */
  lemma IgnoredCommand(c: Ctl, cmd: KeyCommand)
    requires !StartsWith(cmd.action, "CUE") && cmd.action != "PLAY" && cmd.action != "BEAT_SYNC"
    requires cmd.target != Some(Bpm)
    ensures TriggerEffect(c, cmd) == c
  {
  }

  /** The upload keys and the effect keys do nothing when triggered: neither the store nor the engine is touched. */
  lemma TriggerNoOps(c: Ctl)
    ensures TriggerEffect(c, KeyMap["SHIFTLEFT"]) == c && TriggerEffect(c, KeyMap["SHIFTRIGHT"]) == c
    ensures TriggerEffect(c, KeyMap["NUMPAD1"]) == c && TriggerEffect(c, KeyMap["NUMPAD2"]) == c
    ensures TriggerEffect(c, KeyMap["NUMPAD4"]) == c && TriggerEffect(c, KeyMap["NUMPAD5"]) == c
  {
    NotPrefix("UPLOAD", "CUE", 0);
    NotPrefix("CRUSH", "CUE", 1);
    NotPrefix("FLANGER", "CUE", 0);
    NotPrefix("SLICER", "CUE", 0);
    NotPrefix("KICK", "CUE", 0);
    IgnoredCommand(c, KeyMap["SHIFTLEFT"]);
    IgnoredCommand(c, KeyMap["SHIFTRIGHT"]);
    IgnoredCommand(c, KeyMap["NUMPAD1"]);
    IgnoredCommand(c, KeyMap["NUMPAD2"]);
    IgnoredCommand(c, KeyMap["NUMPAD4"]);
    IgnoredCommand(c, KeyMap["NUMPAD5"]);
  }

  /** Holding only TRIGGER keys (or none) changes nothing frame after frame. */
  lemma {:induction false} FrameOfTriggersOnly(keys: seq<string>, c: Ctl)
    requires forall i :: 0 <= i < |keys| ==> keys[i] in KeyMap && KeyMap[keys[i]].kind != Some(Hold)
    ensures Frame(keys, c) == c
  {
    if |keys| > 0 {
      FrameOfTriggersOnly(keys[..|keys| - 1], c);
    }
  }

  /** Every action keeps the store within its ranges. */
  lemma {:induction false} EffectsKeepRange(c: Ctl, cmd: KeyCommand)
    requires InRange(c.store)
    ensures InRange(HoldEffect(c, cmd).store)
    ensures InRange(TriggerEffect(c, cmd).store)
  {
    if cmd.target.Some? {
      var delta := HoldDelta(cmd.action);
      UpdateKeepsRange(c.store, cmd.target.value, delta, cmd.deck);
      UpdateKeepsRange(UpdateValue(c.store, cmd.target.value, delta, cmd.deck), CrossFader, delta, None);
      UpdateKeepsRange(c.store, CrossFader, delta, None);
    }
    if cmd.deck.Some? {
      var d := cmd.deck.value;
      PlayStateOnlyFlag(c.store, d, !DeckOf(c.store, d).isplay);
      var s1 := SetPlayState(c.store, d, !DeckOf(c.store, d).isplay);
      UpdateKeepsRange(s1, Bpm, 1.0, None);
      UpdateKeepsRange(s1, Bpm, -1.0, None);
    }
    UpdateKeepsRange(c.store, Bpm, 1.0, None);
    UpdateKeepsRange(c.store, Bpm, -1.0, None);
  }

  lemma {:induction false} FrameKeepsRange(keys: seq<string>, c: Ctl)
    requires InRange(c.store)
    ensures InRange(Frame(keys, c).store)
  {
    if |keys| > 0 {
      FrameKeepsRange(keys[..|keys| - 1], c);
      var c' := Frame(keys[..|keys| - 1], c);
      var k := keys[|keys| - 1];
      if k in KeyMap {
        EffectsKeepRange(c', KeyMap[k]);
      }
    }
  }

  /** `activeKeys.delete(key)` on a set kept as a duplicate-free sequence. */
  function RemoveKey(s: seq<string>, key: string): (r: seq<string>)
    ensures key !in r
    ensures forall x :: x in r <==> x in s && x != key
    ensures Distinct(s) ==> Distinct(r)
  {
    if |s| == 0 then []
    else if s[0] == key then RemoveKey(s[1..], key)
    else
      var r := RemoveKey(s[1..], key);
      assert Distinct(s) ==> s[0] !in s[1..] && Distinct(s[1..]);
      assert forall i :: 1 <= i <= |r| ==> ([s[0]] + r)[i] == r[i - 1];
      [s[0]] + r
  }

  predicate Distinct(s: seq<string>) {
    forall i, j :: 0 <= i < j < |s| ==> s[i] != s[j]
  }

  class Controller {
    /** The keys currently held, in the order they went down. */
    var activeKeys: seq<string>
    var store: DJState
    var calls: seq<EngineCall>

    ghost predicate Valid()
      reads this
    {
      && Distinct(activeKeys)
      && (forall k :: k in activeKeys ==> k in KeyMap)
      && InRange(store)
    }

    constructor (store: DJState)
      requires InRange(store)
      ensures Valid() && activeKeys == [] && this.store == store && calls == []
    {
      activeKeys := [];
      this.store := store;
      calls := [];
    }

    /**
     * `handleKeyDown`: ignored inside a text input; a mapped key not already
     * held is added to the held keys and, if it is a TRIGGER, acts once.
     */
    method HandleKeyDown(code: string, targetIsInput: bool)
      requires Valid()
      modifies this
      ensures Valid()
      ensures var key := NormalizeKeyCode(code);
              if targetIsInput || key !in KeyMap || key in old(activeKeys)
              then activeKeys == old(activeKeys) && store == old(store) && calls == old(calls)
              else && activeKeys == old(activeKeys) + [key]
                   && Ctl(store, calls)
                        == (if KeyMap[key].kind == Some(Trigger)
                            then TriggerEffect(Ctl(old(store), old(calls)), KeyMap[key])
                            else Ctl(old(store), old(calls)))
    {
      if targetIsInput {
        return;
      }
      var key := NormalizeKeyCode(code);
      if key in KeyMap {
        if key !in activeKeys {
          activeKeys := activeKeys + [key];
          if KeyMap[key].kind == Some(Trigger) {
            ExecuteTriggerAction(KeyMap[key]);
          }
        }
      }
    }

    /** `handleKeyUp`: the key is no longer held, mapped or not. */
    method HandleKeyUp(code: string)
      requires Valid()
      modifies this`activeKeys
      ensures Valid()
      ensures activeKeys == RemoveKey(old(activeKeys), NormalizeKeyCode(code))
    {
      activeKeys := RemoveKey(activeKeys, NormalizeKeyCode(code));
    }

    /** One animation frame of `updateLoop`: every held HOLD key acts, in the order the keys went down. */
    method UpdateLoop()
      requires Valid()
      modifies this`store, this`calls
      ensures Valid()
      ensures Ctl(store, calls) == Frame(activeKeys, Ctl(old(store), old(calls)))
    {
      ghost var c0 := Ctl(store, calls);
      var i := 0;
      while i < |activeKeys|
        invariant 0 <= i <= |activeKeys|
        invariant Ctl(store, calls) == Frame(activeKeys[..i], c0)
      {
        var key := activeKeys[i];
        assert activeKeys[..i + 1][..i] == activeKeys[..i];
        var command := KeyMap[key];
        if command.kind == Some(Hold) {
          ProcessHoldAction(command);
        }
        i := i + 1;
      }
      assert activeKeys[..|activeKeys|] == activeKeys;
      FrameKeepsRange(activeKeys, c0);
    }

    /** `processHoldAction`. */
    method ProcessHoldAction(command: KeyCommand)
      modifies this`store, this`calls
      ensures Ctl(store, calls) == HoldEffect(Ctl(old(store), old(calls)), command)
    {
      if command.target.None? {
        return;
      }
      var delta := if command.action == "UP" || command.action == "RIGHT" then 0.01 else -0.01;
      if command.deck.Some? {
        calls := calls + [AdjustParam(command.deck.value, command.target.value, delta)];
        store := UpdateValue(store, command.target.value, delta, command.deck);
      }
      if command.target.value == CrossFader {
        calls := calls + [AdjustCrossFader(delta)];
        store := UpdateValue(store, CrossFader, delta, None);
      }
    }

    /** `executeTriggerAction`. */
    method ExecuteTriggerAction(command: KeyCommand)
      requires InRange(store)
      modifies this`store, this`calls
      ensures InRange(store)
      ensures Ctl(store, calls) == TriggerEffect(Ctl(old(store), old(calls)), command)
    {
      EffectsKeepRange(Ctl(store, calls), command);
      if command.deck.Some? {
        var d := command.deck.value;
        if StartsWith(command.action, "CUE") {
          var idx := ParseInt(ReplaceFirst(command.action, "CUE", ""));
          calls := calls + [JumpToCue(d, idx)];
        }
        if command.action == "PLAY" {
          calls := calls + [TogglePlay(d)];
          var current := if d == Deck1 then store.deck1.isplay else store.deck2.isplay;
          store := SetPlayState(store, d, !current);
        }
      }
      if command.action == "BEAT_SYNC" {
        calls := calls + [Sync];
      }
      if command.target == Some(Bpm) {
        var delta := if command.action == "UP" then 1.0 else -1.0;
        store := UpdateValue(store, Bpm, delta, None);
      }
    }
  }
}

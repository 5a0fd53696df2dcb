/**
 * The DJ control store: per-deck EQ/filter/fader knobs and play flags, the
 * crossfader and the tempo, updated by two reducers that return a new state.
 */
module DJStore {
  import opened Wrappers
  import opened Numeric

  datatype ControlTarget = Mid | Bass | Filter | Fader | CrossFader | Bpm

  /** The deck a deck-level update is aimed at (`deckIdx` 1 or 2). */
  datatype DeckIdx = Deck1 | Deck2

  datatype DeckState = DeckState(mid: real, bass: real, filter: real, fader: real, isplay: bool)

  datatype DJState = DJState(deck1: DeckState, deck2: DeckState, crossFader: real, bpm: real)

  /** The store's own clamp, `Math.min(Math.max(num, min), max)`. */
  function StoreClamp(num: real, lo: real, hi: real): (r: real)
    ensures lo <= hi ==> lo <= r <= hi
    ensures lo <= num <= hi ==> r == num
    ensures lo <= hi ==> r == Clamp(num, lo, hi)
  {
    Min(Max(num, lo), hi)
  }

  /** A deck-level target: one of the four knobs a deck has. */
  predicate IsDeckKnob(t: ControlTarget) {
    t == Mid || t == Bass || t == Filter || t == Fader
  }

  function Knob(d: DeckState, t: ControlTarget): real
    requires IsDeckKnob(t)
  {
    match t
    case Mid => d.mid
    case Bass => d.bass
    case Filter => d.filter
    case Fader => d.fader
  }

  /** `{ ...d, [t]: v }`. */
  function WithKnob(d: DeckState, t: ControlTarget, v: real): (r: DeckState)
    requires IsDeckKnob(t)
    ensures Knob(r, t) == v && r.isplay == d.isplay
    ensures forall u :: IsDeckKnob(u) && u != t ==> Knob(r, u) == Knob(d, u)
  {
    match t
    case Mid => d.(mid := v)
    case Bass => d.(bass := v)
    case Filter => d.(filter := v)
    case Fader => d.(fader := v)
  }

  function DeckOf(s: DJState, i: DeckIdx): DeckState {
    if i == Deck1 then s.deck1 else s.deck2
  }

  function WithDeck(s: DJState, i: DeckIdx, d: DeckState): DJState {
    if i == Deck1 then s.(deck1 := d) else s.(deck2 := d)
  }

  /** The state the store is created with. */
  function InitialState(): DJState {
    DJState(DeckState(0.5, 0.5, 0.5, 1.0, false), DeckState(0.5, 0.5, 0.5, 1.0, false), 0.0, 120.0)
  }

  /** `updateValue(target, delta, deckIdx)`. */
  function UpdateValue(s: DJState, target: ControlTarget, delta: real, deckIdx: Option<DeckIdx>): DJState {
    if target == Bpm then s.(bpm := StoreClamp(s.bpm + delta, 60.0, 200.0))
    else if target == CrossFader then s.(crossFader := StoreClamp(s.crossFader + delta, -1.0, 1.0))
    else if deckIdx.Some? then
      var d := DeckOf(s, deckIdx.value);
      WithDeck(s, deckIdx.value, WithKnob(d, target, StoreClamp(Knob(d, target) + delta, 0.0, 1.0)))
    else s
  }

  /** `setPlayState(deckIdx, isplay)`. */
  function SetPlayState(s: DJState, deckIdx: DeckIdx, isplay: bool): DJState {
    WithDeck(s, deckIdx, DeckOf(s, deckIdx).(isplay := isplay))
  }

  /** Every value inside the range its reducer clamps it to. */
  predicate InRange(s: DJState) {
    && 60.0 <= s.bpm <= 200.0
    && -1.0 <= s.crossFader <= 1.0
    && DeckInRange(s.deck1) && DeckInRange(s.deck2)
  }

  predicate DeckInRange(d: DeckState) {
    0.0 <= d.mid <= 1.0 && 0.0 <= d.bass <= 1.0 && 0.0 <= d.filter <= 1.0 && 0.0 <= d.fader <= 1.0
  }

  lemma DeckInRangeKnobs(d: DeckState)
    ensures DeckInRange(d) <==> forall t :: IsDeckKnob(t) ==> 0.0 <= Knob(d, t) <= 1.0
  {
    assert IsDeckKnob(Mid) && IsDeckKnob(Bass) && IsDeckKnob(Filter) && IsDeckKnob(Fader);
  }

  /** The initial state is in range, with both decks stopped. */
  lemma InitialInRange()
    ensures InRange(InitialState())
    ensures !InitialState().deck1.isplay && !InitialState().deck2.isplay
  {
  }

  /** A tempo update moves only the tempo, to the clamped sum, whatever deck is named. */
  lemma UpdateBpm(s: DJState, delta: real, deckIdx: Option<DeckIdx>)
    ensures var r := UpdateValue(s, Bpm, delta, deckIdx);
            && r == s.(bpm := r.bpm)
            && 60.0 <= r.bpm <= 200.0
            && (60.0 <= s.bpm + delta <= 200.0 ==> r.bpm == s.bpm + delta)
            && r == UpdateValue(s, Bpm, delta, None)
  {
  }

  /** A crossfader update moves only the crossfader, to the clamped sum. */
  lemma UpdateCrossFader(s: DJState, delta: real, deckIdx: Option<DeckIdx>)
    ensures var r := UpdateValue(s, CrossFader, delta, deckIdx);
            && r == s.(crossFader := r.crossFader)
            && -1.0 <= r.crossFader <= 1.0
            && (-1.0 <= s.crossFader + delta <= 1.0 ==> r.crossFader == s.crossFader + delta)
  {
  }

  /**
   * A knob update aimed at a deck changes that knob of that deck, to the sum
   * clamped to [0, 1], and nothing else: not the deck's other knobs or play
   * flag, not the other deck, not the crossfader or the tempo.
   */
  lemma UpdateDeckKnob(s: DJState, t: ControlTarget, delta: real, i: DeckIdx)
    requires IsDeckKnob(t)
    ensures var r := UpdateValue(s, t, delta, Some(i));
            && Knob(DeckOf(r, i), t) == Clamp(Knob(DeckOf(s, i), t) + delta, 0.0, 1.0)
            && (forall u :: IsDeckKnob(u) && u != t ==> Knob(DeckOf(r, i), u) == Knob(DeckOf(s, i), u))
            && DeckOf(r, i).isplay == DeckOf(s, i).isplay
            && DeckOf(r, Other(i)) == DeckOf(s, Other(i))
            && r.crossFader == s.crossFader && r.bpm == s.bpm
  {
  }

  function Other(i: DeckIdx): DeckIdx {
    if i == Deck1 then Deck2 else Deck1
  }

  /** A knob update that names no deck leaves the state as it was. */
  lemma UpdateWithoutDeck(s: DJState, t: ControlTarget, delta: real)
    requires IsDeckKnob(t)
    ensures UpdateValue(s, t, delta, None) == s
  {
  }

  /** Updates keep every value in range. */
  lemma {:induction false} UpdateKeepsRange(s: DJState, t: ControlTarget, delta: real, deckIdx: Option<DeckIdx>)
    requires InRange(s)
    ensures InRange(UpdateValue(s, t, delta, deckIdx))
  {
    if IsDeckKnob(t) && deckIdx.Some? {
      var i := deckIdx.value;
      var d := DeckOf(s, i);
      var d' := WithKnob(d, t, StoreClamp(Knob(d, t) + delta, 0.0, 1.0));
      DeckInRangeKnobs(d);
      DeckInRangeKnobs(d');
    }
  }

  /** `setPlayState` changes only the chosen deck's play flag, and keeps every value in range. */
  lemma PlayStateOnlyFlag(s: DJState, i: DeckIdx, isplay: bool)
    ensures var r := SetPlayState(s, i, isplay);
            && DeckOf(r, i) == DeckOf(s, i).(isplay := isplay)
            && DeckOf(r, Other(i)) == DeckOf(s, Other(i))
            && r.crossFader == s.crossFader && r.bpm == s.bpm
            && (InRange(s) ==> InRange(r))
  {
  }
}

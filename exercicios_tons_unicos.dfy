/** The single-tone exercise (exercicios_tons_unicos.js): the correct frequency sits behind one of
    four answer buttons, the other three carry distractors that differ from it and keep a minimum
    distance from the buttons before them, and Averiguar compares the selected frequency with the
    correct one. */
module ExerciciosTonsUnicos {
  import opened Js
  import opened Tones

  /** `window.FREQUENCY_DISTANCE || 500`: never zero. */
  function MinDistance(g: Globals): (d: int)
    ensures d != 0
    ensures g.frequencyDistance.None? ==> d == 500
  {
    OrDefault(g.frequencyDistance, 500)
  }

  /** isFrequencyValid written as a loop that returns false at the first frequency closer than
      `minDistance`. */
  method IsFrequencyValidLoop(newFrequency: int, frequencies: seq<int>, minDistance: int) returns (ok: bool)
    ensures !ok <==> exists i :: 0 <= i < |frequencies| && Abs(newFrequency - frequencies[i]) < minDistance
    ensures ok == IsFrequencyValid(newFrequency, frequencies, minDistance)
  {
    IsFrequencyValidMeans(newFrequency, frequencies, minDistance);
    for i := 0 to |frequencies|
      invariant forall j :: 0 <= j < i ==> Abs(newFrequency - frequencies[j]) >= minDistance
    {
      if Abs(newFrequency - frequencies[i]) < minDistance {
        return false;
      }
    }
    return true;
  }

  // ---------------------------------------------------------------- the distractors

  /** The do-while test: a draw is kept when it is far enough from the frequencies pushed so far
      and is not the correct frequency. */
  predicate IsAcceptedDistractor(f: int, prior: seq<int>, correct: int, minDistance: int)
  {
    IsFrequencyValid(f, prior, minDistance) && f != correct
  }

  /** The value pushed after the 51st draw: `correctFrequency ± minDistance`, the sign chosen by
      one more draw (`Math.random() < 0.5`). */
  function FallbackDistractor(correct: int, minDistance: int, u: Fraction): (f: int)
    ensures f == correct - minDistance || f == correct + minDistance
  {
    correct + (if u < RANDOM_SCALE / 2 then -1 else 1) * minDistance
  }

  /** The do-while retry of one distractor, from draw `pos`, with `attempts` draws already rejected. */
  function DistractorSlot(prior: seq<int>, correct: int, minDistance: int, g: Globals, draws: Draws,
                          pos: nat, attempts: nat): Slot
    requires attempts <= MAX_ATTEMPTS
    decreases MAX_ATTEMPTS - attempts
  {
    var f := DrawFrequency(g, draws, pos);
    if attempts + 1 > MAX_ATTEMPTS then Slot(FallbackDistractor(correct, minDistance, draws(pos + 1)), pos + 2)
    else if IsAcceptedDistractor(f, prior, correct, minDistance) then Slot(f, pos + 1)
    else DistractorSlot(prior, correct, minDistance, g, draws, pos + 1, attempts + 1)
  }

  /** One distractor, exactly: when it took at most 50 draws in all, the last draw is kept and
      every earlier one was rejected; otherwise 50 draws were rejected, a 51st was drawn and
      dropped, and one more draw chose the sign of the fallback. */
  lemma {:induction false} DistractorSlotOutcome(prior: seq<int>, correct: int, minDistance: int, g: Globals,
                                                  draws: Draws, pos: nat, attempts: nat)
    requires attempts <= MAX_ATTEMPTS
    ensures var s := DistractorSlot(prior, correct, minDistance, g, draws, pos, attempts);
      && pos < s.next
      && (s.next - pos + attempts <= MAX_ATTEMPTS ==>
            && s.value == DrawFrequency(g, draws, s.next - 1)
            && IsAcceptedDistractor(s.value, prior, correct, minDistance)
            && forall p :: pos <= p < s.next - 1 ==>
                 !IsAcceptedDistractor(DrawFrequency(g, draws, p), prior, correct, minDistance))
      && (s.next - pos + attempts > MAX_ATTEMPTS ==>
            && s.next - pos + attempts == MAX_ATTEMPTS + 2
            && s.value == FallbackDistractor(correct, minDistance, draws(s.next - 1))
            && forall p :: pos <= p < s.next - 2 ==>
                 !IsAcceptedDistractor(DrawFrequency(g, draws, p), prior, correct, minDistance))
    decreases MAX_ATTEMPTS - attempts
  {
    var f := DrawFrequency(g, draws, pos);
    if attempts + 1 <= MAX_ATTEMPTS && !IsAcceptedDistractor(f, prior, correct, minDistance) {
      DistractorSlotOutcome(prior, correct, minDistance, g, draws, pos + 1, attempts + 1);
    }
  }

  /** A distractor uses between one and 52 - attempts draws. */
  lemma {:induction false} DistractorSlotDraws(prior: seq<int>, correct: int, minDistance: int, g: Globals,
                                                draws: Draws, pos: nat, attempts: nat)
    requires attempts <= MAX_ATTEMPTS
    ensures var s := DistractorSlot(prior, correct, minDistance, g, draws, pos, attempts);
      pos < s.next <= pos + MAX_ATTEMPTS + 2 - attempts
    decreases MAX_ATTEMPTS - attempts
  {
    if attempts + 1 <= MAX_ATTEMPTS && !IsAcceptedDistractor(DrawFrequency(g, draws, pos), prior, correct, minDistance) {
      DistractorSlotDraws(prior, correct, minDistance, g, draws, pos + 1, attempts + 1);
    }
  }

  /** A distractor is accepted against the frequencies before it, or it is the correct frequency
      moved by the minimum distance. */
  lemma {:induction false} DistractorSlotKept(prior: seq<int>, correct: int, minDistance: int, g: Globals,
                                               draws: Draws, pos: nat, attempts: nat)
    requires attempts <= MAX_ATTEMPTS
    ensures var s := DistractorSlot(prior, correct, minDistance, g, draws, pos, attempts);
      || IsAcceptedDistractor(s.value, prior, correct, minDistance)
      || s.value == correct - minDistance || s.value == correct + minDistance
    decreases MAX_ATTEMPTS - attempts
  {
    if attempts + 1 <= MAX_ATTEMPTS && !IsAcceptedDistractor(DrawFrequency(g, draws, pos), prior, correct, minDistance) {
      DistractorSlotKept(prior, correct, minDistance, g, draws, pos + 1, attempts + 1);
    }
  }

  /** Button `i` of setupExercise's loop, given the buttons before it: the correct frequency at
      `correctButtonIndex` (no draw used), a distractor anywhere else. */
  function ButtonSlot(prev: Generated, i: nat, correct: int, correctButtonIndex: nat, minDistance: int,
                      g: Globals, draws: Draws): Slot
  {
    if i == correctButtonIndex then Slot(correct, prev.next)
    else DistractorSlot(prev.values, correct, minDistance, g, draws, prev.next, 0)
  }

  /** A button uses at most 52 draws; the correct one none. */
  lemma ButtonSlotDraws(prev: Generated, i: nat, correct: int, correctButtonIndex: nat, minDistance: int,
                        g: Globals, draws: Draws)
    ensures prev.next <= ButtonSlot(prev, i, correct, correctButtonIndex, minDistance, g, draws).next <= prev.next + 52
    ensures i == correctButtonIndex ==> ButtonSlot(prev, i, correct, correctButtonIndex, minDistance, g, draws).next == prev.next
  {
    if i != correctButtonIndex {
      DistractorSlotDraws(prev.values, correct, minDistance, g, draws, prev.next, 0);
    }
  }

  /** A button holds the correct frequency exactly when it is the correct button (the distance
      being non-zero); any other button holds an accepted distractor or the fallback. */
  lemma ButtonSlotValue(prev: Generated, i: nat, correct: int, correctButtonIndex: nat, minDistance: int,
                        g: Globals, draws: Draws)
    requires minDistance != 0
    ensures ButtonSlot(prev, i, correct, correctButtonIndex, minDistance, g, draws).value == correct
      <==> i == correctButtonIndex
    ensures i != correctButtonIndex ==>
      var f := ButtonSlot(prev, i, correct, correctButtonIndex, minDistance, g, draws).value;
      IsAcceptedDistractor(f, prev.values, correct, minDistance) || f == correct - minDistance || f == correct + minDistance
  {
    if i != correctButtonIndex {
      DistractorSlotKept(prev.values, correct, minDistance, g, draws, prev.next, 0);
    }
  }

  /** The first `count` buttons of setupExercise's loop, with draws from `start` on. */
  function ButtonList(count: nat, correct: int, correctButtonIndex: nat, minDistance: int, g: Globals,
                      draws: Draws, start: nat): (r: Generated)
    ensures |r.values| == count
  {
    if count == 0 then Generated([], start)
    else
      var prev := ButtonList(count - 1, correct, correctButtonIndex, minDistance, g, draws, start);
      var slot := ButtonSlot(prev, count - 1, correct, correctButtonIndex, minDistance, g, draws);
      Generated(prev.values + [slot.value], slot.next)
  }

  /** Each button used at most 52 draws. */
  lemma {:induction false} ButtonListDraws(count: nat, correct: int, correctButtonIndex: nat, minDistance: int,
                                            g: Globals, draws: Draws, start: nat)
    ensures start <= ButtonList(count, correct, correctButtonIndex, minDistance, g, draws, start).next
    ensures ButtonList(count, correct, correctButtonIndex, minDistance, g, draws, start).next <= start + 52 * count
  {
    if count > 0 {
      ButtonListDraws(count - 1, correct, correctButtonIndex, minDistance, g, draws, start);
      var prev := ButtonList(count - 1, correct, correctButtonIndex, minDistance, g, draws, start);
      ButtonSlotDraws(prev, count - 1, correct, correctButtonIndex, minDistance, g, draws);
      DrawBoundStep(start, prev.next, ButtonList(count, correct, correctButtonIndex, minDistance, g, draws, start).next,
                    count, 52);
    }
  }

  /** The correct frequency is planted at `correctButtonIndex` and, the minimum distance being
      non-zero, at no other button. */
  lemma {:induction false} ButtonListCorrect(count: nat, correct: int, correctButtonIndex: nat, minDistance: int,
                                              g: Globals, draws: Draws, start: nat)
    requires minDistance != 0
    ensures forall k :: 0 <= k < count ==>
      (ButtonList(count, correct, correctButtonIndex, minDistance, g, draws, start).values[k] == correct
       <==> k == correctButtonIndex)
  {
    if count > 0 {
      ButtonListCorrect(count - 1, correct, correctButtonIndex, minDistance, g, draws, start);
      var prev := ButtonList(count - 1, correct, correctButtonIndex, minDistance, g, draws, start);
      ButtonSlotValue(prev, count - 1, correct, correctButtonIndex, minDistance, g, draws);
      var slot := ButtonSlot(prev, count - 1, correct, correctButtonIndex, minDistance, g, draws);
      PlantedStep(prev.values, slot.value, correct, correctButtonIndex);
    }
  }

  /** Pushing a value keeps `correct` at exactly `correctButtonIndex` when the new value is
      `correct` exactly at that index. */
  lemma PlantedStep(values: seq<int>, v: int, correct: int, correctButtonIndex: nat)
    requires forall k :: 0 <= k < |values| ==> (values[k] == correct <==> k == correctButtonIndex)
    requires v == correct <==> |values| == correctButtonIndex
    ensures forall k :: 0 <= k < |values| + 1 ==> ((values + [v])[k] == correct <==> k == correctButtonIndex)
  {
    forall k | 0 <= k < |values| + 1
      ensures (values + [v])[k] == correct <==> k == correctButtonIndex
    {
      if k < |values| {
        assert (values + [v])[k] == values[k];
      }
    }
  }

  /** Value `k` is an accepted distractor against the buttons before it, or the correct
      frequency moved by the minimum distance. */
  predicate SpacedOrFallback(values: seq<int>, k: nat, correct: int, minDistance: int)
    requires k < |values|
  {
    || IsAcceptedDistractor(values[k], values[..k], correct, minDistance)
    || values[k] == correct - minDistance || values[k] == correct + minDistance
  }

  /** Pushing a button keeps the earlier distractors spaced, and adds a spaced one unless it is the correct button. */
  lemma SpacingStep(values: seq<int>, v: int, correct: int, correctButtonIndex: nat, minDistance: int)
    requires forall k :: 0 <= k < |values| && k != correctButtonIndex ==> SpacedOrFallback(values, k, correct, minDistance)
    requires |values| != correctButtonIndex ==>
      IsAcceptedDistractor(v, values, correct, minDistance) || v == correct - minDistance || v == correct + minDistance
    ensures forall k :: 0 <= k < |values| + 1 && k != correctButtonIndex ==>
      SpacedOrFallback(values + [v], k, correct, minDistance)
  {
    forall k | 0 <= k < |values| + 1 && k != correctButtonIndex
      ensures SpacedOrFallback(values + [v], k, correct, minDistance)
    {
      var w := values + [v];
      if k < |values| {
        assert w[..k] == values[..k] && w[k] == values[k];
        assert SpacedOrFallback(values, k, correct, minDistance);
      } else {
        assert w[..k] == values && w[k] == v;
      }
    }
  }

  /** Every distractor is accepted against the buttons pushed before it (the correct frequency
      among them only when its button comes earlier), or is the fallback. */
  lemma {:induction false} ButtonListSpacing(count: nat, correct: int, correctButtonIndex: nat, minDistance: int,
                                              g: Globals, draws: Draws, start: nat)
    requires minDistance != 0
    ensures forall k :: 0 <= k < count && k != correctButtonIndex ==>
      SpacedOrFallback(ButtonList(count, correct, correctButtonIndex, minDistance, g, draws, start).values, k,
                       correct, minDistance)
  {
    if count > 0 {
      ButtonListSpacing(count - 1, correct, correctButtonIndex, minDistance, g, draws, start);
      var prev := ButtonList(count - 1, correct, correctButtonIndex, minDistance, g, draws, start);
      ButtonSlotValue(prev, count - 1, correct, correctButtonIndex, minDistance, g, draws);
      var slot := ButtonSlot(prev, count - 1, correct, correctButtonIndex, minDistance, g, draws);
      SpacingStep(prev.values, slot.value, correct, correctButtonIndex, minDistance);
    }
  }

  /** The do-while of one distractor, from draw `start`: up to 50 draws tested against the
      frequencies pushed so far, then the fallback. */
  method DrawDistractor(frequencies: seq<int>, correct: int, minDistance: int, g: Globals, draws: Draws, start: nat)
    returns (randomFrequency: int, next: nat)
    ensures Slot(randomFrequency, next) == DistractorSlot(frequencies, correct, minDistance, g, draws, start, 0)
  {
    ghost var slot := DistractorSlot(frequencies, correct, minDistance, g, draws, start, 0);
    var attempts := 0;
    next := start;
    while true
      invariant attempts <= MAX_ATTEMPTS
      invariant DistractorSlot(frequencies, correct, minDistance, g, draws, next, attempts) == slot
      decreases MAX_ATTEMPTS - attempts
    {
      randomFrequency := DrawFrequency(g, draws, next);
      next := next + 1;
      attempts := attempts + 1;
      if attempts > MAX_ATTEMPTS {
        randomFrequency := FallbackDistractor(correct, minDistance, draws(next));
        next := next + 1;
        return;
      }
      var valid := IsFrequencyValidLoop(randomFrequency, frequencies, minDistance);
      if valid && randomFrequency != correct {
        return;
      }
    }
  }

  /** setupExercise's button loop: the correct frequency at its index, a distractor drawn with
      up to 50 retries everywhere else. */
  method GenerateButtonFrequencies(correct: int, correctButtonIndex: nat, minDistance: int, g: Globals,
                                   draws: Draws, start: nat) returns (frequencies: seq<int>, next: nat)
    ensures Generated(frequencies, next) == ButtonList(4, correct, correctButtonIndex, minDistance, g, draws, start)
  {
    frequencies := [];
    next := start;
    for i := 0 to 4
      invariant Generated(frequencies, next) == ButtonList(i, correct, correctButtonIndex, minDistance, g, draws, start)
    {
      ghost var slot := ButtonSlot(Generated(frequencies, next), i, correct, correctButtonIndex, minDistance, g, draws);
      if i == correctButtonIndex {
        frequencies := frequencies + [correct];
      } else {
        var randomFrequency;
        randomFrequency, next := DrawDistractor(frequencies, correct, minDistance, g, draws, next);
        assert Slot(randomFrequency, next) == slot;
        frequencies := frequencies + [randomFrequency];
      }
    }
  }

  // ---------------------------------------------------------------- the exercise page

  /** The ids of the answer buttons, in the order Object.keys lists timeoutIds. */
  const BUTTON_IDS: seq<string> := ["btnSound1", "btnSound2", "btnSound3", "btnSound4"]

  /** The four ids are pairwise distinct, since button ids are. */
  lemma ButtonIdsDistinct()
    ensures forall i, j :: 0 <= i < |BUTTON_IDS| && 0 <= j < |BUTTON_IDS| && BUTTON_IDS[i] == BUTTON_IDS[j] ==> i == j
  {
    forall i, j | 0 <= i < |BUTTON_IDS| && 0 <= j < |BUTTON_IDS| && BUTTON_IDS[i] == BUTTON_IDS[j]
      ensures i == j
    {
      ButtonIdsAreButtonIds(i + 1);
      ButtonIdsAreButtonIds(j + 1);
      ButtonIdInjective(i + 1, j + 1);
    }
  }

  /** timeoutIds as the script declares it: one entry per answer button, all null. */
  const NO_TIMERS: map<string, Option<TimerId>> :=
    map["btnSound1" := None, "btnSound2" := None, "btnSound3" := None, "btnSound4" := None]

  /** The keys of timeoutIds are exactly the answer buttons' ids. */
  lemma NoTimersKeys()
    ensures forall k :: k in NO_TIMERS <==> k in BUTTON_IDS
  {
    assert NO_TIMERS.Keys == {BUTTON_IDS[0], BUTTON_IDS[1], BUTTON_IDS[2], BUTTON_IDS[3]};
  }

  lemma ButtonIdsAreButtonIds(b: nat)
    requires 1 <= b <= 4
    ensures ButtonId(b) == BUTTON_IDS[b - 1] && ButtonId(b) in NO_TIMERS
  {
  }

  /** The timers still pending in `timers` among the entries `ids`, in the order of `ids`. */
  function Pending(timers: map<string, Option<TimerId>>, ids: seq<string>): seq<TimerId>
    requires forall i :: 0 <= i < |ids| ==> ids[i] in timers
  {
    if ids == [] then []
    else
      var last := timers[ids[|ids| - 1]];
      Pending(timers, ids[..|ids| - 1]) + (if last.Some? then [last.value] else [])
  }

  /** The forEach over `keys`, the keys of timeoutIds listed once each: the pending timers it
      cancels, in key order, and the entries after each is reset to null. */
  method ClearPending(timeoutIds: map<string, Option<TimerId>>, keys: seq<string>)
    returns (pending: seq<TimerId>, timers: map<string, Option<TimerId>>)
    requires forall k :: k in timeoutIds <==> k in keys
    requires forall i, j :: 0 <= i < |keys| && 0 <= j < |keys| && keys[i] == keys[j] ==> i == j
    ensures timers.Keys == timeoutIds.Keys
    ensures forall k :: k in timers ==> timers[k] == None
    ensures pending == Pending(timeoutIds, keys)
  {
    timers := timeoutIds;
    pending := [];
    for i := 0 to |keys|
      invariant timers.Keys == timeoutIds.Keys
      invariant forall j :: 0 <= j < i ==> timers[keys[j]] == None
      invariant forall j :: i <= j < |keys| ==> timers[keys[j]] == timeoutIds[keys[j]]
      invariant pending == Pending(timeoutIds, keys[..i])
    {
      var key := keys[i];
      assert keys[..i + 1][..i] == keys[..i] && keys[..i + 1][i] == key;
      assert timers[key] == timeoutIds[key];
      assert forall j :: i < j < |keys| ==> keys[j] != key;
      if timers[key].Some? {
        pending := pending + [timers[key].value];
        timers := timers[key := None];
      }
    }
    assert keys[..|keys|] == keys;
  }

  /** Every answer button's entry reset to null is the initial timeoutIds. */
  lemma AllClearedIsNoTimers(timers: map<string, Option<TimerId>>)
    requires timers.Keys == NO_TIMERS.Keys
    requires forall k :: k in timers ==> timers[k] == None
    ensures timers == NO_TIMERS
  {
  }

  /** The page state: the correct frequency, the four buttons' frequencies, the selection, the
      timers that clear the marks, and what the page handed to clearTimeout and to the speaker. */
  class SingleToneExercise {
    var correctFrequency: int
    var frequencies: seq<int>
    /** The button (0 to 3) with the correct frequency, local to setupExercise. */
    ghost var correctButtonIndex: nat
    var selectedFrequency: Option<int>
    /** The answer button pressed last, 1 to 4; `None` (null) before any. */
    var selectedButton: Option<nat>
    var timeoutIds: map<string, Option<TimerId>>
    /** The timers passed to clearTimeout so far, in order. */
    var cancelled: seq<TimerId>
    /** The frequencies passed to playWhistleSound so far, in order. */
    var sounded: seq<int>

    ghost predicate Valid()
      reads this
    {
      && |frequencies| == 4
      && correctButtonIndex < 4
      && frequencies[correctButtonIndex] == correctFrequency
      && (forall k :: 0 <= k < 4 && k != correctButtonIndex ==> frequencies[k] != correctFrequency)
      && (selectedButton.Some? ==>
            1 <= selectedButton.value <= 4 && selectedFrequency == Some(frequencies[selectedButton.value - 1]))
      && timeoutIds.Keys == NO_TIMERS.Keys
    }

    /** setupExercise: the correct frequency is drawn first, then the index of its button, then
        the distractors. */
    constructor (g: Globals, draws: Draws, start: nat)
      ensures Valid()
      ensures correctFrequency == DrawFrequency(g, draws, start)
      ensures correctButtonIndex == ScaleDraw(draws(start + 1), 4)
      ensures frequencies == ButtonList(4, correctFrequency, correctButtonIndex, MinDistance(g), g, draws, start + 2).values
      ensures selectedButton.None? && timeoutIds == NO_TIMERS && cancelled == [] && sounded == []
    {
      var correct := DrawFrequency(g, draws, start);
      var index := ScaleDraw(draws(start + 1), 4);
      var minDistance := MinDistance(g);
      var generated, next := GenerateButtonFrequencies(correct, index, minDistance, g, draws, start + 2);
      ButtonListCorrect(4, correct, index, minDistance, g, draws, start + 2);
      correctFrequency := correct;
      frequencies := generated;
      correctButtonIndex := index;
      selectedFrequency := None;
      selectedButton := None;
      timeoutIds := NO_TIMERS;
      cancelled := [];
      sounded := [];
    }

    /** The btnApito handler: sound the correct frequency. */
    method ClickApito()
      requires Valid()
      modifies this
      ensures Valid()
      ensures sounded == old(sounded) + [correctFrequency]
      ensures correctFrequency == old(correctFrequency) && frequencies == old(frequencies)
      ensures selectedButton == old(selectedButton) && selectedFrequency == old(selectedFrequency)
      ensures timeoutIds == old(timeoutIds) && cancelled == old(cancelled)
    {
      sounded := sounded + [correctFrequency];
    }

    /** The handler of answer button `i` (1 to 4): select its frequency and sound it. */
    method SelectButton(i: nat)
      requires Valid() && 1 <= i <= 4
      modifies this
      ensures Valid()
      ensures selectedButton == Some(i) && selectedFrequency == Some(frequencies[i - 1])
      ensures sounded == old(sounded) + [frequencies[i - 1]]
      ensures correctFrequency == old(correctFrequency) && frequencies == old(frequencies)
      ensures timeoutIds == old(timeoutIds) && cancelled == old(cancelled)
    {
      selectedFrequency := Some(frequencies[i - 1]);
      selectedButton := Some(i);
      sounded := sounded + [frequencies[i - 1]];
    }

    /** The forEach over Object.keys(timeoutIds): cancel each pending timer, in key order, and
        reset its entry to null. */
    method ClearTimers()
      requires Valid()
      modifies this
      ensures Valid()
      ensures timeoutIds == NO_TIMERS
      ensures cancelled == old(cancelled) + Pending(old(timeoutIds), BUTTON_IDS)
      ensures correctFrequency == old(correctFrequency) && frequencies == old(frequencies)
      ensures correctButtonIndex == old(correctButtonIndex)
      ensures selectedButton == old(selectedButton) && selectedFrequency == old(selectedFrequency)
      ensures sounded == old(sounded)
    {
      ButtonIdsDistinct();
      NoTimersKeys();
      var pending, timers := ClearPending(timeoutIds, BUTTON_IDS);
      AllClearedIsNoTimers(timers);
      timeoutIds := timers;
      cancelled := cancelled + pending;
    }

    /** The btnAveriguar handler: cancel every pending timer and reset its entry to null; then,
        with a button selected, report whether its frequency is the correct one and keep the
        timer that clears its mark. `None` when nothing is selected. */
    method Averiguar(timer: TimerId) returns (result: Option<bool>)
      requires Valid()
      modifies this
      ensures Valid()
      ensures cancelled == old(cancelled) + Pending(old(timeoutIds), BUTTON_IDS)
      ensures result.None? <==> selectedButton.None?
      ensures result.Some? ==> (result.value <==> selectedFrequency == Some(correctFrequency))
      ensures result.Some? ==> (result.value <==> selectedButton.value - 1 == correctButtonIndex)
      ensures selectedButton.Some? ==> timeoutIds == NO_TIMERS[ButtonId(selectedButton.value) := Some(timer)]
      ensures selectedButton.None? ==> timeoutIds == NO_TIMERS
      ensures correctFrequency == old(correctFrequency) && frequencies == old(frequencies)
      ensures selectedButton == old(selectedButton) && selectedFrequency == old(selectedFrequency)
      ensures sounded == old(sounded)
    {
      ClearTimers();
      if selectedButton.Some? {
        ButtonIdsAreButtonIds(selectedButton.value);
        result := Some(selectedFrequency == Some(correctFrequency));
        timeoutIds := timeoutIds[ButtonId(selectedButton.value) := Some(timer)];
      } else {
        result := None;
      }
    }
  }
}

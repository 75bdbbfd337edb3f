/** The tone-sequence exercise: the correct list of frequencies is hidden behind one of four
    answer buttons, the other three carry freshly generated lists, and Averiguar compares the
    selected list with the correct one. Playback is a coroutine; `Step` is one timer resumption. */
module ExerciciosTons {
  import opened Js
  import opened Tones

  /** The value pushed when a slot runs out of attempts: the last value generated so far, or
      `fallbackBase` (window.MIN_FREQUENCY) when there is none, plus `minDistance`. */
  function Fallback(prior: seq<int>, fallbackBase: int, minDistance: int): int
  {
    (if |prior| > 0 then prior[|prior| - 1] else fallbackBase) + minDistance
  }

  /** The do-while retry of one slot, from draw `pos`, with `attempts` draws already rejected:
      a draw is kept when it is far enough from the values generated so far and the existing
      ones; the draw after the 50th rejected one is replaced by the fallback. */
  function DrawSlot(prior: seq<int>, existing: seq<int>, minDistance: int, g: Globals, fallbackBase: int,
                    draws: Draws, pos: nat, attempts: nat): Slot
    requires attempts <= MAX_ATTEMPTS
    decreases MAX_ATTEMPTS - attempts
  {
    var f := DrawFrequency(g, draws, pos);
    if attempts + 1 > MAX_ATTEMPTS then Slot(Fallback(prior, fallbackBase, minDistance), pos + 1)
    else if IsFrequencyValid(f, prior + existing, minDistance) then Slot(f, pos + 1)
    else DrawSlot(prior, existing, minDistance, g, fallbackBase, draws, pos + 1, attempts + 1)
  }

  /** What generateFrequencyList(count, existing, minDistance) returns when its draws start at `start`. */
  function FrequencyList(count: nat, existing: seq<int>, minDistance: int, g: Globals, fallbackBase: int,
                         draws: Draws, start: nat): (r: Generated)
    ensures |r.values| == count
  {
    if count == 0 then Generated([], start)
    else
      var prev := FrequencyList(count - 1, existing, minDistance, g, fallbackBase, draws, start);
      var slot := DrawSlot(prev.values, existing, minDistance, g, fallbackBase, draws, prev.next, 0);
      Generated(prev.values + [slot.value], slot.next)
  }

  /** One slot, exactly: it uses between one and 51 - attempts draws; every draw but the last was
      rejected; the last is kept when fewer than 51 draws were made in all, and otherwise
      replaced by the fallback. */
  lemma {:induction false} DrawSlotOutcome(prior: seq<int>, existing: seq<int>, minDistance: int, g: Globals,
                                            fallbackBase: int, draws: Draws, pos: nat, attempts: nat)
    requires attempts <= MAX_ATTEMPTS
    ensures var s := DrawSlot(prior, existing, minDistance, g, fallbackBase, draws, pos, attempts);
      && pos < s.next <= pos + MAX_ATTEMPTS + 1 - attempts
      && (forall p :: pos <= p < s.next - 1 ==>
            !IsFrequencyValid(DrawFrequency(g, draws, p), prior + existing, minDistance))
      && (s.next - pos + attempts <= MAX_ATTEMPTS ==>
            s.value == DrawFrequency(g, draws, s.next - 1) && IsFrequencyValid(s.value, prior + existing, minDistance))
      && (s.next - pos + attempts == MAX_ATTEMPTS + 1 ==> s.value == Fallback(prior, fallbackBase, minDistance))
    decreases MAX_ATTEMPTS - attempts
  {
    var f := DrawFrequency(g, draws, pos);
    if attempts + 1 <= MAX_ATTEMPTS && !IsFrequencyValid(f, prior + existing, minDistance) {
      DrawSlotOutcome(prior, existing, minDistance, g, fallbackBase, draws, pos + 1, attempts + 1);
    }
  }

  /** A slot uses between one and 51 - attempts draws. */
  lemma {:induction false} DrawSlotDraws(prior: seq<int>, existing: seq<int>, minDistance: int, g: Globals,
                                          fallbackBase: int, draws: Draws, pos: nat, attempts: nat)
    requires attempts <= MAX_ATTEMPTS
    ensures var s := DrawSlot(prior, existing, minDistance, g, fallbackBase, draws, pos, attempts);
      pos < s.next <= pos + MAX_ATTEMPTS + 1 - attempts
    decreases MAX_ATTEMPTS - attempts
  {
    if attempts + 1 <= MAX_ATTEMPTS && !IsFrequencyValid(DrawFrequency(g, draws, pos), prior + existing, minDistance) {
      DrawSlotDraws(prior, existing, minDistance, g, fallbackBase, draws, pos + 1, attempts + 1);
    }
  }

  /** A slot's value is far enough from the earlier and existing values, or it is the fallback. */
  lemma {:induction false} DrawSlotKept(prior: seq<int>, existing: seq<int>, minDistance: int, g: Globals,
                                         fallbackBase: int, draws: Draws, pos: nat, attempts: nat)
    requires attempts <= MAX_ATTEMPTS
    ensures var s := DrawSlot(prior, existing, minDistance, g, fallbackBase, draws, pos, attempts);
      IsFrequencyValid(s.value, prior + existing, minDistance) || s.value == Fallback(prior, fallbackBase, minDistance)
    decreases MAX_ATTEMPTS - attempts
  {
    if attempts + 1 <= MAX_ATTEMPTS && !IsFrequencyValid(DrawFrequency(g, draws, pos), prior + existing, minDistance) {
      DrawSlotKept(prior, existing, minDistance, g, fallbackBase, draws, pos + 1, attempts + 1);
    }
  }

  /** Each value of the list used between one and 51 draws. */
  lemma {:induction false} FrequencyListDraws(count: nat, existing: seq<int>, minDistance: int, g: Globals,
                                               fallbackBase: int, draws: Draws, start: nat)
    ensures start + count <= FrequencyList(count, existing, minDistance, g, fallbackBase, draws, start).next
    ensures FrequencyList(count, existing, minDistance, g, fallbackBase, draws, start).next <= start + 51 * count
  {
    if count > 0 {
      FrequencyListDraws(count - 1, existing, minDistance, g, fallbackBase, draws, start);
      var prev := FrequencyList(count - 1, existing, minDistance, g, fallbackBase, draws, start);
      DrawSlotDraws(prev.values, existing, minDistance, g, fallbackBase, draws, prev.next, 0);
      DrawBoundStep(start, prev.next, FrequencyList(count, existing, minDistance, g, fallbackBase, draws, start).next,
                    count, 51);
    }
  }

  /** Value `k` of a list is far enough from the values before it and from the existing ones,
      or it is the fallback for its slot. */
  predicate SpacedOrFallback(values: seq<int>, k: nat, existing: seq<int>, minDistance: int, fallbackBase: int)
    requires k < |values|
  {
    IsFrequencyValid(values[k], values[..k] + existing, minDistance)
    || values[k] == Fallback(values[..k], fallbackBase, minDistance)
  }

  lemma SpacedOrFallbackExtend(values: seq<int>, v: int, k: nat, existing: seq<int>, minDistance: int, fallbackBase: int)
    requires k < |values| && SpacedOrFallback(values, k, existing, minDistance, fallbackBase)
    ensures SpacedOrFallback(values + [v], k, existing, minDistance, fallbackBase)
  {
    assert (values + [v])[..k] == values[..k];
  }

  /** Every value of the list is far enough from the values before it and from the existing
      ones, or is the fallback for its slot. */
  lemma {:induction false} FrequencyListSpacing(count: nat, existing: seq<int>, minDistance: int, g: Globals,
                                                 fallbackBase: int, draws: Draws, start: nat)
    ensures forall k :: 0 <= k < |FrequencyList(count, existing, minDistance, g, fallbackBase, draws, start).values| ==>
      SpacedOrFallback(FrequencyList(count, existing, minDistance, g, fallbackBase, draws, start).values, k,
                       existing, minDistance, fallbackBase)
  {
    if count > 0 {
      FrequencyListSpacing(count - 1, existing, minDistance, g, fallbackBase, draws, start);
      var prev := FrequencyList(count - 1, existing, minDistance, g, fallbackBase, draws, start);
      var slot := DrawSlot(prev.values, existing, minDistance, g, fallbackBase, draws, prev.next, 0);
      DrawSlotKept(prev.values, existing, minDistance, g, fallbackBase, draws, prev.next, 0);
      var values := prev.values + [slot.value];
      assert FrequencyList(count, existing, minDistance, g, fallbackBase, draws, start).values == values;
      forall k | 0 <= k < |values|
        ensures SpacedOrFallback(values, k, existing, minDistance, fallbackBase)
      {
        if k < |prev.values| {
          assert SpacedOrFallback(prev.values, k, existing, minDistance, fallbackBase);
          SpacedOrFallbackExtend(prev.values, slot.value, k, existing, minDistance, fallbackBase);
        } else {
          assert values[..k] == prev.values;
        }
      }
    }
  }

  /** With no minimum distance every draw is kept: the list is the next `count` draws. */
  lemma {:induction false} FrequencyListWithoutDistance(count: nat, existing: seq<int>, minDistance: int, g: Globals,
                                                        fallbackBase: int, draws: Draws, start: nat)
    requires minDistance <= 0
    ensures var r := FrequencyList(count, existing, minDistance, g, fallbackBase, draws, start);
      && r.next == start + count
      && |r.values| == count
      && forall k :: 0 <= k < count ==> r.values[k] == DrawFrequency(g, draws, start + k)
  {
    if count > 0 {
      FrequencyListWithoutDistance(count - 1, existing, minDistance, g, fallbackBase, draws, start);
    }
  }

  /** generateFrequencyList: for each slot, draw until a value is valid, giving up after 50 attempts. */
  method GenerateFrequencyList(count: nat, existing: seq<int>, minDistance: int, g: Globals, fallbackBase: int,
                               draws: Draws, start: nat) returns (frequencies: seq<int>, next: nat)
    ensures Generated(frequencies, next) == FrequencyList(count, existing, minDistance, g, fallbackBase, draws, start)
  {
    frequencies := [];
    next := start;
    for i := 0 to count
      invariant Generated(frequencies, next) == FrequencyList(i, existing, minDistance, g, fallbackBase, draws, start)
    {
      var attempts := 0;
      var randomFrequency;
      ghost var slot := DrawSlot(frequencies, existing, minDistance, g, fallbackBase, draws, next, 0);
      while true
        invariant attempts <= MAX_ATTEMPTS
        invariant DrawSlot(frequencies, existing, minDistance, g, fallbackBase, draws, next, attempts) == slot
        decreases MAX_ATTEMPTS - attempts
      {
        randomFrequency := DrawFrequency(g, draws, next);
        next := next + 1;
        attempts := attempts + 1;
        if attempts > MAX_ATTEMPTS {
          randomFrequency := Fallback(frequencies, fallbackBase, minDistance);
          break;
        }
        if IsFrequencyValid(randomFrequency, frequencies + existing, minDistance) {
          break;
        }
      }
      assert Slot(randomFrequency, next) == slot;
      frequencies := frequencies + [randomFrequency];
    }
  }

  // ---------------------------------------------------------------- the exercise page

  /** `exerciseType`: 'sequencia' plays lists of five tones, 'tons' single tones. */
  datatype ExerciseType = Sequencia | Tons

  /** The length of every list the page generates. */
  function ListLength(exerciseType: ExerciseType): (n: nat)
    ensures n == 5 <==> exerciseType.Sequencia?
    ensures n == 1 <==> exerciseType.Tons?
  {
    if exerciseType.Sequencia? then 5 else 1
  }

  /** The Averiguar test: the JSON texts of the selected and the correct list are the same. */
  function IsCorrectSelection(selected: seq<int>, correct: seq<int>): (isCorrect: bool)
    ensures isCorrect <==> selected == correct
  {
    StringifyInjective(selected, correct);
    Stringify(selected) == Stringify(correct)
  }

  /** The list of `length` frequencies drawn from draw `pos` on, one draw each. */
  function DrawnList(g: Globals, draws: Draws, pos: nat, length: nat): seq<int>
  {
    seq(length, k requires 0 <= k < length => DrawFrequency(g, draws, pos + k))
  }

  /** With no minimum distance, generateFrequencyList keeps every draw. */
  lemma FrequencyListDrawn(count: nat, g: Globals, fallbackBase: int, draws: Draws, start: nat)
    ensures FrequencyList(count, [], 0, g, fallbackBase, draws, start)
      == Generated(DrawnList(g, draws, start, count), start + count)
  {
    FrequencyListWithoutDistance(count, [], 0, g, fallbackBase, draws, start);
  }

  /** The four candidate lists, drawn one after the other from draw `start` on with no minimum
      distance (the default arguments of generateFrequencyList). */
  method GenerateCandidates(length: nat, g: Globals, fallbackBase: int, draws: Draws, start: nat)
    returns (lists: seq<seq<int>>, next: nat)
    ensures |lists| == 4 && next == start + 4 * length
    ensures forall j :: 0 <= j < 4 ==> lists[j] == DrawnList(g, draws, start + j * length, length)
  {
    lists := [];
    next := start;
    for j := 0 to 4
      invariant |lists| == j && next == start + j * length
      invariant forall j' :: 0 <= j' < j ==> lists[j'] == DrawnList(g, draws, start + j' * length, length)
    {
      var list;
      FrequencyListDrawn(length, g, fallbackBase, draws, next);
      list, next := GenerateFrequencyList(length, [], 0, g, fallbackBase, draws, next);
      lists := lists + [list];
    }
  }

  /** The draws of setupExercise: the correct list, the four candidate lists after it, then the
      button index from the draw that follows them. */
  method SetupLists(length: nat, g: Globals, fallbackBase: int, draws: Draws, start: nat)
    returns (correct: seq<int>, lists: seq<seq<int>>, index: nat)
    ensures correct == DrawnList(g, draws, start, length)
    ensures |lists| == 4
    ensures forall j :: 0 <= j < 4 ==> lists[j] == DrawnList(g, draws, start + (j + 1) * length, length)
    ensures index < 4 && index == ScaleDraw(draws(start + 5 * length), 4)
  {
    FrequencyListDrawn(length, g, fallbackBase, draws, start);
    var next;
    correct, next := GenerateFrequencyList(length, [], 0, g, fallbackBase, draws, start);
    lists, next := GenerateCandidates(length, g, fallbackBase, draws, next);
    index := ScaleDraw(draws(next), 4);
    assert forall j :: 0 <= j < 4 ==> start + length + j * length == start + (j + 1) * length;
  }

  /** The page after setupExercise: the lists, the answer buttons and the playback coroutine. */
  class SequenceExercise {
    const exerciseType: ExerciseType
    var correctFrequencies: seq<int>
    var sequenceFrequencies: seq<seq<int>>
    /** The button (0 to 3) that carries the correct list, local to setupExercise. */
    ghost var correctButtonIndex: nat
    var selectedFrequencies: seq<int>
    /** The answer button pressed last, 1 to 4; `None` before any. */
    var selectedButton: Option<nat>
    var timeoutIds: map<string, TimerId>
    var isPlaying: bool
    /** The list the running (or last) playSequence plays, and how far it got. */
    var tones: seq<int>
    var nextTone: nat
    /** The tones that playSequence has sounded so far, in order. */
    var played: seq<int>
    /** The single tones sounded outside playSequence, in order. */
    var whistled: seq<int>

    ghost predicate Valid()
      reads this`correctFrequencies, this`sequenceFrequencies, this`correctButtonIndex, this`selectedButton,
        this`selectedFrequencies, this`tones, this`nextTone, this`played, this`isPlaying
    {
      && |correctFrequencies| == ListLength(exerciseType)
      && |sequenceFrequencies| == 4
      && correctButtonIndex < 4
      && sequenceFrequencies[correctButtonIndex] == correctFrequencies
      && (forall j :: 0 <= j < 4 ==> |sequenceFrequencies[j]| == ListLength(exerciseType))
      && (selectedButton.Some? ==>
            1 <= selectedButton.value <= 4 && selectedFrequencies == sequenceFrequencies[selectedButton.value - 1])
      && nextTone <= |tones|
      && played == tones[..nextTone]
      && (!isPlaying ==> nextTone == |tones|)
    }

    /** setupExercise: the correct list is drawn first, then the four candidate lists, then the
        index of the button that gets the correct list in place of its own. */
    constructor (exerciseType: ExerciseType, g: Globals, fallbackBase: int, draws: Draws, start: nat)
      ensures Valid()
      ensures this.exerciseType == exerciseType
      ensures correctFrequencies == DrawnList(g, draws, start, ListLength(exerciseType))
      ensures correctButtonIndex == ScaleDraw(draws(start + 5 * ListLength(exerciseType)), 4)
      ensures forall j :: 0 <= j < 4 && j != correctButtonIndex ==>
        sequenceFrequencies[j] == DrawnList(g, draws, start + (j + 1) * ListLength(exerciseType), ListLength(exerciseType))
      ensures selectedButton.None? && !isPlaying && timeoutIds == map[] && played == [] && whistled == []
    {
      var length := ListLength(exerciseType);
      var correct, lists, index := SetupLists(length, g, fallbackBase, draws, start);
      this.exerciseType := exerciseType;
      correctFrequencies := correct;
      sequenceFrequencies := lists[index := correct];
      correctButtonIndex := index;
      selectedFrequencies := [];
      selectedButton := None;
      timeoutIds := map[];
      isPlaying := false;
      tones := [];
      nextTone := 0;
      played := [];
      whistled := [];
    }

    /** playSequence, up to its first await: ignored while a sequence is playing; otherwise it
        raises isPlaying and waits before the first tone. */
    method PlaySequence(list: seq<int>)
      requires Valid()
      modifies this
      ensures Valid()
      ensures old(isPlaying) ==> unchanged(this)
      ensures !old(isPlaying) ==> isPlaying && tones == list && nextTone == 0 && played == []
      ensures correctFrequencies == old(correctFrequencies) && sequenceFrequencies == old(sequenceFrequencies)
      ensures selectedFrequencies == old(selectedFrequencies) && selectedButton == old(selectedButton)
      ensures timeoutIds == old(timeoutIds) && whistled == old(whistled)
      ensures correctButtonIndex == old(correctButtonIndex)
    {
      if isPlaying {
        return;
      }
      isPlaying := true;
      tones := list;
      nextTone := 0;
      played := [];
    }

    /** One resumption of the playSequence coroutine: the next tone is sounded, or, after the
        last one, isPlaying is lowered. */
    method Step()
      requires Valid()
      modifies this
      ensures Valid()
      ensures !old(isPlaying) ==> unchanged(this)
      ensures old(isPlaying) && old(nextTone) < |tones| ==>
        isPlaying && nextTone == old(nextTone) + 1 && played == old(played) + [tones[old(nextTone)]]
      ensures old(isPlaying) && old(nextTone) == |tones| ==> !isPlaying && played == old(played)
      ensures tones == old(tones) && correctFrequencies == old(correctFrequencies)
        && sequenceFrequencies == old(sequenceFrequencies) && selectedFrequencies == old(selectedFrequencies)
        && selectedButton == old(selectedButton) && timeoutIds == old(timeoutIds) && whistled == old(whistled)
      ensures correctButtonIndex == old(correctButtonIndex)
    {
      if !isPlaying {
        return;
      }
      if nextTone < |tones| {
        played := played + [tones[nextTone]];
        nextTone := nextTone + 1;
        assert tones[..nextTone] == tones[..nextTone - 1] + [tones[nextTone - 1]];
      } else {
        isPlaying := false;
      }
    }

    /** Lets a started sequence run to its end with no other event in between. */
    method RunToEnd()
      requires Valid()
      modifies this
      ensures Valid()
      ensures !isPlaying && played == tones && tones == old(tones)
      ensures correctFrequencies == old(correctFrequencies) && sequenceFrequencies == old(sequenceFrequencies)
        && selectedButton == old(selectedButton) && timeoutIds == old(timeoutIds)
      ensures selectedFrequencies == old(selectedFrequencies) && whistled == old(whistled)
        && correctButtonIndex == old(correctButtonIndex)
    {
      while isPlaying
        invariant Valid()
        invariant tones == old(tones)
        invariant correctFrequencies == old(correctFrequencies) && sequenceFrequencies == old(sequenceFrequencies)
          && selectedButton == old(selectedButton) && timeoutIds == old(timeoutIds)
        invariant selectedFrequencies == old(selectedFrequencies) && whistled == old(whistled)
          && correctButtonIndex == old(correctButtonIndex)
        decreases |tones| - nextTone + (if isPlaying then 1 else 0)
      {
        Step();
      }
      assert tones[..|tones|] == tones;
    }

    /** The btnApito handler: when no sequence is playing, play the correct list (or its single tone). */
    method ClickApito()
      requires Valid()
      modifies this
      ensures Valid()
      ensures old(isPlaying) ==> unchanged(this)
      ensures !old(isPlaying) && exerciseType.Sequencia? ==>
        isPlaying && tones == correctFrequencies && nextTone == 0 && played == []
      ensures !old(isPlaying) && exerciseType.Tons? ==> whistled == old(whistled) + [correctFrequencies[0]] && !isPlaying
      ensures exerciseType.Sequencia? ==> whistled == old(whistled)
      ensures exerciseType.Tons? ==>
        isPlaying == old(isPlaying) && tones == old(tones) && nextTone == old(nextTone) && played == old(played)
      ensures correctFrequencies == old(correctFrequencies) && sequenceFrequencies == old(sequenceFrequencies)
        && selectedButton == old(selectedButton) && timeoutIds == old(timeoutIds)
      ensures selectedFrequencies == old(selectedFrequencies) && correctButtonIndex == old(correctButtonIndex)
    {
      if !isPlaying {
        if exerciseType.Sequencia? {
          PlaySequence(correctFrequencies);
        } else {
          whistled := whistled + [correctFrequencies[0]];
        }
      }
    }

    /** The handler of answer button `i` (1 to 4): select its list, then, when no sequence is
        playing, play it. */
    method SelectButton(i: nat)
      requires Valid() && 1 <= i <= 4
      modifies this
      ensures Valid()
      ensures selectedButton == Some(i) && selectedFrequencies == sequenceFrequencies[i - 1]
      ensures !old(isPlaying) && exerciseType.Sequencia? ==>
        isPlaying && tones == selectedFrequencies && nextTone == 0 && played == []
      ensures !old(isPlaying) && exerciseType.Tons? ==> whistled == old(whistled) + [selectedFrequencies[0]]
      ensures old(isPlaying) ==>
        isPlaying && tones == old(tones) && nextTone == old(nextTone) && played == old(played) && whistled == old(whistled)
      ensures exerciseType.Sequencia? ==> whistled == old(whistled)
      ensures exerciseType.Tons? ==>
        isPlaying == old(isPlaying) && tones == old(tones) && nextTone == old(nextTone) && played == old(played)
      ensures correctFrequencies == old(correctFrequencies) && sequenceFrequencies == old(sequenceFrequencies)
        && timeoutIds == old(timeoutIds) && correctButtonIndex == old(correctButtonIndex)
    {
      selectedFrequencies := sequenceFrequencies[i - 1];
      selectedButton := Some(i);
      if !isPlaying {
        if exerciseType.Sequencia? {
          PlaySequence(selectedFrequencies);
        } else {
          whistled := whistled + [selectedFrequencies[0]];
        }
      }
    }

    /** The btnAveriguar handler: with a button selected, report whether its list is the correct
        one and keep the timer that clears the marks; `None` when nothing is selected. */
    method Averiguar(timer: TimerId) returns (result: Option<bool>)
      requires Valid()
      modifies this
      ensures Valid()
      ensures result.None? <==> selectedButton.None?
      ensures result.Some? ==> (result.value <==> selectedFrequencies == correctFrequencies)
      ensures selectedButton == Some(correctButtonIndex + 1) ==> result == Some(true)
      ensures selectedButton.Some? ==> timeoutIds == old(timeoutIds)[ButtonId(selectedButton.value) := timer]
      ensures selectedButton.None? ==> timeoutIds == old(timeoutIds)
      ensures correctFrequencies == old(correctFrequencies) && sequenceFrequencies == old(sequenceFrequencies)
        && selectedButton == old(selectedButton) && selectedFrequencies == old(selectedFrequencies)
        && isPlaying == old(isPlaying) && tones == old(tones) && nextTone == old(nextTone) && played == old(played)
        && whistled == old(whistled) && correctButtonIndex == old(correctButtonIndex)
    {
      if selectedButton.Some? {
        var isCorrect := IsCorrectSelection(selectedFrequencies, correctFrequencies);
        assert selectedButton.value == correctButtonIndex + 1 ==> isCorrect;
        timeoutIds := timeoutIds[ButtonId(selectedButton.value) := timer];
        result := Some(isCorrect);
      } else {
        result := None;
      }
    }
  }
}

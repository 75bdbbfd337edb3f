/** The temporal-resolution page (exercicios_resolucao_temporal.js): a shuffled run of low and
    high tones is played with pause and stop controls, and the listener answers how many high
    tones there were. */
module ExerciciosResolucaoTemporal {
  import opened Js
  import opened Tones

  /** The two fixed frequencies, in Hz. */
  const LOW_FREQUENCY: int := 400
  const HIGH_FREQUENCY: int := 800
  /** The number of low tones in every run. */
  const LOW_TONES_COUNT: nat := 10
  /** The pause between tones before any speed button is pressed, in ms. */
  const DEFAULT_PAUSE: int := 500

  // ---------------------------------------------------------------- the tone list

  /** `Array(count).fill(frequency)`. */
  function Filled(count: nat, frequency: int): (r: seq<int>)
    ensures |r| == count
    ensures forall i :: 0 <= i < count ==> r[i] == frequency
  {
    seq(count, _ => frequency)
  }

  /** A filled array holds `count` copies of its value and nothing else. */
  lemma {:induction false} FilledCounts(count: nat, frequency: int)
    ensures multiset(Filled(count, frequency)) == multiset{}[frequency := count]
  {
    if count > 0 {
      FilledCounts(count - 1, frequency);
      assert Filled(count, frequency) == Filled(count - 1, frequency) + [frequency];
    }
  }

  /** The list playToneSequence builds before it shuffles: the low tones, then the high ones. */
  function ToneList(lowFrequency: int, highFrequency: int, lowCount: nat, highCount: nat): seq<int>
  {
    Filled(lowCount, lowFrequency) + Filled(highCount, highFrequency)
  }

  /** The list has exactly `lowCount` low tones and `highCount` high tones (two distinct frequencies). */
  lemma ToneListCounts(lowFrequency: int, highFrequency: int, lowCount: nat, highCount: nat)
    requires lowFrequency != highFrequency
    ensures |ToneList(lowFrequency, highFrequency, lowCount, highCount)| == lowCount + highCount
    ensures multiset(ToneList(lowFrequency, highFrequency, lowCount, highCount))[lowFrequency] == lowCount
    ensures multiset(ToneList(lowFrequency, highFrequency, lowCount, highCount))[highFrequency] == highCount
    ensures forall f :: f in ToneList(lowFrequency, highFrequency, lowCount, highCount) ==>
      f == lowFrequency || f == highFrequency
  {
    FilledCounts(lowCount, lowFrequency);
    FilledCounts(highCount, highFrequency);
  }

  /** `sequence.sort(() => Math.random() - 0.5)`: a random comparator makes the sort some
      reordering of the array; `swaps` names the exchanges it ends up making (pairs out of range
      are no exchange), so every reordering can be expressed and none is preferred. */
  method Shuffle(a: array<int>, swaps: seq<(nat, nat)>)
    modifies a
    ensures multiset(a[..]) == multiset(old(a[..]))
  {
    for k := 0 to |swaps|
      invariant multiset(a[..]) == multiset(old(a[..]))
    {
      var (i, j) := swaps[k];
      if i < a.Length && j < a.Length {
        ghost var before := a[..];
        a[i], a[j] := a[j], a[i];
        assert a[..] == before[i := before[j]][j := before[i]];
      }
    }
  }

  /** The run playToneSequence plays: the tone list copied into an array and shuffled there. */
  method BuildRun(lowFrequency: int, highFrequency: int, lowCount: nat, highCount: nat, swaps: seq<(nat, nat)>)
    returns (run: seq<int>)
    ensures multiset(run) == multiset(ToneList(lowFrequency, highFrequency, lowCount, highCount))
  {
    var list := ToneList(lowFrequency, highFrequency, lowCount, highCount);
    var a := new int[|list|](i requires 0 <= i < |list| => list[i]);
    assert a[..] == list;
    Shuffle(a, swaps);
    run := a[..];
  }

  /** A shuffled run keeps the tone counts: it holds exactly the tones of the list it came from. */
  lemma ShuffledCounts(sequence: seq<int>, lowCount: nat, highCount: nat)
    requires multiset(sequence) == multiset(ToneList(LOW_FREQUENCY, HIGH_FREQUENCY, lowCount, highCount))
    ensures |sequence| == lowCount + highCount
    ensures multiset(sequence)[LOW_FREQUENCY] == lowCount
    ensures multiset(sequence)[HIGH_FREQUENCY] == highCount
  {
    ToneListCounts(LOW_FREQUENCY, HIGH_FREQUENCY, lowCount, highCount);
    calc {
      |sequence|;
      |multiset(sequence)|;
      |multiset(ToneList(LOW_FREQUENCY, HIGH_FREQUENCY, lowCount, highCount))|;
      |ToneList(LOW_FREQUENCY, HIGH_FREQUENCY, lowCount, highCount)|;
    }
  }

  // ---------------------------------------------------------------- settings and answers

  /** `Math.floor(Math.random() * 5) + 2`: the number of high tones setupExercise picks. */
  function HighTonesCount(u: Fraction): (n: int)
    ensures 2 <= n <= 6
  {
    ScaleDraw(u, 5) + 2
  }

  /** Every count from 2 to 6 is picked by some draw. */
  lemma HighTonesCountCovers(n: int)
    requires 2 <= n <= 6
    ensures exists u: Fraction :: HighTonesCount(u) == n
  {
    var u: Fraction := (n - 2) * 0x6_6666_6666_6667;
    assert (n - 2) * 0x20_0000_0000_0000 <= u * 5 < (n - 1) * 0x20_0000_0000_0000;
    assert HighTonesCount(u) == n;
  }

  /** changePause's table from speed level to pause in ms. */
  const PAUSE_MAPPING: map<int, int> := map[1 := 1000, 2 := 800, 3 := 600, 4 := 400, 5 := 200, 6 := 100]

  /** `pauseMapping[newPause]`: `None` (undefined) for a level outside the table. */
  function PauseFor(level: int): (pause: Option<int>)
    ensures pause.Some? <==> 1 <= level <= 6
  {
    if level in PAUSE_MAPPING then Some(PAUSE_MAPPING[level]) else None
  }

  /** A higher speed level means a strictly shorter pause, from 1000 ms down to 100 ms. */
  lemma {:induction false} PauseStrictlyDecreasing(a: int, b: int)
    requires 1 <= a < b <= 6
    ensures PauseFor(a).Some? && PauseFor(b).Some?
    ensures PauseFor(a).value > PauseFor(b).value
    ensures PauseFor(1) == Some(1000) && PauseFor(6) == Some(100)
    decreases b - a
  {
    if b == a + 1 {
      assert a in PAUSE_MAPPING && b in PAUSE_MAPPING;
    } else {
      PauseStrictlyDecreasing(a, b - 1);
      PauseStrictlyDecreasing(b - 1, b);
    }
  }

  /** The answer buttons' filter: `parseInt` of the label (`None` for NaN) must lie in 1..6. */
  predicate IsCountInRange(selectedCount: Option<int>)
  {
    selectedCount.Some? && 1 <= selectedCount.value <= 6
  }

  /** Where the coroutine of playToneSequence is suspended. */
  datatype Phase =
    | Idle      // not running
    | AtHead    // waiting after a tone; it resumes at the head of the for…of loop
    | Polling   // waiting in `while (isPaused)`; it resumes by testing isPaused again

  /** The page state: the three playback flags, the settings, and the run being played. */
  class ToneCountingExercise {
    var isPlaying: bool
    var isPaused: bool
    var isStopped: bool
    /** undefined until the first run starts. */
    var correctHighTonesCount: Option<int>
    /** Picked once by setupExercise. */
    var highTonesCount: int
    var pauseDuration: Option<int>
    /** The shuffled run, the position of the next tone, and the tones sounded so far. */
    var sequence: seq<int>
    var index: nat
    var played: seq<int>
    var phase: Phase
    /** The run before shuffling. */
    ghost var toneList: seq<int>

    ghost predicate Valid()
      reads this
    {
      && 2 <= highTonesCount <= 6
      && index <= |sequence|
      && played == sequence[..index]
      && multiset(sequence) == multiset(toneList)
      && (phase.Idle? <==> !isPlaying)
      && (phase.Polling? ==> index < |sequence|)
      && (!isPlaying ==> index == |sequence| || isStopped)
    }

    /** The globals at load time followed by setupExercise, with `u` the draw for highTonesCount. */
    constructor (u: Fraction)
      ensures Valid()
      ensures highTonesCount == HighTonesCount(u)
      ensures !isPlaying && !isPaused && !isStopped && correctHighTonesCount.None?
      ensures pauseDuration == Some(DEFAULT_PAUSE) && played == []
    {
      isPlaying := false;
      isPaused := false;
      isStopped := false;
      correctHighTonesCount := None;
      highTonesCount := HighTonesCount(u);
      pauseDuration := Some(DEFAULT_PAUSE);
      sequence := [];
      index := 0;
      played := [];
      phase := Idle;
      toneList := [];
    }

    /** The synchronous code from the head of the for…of loop up to the next await or the end. */
    method RunFromHead()
      requires Valid() && phase.AtHead?
      modifies this
      ensures Valid()
      ensures old(index) == |sequence| || isStopped ==> !isPlaying && played == old(played) && index == old(index)
      ensures old(index) < |sequence| && !isStopped && isPaused ==> phase.Polling? && played == old(played) && index == old(index)
      ensures old(index) < |sequence| && !isStopped && !isPaused ==>
        phase.AtHead? && index == old(index) + 1 && played == old(played) + [sequence[old(index)]]
      ensures isPaused == old(isPaused) && isStopped == old(isStopped) && sequence == old(sequence)
      ensures correctHighTonesCount == old(correctHighTonesCount) && highTonesCount == old(highTonesCount)
      ensures pauseDuration == old(pauseDuration) && toneList == old(toneList)
    {
      if index == |sequence| || isStopped {
        isPlaying := false;
        phase := Idle;
      } else if isPaused {
        phase := Polling;
      } else {
        PlayNext();
      }
    }

    /** playTone(sequence[index]) and the await that follows it. */
    method PlayNext()
      requires Valid() && isPlaying && index < |sequence|
      modifies this
      ensures Valid()
      ensures phase.AtHead? && index == old(index) + 1 && played == old(played) + [sequence[old(index)]]
      ensures isPlaying && isPaused == old(isPaused) && isStopped == old(isStopped) && sequence == old(sequence)
      ensures correctHighTonesCount == old(correctHighTonesCount) && highTonesCount == old(highTonesCount)
      ensures pauseDuration == old(pauseDuration) && toneList == old(toneList)
    {
      played := played + [sequence[index]];
      index := index + 1;
      phase := AtHead;
      assert sequence[..index] == sequence[..index - 1] + [sequence[index - 1]];
    }

    /** One resumption of the playToneSequence coroutine after the await it is suspended in. */
    method Step()
      requires Valid()
      modifies this
      ensures Valid()
      ensures old(phase).Idle? ==> unchanged(this)
      ensures old(phase).AtHead? && (old(index) == |sequence| || isStopped) ==> !isPlaying && played == old(played)
      ensures old(phase).AtHead? && old(index) < |sequence| && !isStopped && isPaused ==>
        phase.Polling? && index == old(index) && played == old(played)
      ensures old(phase).Polling? && isPaused ==> phase.Polling? && played == old(played) && index == old(index)
      ensures old(phase).Polling? && !isPaused && isStopped ==> !isPlaying && played == old(played)
      ensures !old(phase).Idle? && old(index) < |sequence| && !isPaused && !isStopped ==>
        phase.AtHead? && index == old(index) + 1 && played == old(played) + [sequence[old(index)]]
      ensures isPaused == old(isPaused) && isStopped == old(isStopped) && sequence == old(sequence)
      ensures correctHighTonesCount == old(correctHighTonesCount) && highTonesCount == old(highTonesCount)
      ensures pauseDuration == old(pauseDuration) && toneList == old(toneList)
    {
      match phase {
        case Idle =>
        case AtHead =>
          RunFromHead();
        case Polling =>
          if isPaused {
          } else if isStopped {
            isPlaying := false;
            phase := Idle;
          } else {
            PlayNext();
          }
      }
    }

    /** playToneSequence: ignored while a run is playing; otherwise it clears the pause and stop
        flags, builds and shuffles the run, records the expected answer and runs to its first
        await. */
    method PlayToneSequence(lowFrequency: int, highFrequency: int, lowCount: nat, highCount: nat,
                            swaps: seq<(nat, nat)>)
      requires Valid()
      modifies this
      ensures Valid()
      ensures old(isPlaying) ==> unchanged(this)
      ensures !old(isPlaying) ==> !isPaused && !isStopped && correctHighTonesCount == Some(highCount)
      ensures !old(isPlaying) ==> toneList == ToneList(lowFrequency, highFrequency, lowCount, highCount)
      ensures !old(isPlaying) && |sequence| > 0 ==> isPlaying && phase.AtHead? && played == [sequence[0]]
      ensures !old(isPlaying) && |sequence| == 0 ==> !isPlaying && played == []
      ensures highTonesCount == old(highTonesCount) && pauseDuration == old(pauseDuration)
    {
      if isPlaying {
        return;
      }
      var run := BuildRun(lowFrequency, highFrequency, lowCount, highCount, swaps);
      StartRun(run, ToneList(lowFrequency, highFrequency, lowCount, highCount), highCount);
      RunFromHead();
    }

    /** The flags and the fresh run that playToneSequence sets before its loop. */
    method StartRun(run: seq<int>, ghost list: seq<int>, highCount: nat)
      requires 2 <= highTonesCount <= 6 && multiset(run) == multiset(list)
      modifies this
      ensures Valid()
      ensures isPlaying && !isPaused && !isStopped && phase.AtHead?
      ensures sequence == run && toneList == list && correctHighTonesCount == Some(highCount)
      ensures index == 0 && played == []
      ensures highTonesCount == old(highTonesCount) && pauseDuration == old(pauseDuration)
    {
      isPlaying := true;
      isPaused := false;
      isStopped := false;
      sequence := run;
      toneList := list;
      correctHighTonesCount := Some(highCount);
      index := 0;
      played := [];
      phase := AtHead;
    }

    /** Step until the run ends, with no other event in between (so the pause flag stays clear). */
    method RunToEnd()
      requires Valid() && !isPaused
      modifies this
      ensures Valid()
      ensures !isPlaying && sequence == old(sequence) && isStopped == old(isStopped)
      ensures !old(isStopped) ==> played == sequence
      ensures correctHighTonesCount == old(correctHighTonesCount) && toneList == old(toneList)
    {
      while isPlaying
        invariant Valid() && !isPaused
        invariant sequence == old(sequence) && isStopped == old(isStopped)
        invariant correctHighTonesCount == old(correctHighTonesCount) && toneList == old(toneList)
        decreases |sequence| - index + (if isPlaying then 1 else 0)
      {
        Step();
      }
      assert sequence[..|sequence|] == sequence;
    }

    /** togglePlayback: flips isPaused when the btnSound element is on the page. */
    method TogglePlayback(buttonPresent: bool)
      requires Valid()
      modifies this
      ensures Valid()
      ensures buttonPresent ==> isPaused == !old(isPaused)
      ensures !buttonPresent ==> isPaused == old(isPaused)
      ensures isPlaying == old(isPlaying) && isStopped == old(isStopped) && phase == old(phase)
      ensures sequence == old(sequence) && index == old(index) && played == old(played)
      ensures correctHighTonesCount == old(correctHighTonesCount) && highTonesCount == old(highTonesCount)
      ensures pauseDuration == old(pauseDuration) && toneList == old(toneList)
    {
      if buttonPresent {
        isPaused := !isPaused;
      }
    }

    /** stopPlayback: raises isStopped and clears isPaused when the btnSound element is on the page. */
    method StopPlayback(buttonPresent: bool)
      requires Valid()
      modifies this
      ensures Valid()
      ensures buttonPresent ==> isStopped && !isPaused
      ensures !buttonPresent ==> isStopped == old(isStopped) && isPaused == old(isPaused)
      ensures isPlaying == old(isPlaying) && phase == old(phase)
      ensures sequence == old(sequence) && index == old(index) && played == old(played)
      ensures correctHighTonesCount == old(correctHighTonesCount) && highTonesCount == old(highTonesCount)
      ensures pauseDuration == old(pauseDuration) && toneList == old(toneList)
    {
      if buttonPresent {
        isStopped := true;
        isPaused := false;
      }
    }

    /** The btnPause handler: flips isPaused, but only while a run is playing. */
    method ClickPause()
      requires Valid()
      modifies this
      ensures Valid()
      ensures isPaused == (if old(isPlaying) then !old(isPaused) else old(isPaused))
      ensures isPlaying == old(isPlaying) && isStopped == old(isStopped) && phase == old(phase)
      ensures sequence == old(sequence) && index == old(index) && played == old(played)
      ensures correctHighTonesCount == old(correctHighTonesCount) && highTonesCount == old(highTonesCount)
      ensures pauseDuration == old(pauseDuration) && toneList == old(toneList)
    {
      if isPlaying {
        isPaused := !isPaused;
      }
    }

    /** The btnSound handler: while playing it toggles the pause (the button it is attached to
        exists); otherwise it starts a run of the ten low tones and highTonesCount high ones. */
    method ClickSound(swaps: seq<(nat, nat)>)
      requires Valid()
      modifies this
      ensures Valid()
      ensures old(isPlaying) ==> isPlaying && isPaused == !old(isPaused) && played == old(played)
      ensures old(isPlaying) ==>
        isStopped == old(isStopped) && phase == old(phase) && sequence == old(sequence) && index == old(index)
      ensures old(isPlaying) ==> correctHighTonesCount == old(correctHighTonesCount) && toneList == old(toneList)
      ensures !old(isPlaying) ==> correctHighTonesCount == Some(highTonesCount) && !isStopped && !isPaused
      ensures !old(isPlaying) ==> |sequence| == LOW_TONES_COUNT + highTonesCount
      ensures !old(isPlaying) ==> isPlaying && phase.AtHead? && played == [sequence[0]]
      ensures !old(isPlaying) ==> multiset(sequence)[HIGH_FREQUENCY] == highTonesCount
      ensures !old(isPlaying) ==> multiset(sequence)[LOW_FREQUENCY] == LOW_TONES_COUNT
      ensures !old(isPlaying) ==> toneList == ToneList(LOW_FREQUENCY, HIGH_FREQUENCY, LOW_TONES_COUNT, highTonesCount)
      ensures highTonesCount == old(highTonesCount) && pauseDuration == old(pauseDuration)
    {
      if isPlaying {
        TogglePlayback(true);
      } else {
        PlayToneSequence(LOW_FREQUENCY, HIGH_FREQUENCY, LOW_TONES_COUNT, highTonesCount, swaps);
        ShuffledCounts(sequence, LOW_TONES_COUNT, highTonesCount);
      }
    }

    /** changePause for speed button `level`. */
    method ChangePause(level: int)
      requires Valid()
      modifies this
      ensures Valid()
      ensures pauseDuration == PauseFor(level)
      ensures isPlaying == old(isPlaying) && isPaused == old(isPaused) && isStopped == old(isStopped)
      ensures sequence == old(sequence) && index == old(index) && played == old(played) && phase == old(phase)
      ensures correctHighTonesCount == old(correctHighTonesCount) && highTonesCount == old(highTonesCount)
        && toneList == old(toneList)
    {
      pauseDuration := PauseFor(level);
    }

    /** An answer button's handler followed by checkAnswer: `None` when the label is not a count
        in 1..6 or there is no result button for it, else whether it is the expected count. */
    method AnswerClick(selectedCount: Option<int>, resultButtonExists: bool) returns (result: Option<bool>)
      ensures result.Some? <==> IsCountInRange(selectedCount) && resultButtonExists
      ensures result.Some? ==> (result.value <==> correctHighTonesCount == selectedCount)
      ensures correctHighTonesCount.None? ==> result != Some(true)
    {
      if IsCountInRange(selectedCount) && resultButtonExists {
        var isCorrect := correctHighTonesCount.Some? && selectedCount.value == correctHighTonesCount.value;
        result := Some(isCorrect);
      } else {
        result := None;
      }
    }
  }
}

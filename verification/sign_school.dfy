/** Sign School: drill one letter at a time. The letter on screen is
    confirmed after a two-observation hold, which starts a celebration and
    then moves on to the next letter of the drill alphabet. */
module SignSchool {
  import opened Base

  /** The drill alphabet: A to Y without J (J and Z are signed with motion). */
  const Alphabet: string := "ABCDEFGHIKLMNOPQRSTUVWXY"

  /** `letters`: each character of the alphabet as a one-character string. */
  const Letters: seq<string> := ["A", "B", "C", "D", "E", "F", "G", "H", "I", "K", "L", "M",
                                  "N", "O", "P", "Q", "R", "S", "T", "U", "V", "W", "X", "Y"]

  /** The list holds the alphabet's characters in order. */
  lemma LettersSpellAlphabet()
    ensures |Letters| == |Alphabet|
    ensures forall i :: 0 <= i < |Letters| ==> Letters[i] == [Alphabet[i]]
  {
  }

  /** The alphabet is strictly increasing, one step at a time. */
  lemma AlphabetAscends(i: nat)
    requires i + 1 < |Alphabet|
    ensures Alphabet[i] < Alphabet[i + 1]
  {
  }

  lemma {:induction false} AlphabetSorted(i: nat, j: nat)
    requires i < j < |Alphabet|
    ensures Alphabet[i] < Alphabet[j]
    decreases j - i
  {
    AlphabetAscends(i);
    if i + 1 < j {
      AlphabetSorted(i + 1, j);
    }
  }

  /** No entry appears twice in `xs`. */
  predicate Distinct(xs: seq<string>) {
    forall i, j :: 0 <= i < j < |xs| ==> xs[i] != xs[j]
  }

  /** No letter appears twice in the drill list. */
  lemma LettersDistinct()
    ensures Distinct(Letters)
  {
    LettersSpellAlphabet();
    forall i, j | 0 <= i < j < |Letters|
      ensures Letters[i] != Letters[j]
    {
      AlphabetSorted(i, j);
    }
  }

  /** The first position at or after `k` holding `x`, if any. */
  function IndexFrom(xs: seq<string>, x: string, k: nat): (r: Option<nat>)
    requires k <= |xs|
    ensures r.Some? ==> k <= r.value < |xs| && xs[r.value] == x
    ensures r.Some? ==> forall j :: k <= j < r.value ==> xs[j] != x
    ensures r.None? <==> forall j :: k <= j < |xs| ==> xs[j] != x
    decreases |xs| - k
  {
    if k == |xs| then None
    else if xs[k] == x then Some(k)
    else IndexFrom(xs, x, k + 1)
  }

  /** Swift's `firstIndex(of:)`: the first position holding `x`, if any. */
  function FirstIndex(xs: seq<string>, x: string): (r: Option<nat>)
    ensures r.Some? ==> r.value < |xs| && xs[r.value] == x
    ensures r.Some? ==> forall j :: 0 <= j < r.value ==> xs[j] != x
    ensures r.None? <==> forall j :: 0 <= j < |xs| ==> xs[j] != x
  {
    IndexFrom(xs, x, 0)
  }

  /** `(k + 1) % n` for a position `k < n`: the next position, or 0 past the end. */
  function Next(k: nat, n: nat): (r: nat)
    requires k < n
    ensures r < n
  {
    if k + 1 < n then k + 1 else 0
  }

  lemma ModSucc(j: nat, n: nat)
    requires j < n
    ensures (j + 1) % n == Next(j, n)
  {
  }

  /** The entry after `x` in `xs`, wrapping from the last to the first; an
      `x` that is not in `xs` is returned as it is. */
  function Successor(xs: seq<string>, x: string): (r: string)
    ensures x !in xs ==> r == x
    ensures r in xs <==> x in xs
  {
    match FirstIndex(xs, x)
    case None => x
    case Some(k) => xs[Next(k, |xs|)]
  }

  /** In a list without repeats, the entry at `i` is followed by the one at `i + 1`, cyclically. */
  lemma SuccessorAt(xs: seq<string>, i: nat)
    requires Distinct(xs) && i < |xs|
    ensures Successor(xs, xs[i]) == xs[Next(i, |xs|)]
  {
    var k := FirstIndex(xs, xs[i]).value;
    assert xs[k] == xs[i];
    assert k == i;
  }

  /** `Successor` applied `k` times. */
  function SuccessorTimes(xs: seq<string>, x: string, k: nat): string {
    if k == 0 then x else Successor(xs, SuccessorTimes(xs, x, k - 1))
  }

  /** Position `i + k` wrapped once around a list of length `n`. */
  function Wrap(i: nat, k: nat, n: nat): nat {
    if i + k < n then i + k else i + k - n
  }

  lemma {:induction false} SuccessorTimesMoves(xs: seq<string>, i: nat, k: nat)
    requires Distinct(xs) && i < |xs| && k <= |xs|
    ensures Wrap(i, k, |xs|) < |xs|
    ensures SuccessorTimes(xs, xs[i], k) == xs[Wrap(i, k, |xs|)]
  {
    if k > 0 {
      SuccessorTimesMoves(xs, i, k - 1);
      var j := Wrap(i, k - 1, |xs|);
      SuccessorAt(xs, j);
      assert Next(j, |xs|) == Wrap(i, k, |xs|);
    }
  }

  /** In a list without repeats, `Successor` is a single cycle through all
      entries: each comes back after exactly `|xs|` steps and not before. */
  lemma SuccessorCycle(xs: seq<string>, x: string, k: nat)
    requires Distinct(xs) && x in xs
    ensures SuccessorTimes(xs, x, |xs|) == x
    ensures 0 < k < |xs| ==> SuccessorTimes(xs, x, k) != x
  {
    var i :| 0 <= i < |xs| && xs[i] == x;
    SuccessorTimesMoves(xs, i, |xs|);
    if 0 < k < |xs| {
      SuccessorTimesMoves(xs, i, k);
      var j := Wrap(i, k, |xs|);
      if i < j { assert xs[i] != xs[j]; } else { assert xs[j] != xs[i]; }
    }
  }

  /** `nextLetter`: a drill letter is followed by the next one, Y by A;
      anything else is left as it is. */
  function NextLetter(letter: string): (r: string)
    ensures letter !in Letters ==> r == letter
    ensures r in Letters <==> letter in Letters
  {
    Successor(Letters, letter)
  }

  /** The letter at position `i` is followed by the one at `i + 1`, cyclically. */
  lemma NextLetterSucceeds(i: nat)
    requires i < |Letters|
    ensures NextLetter(Letters[i]) == Letters[(i + 1) % |Letters|]
  {
    LettersDistinct();
    SuccessorAt(Letters, i);
    ModSucc(i, |Letters|);
  }

  /** `nextLetter` is one cycle through all 24 drill letters: a letter comes
      back after exactly 24 steps and not before. */
  lemma NextLetterCycle(letter: string, k: nat)
    requires letter in Letters
    ensures SuccessorTimes(Letters, letter, 24) == letter
    ensures 0 < k < 24 ==> SuccessorTimes(Letters, letter, k) != letter
  {
    LettersDistinct();
    SuccessorCycle(Letters, letter, k);
  }

  /** The drill's state: the letter to sign, the hold timer and whether the
      celebration is showing. */
  datatype State = State(letter: string, matchStart: Option<nat>, balloons: bool)

  /** The screen as it first appears. */
  const Initial: State := State("A", None, false)

  /** One handler call: the next state and the letter it confirmed, if any. */
  datatype Step = Step(next: State, confirmed: Option<string>)

  /** `handlePredictionChange`: a sighting of the current letter starts the
      timer, a later one at least 0.8 s after it confirms; anything else
      stops the timer. Input is ignored during the celebration. */
  function Handle(s: State, p: Option<string>, now: nat): (r: Step)
    ensures s.balloons ==> r == Step(s, None)
    ensures r.next.letter == s.letter
    ensures r.confirmed.Some? <==>
              !s.balloons && p == Some(s.letter) && s.matchStart.Some? && HoldReached(s.matchStart.value, now)
    ensures r.confirmed.Some? ==> r.confirmed == p && r.next == State(s.letter, None, true)
    ensures r.confirmed.None? ==> r.next.balloons == s.balloons
    ensures !s.balloons && p != Some(s.letter) ==> r.next == s.(matchStart := None)
    ensures (!s.balloons && p == Some(s.letter) && s.matchStart.None?) ==> r.next == s.(matchStart := Some(now))
    ensures (!s.balloons && p == Some(s.letter) && s.matchStart.Some? && !HoldReached(s.matchStart.value, now))
              ==> r.next == s
  {
    if s.balloons then Step(s, None)
    else if p == Some(s.letter) then
      match s.matchStart
      case None => Step(s.(matchStart := Some(now)), None)
      case Some(start) =>
        if HoldReached(start, now) then Step(s.(matchStart := None, balloons := true), p)
        else Step(s, None)
    else Step(s.(matchStart := None), None)
  }

  /** The state after a trace of observations and the letters confirmed on the way. */
  datatype Outcome = Outcome(final: State, confirmed: seq<string>)

  function Run(s: State, trace: seq<Obs>): (r: Outcome)
    ensures r.final.letter == s.letter
    decreases |trace|
  {
    if |trace| == 0 then Outcome(s, [])
    else
      var step := Handle(s, trace[0].prediction, trace[0].at);
      var rest := Run(step.next, trace[1..]);
      Outcome(rest.final, Emitted(step.confirmed) + rest.confirmed)
  }

  /** During the celebration every trace is ignored. */
  lemma {:induction false} CelebrationFreezes(s: State, trace: seq<Obs>)
    requires s.balloons
    ensures Run(s, trace) == Outcome(s, [])
    decreases |trace|
  {
    if |trace| > 0 {
      CelebrationFreezes(s, trace[1..]);
    }
  }

  /** Edge triggering: a trace of observations confirms the letter at most
      once, and only by starting the celebration. */
  lemma {:induction false} ConfirmsAtMostOnce(s: State, trace: seq<Obs>)
    ensures |Run(s, trace).confirmed| <= 1
    ensures Run(s, trace).confirmed == [] || Run(s, trace).confirmed == [s.letter]
    ensures |Run(s, trace).confirmed| == 1 ==> Run(s, trace).final.balloons
    decreases |trace|
  {
    if |trace| > 0 {
      var step := Handle(s, trace[0].prediction, trace[0].at);
      if step.confirmed.Some? {
        CelebrationFreezes(step.next, trace[1..]);
      } else {
        ConfirmsAtMostOnce(step.next, trace[1..]);
      }
    }
  }

  /** Two sightings suffice: with no timer running, seeing the letter twice
      confirms it exactly when the second sighting is at least 0.8 s after
      the first. */
  lemma {:induction false} SecondSightingConfirms(s: State, t0: nat, t1: nat)
    requires !s.balloons && s.matchStart.None?
    ensures Run(s, [Saw(s.letter, t0), Saw(s.letter, t1)]).confirmed
            == if HoldReached(t0, t1) then [s.letter] else []
  {
    var trace := [Saw(s.letter, t0), Saw(s.letter, t1)];
    var s1 := Handle(s, Some(s.letter), t0).next;
    assert s1.matchStart == Some(t0);
    assert trace[1..] == [Saw(s.letter, t1)] && trace[1..][1..] == [];
    assert Run(s1, trace[1..]).confirmed == Emitted(Handle(s1, Some(s.letter), t1).confirmed);
  }

  /** The worked example: sightings of A at 0, 0.3 and 0.9 s confirm A at the
      third call and not before. */
  lemma {:induction false} WorkedExample()
    ensures Run(Initial, [Saw("A", 0), Saw("A", 300)]).confirmed == []
    ensures Run(Initial, [Saw("A", 0), Saw("A", 300), Saw("A", 900)]).confirmed == ["A"]
  {
    var trace := [Saw("A", 0), Saw("A", 300), Saw("A", 900)];
    var s1 := Handle(Initial, Some("A"), 0).next;
    var s2 := Handle(s1, Some("A"), 300).next;
    assert s2 == State("A", Some(0), false);
    SecondSightingConfirms(Initial, 0, 300);
    assert trace[1..] == [Saw("A", 300), Saw("A", 900)];
    assert trace[1..][1..] == [Saw("A", 900)] && trace[1..][1..][1..] == [];
    assert Run(s2, trace[1..][1..]).confirmed == ["A"];
  }

  /** No premature confirmation: if the timer (if any) was started no earlier
      than `lo` and every observation is less than 0.8 s after `lo`, nothing
      is confirmed. */
  lemma {:induction false} NoPrematureConfirmation(s: State, trace: seq<Obs>, lo: nat)
    requires s.matchStart.None? || s.matchStart.value >= lo
    requires WithinWindow(trace, lo)
    ensures Run(s, trace).confirmed == []
    decreases |trace|
  {
    if |trace| > 0 {
      var step := Handle(s, trace[0].prediction, trace[0].at);
      assert WithinWindow(trace[1..], lo) by {
        forall i | 0 <= i < |trace[1..]|
          ensures lo <= trace[1..][i].at < lo + RecognitionMs
        {
          assert trace[1..][i] == trace[i + 1];
        }
      }
      NoPrematureConfirmation(step.next, trace[1..], lo);
    }
  }

  /** The letter transition as written: the letter changes, the timer does not. */
  function TransitionAsWritten(s: State): (r: State)
    ensures r.letter == NextLetter(s.letter) && r.matchStart == s.matchStart && r.balloons == s.balloons
  {
    s.(letter := NextLetter(s.letter))
  }

  /** A timer started while the old letter was held survives the transition,
      so one sighting of the new letter 0.8 s after that start confirms it:
      for instance a hold of A begun at 0 ms, then B seen at 800 ms. */
  lemma TransitionAsWrittenCarriesHold(i: nat, start: nat, now: nat)
    requires i < |Letters| && HoldReached(start, now)
    ensures var s := TransitionAsWritten(State(Letters[i], Some(start), false));
            && s.letter == Letters[(i + 1) % |Letters|]
            && Handle(s, Some(s.letter), now).confirmed == Some(s.letter)
  {
    NextLetterSucceeds(i);
  }

  /** The letter transition as evidently intended: the next letter starts
      with no hold in progress. */
  function Transition(s: State): (r: State)
    ensures r.letter == NextLetter(s.letter) && r.matchStart.None? && r.balloons == s.balloons
  {
    s.(letter := NextLetter(s.letter), matchStart := None)
  }

  /** The letter grid as written: the picked letter replaces the current
      one, and a running timer is kept. */
  function PickAsWritten(s: State, i: nat): (r: State)
    requires i < |Letters|
    ensures r.letter == Letters[i] && r.matchStart == s.matchStart && r.balloons == s.balloons
  {
    s.(letter := Letters[i])
  }

  /** A timer started while the old letter was held survives a grid pick,
      so one sighting of the picked letter 0.8 s after that start confirms it. */
  lemma PickAsWrittenCarriesHold(before: string, i: nat, start: nat, now: nat)
    requires i < |Letters| && HoldReached(start, now)
    ensures var s := PickAsWritten(State(before, Some(start), false), i);
            Handle(s, Some(Letters[i]), now).confirmed == Some(Letters[i])
  {
  }

  /** Picking a letter from the grid as evidently intended: the hold is reset
      like in `Transition`. */
  function Pick(s: State, i: nat): (r: State)
    requires i < |Letters|
    ensures r.letter == Letters[i] && r.matchStart.None? && r.balloons == s.balloons
  {
    s.(letter := Letters[i], matchStart := None)
  }

  /** After a corrected change of letter, the first call never confirms:
      every confirmation of a letter needs two sightings of that letter. */
  lemma FreshLetterNeedsTwoSightings(s: State, p: Option<string>, now: nat, i: nat)
    requires i < |Letters|
    ensures Handle(Transition(s), p, now).confirmed.None?
    ensures Handle(Pick(s, i), p, now).confirmed.None?
  {
  }

  /** Every input the drill reacts to, the timers included as explicit events. */
  datatype Input =
    | Predict(obs: Obs)
    | BalloonsTimer
    | NextTap
    | PickTap(index: nat)

  /** The letter on screen is always a drill letter. */
  predicate Valid(s: State) {
    s.letter in Letters
  }

  /** One input, with letter changes as evidently intended. */
  function Apply(s: State, input: Input): (r: State)
    ensures Valid(s) ==> Valid(r)
  {
    match input
    case Predict(o) => Handle(s, o.prediction, o.at).next
    case BalloonsTimer => s.(balloons := false)
    case NextTap => Transition(s)
    case PickTap(i) => if i < |Letters| then Pick(s, i) else s
  }

  function Replay(s: State, inputs: seq<Input>): State
    decreases |inputs|
  {
    if |inputs| == 0 then s else Replay(Apply(s, inputs[0]), inputs[1..])
  }

  /** The drill starts on a drill letter and never leaves the list. */
  lemma {:induction false} ReplayKeepsValid(s: State, inputs: seq<Input>)
    requires Valid(s)
    ensures Valid(Replay(s, inputs))
    decreases |inputs|
  {
    if |inputs| > 0 {
      ReplayKeepsValid(Apply(s, inputs[0]), inputs[1..]);
    }
  }

  lemma InitialValid()
    ensures Valid(Initial)
  {
    assert Letters[0] == "A";
  }
}

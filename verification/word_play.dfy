/** Word Play: spell the level's word letter by letter. Only the letter at
    the current position is accepted, and it must be held like in Hand Talk. */
module WordPlay {
  import opened Base

  /** The game's levels, one word each. */
  const Levels: seq<string> := ["LOVE", "APPLE", "WWDC", "LAKE", "BABY"]

  /** The screen's game state: level, position in its word, the two debounce
      fields and whether the celebration is showing. */
  datatype State = State(level: nat, index: nat, lastPrediction: Option<string>,
                         matchStart: Option<nat>, balloons: bool)

  /** The screen as it first appears. */
  const Initial: State := State(0, 0, None, None, false)

  /** `currentWord`; the level must index `Levels`, as Swift's array access traps otherwise. */
  function Word(s: State): (r: string)
    requires s.level < |Levels|
    ensures r in Levels && 4 <= |r| <= 5
  {
    Levels[s.level]
  }

  /** The letter to sign next, as the one-character string the classifier reports. */
  function Target(s: State): (r: string)
    requires s.level < |Levels| && s.index < |Word(s)|
    ensures |r| == 1 && r <= Word(s)[s.index..]
  {
    [Word(s)[s.index]]
  }

  /** The level is a real level, the position never passes the end of its
      word, and a running timer always belongs to a remembered label. */
  predicate Valid(s: State) {
    && s.level < |Levels|
    && s.index <= |Word(s)|
    && (s.matchStart.Some? ==> s.lastPrediction.Some?)
  }

  /** The handler ignores input during the celebration and once the word is spelled. */
  predicate Ignoring(s: State)
    requires s.level < |Levels|
  {
    s.balloons || s.index >= |Word(s)|
  }

  /** How far the hold of `s` has got. */
  function Phase(s: State): nat {
    HoldPhase(s.lastPrediction, s.matchStart)
  }

  /** One handler call: the next state and the letter it accepted, if any. */
  datatype Step = Step(next: State, matched: Option<string>)

  /** `handlePredictionChange`. */
  function Handle(s: State, p: Option<string>, now: nat): (r: Step)
    requires s.level < |Levels|
    ensures r.next.level == s.level
    ensures Ignoring(s) ==> r == Step(s, None)
    ensures r.matched.Some? <==>
              && !Ignoring(s) && p == Some(Target(s)) && p == s.lastPrediction
              && s.matchStart.Some? && HoldReached(s.matchStart.value, now)
    ensures r.matched.Some? ==>
              && r.matched == p
              && r.next == s.(index := s.index + 1, lastPrediction := None, matchStart := None,
                              balloons := s.index + 1 == |Word(s)|)
    ensures r.matched.None? ==> r.next.index == s.index && r.next.balloons == s.balloons
    ensures !Ignoring(s) && p.None? ==> r.next == s.(lastPrediction := None, matchStart := None)
    ensures (!Ignoring(s) && p.Some? && (p != s.lastPrediction || p != Some(Target(s))))
              ==> r.next == s.(lastPrediction := p, matchStart := None)
    ensures (!Ignoring(s) && p == Some(Target(s)) && p == s.lastPrediction && s.matchStart.None?)
              ==> r.next == s.(matchStart := Some(now))
    ensures (!Ignoring(s) && p == Some(Target(s)) && p == s.lastPrediction && s.matchStart.Some?
             && !HoldReached(s.matchStart.value, now))
              ==> r.next == s
    ensures Valid(s) ==> Valid(r.next)
  {
    if s.balloons then Step(s, None)
    else if s.index >= |Word(s)| then Step(s, None)
    else
      var target := Target(s);
      match p
      case None => Step(s.(lastPrediction := None, matchStart := None), None)
      case Some(sign) =>
        if sign == target && p == s.lastPrediction then
          match s.matchStart
          case None => Step(s.(matchStart := Some(now)), None)
          case Some(start) =>
            if HoldReached(start, now) then
              var advanced := s.(index := s.index + 1, lastPrediction := None, matchStart := None);
              if advanced.index >= |Word(s)| then Step(advanced.(balloons := true), p)
              else Step(advanced, p)
            else Step(s, None)
        else
          Step(s.(lastPrediction := p, matchStart := None), None)
  }

  /** `nextLevel`: the following level, cyclically, from its first letter. */
  function NextLevel(s: State): (r: State)
    ensures r.level < |Levels|
    ensures s.level < |Levels| ==> (r.level == s.level + 1 || (s.level + 1 == |Levels| && r.level == 0))
    ensures r.index == 0 && Phase(r) == 0 && r.balloons == s.balloons
    ensures Valid(r)
  {
    s.(level := (s.level + 1) % |Levels|, index := 0, lastPrediction := None, matchStart := None)
  }

  /** Applying `nextLevel` once per level comes back to the same level. */
  lemma NextLevelCycles(s: State)
    requires s.level < |Levels|
    ensures NextLevel(NextLevel(NextLevel(NextLevel(NextLevel(s))))).level == s.level
  {
  }

  /** The 1.8 s timer that ends the celebration. */
  function BalloonsOff(s: State): (r: State)
    ensures !r.balloons && r.level == s.level && r.index == s.index
    ensures r.lastPrediction == s.lastPrediction && r.matchStart == s.matchStart
  {
    s.(balloons := false)
  }

  /** `onDisappear`: the debounce fields are forgotten, progress is kept. */
  function Disappear(s: State): (r: State)
    ensures Phase(r) == 0 && r.level == s.level && r.index == s.index && r.balloons == s.balloons
  {
    s.(lastPrediction := None, matchStart := None)
  }

  /** `LevelPickerView` as written: only the level changes. */
  function SelectLevelAsWritten(s: State, level: nat): (r: State)
    requires level < |Levels|
    ensures r.level == level && r.index == s.index
    ensures r.lastPrediction == s.lastPrediction && r.matchStart == s.matchStart && r.balloons == s.balloons
  {
    s.(level := level)
  }

  /** Level selection as evidently intended: like `nextLevel`, the chosen
      word is started from its first letter with a fresh hold. */
  function SelectLevel(s: State, level: nat): (r: State)
    requires level < |Levels|
    ensures r.level == level && r.index == 0 && Phase(r) == 0 && r.balloons == s.balloons
    ensures Valid(r)
  {
    s.(level := level, index := 0, lastPrediction := None, matchStart := None)
  }

  /** How a letter of the word is drawn by `letterColor`. */
  datatype Color = Done | Current | Pending

  function LetterColor(s: State, i: int): (r: Color)
    ensures r == Done <==> i < s.index
    ensures r == Current <==> i == s.index
    ensures r == Pending <==> i > s.index
  {
    if i < s.index then Done else if i == s.index then Current else Pending
  }

  /** How many of the positions `0 .. n-1` are drawn in `color`. */
  function CountColor(s: State, color: Color, n: nat): nat {
    if n == 0 then 0
    else CountColor(s, color, n - 1) + (if LetterColor(s, n - 1) == color then 1 else 0)
  }

  /** Among the first `n` positions, as many are drawn as done as letters
      were signed, and at most one (the target) is drawn as current. */
  lemma {:induction false} LetterColorCounts(s: State, n: nat)
    ensures CountColor(s, Done, n) == if n < s.index then n else s.index
    ensures CountColor(s, Current, n) == if s.index < n then 1 else 0
  {
    if n > 0 {
      LetterColorCounts(s, n - 1);
    }
  }

  /** Over the whole word: the done positions are exactly the signed letters,
      and one position is current until the word is spelled. */
  lemma LetterColors(s: State)
    requires Valid(s)
    ensures CountColor(s, Done, |Word(s)|) == s.index
    ensures CountColor(s, Current, |Word(s)|) == if s.index < |Word(s)| then 1 else 0
  {
    LetterColorCounts(s, |Word(s)|);
  }

  /** The state after a trace of observations and the letters accepted on the way. */
  datatype Outcome = Outcome(final: State, matched: seq<string>)

  function Run(s: State, trace: seq<Obs>): (r: Outcome)
    requires s.level < |Levels|
    ensures r.final.level == s.level
    decreases |trace|
  {
    if |trace| == 0 then Outcome(s, [])
    else
      var step := Handle(s, trace[0].prediction, trace[0].at);
      var rest := Run(step.next, trace[1..]);
      Outcome(rest.final, Emitted(step.matched) + rest.matched)
  }

  /** The game invariant survives a trace, and the position moves by one
      per accepted letter. */
  lemma {:induction false} RunAdvances(s: State, trace: seq<Obs>)
    requires Valid(s)
    ensures Valid(Run(s, trace).final)
    ensures Run(s, trace).final.index == s.index + |Run(s, trace).matched|
    decreases |trace|
  {
    if |trace| > 0 {
      var step := Handle(s, trace[0].prediction, trace[0].at);
      RunAdvances(step.next, trace[1..]);
    }
  }

  /** One call accepts exactly the word's letters between the old and the new position. */
  lemma StepSpells(s: State, p: Option<string>, now: nat)
    requires Valid(s)
    ensures Handle(s, p, now).next.index <= |Word(s)|
    ensures Concat(Emitted(Handle(s, p, now).matched)) == Word(s)[s.index..Handle(s, p, now).next.index]
  {
    var step := Handle(s, p, now);
    if step.matched.Some? {
      var t := Target(s);
      assert Emitted(step.matched) == [t] && t == [Word(s)[s.index]];
      assert Concat([t]) == t + Concat([]);
    }
  }

  /** The handler spells the word in order: the accepted letters are exactly
      the letters of the word from the starting position, and the position
      moves by one per accepted letter. */
  lemma {:induction false} RunSpellsWord(s: State, trace: seq<Obs>)
    requires Valid(s)
    ensures Valid(Run(s, trace).final)
    ensures Run(s, trace).final.index == s.index + |Run(s, trace).matched|
    ensures Concat(Run(s, trace).matched) == Word(s)[s.index..Run(s, trace).final.index]
    decreases |trace|
  {
    RunAdvances(s, trace);
    if |trace| > 0 {
      var step := Handle(s, trace[0].prediction, trace[0].at);
      var rest := Run(step.next, trace[1..]);
      var w := Word(s);
      RunSpellsWord(step.next, trace[1..]);
      StepSpells(s, trace[0].prediction, trace[0].at);
      ConcatAppend(Emitted(step.matched), rest.matched);
      assert w[s.index..rest.final.index] == w[s.index..step.next.index] + w[step.next.index..rest.final.index];
    }
  }

  /** The celebration starts exactly when a trace accepts the word's last letter. */
  lemma {:induction false} RunCelebratesCompletion(s: State, trace: seq<Obs>)
    requires Valid(s) && !s.balloons
    ensures Run(s, trace).final.balloons
            <==> |Run(s, trace).matched| > 0 && Run(s, trace).final.index == |Word(s)|
    decreases |trace|
  {
    if |trace| > 0 {
      var step := Handle(s, trace[0].prediction, trace[0].at);
      RunSpellsWord(s, trace);
      if step.next.balloons {
        IgnoringFreezes(step.next, trace[1..]);
      } else {
        RunCelebratesCompletion(step.next, trace[1..]);
      }
    }
  }

  /** Each accepted letter costs three observations, so a repeated letter
      (the two Ps of APPLE) is held again from scratch. */
  lemma {:induction false} ThreeObservationsPerLetter(s: State, trace: seq<Obs>)
    requires s.level < |Levels|
    ensures 3 * |Run(s, trace).matched| + Phase(Run(s, trace).final) <= |trace| + Phase(s)
    decreases |trace|
  {
    if |trace| > 0 {
      var step := Handle(s, trace[0].prediction, trace[0].at);
      ThreeObservationsPerLetter(step.next, trace[1..]);
    }
  }

  /** During the celebration, or once the word is spelled, every trace is ignored. */
  lemma {:induction false} IgnoringFreezes(s: State, trace: seq<Obs>)
    requires s.level < |Levels| && Ignoring(s)
    ensures Run(s, trace) == Outcome(s, [])
    decreases |trace|
  {
    if |trace| > 0 {
      IgnoringFreezes(s, trace[1..]);
    }
  }

  lemma {:induction false} RunConcat(s: State, a: seq<Obs>, b: seq<Obs>)
    requires s.level < |Levels|
    ensures Run(s, a + b).final == Run(Run(s, a).final, b).final
    ensures Run(s, a + b).matched == Run(s, a).matched + Run(Run(s, a).final, b).matched
    decreases |a|
  {
    if |a| == 0 {
      assert a + b == b;
    } else {
      assert (a + b)[1..] == a[1..] + b;
      RunConcat(Handle(s, a[0].prediction, a[0].at).next, a[1..], b);
    }
  }

  /** Holding one letter: seen at `t`, again at `t`, and once more 0.8 s later. */
  function Hold(letter: char, t: nat): seq<Obs> {
    [Saw([letter], t), Saw([letter], t), Saw([letter], t + RecognitionMs)]
  }

  /** Holding each remaining letter of `w` from position `k`, in order. */
  function HoldAll(w: string, k: nat, t: nat): seq<Obs>
    requires k <= |w|
    decreases |w| - k
  {
    if k == |w| then [] else Hold(w[k], t) + HoldAll(w, k + 1, t)
  }

  /** Holding the target letter once accepts it and moves to the next position. */
  lemma HoldAcceptsTarget(s: State, t: nat)
    requires Valid(s) && !Ignoring(s) && Phase(s) == 0
    ensures Run(s, Hold(Word(s)[s.index], t)).matched == [Target(s)]
    ensures Run(s, Hold(Word(s)[s.index], t)).final
            == s.(index := s.index + 1, balloons := s.index + 1 == |Word(s)|)
  {
    var h := Hold(Word(s)[s.index], t);
    var st1 := Handle(s, h[0].prediction, t);
    var st2 := Handle(st1.next, h[1].prediction, t);
    var st3 := Handle(st2.next, h[2].prediction, t + RecognitionMs);
    assert st1.matched.None? && st2.matched.None?;
    assert st2.next.matchStart == Some(t) && st2.next.lastPrediction == Some(Target(s));
    assert st3.matched == Some(Target(s));
    assert h[1..] == [h[1], h[2]] && h[1..][1..] == [h[2]] && h[1..][1..][1..] == [];
    assert Run(st2.next, h[1..][1..]) == Outcome(st3.next, [Target(s)]);
    assert Run(st1.next, h[1..]) == Outcome(st3.next, [Target(s)]);
  }

  /** Holding every remaining letter spells the word and starts the celebration. */
  lemma {:induction false} HoldingEveryLetterCompletesWord(s: State, t: nat)
    requires Valid(s) && !Ignoring(s) && Phase(s) == 0
    ensures Run(s, HoldAll(Word(s), s.index, t)).final.balloons
    ensures Run(s, HoldAll(Word(s), s.index, t)).final.index == |Word(s)|
    ensures Concat(Run(s, HoldAll(Word(s), s.index, t)).matched) == Word(s)[s.index..]
    decreases |Word(s)| - s.index
  {
    var w := Word(s);
    var h := Hold(w[s.index], t);
    var s1 := Run(s, h).final;
    HoldAcceptsTarget(s, t);
    RunConcat(s, h, HoldAll(w, s.index + 1, t));
    RunSpellsWord(s, HoldAll(w, s.index, t));
    if s1.index < |w| {
      HoldingEveryLetterCompletesWord(s1, t);
    } else {
      assert HoldAll(w, s.index + 1, t) == [];
    }
  }

  /** Every input the screen reacts to, the timers included as explicit events. */
  datatype Input =
    | Predict(obs: Obs)
    | NextLevelTap
    | BalloonsTimer
    | Leave
    | Pick(level: nat)

  /** One input, with level selection as evidently intended. */
  function Apply(s: State, input: Input): (r: State)
    requires Valid(s)
    ensures Valid(r)
  {
    match input
    case Predict(o) => Handle(s, o.prediction, o.at).next
    case NextLevelTap => NextLevel(s)
    case BalloonsTimer => BalloonsOff(s)
    case Leave => Disappear(s)
    case Pick(level) => if level < |Levels| then SelectLevel(s, level) else s
  }

  function Replay(s: State, inputs: seq<Input>): State
    requires Valid(s)
    decreases |inputs|
  {
    if |inputs| == 0 then s else Replay(Apply(s, inputs[0]), inputs[1..])
  }

  /** The game invariant holds after any sequence of inputs. */
  lemma {:induction false} ReplayKeepsValid(s: State, inputs: seq<Input>)
    requires Valid(s)
    ensures Valid(Replay(s, inputs))
    decreases |inputs|
  {
    if |inputs| > 0 {
      ReplayKeepsValid(Apply(s, inputs[0]), inputs[1..]);
    }
  }

  /** After a corrected level selection, no letter of the new word is drawn as
      done, and holding each letter completes it. */
  lemma SelectLevelStartsFresh(s: State, level: nat, t: nat)
    requires level < |Levels| && !s.balloons
    ensures forall i :: 0 <= i < |Levels[level]| ==> LetterColor(SelectLevel(s, level), i) != Done
    ensures Run(SelectLevel(s, level), HoldAll(Levels[level], 0, t)).final.balloons
  {
    HoldingEveryLetterCompletesWord(SelectLevel(s, level), t);
  }

  /** The level picker as written strands a game: with four letters of APPLE
      signed, picking LOVE leaves the position at the end of LOVE without a
      celebration, and from then on every prediction is ignored. */
  lemma SelectLevelAsWrittenStrands(trace: seq<Obs>)
    ensures var s := SelectLevelAsWritten(State(1, 4, None, None, false), 0);
            && Valid(State(1, 4, None, None, false))
            && Word(s) == "LOVE" && s.index == |Word(s)| && !s.balloons
            && Run(s, trace) == Outcome(s, [])
  {
    var s := SelectLevelAsWritten(State(1, 4, None, None, false), 0);
    IgnoringFreezes(s, trace);
  }
}

/** Hand Talk: free-form spelling. Any sign that is held long enough is
    appended to the translated text; three buttons edit the same text. */
module HandTalk {
  import opened Base

  /** The part of the screen's state that the handler and the buttons touch:
      the translated text and the two debounce fields. */
  datatype State = State(text: string, lastPrediction: Option<string>, matchStart: Option<nat>)

  /** The screen as it first appears. */
  const Initial: State := State("", None, None)

  /** A running timer always belongs to a remembered sign. */
  predicate Valid(s: State) {
    s.matchStart.Some? ==> s.lastPrediction.Some?
  }

  /** How far the hold of `s` has got. */
  function Phase(s: State): nat {
    HoldPhase(s.lastPrediction, s.matchStart)
  }

  /** One handler call: the next state and the sign it appended, if any. */
  datatype Step = Step(next: State, confirmed: Option<string>)

  /** `handlePredictionChange`: the first sighting of a sign only remembers it,
      the second starts the timer, and a later one at least 0.8 s after the
      timer started appends the sign and forgets everything. */
  function Handle(s: State, p: Option<string>, now: nat): (r: Step)
    ensures Valid(r.next)
    ensures r.confirmed.Some? <==>
              p.Some? && p == s.lastPrediction && s.matchStart.Some? && HoldReached(s.matchStart.value, now)
    ensures r.confirmed.Some? ==> r.confirmed == p && r.next == State(s.text + p.value, None, None)
    ensures r.confirmed.None? ==> r.next.text == s.text
    ensures p.None? ==> r.next == s.(lastPrediction := None, matchStart := None)
    ensures p.Some? && p != s.lastPrediction ==> r.next == s.(lastPrediction := p, matchStart := None)
    ensures p.Some? && p == s.lastPrediction && s.matchStart.None? ==> r.next == s.(matchStart := Some(now))
    ensures (p.Some? && p == s.lastPrediction && s.matchStart.Some? && !HoldReached(s.matchStart.value, now))
              ==> r.next == s
  {
    match p
    case None => Step(s.(lastPrediction := None, matchStart := None), None)
    case Some(sign) =>
      if p == s.lastPrediction then
        match s.matchStart
        case None => Step(s.(matchStart := Some(now)), None)
        case Some(start) =>
          if HoldReached(start, now) then Step(State(s.text + sign, None, None), p)
          else Step(s, None)
      else
        Step(s.(lastPrediction := p, matchStart := None), None)
  }

  /** The state after a whole trace of observations and every sign confirmed on the way. */
  datatype Outcome = Outcome(final: State, confirmed: seq<string>)

  function Run(s: State, trace: seq<Obs>): (r: Outcome)
    ensures |r.confirmed| <= |trace|
    decreases |trace|
  {
    if |trace| == 0 then Outcome(s, [])
    else
      var step := Handle(s, trace[0].prediction, trace[0].at);
      var rest := Run(step.next, trace[1..]);
      Outcome(rest.final, Emitted(step.confirmed) + rest.confirmed)
  }

  /** The text after a trace is the text before it followed by every
      confirmed sign, in order. */
  lemma {:induction false} RunAppendsConfirmed(s: State, trace: seq<Obs>)
    ensures Run(s, trace).final.text == s.text + Concat(Run(s, trace).confirmed)
    decreases |trace|
  {
    if |trace| > 0 {
      var step := Handle(s, trace[0].prediction, trace[0].at);
      RunAppendsConfirmed(step.next, trace[1..]);
      ConcatAppend(Emitted(step.confirmed), Run(step.next, trace[1..]).confirmed);
    }
  }

  /** The debounce invariant holds after every trace that starts from a valid state. */
  lemma {:induction false} RunKeepsValid(s: State, trace: seq<Obs>)
    requires Valid(s)
    ensures Valid(Run(s, trace).final)
    decreases |trace|
  {
    if |trace| > 0 {
      RunKeepsValid(Handle(s, trace[0].prediction, trace[0].at).next, trace[1..]);
    }
  }

  /** Every confirmation costs three observations: confirming needs phase 2,
      resets to phase 0, and every other call raises the phase by at most one. */
  lemma {:induction false} ThreeObservationsPerLetter(s: State, trace: seq<Obs>)
    ensures 3 * |Run(s, trace).confirmed| + Phase(Run(s, trace).final) <= |trace| + Phase(s)
    decreases |trace|
  {
    if |trace| > 0 {
      var step := Handle(s, trace[0].prediction, trace[0].at);
      ThreeObservationsPerLetter(step.next, trace[1..]);
    }
  }

  /** Edge triggering: right after a confirmation, the next two calls cannot
      confirm, whatever they observe. */
  lemma EdgeTriggered(s: State, p: Option<string>, now: nat, after: seq<Obs>)
    requires Handle(s, p, now).confirmed.Some?
    requires |after| <= 2
    ensures Run(Handle(s, p, now).next, after).confirmed == []
  {
    ThreeObservationsPerLetter(Handle(s, p, now).next, after);
  }

  /** No premature confirmation: if the timer (if any) was started no earlier
      than `lo` and every observation happens less than 0.8 s after `lo`,
      nothing is appended. */
  lemma {:induction false} NoPrematureConfirmation(s: State, trace: seq<Obs>, lo: nat)
    requires s.matchStart.None? || s.matchStart.value >= lo
    requires WithinWindow(trace, lo)
    ensures Run(s, trace).confirmed == []
    decreases |trace|
  {
    if |trace| > 0 {
      var step := Handle(s, trace[0].prediction, trace[0].at);
      assert step.confirmed.None?;
      assert WithinWindow(trace[1..], lo) by {
        forall i | 0 <= i < |trace[1..]|
          ensures lo <= trace[1..][i].at < lo + RecognitionMs
        {
          assert trace[1..][i] == trace[i + 1];
        }
      }
      NoPrematureConfirmation(step.next, trace[1..], lo);
    }
  }

  /** A sign that is not the remembered one is confirmed by three calls in a
      row exactly when the third comes at least 0.8 s after the second: the
      elapsed time counts from the second sighting, not the first. */
  lemma {:induction false} ThirdSightingConfirms(s: State, sign: string, t0: nat, t1: nat, t2: nat)
    requires s.lastPrediction != Some(sign)
    ensures Run(s, [Saw(sign, t0), Saw(sign, t1), Saw(sign, t2)]).confirmed
            == if HoldReached(t1, t2) then [sign] else []
  {
    var trace := [Saw(sign, t0), Saw(sign, t1), Saw(sign, t2)];
    var s1 := Handle(s, Some(sign), t0).next;
    var s2 := Handle(s1, Some(sign), t1).next;
    assert s2.matchStart == Some(t1) && s2.lastPrediction == Some(sign);
    assert trace[1..] == [Saw(sign, t1), Saw(sign, t2)];
    assert trace[1..][1..] == [Saw(sign, t2)];
    assert Run(s2, [Saw(sign, t2)]).confirmed == Emitted(Handle(s2, Some(sign), t2).confirmed);
  }

  /** Sightings of A at 0, 0.3 and 0.9 s append nothing: the timer started
      at 0.3 s, so a third sighting at 1.1 s instead would be the first to
      confirm. */
  lemma WorkedExample()
    ensures Run(Initial, [Saw("A", 0), Saw("A", 300), Saw("A", 900)]).confirmed == []
    ensures Run(Initial, [Saw("A", 0), Saw("A", 300), Saw("A", 1100)]).confirmed == ["A"]
  {
    ThirdSightingConfirms(Initial, "A", 0, 300, 900);
    ThirdSightingConfirms(Initial, "A", 0, 300, 1100);
  }

  /** An interruption resets the hold: `L L M L L` confirms nothing, at any
      timing, when `L` was not already remembered. */
  lemma {:induction false} InterruptionResetsHold(s: State, l: string, m: string, ts: seq<nat>)
    requires l != m && |ts| == 5
    requires s.lastPrediction != Some(l)
    ensures Run(s, [Saw(l, ts[0]), Saw(l, ts[1]), Saw(m, ts[2]), Saw(l, ts[3]), Saw(l, ts[4])]).confirmed == []
  {
    var trace := [Saw(l, ts[0]), Saw(l, ts[1]), Saw(m, ts[2]), Saw(l, ts[3]), Saw(l, ts[4])];
    var s1 := Handle(s, Some(l), ts[0]);
    var s2 := Handle(s1.next, Some(l), ts[1]);
    var s3 := Handle(s2.next, Some(m), ts[2]);
    var s4 := Handle(s3.next, Some(l), ts[3]);
    var s5 := Handle(s4.next, Some(l), ts[4]);
    assert s3.next.lastPrediction == Some(m);
    assert s4.next.lastPrediction == Some(l) && s4.next.matchStart.None?;
    assert s1.confirmed.None? && s2.confirmed.None? && s3.confirmed.None?;
    assert s4.confirmed.None? && s5.confirmed.None?;
    var t1, t2, t3, t4 := trace[1..], trace[2..], trace[3..], trace[4..];
    assert t1[1..] == t2 && t2[1..] == t3 && t3[1..] == t4 && t4[1..] == [];
    assert Run(s5.next, t4[1..]).confirmed == [];
    assert Run(s4.next, t4).confirmed == [];
    assert Run(s3.next, t3).confirmed == [];
    assert Run(s2.next, t2).confirmed == [];
    assert Run(s1.next, t1).confirmed == [];
  }

  /** The delete button removes the last character; on empty text it does nothing. */
  function Delete(s: State): (r: State)
    ensures s.text == "" ==> r == s
    ensures s.text != "" ==> |r.text| == |s.text| - 1 && r.text + [s.text[|s.text| - 1]] == s.text
    ensures r.lastPrediction == s.lastPrediction && r.matchStart == s.matchStart
  {
    if s.text == "" then s else s.(text := s.text[..|s.text| - 1])
  }

  /** The space button appends one space. */
  function Space(s: State): (r: State)
    ensures r.text == s.text + " "
    ensures r.lastPrediction == s.lastPrediction && r.matchStart == s.matchStart
  {
    s.(text := s.text + " ")
  }

  /** The trash button empties the text. */
  function Clear(s: State): (r: State)
    ensures r.text == ""
    ensures r.lastPrediction == s.lastPrediction && r.matchStart == s.matchStart
  {
    s.(text := "")
  }

  /** `onDisappear`: the debounce fields are forgotten, the text is kept. */
  function Disappear(s: State): (r: State)
    ensures Valid(r) && Phase(r) == 0 && r.text == s.text
  {
    s.(lastPrediction := None, matchStart := None)
  }

  /** Delete undoes one appended character, so it undoes the space button and
      the confirmation of a one-character sign. */
  lemma DeleteUndoesAppend(s: State, c: char)
    ensures Delete(s.(text := s.text + [c])) == s
    ensures Delete(Space(s)) == s
  {
    var t := s.text + [c];
    assert t[..|t| - 1] == s.text;
    assert (s.text + " ")[..|s.text|] == s.text;
  }

  lemma DeleteUndoesConfirmation(s: State, p: Option<string>, now: nat)
    requires Handle(s, p, now).confirmed.Some? && |p.value| == 1
    ensures Delete(Handle(s, p, now).next).text == s.text
  {
    DeleteUndoesAppend(Handle(s, p, now).next.(text := s.text), p.value[0]);
    assert s.text + p.value == s.text + [p.value[0]];
  }
}

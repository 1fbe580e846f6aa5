/** Shared vocabulary of the three gesture debouncers: optional values,
    timestamped classifier observations and the 0.8 s hold threshold. */
module Base {

  /** An optional value; `None` is Swift's `nil`. */
  datatype Option<T> = None | Some(value: T)

  /** The hold threshold (`recognitionDuration = 0.8` seconds) in milliseconds. */
  const RecognitionMs: nat := 800

  /** `Date().timeIntervalSince(start) >= recognitionDuration`, with wall-clock
      time given by the caller. The difference is an `int`: a clock that went
      backwards gives a negative elapsed time, which never reaches the threshold. */
  predicate HoldReached(start: nat, now: nat) {
    now - start >= RecognitionMs
  }

  /** One classifier result as it reaches a screen: the predicted sign, or
      nothing, together with the time at which the handler runs. */
  datatype Obs = Obs(prediction: Option<string>, at: nat)

  /** The observation of `sign` at time `at`. */
  function Saw(sign: string, at: nat): Obs {
    Obs(Some(sign), at)
  }

  /** How far a hold has got, from the remembered label and the timer:
      0 nothing remembered, 1 label remembered, 2 timer running. */
  function HoldPhase(lastPrediction: Option<string>, matchStart: Option<nat>): nat {
    if matchStart.Some? then 2 else if lastPrediction.Some? then 1 else 0
  }

  /** The labels a handler call reported, as a sequence of zero or one. */
  function Emitted(o: Option<string>): seq<string> {
    if o.Some? then [o.value] else []
  }

  /** All strings of `parts`, one after another. */
  function Concat(parts: seq<string>): string
  {
    if |parts| == 0 then "" else parts[0] + Concat(parts[1..])
  }

  lemma {:induction false} ConcatAppend(a: seq<string>, b: seq<string>)
    ensures Concat(a + b) == Concat(a) + Concat(b)
  {
    if |a| == 0 {
      assert a + b == b;
    } else {
      assert (a + b)[1..] == a[1..] + b;
      ConcatAppend(a[1..], b);
    }
  }

  /** True when every observation of `trace` happens in `[lo, lo + RecognitionMs)`. */
  predicate WithinWindow(trace: seq<Obs>, lo: nat) {
    forall i :: 0 <= i < |trace| ==> lo <= trace[i].at < lo + RecognitionMs
  }
}

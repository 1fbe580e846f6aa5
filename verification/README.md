# SignQuest gesture debouncers in Dafny

SignQuest teaches American Sign Language finger-spelling. A hand-pose classifier
reports a letter (or nothing) a few times per second. Three screens each turn that
stream into "letter confirmed" events using a 0.8 s hold:

- **Hand Talk** (`HandTalk`, `hand_talk.dfy`) accepts any stable letter and appends
  it to a text buffer. The delete, space and trash buttons edit the same buffer.
  The first sighting of a letter only remembers it. The second starts the timer.
  A later sighting at least 0.8 s after the timer started appends the letter and
  forgets both fields.
- **Word Play** (`WordPlay`, `word_play.dfy`) uses the same three-sighting hold.
  It accepts only the letter at the current position of the level's word
  (`LOVE`, `APPLE`, `WWDC`, `LAKE`, `BABY`). An accepted letter advances the
  position. The last letter starts a celebration, during which input is ignored.
  `nextLevel` moves cyclically through the levels. `letterColor` draws each
  position as done, current or pending.
- **Sign School** (`SignSchool`, `sign_school.dfy`) drills one letter of
  `ABCDEFGHIKLMNOPQRSTUVWXY` at a time with a two-sighting hold and a
  celebration guard. `nextLetter` is the cyclic successor in that list.
- **Gesture guide** (`Tip`, `tip.dfy`) is the table of 24 sign descriptions,
  looked up with the fallback "Description not available".
- **3D hand model** (`HandModel`, `hand_model.dfy`): `letterIndex` gives a
  letter's ASCII offset from `A`, and the model's node is named
  `Finger_Alphabet_<letter>_<index>`.

`base.dfy` (`Base`) holds the shared vocabulary: `Option`, timestamped observations
`Obs`, the 800 ms threshold and the `HoldReached` test. It also holds the pieces the
three debouncers share: the hold phase `HoldPhase`, the confirmed letters of a trace
`Emitted`, string concatenation `Concat` with its append law `ConcatAppend`, and the
time-window predicate `WithinWindow`.

Each handler is a pure step function `(state, prediction, now) -> (next state,
confirmed letter)`. `Run` folds a handler over a trace of observations.
Wall-clock time is a caller-supplied timestamp in milliseconds. Elapsed time is
`now - start` as an integer, so a clock that steps backwards never confirms. The
delayed closures (`DispatchQueue.main.asyncAfter`) become explicit inputs:
`BalloonsOff`/`BalloonsTimer`, `NextLevel`/`NextLevelTap`, `Transition`/`NextTap`.

Two consequences of the code are easy to miss:
- A new label does not start the timer. It only replaces the remembered label
  and clears the timer (`HandTalkView.swift:189-192`). If the timer started at
  the first sighting, A seen at 0, 0.3 and 0.9 s would be confirmed at 0.9 s.
  Here Hand Talk and Word Play need three sightings, and the 0.8 s count from
  the second one, so that trace appends nothing in Hand Talk
  (`HandTalk.WorkedExample`). Sign School starts its timer on the first
  sighting of the current letter and does confirm at 0.9 s
  (`SignSchool.WorkedExample`).
- A running timer always has a remembered label (`HandTalk.Valid`). The
  converse fails: after one sighting a label is remembered with no timer.

## Model

| member | source | states |
|---|---|---|
| HandTalk.Handle | SignQuest.swiftpm/HandTalkView.swift:167-197 | A letter is appended exactly when it equals the remembered prediction, a timer is running and 0.8 s have passed. Then the text grows by exactly that letter and both fields are cleared. Nil clears both fields. A different letter is remembered with no timer. A repeat with no timer starts one. A repeat below 0.8 s changes nothing. The text changes only on confirmation. A running timer always has a remembered letter afterwards. |
| Base.ConcatAppend | SignQuest.swiftpm/HandTalkView.swift:185 | Joining two lists of appended signs gives the joined texts of each, so repeated `+=` builds the text in order. |
| HandTalk.Run | SignQuest.swiftpm/HandTalkView.swift:167-197 | Handling a trace appends at most one letter per observation. |
| HandTalk.RunAppendsConfirmed | SignQuest.swiftpm/HandTalkView.swift:185 | After any trace, the text is the old text followed by every confirmed letter, in order. |
| HandTalk.RunKeepsValid | SignQuest.swiftpm/HandTalkView.swift:169-196 | The invariant "timer set implies letter remembered" survives every trace. |
| HandTalk.ThreeObservationsPerLetter | SignQuest.swiftpm/HandTalkView.swift:169-192 | Each confirmation costs three observations: 3 × confirmations + final phase ≤ trace length + initial phase. |
| HandTalk.EdgeTriggered | SignQuest.swiftpm/HandTalkView.swift:185-187 | Right after a confirmation, the next two calls cannot confirm, whatever they see. |
| HandTalk.NoPrematureConfirmation | SignQuest.swiftpm/HandTalkView.swift:170-172 | If every observation falls within 0.8 s of a point no later than the timer's start, nothing is appended. |
| HandTalk.ThirdSightingConfirms | SignQuest.swiftpm/HandTalkView.swift:169-172 | Three sightings of a letter that is not remembered confirm it exactly when the third comes ≥ 0.8 s after the second (both directions). |
| HandTalk.WorkedExample | SignQuest.swiftpm/HandTalkView.swift:12 | Sightings of A at 0, 300 and 900 ms append nothing. With the third at 1100 ms, A is appended. |
| HandTalk.InterruptionResetsHold | SignQuest.swiftpm/HandTalkView.swift:189-192 | The trace L L M L L appends nothing at any timing when L was not remembered. |
| HandTalk.Delete | SignQuest.swiftpm/HandTalkView.swift:135-137 | Delete removes exactly the last character of non-empty text and leaves empty text alone. The debounce fields are kept. |
| HandTalk.Space | SignQuest.swiftpm/HandTalkView.swift:144 | Space appends one " " and keeps the debounce fields. |
| HandTalk.Clear | SignQuest.swiftpm/HandTalkView.swift:151 | Trash empties the text and keeps the debounce fields. |
| HandTalk.Disappear | SignQuest.swiftpm/HandTalkView.swift:160-163 | Leaving the screen forgets both debounce fields and keeps the text. |
| HandTalk.DeleteUndoesAppend | SignQuest.swiftpm/HandTalkView.swift:135-145 | Delete undoes the append of any one character, and so undoes Space. |
| HandTalk.DeleteUndoesConfirmation | SignQuest.swiftpm/HandTalkView.swift:185 | Delete after confirming a one-character letter restores the earlier text. |
| WordPlay.Handle | SignQuest.swiftpm/WordPlayView.swift:176-219 | The call changes nothing during the celebration or once the position reaches the word's end. A letter is accepted exactly when it is the target `currentWord[currentLetterIndex]`, equals the remembered prediction, has a running timer, and 0.8 s have passed. Acceptance moves the position by one and clears both fields. It raises the celebration exactly when the last letter is taken. A non-target or new letter is remembered with no timer. Nil clears both fields. The game invariant is kept. |
| WordPlay.Word | SignQuest.swiftpm/WordPlayView.swift:24-29 | The current word is one of the five level words and has four or five letters. |
| WordPlay.Target | SignQuest.swiftpm/WordPlayView.swift:182 | The target is the single letter at the current position, the first letter of the rest of the word. |
| WordPlay.NextLevel | SignQuest.swiftpm/WordPlayView.swift:222-227 | The level becomes the next one, wrapping from the last to the first, so it stays below 5. The position becomes 0 and both debounce fields are cleared. |
| WordPlay.NextLevelCycles | SignQuest.swiftpm/WordPlayView.swift:223 | Five `nextLevel` calls return to the same level. |
| WordPlay.BalloonsOff | SignQuest.swiftpm/WordPlayView.swift:255-257 | The celebration timer ends the celebration and keeps the level, the position, the remembered prediction and the timer. |
| WordPlay.Disappear | SignQuest.swiftpm/WordPlayView.swift:170-173 | Leaving the screen forgets both debounce fields and keeps progress. |
| WordPlay.LetterColor | SignQuest.swiftpm/WordPlayView.swift:230-238 | A position is drawn done exactly when it is before the current one, current exactly at it, and pending exactly after it. |
| WordPlay.LetterColorCounts | SignQuest.swiftpm/WordPlayView.swift:230-238 | Among the first n positions, min(n, index) are drawn done, and exactly one is current when index < n. |
| WordPlay.LetterColors | SignQuest.swiftpm/WordPlayView.swift:230-238 | Over the whole word, the positions drawn done are as many as the letters signed. One position is current until the word is spelled, and none after. |
| WordPlay.Run | SignQuest.swiftpm/WordPlayView.swift:176-219 | A trace of predictions never changes the level. |
| WordPlay.RunAdvances | SignQuest.swiftpm/WordPlayView.swift:180-192 | The game invariant survives any trace of predictions. The position grows by exactly the number of accepted letters. |
| WordPlay.StepSpells | SignQuest.swiftpm/WordPlayView.swift:182-190 | One call accepts exactly the word's letters between the old and the new position: none, or the target letter. |
| WordPlay.RunConcat | SignQuest.swiftpm/WordPlayView.swift:176-219 | Handling two traces one after the other is the same as handling their concatenation, and the accepted letters add up. |
| WordPlay.RunSpellsWord | SignQuest.swiftpm/WordPlayView.swift:182-192 | The letters accepted along a trace are exactly the word's letters from the starting position, in order. The position advances by one per accepted letter and never passes the word's end. |
| WordPlay.RunCelebratesCompletion | SignQuest.swiftpm/WordPlayView.swift:194-199 | Starting with no celebration, a trace ends in the celebration exactly when it accepted letters and reached the end of the word. |
| WordPlay.ThreeObservationsPerLetter | SignQuest.swiftpm/WordPlayView.swift:185-192 | Each accepted letter costs three observations, so a repeated letter (the two Ps of APPLE) is held again from scratch. |
| WordPlay.IgnoringFreezes | SignQuest.swiftpm/WordPlayView.swift:177-180 | During the celebration, or once the word is spelled, every trace leaves the state unchanged and accepts nothing. |
| WordPlay.HoldAcceptsTarget | SignQuest.swiftpm/WordPlayView.swift:185-192 | From a fresh hold, seeing the target twice and once more 0.8 s later accepts it and advances by one. |
| WordPlay.HoldingEveryLetterCompletesWord | SignQuest.swiftpm/WordPlayView.swift:184-199 | Holding each remaining letter in turn spells the rest of the word and starts the celebration. |
| WordPlay.Apply | SignQuest.swiftpm/WordPlayView.swift:176-227 | Every input keeps the game invariant: valid level, position ≤ word length, timer implies remembered letter. Inputs are a prediction, next level, celebration end, leaving, or a corrected level pick. |
| WordPlay.ReplayKeepsValid | SignQuest.swiftpm/WordPlayView.swift:176-227 | The game invariant holds after any sequence of inputs. |
| WordPlay.SelectLevelAsWritten | SignQuest.swiftpm/WordPlayView.swift:271-273 | The level picker as written changes the level and keeps the position, the remembered prediction, the timer and the celebration flag. |
| WordPlay.SelectLevelAsWrittenStrands | SignQuest.swiftpm/WordPlayView.swift:178-180 | With four letters of APPLE signed, picking LOVE as written leaves position 4 = length with no celebration. Every later trace is then ignored. |
| WordPlay.SelectLevel | SignQuest.swiftpm/WordPlayView.swift:271-273 | The corrected pick starts the chosen word at position 0 with a fresh hold, keeping the invariant. |
| WordPlay.SelectLevelStartsFresh | SignQuest.swiftpm/WordPlayView.swift:271-273 | After a corrected pick, no letter of the new word is drawn done, and holding each letter completes the word. |
| SignSchool.LettersSpellAlphabet | SignQuest.swiftpm/SignSchoolView.swift:32 | The `letters` list is the 24 characters of `ABCDEFGHIKLMNOPQRSTUVWXY` as one-character strings, in order. |
| SignSchool.AlphabetSorted | SignQuest.swiftpm/SignSchoolView.swift:32 | The drill alphabet is strictly increasing. |
| SignSchool.LettersDistinct | SignQuest.swiftpm/SignSchoolView.swift:32 | No letter appears twice in the drill list. |
| SignSchool.IndexFrom | SignQuest.swiftpm/SignSchoolView.swift:426 | The linear search from position k returns a position holding the value with no earlier match from k on. It returns nothing exactly when no position from k on holds the value. |
| SignSchool.FirstIndex | SignQuest.swiftpm/SignSchoolView.swift:426 | `firstIndex(of:)` returns the first position holding the value, or nothing exactly when the value is absent. |
| SignSchool.NextLetter | SignQuest.swiftpm/SignSchoolView.swift:425-430 | A string outside the drill list is left unchanged. The result is a drill letter exactly when the input is one. |
| SignSchool.NextLetterSucceeds | SignQuest.swiftpm/SignSchoolView.swift:427-428 | The drill letter at position i is followed by the one at (i + 1) mod 24, so I is followed by K and Y by A. |
| SignSchool.Next | SignQuest.swiftpm/SignSchoolView.swift:427 | The next index `(i + 1) % count` is always a valid index of the list. |
| SignSchool.ModSucc | SignQuest.swiftpm/SignSchoolView.swift:427 | For an index below the count, `(i + 1) % count` is i + 1, or 0 for the last index. |
| SignSchool.Successor | SignQuest.swiftpm/SignSchoolView.swift:425-430 | A value not in the list is returned unchanged. The result is in the list exactly when the input is. |
| SignSchool.SuccessorAt | SignQuest.swiftpm/SignSchoolView.swift:426-428 | In a list without repeats, the entry at position i is followed by the entry at the next index. |
| SignSchool.SuccessorTimesMoves | SignQuest.swiftpm/SignSchoolView.swift:427-428 | In a list without repeats, k successor steps from position i reach position i + k, wrapped once around the end. |
| SignSchool.SuccessorCycle | SignQuest.swiftpm/SignSchoolView.swift:427-428 | In a list without repeats, the successor map comes back to any entry after exactly as many steps as the list is long, and not before. |
| SignSchool.NextLetterCycle | SignQuest.swiftpm/SignSchoolView.swift:427-428 | Applying `nextLetter` 24 times returns any drill letter to itself. No smaller positive number of steps does. |
| SignSchool.Handle | SignQuest.swiftpm/SignSchoolView.swift:334-359 | During the celebration nothing changes. A letter is confirmed exactly when it is the current letter, a timer is running and 0.8 s have passed. Then the timer is cleared and the celebration starts. Nil or another letter clears the timer. A match with no timer starts one. A match below 0.8 s changes nothing. The current letter never changes. |
| SignSchool.Run | SignQuest.swiftpm/SignSchoolView.swift:334-359 | A trace of predictions never changes the current letter. |
| SignSchool.CelebrationFreezes | SignQuest.swiftpm/SignSchoolView.swift:336 | During the celebration every trace leaves the state unchanged, the timer included. |
| SignSchool.ConfirmsAtMostOnce | SignQuest.swiftpm/SignSchoolView.swift:341-349 | A trace confirms at most once, only the current letter, and only by starting the celebration. |
| SignSchool.SecondSightingConfirms | SignQuest.swiftpm/SignSchoolView.swift:338-341 | With no timer running, two sightings of the current letter confirm it exactly when the second is ≥ 0.8 s after the first (both directions). |
| SignSchool.WorkedExample | SignQuest.swiftpm/SignSchoolView.swift:338-341 | A seen at 0, 300 and 900 ms is confirmed by the third call and not before. |
| SignSchool.NoPrematureConfirmation | SignQuest.swiftpm/SignSchoolView.swift:339-341 | If every observation falls within 0.8 s of a point no later than the timer's start, nothing is confirmed. |
| SignSchool.TransitionAsWritten | SignQuest.swiftpm/SignSchoolView.swift:414 | The letter transition as written moves to the next letter and keeps the timer. |
| SignSchool.TransitionAsWrittenCarriesHold | SignQuest.swiftpm/SignSchoolView.swift:425-430 | A timer started for the old letter survives the transition. One sighting of the new letter 0.8 s after that start confirms it. |
| SignSchool.Transition | SignQuest.swiftpm/SignSchoolView.swift:414 | The corrected transition moves to the next letter with no hold in progress. |
| SignSchool.PickAsWritten | SignQuest.swiftpm/SignSchoolView.swift:298-304 | The grid pick as written sets the picked drill letter and keeps the timer and the celebration flag. |
| SignSchool.PickAsWrittenCarriesHold | SignQuest.swiftpm/SignSchoolView.swift:338-341 | A timer left running by the old letter survives the pick as written. One sighting of the picked letter 0.8 s after that start confirms it. |
| SignSchool.Pick | SignQuest.swiftpm/SignSchoolView.swift:298-304 | The corrected grid pick sets the picked drill letter and clears the timer, unlike lines 298 and 304, which keep it. The celebration flag is kept. |
| SignSchool.FreshLetterNeedsTwoSightings | SignQuest.swiftpm/SignSchoolView.swift:339-341 | After a corrected letter change, the first call never confirms. |
| SignSchool.Apply | SignQuest.swiftpm/SignSchoolView.swift:17 | Every input keeps the current letter in the drill list: a prediction, the celebration end, Next, or a grid pick. |
| SignSchool.ReplayKeepsValid | SignQuest.swiftpm/SignSchoolView.swift:298-304 | The current letter stays in the drill list over any sequence of inputs. |
| SignSchool.InitialValid | SignQuest.swiftpm/SignSchoolView.swift:17 | The drill starts on "A", a drill letter. |
| Tip.DescribesExactlyDrillLetters | SignQuest.swiftpm/TipView.swift:15-40 | The description table's keys are exactly the Sign School drill letters. |
| Tip.KeysAreDrillShaped | SignQuest.swiftpm/TipView.swift:15-40 | Every key is one upper-case letter from A to Y other than J. |
| Tip.DescriptionsAreNotFallback | SignQuest.swiftpm/TipView.swift:15-40 | Every description is longer than the fallback text. |
| Tip.Description | SignQuest.swiftpm/TipView.swift:70 | A key of the table gets its entry, which is longer than the fallback text. Any other string gets the fallback. |
| Tip.FallbackExactlyOffTable | SignQuest.swiftpm/TipView.swift:70 | The lookup gives the table entry for a key, and the fallback exactly when the string is not a key. |
| Tip.FallbackCases | SignQuest.swiftpm/TipView.swift:70 | J, Z, lower-case letters, and strings that are not one character long all get the fallback. |
| Tip.DrillLettersDescribed | SignQuest.swiftpm/SignSchoolView.swift:252 | Every letter Sign School can show has a description, so its guide never shows the fallback. |
| HandModel.AsciiValue | SignQuest.swiftpm/HandModelView.swift:57 | A character has an ASCII value exactly when its code is below 128, and then the value is the code. |
| HandModel.LetterIndex | SignQuest.swiftpm/HandModelView.swift:56-62 | No index exactly for an empty string or a non-ASCII first character. Otherwise the index plus 65 is the first character's code. A first character below A would trap (required against). |
| HandModel.LetterIndexReadsFirstOnly | SignQuest.swiftpm/HandModelView.swift:57 | Only the first character decides the index. |
| HandModel.LetterIndexRoundTrip | SignQuest.swiftpm/HandModelView.swift:61 | An upper-case letter's index is at most 25, at most 24 up to Y, and A plus the index gives the letter back. |
| HandModel.DrillLetterIndex | SignQuest.swiftpm/HandModelView.swift:61 | The drill letter at position i has model index i up to I and i + 1 from K on, because the drill list skips J. |
| HandModel.AlphabetCodes | SignQuest.swiftpm/SignSchoolView.swift:32 | The drill alphabet's character codes are 65 plus the position, skipping J. |
| HandModel.Decimal | SignQuest.swiftpm/HandModelView.swift:74 | The decimal form of an index is a non-empty string of digits with no leading zero. |
| HandModel.DecimalRoundTrip | SignQuest.swiftpm/HandModelView.swift:74 | Reading the decimal form back gives the number. |
| HandModel.NodeName | SignQuest.swiftpm/HandModelView.swift:74 | A node name exists exactly when the letter has an index. It is longer than the prefix, the letter and the separator together. The same function serves creation and update (line 96). |
| HandModel.NodeNameRoundTrip | SignQuest.swiftpm/HandModelView.swift:96 | The node name of a one-character letter parses back to that letter and its index. |
| HandModel.NodeNamesDistinct | SignQuest.swiftpm/HandModelView.swift:74 | Different one-character letters never share a node name. |
| HandModel.NodeNameExamples | SignQuest.swiftpm/HandModelView.swift:74 | A, K and Y name `Finger_Alphabet_A_0`, `Finger_Alphabet_K_10` and `Finger_Alphabet_Y_24`. The empty string names nothing. |

## Left out

- The camera pipeline (`CameraView.swift`) is not modelled: capture, the Vision hand-pose request, the CoreML classifier, the 0.9 confidence filter and the every-30th-frame sampling. Handlers take an arbitrary `Option` of a label, because they never read the confidence.
- `Date()` and `TimeInterval` doubles are replaced by whole milliseconds given by the caller.
- The delayed closures are explicit inputs, not scheduling: the 1.8 s celebration end, the delayed `nextLevel` and `performLetterTransition`, and the 0.3 s AR-mode delays. A grid pick made in AR mode takes effect at once.
- Sound, the `activeLetters` 3D overlays, `Letter3DView`, `BalloonView`, the hand model's rotation and pan gesture, `HomeView`, `SignQuestApp`, `LetterPickerView` and all layout and animation are not modelled. They hold no decision logic.
- Strings are sequences of code points. Swift's `removeLast` and `first` work on grapheme clusters, and `asciiValue` treats "\r\n" as 10. Swift's `==` and dictionary lookup compare strings by canonical equivalence, while the model compares code-point sequences. None of this is modelled. The drill letters and the level words are ASCII, so no modelled behaviour depends on it.
- HandTalk.Delete: removes one code point, not one grapheme cluster, because strings here are code-point sequences.
- WordPlay.Apply: uses the corrected level pick `SelectLevel`. The as-written pick is modelled separately in `SelectLevelAsWritten`.
- SignSchool.Apply: uses the corrected `Transition` and `Pick`, which clear the timer. The as-written versions are modelled separately in `TransitionAsWritten` and `PickAsWritten`.
- SignSchool.Pick: clears `matchStartTime`, which lines 298 and 304 do not. It is the corrected half of a finding, and `PickAsWritten` models the code as written.
- The text editor of Hand Talk is disabled for typing, so the buttons are the only edits modelled.

## Findings

| source | as written | input that shows it | evidently intended | confidence | as-written member | corrected member |
|---|---|---|---|---|---|---|
| SignQuest.swiftpm/WordPlayView.swift:271-273 | The level picker assigns only `currentLevel`. The letter position and the debounce fields are kept. | With four letters of APPLE signed, pick LOVE. The position is 4 = length of LOVE and there is no celebration. The handler's guard then ignores every prediction, and the word shows as spelled without a single sign. | Reset the position and the hold, like `nextLevel`. | medium, not executed | WordPlay.SelectLevelAsWrittenStrands | WordPlay.SelectLevel |
| SignQuest.swiftpm/SignSchoolView.swift:425-430 | Changing `currentLetter` through `nextLetter` keeps `matchStartTime`. | Hold A so the timer starts at 0 ms, then tap Next (line 80), which changes the letter 0.3 s later. A single sighting of B at 800 ms then confirms B. | Clear the timer when the letter changes, so every confirmation needs two sightings of that letter. | medium, not executed | SignSchool.TransitionAsWrittenCarriesHold | SignSchool.Transition |
| SignQuest.swiftpm/SignSchoolView.swift:298-304 | Picking a letter from the grid keeps `matchStartTime`. | Hold A so the timer starts at 0 ms, then pick C from the grid. A single sighting of C at 800 ms confirms C. | Clear the timer when the letter is picked, so every confirmation needs two sightings of that letter. | medium, not executed | SignSchool.PickAsWrittenCarriesHold | SignSchool.Pick |

/** The gesture guide: a fixed description for each drill letter, with a
    fallback text for anything else. */
module Tip {
  import SignSchool

  /** Shown when a letter has no description. */
  const Fallback: string := "Description not available"

  /** `gestureDescriptions`: how to sign each letter. */
  const GestureDescriptions: map<string, string> := map[
      "A" := "Make a fist with your thumb resting against the side of your index finger. The rest of the fingers stay curled down.",
      "B" := "Hold all four fingers straight up, keeping them close together, and tuck your thumb across your palm.",
      "C" := "Curve your hand to form the shape of the letter \"C,\" with fingers and thumb rounded.",
      "D" := "Hold up your index finger while curling your middle, ring, and pinky fingers down. Touch your thumb to the tips of the curled fingers.",
      "E" := "Curl all your fingers down toward your palm and let your thumb rest against the tips of your fingers (making an open \"claw\").",
      "F" := "Touch the tip of your thumb to the tip of your index finger to form a circle, while holding the other three fingers straight up.",
      "G" := "Extend your index finger and thumb horizontally as if you're holding something small. Keep other fingers tucked down.",
      "H" := "Extend both your index and middle fingers horizontally, side by side, while keeping the rest folded down.",
      "I" := "Make a fist and extend just your pinky finger straight up.",
      "K" := "Extend your index and middle fingers upward in a \"V\" shape. Rest your thumb against the base of your middle finger.",
      "L" := "Extend your index finger straight up and your thumb horizontally outward to form an \"L\" shape.",
      "M" := "Curl all your fingers down over your thumb, but let the thumb poke out between the pinky and ring fingers.",
      "N" := "Similar to \"M,\" but let the thumb poke out between the ring and middle fingers.",
      "O" := "Bring the tips of all your fingers and your thumb together to form a round circle, like the letter \"O.\"",
      "P" := "Hold your hand like \"K\" (make a \"V\" with the index and middle fingers), but rotate your hand downward so the fingers point toward the floor.",
      "Q" := "Similar to \"G,\" but tilt your hand downward so that the index finger and thumb point to the floor.",
      "R" := "Cross your index and middle fingers over each other, keeping the other fingers curled down and the thumb tucked in.",
      "S" := "Make a fist with your thumb resting over the curled fingers.",
      "T" := "Make a fist, but stick your thumb under your index finger so that it pokes out between your index and middle fingers.",
      "U" := "Extend your index and middle fingers straight up, close together, with the rest of the fingers curled down.",
      "V" := "Extend your index and middle fingers straight up, separated in the shape of a \"V.\"",
      "W" := "Extend your index, middle, and ring fingers straight up to form the shape of a \"W.\" Keep your thumb and pinky curled down.",
      "X" := "Curl your index finger to form a hook in the shape of an \"X.\" Keep the rest of the fingers curled down.",
      "Y" := "Extend both your pinky and thumb outward while curling the rest of your fingers into a fist. It resembles a \"shaka\" or \"hang loose\" gesture."
    ]

  /** `gestureDescriptions[letter] ?? "Description not available"`. */
  function Description(letter: string): (r: string)
    ensures letter !in GestureDescriptions ==> r == Fallback
    ensures letter in GestureDescriptions ==> r == GestureDescriptions[letter] && |r| > |Fallback|
  {
    if letter in GestureDescriptions then GestureDescriptions[letter] else Fallback
  }

  /** The table's keys, listed. */
  lemma KeySet()
    ensures GestureDescriptions.Keys == {"A", "B", "C", "D", "E", "F", "G", "H", "I", "K", "L", "M",
                                         "N", "O", "P", "Q", "R", "S", "T", "U", "V", "W", "X", "Y"}
  {
  }

  /** The table describes exactly the drill letters of Sign School: A to Y without J. */
  lemma DescribesExactlyDrillLetters()
    ensures forall k :: k in GestureDescriptions <==> k in SignSchool.Letters
  {
    KeySet();
  }

  /** Every key is one upper-case letter between A and Y other than J. */
  lemma KeysAreDrillShaped()
    ensures forall k :: k in GestureDescriptions ==> |k| == 1 && 'A' <= k[0] <= 'Y' && k[0] != 'J'
  {
  }

  /** Every description is longer than the fallback text, so the two never coincide. */
  lemma DescriptionsAreNotFallback()
    ensures forall l :: l in GestureDescriptions ==> |GestureDescriptions[l]| > |Fallback|
  {
  }

  /** The fallback appears exactly for strings that are not table keys. */
  lemma FallbackExactlyOffTable(letter: string)
    ensures Description(letter) == Fallback <==> letter !in GestureDescriptions
    ensures letter in GestureDescriptions ==> Description(letter) == GestureDescriptions[letter]
  {
    DescriptionsAreNotFallback();
  }

  /** J and Z, anything that is not a single character, and lower-case
      letters all get the fallback. */
  lemma FallbackCases(letter: string)
    requires || letter == "J" || letter == "Z" || |letter| != 1
             || (|letter| == 1 && 'a' <= letter[0] <= 'z')
    ensures Description(letter) == Fallback
  {
    KeysAreDrillShaped();
  }

  /** Every letter of the Sign School drill has a description, so the guide
      opened from that screen never shows the fallback. */
  lemma DrillLettersDescribed(i: nat)
    requires i < |SignSchool.Letters|
    ensures Description(SignSchool.Letters[i]) != Fallback
    ensures SignSchool.Letters[i] in GestureDescriptions
  {
    DescribesExactlyDrillLetters();
    FallbackExactlyOffTable(SignSchool.Letters[i]);
  }
}

/** The 3D hand model viewer: a letter names its model node in the bundled
    scene as `Finger_Alphabet_<letter>_<index>`, where the index is the
    letter's ASCII offset from `A`. */
module HandModel {
  import opened Base
  import SignSchool

  /** `Character.asciiValue` for a single code point: its value below 128, else nothing. */
  function AsciiValue(c: char): (r: Option<nat>)
    ensures r.Some? <==> (c as int) < 128
    ensures r.Some? ==> r.value == c as int
  {
    if (c as int) < 128 then Some(c as int) else None
  }

  /** The ASCII value of `A`, the base of every index. */
  const BaseAscii: nat := 65

  /** The unsigned 8-bit subtraction `letterAscii - baseAscii` traps below `A`;
      callers must not reach it with such a letter. */
  predicate NoUnderflow(letter: string) {
    |letter| > 0 && (letter[0] as int) < 128 ==> letter[0] >= 'A'
  }

  /** `letterIndex`: the first character's ASCII offset from `A`, or nothing
      for an empty string or a non-ASCII first character. */
  function LetterIndex(letter: string): (r: Option<nat>)
    requires NoUnderflow(letter)
    ensures r.None? <==> |letter| == 0 || (letter[0] as int) >= 128
    ensures r.Some? ==> r.value < 128 - BaseAscii && r.value + BaseAscii == letter[0] as int
  {
    if |letter| == 0 then None
    else
      match AsciiValue(letter[0])
      case None => None
      case Some(code) => Some(code - BaseAscii)
  }

  /** Only the first character matters. */
  lemma LetterIndexReadsFirstOnly(letter: string, rest: string)
    requires |letter| > 0 && NoUnderflow(letter)
    ensures NoUnderflow([letter[0]] + rest)
    ensures LetterIndex([letter[0]] + rest) == LetterIndex(letter)
  {
  }

  /** The index of an upper-case letter names it back: `A` is 0, `Y` is 24,
      and `'A' + index` is the letter again. */
  lemma LetterIndexRoundTrip(c: char)
    requires 'A' <= c <= 'Z'
    ensures LetterIndex([c]).Some?
    ensures LetterIndex([c]).value <= 25
    ensures (BaseAscii + LetterIndex([c]).value) as char == c
    ensures c <= 'Y' ==> LetterIndex([c]).value <= 24
  {
  }

  /** The model index is the ASCII offset, not the drill position: letters
      after I are one further on, because the drill list skips J. */
  lemma DrillLetterIndex(i: nat)
    requires i < |SignSchool.Letters|
    ensures NoUnderflow(SignSchool.Letters[i])
    ensures LetterIndex(SignSchool.Letters[i]) == Some(if i < 9 then i else i + 1)
  {
    SignSchool.LettersSpellAlphabet();
    var c := SignSchool.Alphabet[i];
    assert SignSchool.Letters[i] == [c];
    assert c as int == BaseAscii + (if i < 9 then i else i + 1) by {
      AlphabetCodes(i);
    }
  }

  /** The drill alphabet's character codes: `A` plus the position, skipping J. */
  lemma AlphabetCodes(i: nat)
    requires i < |SignSchool.Alphabet|
    ensures SignSchool.Alphabet[i] as int == BaseAscii + (if i < 9 then i else i + 1)
  {
  }

  /** The decimal digit for `d`. */
  function Digit(d: nat): char
    requires d < 10
  {
    ('0' as int + d) as char
  }

  predicate IsDigit(c: char) {
    '0' <= c <= '9'
  }

  /** The value of a decimal digit. */
  function DigitValue(c: char): nat
    requires IsDigit(c)
  {
    c as int - '0' as int
  }

  /** Swift's `"\(n)"` for a non-negative integer: its decimal digits, no leading zeros. */
  function Decimal(n: nat): (r: string)
    ensures |r| > 0 && forall i :: 0 <= i < |r| ==> IsDigit(r[i])
    ensures |r| > 1 ==> r[0] != '0'
    decreases n
  {
    if n < 10 then [Digit(n)] else Decimal(n / 10) + [Digit(n % 10)]
  }

  /** Reads a string of decimal digits back as a number. */
  function ParseDecimal(s: string): nat
    requires forall i :: 0 <= i < |s| ==> IsDigit(s[i])
    decreases |s|
  {
    if |s| == 0 then 0
    else ParseDecimal(s[..|s| - 1]) * 10 + DigitValue(s[|s| - 1])
  }

  /** Reading the decimal form of `n` gives `n` back. */
  lemma {:induction false} DecimalRoundTrip(n: nat)
    ensures ParseDecimal(Decimal(n)) == n
    decreases n
  {
    if n >= 10 {
      DecimalRoundTrip(n / 10);
      var d := Decimal(n);
      assert d[..|d| - 1] == Decimal(n / 10);
    }
  }

  /** The prefix of every model node name. */
  const NodePrefix: string := "Finger_Alphabet_"

  /** `"Finger_Alphabet_\(letter)_\(index)"`, used alike when the view is
      made and when it is updated; nothing when the letter has no index. */
  function NodeName(letter: string): (r: Option<string>)
    requires NoUnderflow(letter)
    ensures r.Some? <==> LetterIndex(letter).Some?
    ensures r.Some? ==> |r.value| > |NodePrefix| + |letter| + 1
  {
    match LetterIndex(letter)
    case None => None
    case Some(index) => Some(NodePrefix + letter + "_" + Decimal(index))
  }

  /** Splits a node name made from a one-character letter back into the
      letter and the index. */
  function ParseNodeName(name: string): Option<(string, nat)> {
    var n := |NodePrefix|;
    if |name| >= n + 3 && name[..n] == NodePrefix && name[n + 1] == '_'
       && (forall i :: n + 2 <= i < |name| ==> IsDigit(name[i]))
    then Some(([name[n]], ParseDecimal(name[n + 2..])))
    else None
  }

  /** The node name of a one-character letter determines the letter and its
      index, so different letters never share a model node. */
  lemma NodeNameRoundTrip(letter: string)
    requires |letter| == 1 && NoUnderflow(letter) && LetterIndex(letter).Some?
    ensures ParseNodeName(NodeName(letter).value) == Some((letter, LetterIndex(letter).value))
  {
    var index := LetterIndex(letter).value;
    var name := NodeName(letter).value;
    var n := |NodePrefix|;
    assert name == NodePrefix + letter + "_" + Decimal(index);
    assert name[..n] == NodePrefix;
    assert name[n] == letter[0] && name[n + 1] == '_';
    assert name[n + 2..] == Decimal(index);
    assert [name[n]] == letter;
    DecimalRoundTrip(index);
  }

  /** Different one-character letters have different node names. */
  lemma NodeNamesDistinct(a: string, b: string)
    requires |a| == 1 && |b| == 1 && NoUnderflow(a) && NoUnderflow(b)
    requires LetterIndex(a).Some? && LetterIndex(b).Some? && a != b
    ensures NodeName(a) != NodeName(b)
  {
    NodeNameRoundTrip(a);
    NodeNameRoundTrip(b);
  }

  /** Worked examples: A is model 0, K is model 10 and Y is model 24. */
  lemma NodeNameExamples()
    ensures NodeName("A") == Some("Finger_Alphabet_A_0")
    ensures NodeName("K") == Some("Finger_Alphabet_K_10")
    ensures NodeName("Y") == Some("Finger_Alphabet_Y_24")
    ensures NodeName("") == None
  {
    assert Decimal(0) == "0";
    assert Decimal(10) == Decimal(1) + "0" == "10";
    assert Decimal(24) == Decimal(2) + "4" == "24";
    assert LetterIndex("A") == Some(0) && LetterIndex("K") == Some(10) && LetterIndex("Y") == Some(24);
    assert NodePrefix + "A" + "_" + "0" == "Finger_Alphabet_A_0";
    assert NodePrefix + "K" + "_" + "10" == "Finger_Alphabet_K_10";
    assert NodePrefix + "Y" + "_" + "24" == "Finger_Alphabet_Y_24";
  }
}

/**
 * Concrete tokens and what the codec makes of them. Each `...Text` lemma spells
 * out which parts a literal token is made of; the example beside it then
 * follows from the general lemmas of `Emotes`.
 */
module EmoteExamples {
  import opened Wrappers
  import opened Numerals
  import opened Emotes

  // ---------------------------------------------------------------------------
  // Scaffolding for the examples below: the values of their id numerals,
  // worked out one digit at a time so that the verifier need not evaluate
  // long literals. They state nothing about the codec beyond these numerals.

  lemma SmallIdValues()
    ensures Value("1") == 1 && Value("5") == 5 && Value("123") == 123 && Value("007") == 7
  {
    ValueSnoc("", '1');
    ValueSnoc("", '5');
    ValueSnoc("1", '2');
    assert "1" + ['2'] == "12";
    ValueSnoc("12", '3');
    assert "12" + ['3'] == "123";
    ValueSnoc("", '0');
    ValueSnoc("0", '0');
    assert "0" + ['0'] == "00";
    ValueSnoc("00", '7');
    assert "00" + ['7'] == "007";
  }

  lemma DabIdDigits6Value()
    ensures Value("277855") == 277855
  {
    ValueSnoc("", '2');
    assert "" + ['2'] == "2";
    ValueSnoc("2", '7');
    assert "2" + ['7'] == "27";
    ValueSnoc("27", '7');
    assert "27" + ['7'] == "277";
    ValueSnoc("277", '8');
    assert "277" + ['8'] == "2778";
    ValueSnoc("2778", '5');
    assert "2778" + ['5'] == "27785";
    ValueSnoc("27785", '5');
    assert "27785" + ['5'] == "277855";
  }

  lemma DabIdDigits12Value()
    ensures Value("277855270321") == 277855270321
  {
    DabIdDigits6Value();
    ValueSnoc("277855", '2');
    assert "277855" + ['2'] == "2778552";
    ValueSnoc("2778552", '7');
    assert "2778552" + ['7'] == "27785527";
    ValueSnoc("27785527", '0');
    assert "27785527" + ['0'] == "277855270";
    ValueSnoc("277855270", '3');
    assert "277855270" + ['3'] == "2778552703";
    ValueSnoc("2778552703", '2');
    assert "2778552703" + ['2'] == "27785527032";
    ValueSnoc("27785527032", '1');
    assert "27785527032" + ['1'] == "277855270321";
  }

  lemma DabIdValue()
    ensures Value("277855270321782784") == 277855270321782784
  {
    DabIdDigits12Value();
    ValueSnoc("277855270321", '7');
    assert "277855270321" + ['7'] == "2778552703217";
    ValueSnoc("2778552703217", '8');
    assert "2778552703217" + ['8'] == "27785527032178";
    ValueSnoc("27785527032178", '2');
    assert "27785527032178" + ['2'] == "277855270321782";
    ValueSnoc("277855270321782", '7');
    assert "277855270321782" + ['7'] == "2778552703217827";
    ValueSnoc("2778552703217827", '8');
    assert "2778552703217827" + ['8'] == "27785527032178278";
    ValueSnoc("27785527032178278", '4');
    assert "27785527032178278" + ['4'] == "277855270321782784";
  }

  lemma MaxIdDigits6Value()
    ensures Value("184467") == 184467
  {
    ValueSnoc("", '1');
    assert "" + ['1'] == "1";
    ValueSnoc("1", '8');
    assert "1" + ['8'] == "18";
    ValueSnoc("18", '4');
    assert "18" + ['4'] == "184";
    ValueSnoc("184", '4');
    assert "184" + ['4'] == "1844";
    ValueSnoc("1844", '6');
    assert "1844" + ['6'] == "18446";
    ValueSnoc("18446", '7');
    assert "18446" + ['7'] == "184467";
  }

  lemma MaxIdDigits12Value()
    ensures Value("184467440737") == 184467440737
  {
    MaxIdDigits6Value();
    ValueSnoc("184467", '4');
    assert "184467" + ['4'] == "1844674";
    ValueSnoc("1844674", '4');
    assert "1844674" + ['4'] == "18446744";
    ValueSnoc("18446744", '0');
    assert "18446744" + ['0'] == "184467440";
    ValueSnoc("184467440", '7');
    assert "184467440" + ['7'] == "1844674407";
    ValueSnoc("1844674407", '3');
    assert "1844674407" + ['3'] == "18446744073";
    ValueSnoc("18446744073", '7');
    assert "18446744073" + ['7'] == "184467440737";
  }

  /** 2^64 - 1 without its last digit. */
  lemma MaxIdStemValue()
    ensures Value("1844674407370955161") == 1844674407370955161
  {
    MaxIdDigits12Value();
    ValueSnoc("184467440737", '0');
    assert "184467440737" + ['0'] == "1844674407370";
    ValueSnoc("1844674407370", '9');
    assert "1844674407370" + ['9'] == "18446744073709";
    ValueSnoc("18446744073709", '5');
    assert "18446744073709" + ['5'] == "184467440737095";
    ValueSnoc("184467440737095", '5');
    assert "184467440737095" + ['5'] == "1844674407370955";
    ValueSnoc("1844674407370955", '1');
    assert "1844674407370955" + ['1'] == "18446744073709551";
    ValueSnoc("18446744073709551", '6');
    assert "18446744073709551" + ['6'] == "184467440737095516";
    ValueSnoc("184467440737095516", '1');
    assert "184467440737095516" + ['1'] == "1844674407370955161";
  }

  /** 2^64 - 1 is 18446744073709551615 and 2^64 is 18446744073709551616. */
  lemma IdLimitValues()
    ensures Value("18446744073709551615") == ULONG_LIMIT - 1
    ensures Value("18446744073709551616") == ULONG_LIMIT
  {
    MaxIdStemValue();
    ValueSnoc("1844674407370955161", '5');
    assert "1844674407370955161" + ['5'] == "18446744073709551615";
    ValueSnoc("1844674407370955161", '6');
    assert "1844674407370955161" + ['6'] == "18446744073709551616";
  }

  // ---------------------------------------------------------------------------
  // The examples.

  lemma DabText()
    ensures "<:dab:277855270321782784>" == Token(false, "dab", "277855270321782784")
  {
  }

  lemma DabTokenExample()
    ensures TryParse(Token(false, "dab", "277855270321782784")) == Some(Emote(277855270321782784, "dab", false))
    ensures ToString(Emote(277855270321782784, "dab", false)) == Token(false, "dab", "277855270321782784")
  {
    DabIdValue();
    assert IsULongNumeral("277855270321782784");
    TryParseToken(false, "dab", "277855270321782784");
    ToStringOfParse(false, "dab", "277855270321782784");
  }

  /** The documented example parses to (277855270321782784, "dab", static) and prints back unchanged. */
  lemma DabExample()
    ensures Parse("<:dab:277855270321782784>") == Success(Emote(277855270321782784, "dab", false))
    ensures ToString(Emote(277855270321782784, "dab", false)) == "<:dab:277855270321782784>"
  {
    DabTokenExample();
    DabText();
  }

  lemma WaveTexts()
    ensures "<a:wave:123>" == Token(true, "wave", "123")
    ensures "<:wave:123>" == Token(false, "wave", "123")
  {
  }

  /** An `a` before the first `:` marks an animated emote, whose name starts one character later. */
  lemma AnimatedExample()
    ensures TryParse("<a:wave:123>") == Some(Emote(123, "wave", true))
    ensures TryParse("<:wave:123>") == Some(Emote(123, "wave", false))
  {
    SmallIdValues();
    TryParseToken(true, "wave", "123");
    TryParseToken(false, "wave", "123");
    WaveTexts();
  }

  /** Any other character after the `<` is refused, and `Parse` raises the format error. */
  lemma BadTagExample()
    ensures Parse("<b:x:1>") == Failure(InvalidEmoteFormat)
  {
  }

  /** Texts shorter than four characters are refused before anything else is looked at. */
  lemma ShortTextExample()
    ensures forall t: string :: |t| < 4 ==> TryParse(t).None?
    ensures TryParse("<:>").None? && TryParse("").None?
  {
  }

  lemma BadIdTexts()
    ensures "<:x:>" == Token(false, "x", "")
    ensures "<:x:12a>" == Token(false, "x", "12a")
    ensures "<:x:+1>" == Token(false, "x", "+1")
  {
  }

  /** The id text must be a non-empty run of digits: no letters, no sign. */
  lemma BadIdExamples()
    ensures TryParse("<:x:>").None?
    ensures TryParse("<:x:12a>").None?
    ensures TryParse("<:x:+1>").None?
  {
    assert !IsDigit("12a"[2]);
    assert !IsDigit("+1"[0]);
    TryParseToken(false, "x", "");
    TryParseToken(false, "x", "12a");
    TryParseToken(false, "x", "+1");
    BadIdTexts();
  }

  lemma ColonInNameText()
    ensures "<:a:b:5>" == Token(false, "a:b", "5")
  {
  }

  /** The first `:` after the name start is the separator, so `b:5` is read as the id and refused. */
  lemma ColonInNameExample()
    ensures TryParse("<:a:b:5>").None?
  {
    assert "a:b"[1] == ':';
    ColonInNameRejected(false, "a:b", "5");
    ColonInNameText();
  }

  lemma EmptyNameText()
    ensures "<::5>" == Token(false, "", "5")
  {
  }

  /** The name may be empty. */
  lemma EmptyNameExample()
    ensures TryParse("<::5>") == Some(Emote(5, "", false))
  {
    SmallIdValues();
    TryParseToken(false, "", "5");
    EmptyNameText();
  }

  lemma LeadingZeroTexts()
    ensures "<:x:007>" == Token(false, "x", "007")
    ensures "<:x:7>" == Token(false, "x", "7")
  {
  }

  /** Leading zeros in the id are accepted, and printing drops them. */
  lemma LeadingZeroExample()
    ensures TryParse("<:x:007>") == Some(Emote(7, "x", false))
    ensures ToString(Emote(7, "x", false)) == "<:x:7>"
  {
    SmallIdValues();
    TryParseToken(false, "x", "007");
    assert ULongToString(7) == "7";
    LeadingZeroTexts();
  }

  lemma MaxIdText()
    ensures "<:x:18446744073709551615>" == Token(false, "x", "18446744073709551615")
  {
  }

  lemma OverflowIdText()
    ensures "<:x:18446744073709551616>" == Token(false, "x", "18446744073709551616")
  {
  }

  lemma MaxIdTokenExample()
    ensures TryParse(Token(false, "x", "18446744073709551615")) == Some(Emote(ULONG_LIMIT - 1, "x", false))
  {
    IdLimitValues();
    assert IsULongNumeral("18446744073709551615");
    TryParseToken(false, "x", "18446744073709551615");
  }

  lemma OverflowIdTokenExample()
    ensures TryParse(Token(false, "x", "18446744073709551616")).None?
  {
    IdLimitValues();
    assert !IsULongNumeral("18446744073709551616");
    TryParseToken(false, "x", "18446744073709551616");
  }

  /** The largest id, 2^64 - 1, is accepted; one more overflows and is refused. */
  lemma IdRangeExample()
    ensures TryParse("<:x:18446744073709551615>") == Some(Emote(ULONG_LIMIT - 1, "x", false))
    ensures TryParse("<:x:18446744073709551616>").None?
  {
    MaxIdTokenExample();
    OverflowIdTokenExample();
    MaxIdText();
    OverflowIdText();
  }

  lemma AnimatedFlagTexts()
    ensures "<a:x:1>" == Token(true, "x", "1")
    ensures "<:x:1>" == Token(false, "x", "1")
  {
  }

  /** `<a:x:1>` and `<:x:1>` denote emotes that are `Equals` but print differently. */
  lemma AnimatedFlagExample()
    ensures var a, b := Parse("<a:x:1>"), Parse("<:x:1>");
      a.Success? && b.Success? && Equals(a.value, EmoteObject(b.value))
      && ToString(a.value) != ToString(b.value)
  {
    SmallIdValues();
    TryParseToken(true, "x", "1");
    TryParseToken(false, "x", "1");
    AnimatedIgnoredByEqualsNotByToString(Emote(1, "x", true));
    AnimatedFlagTexts();
  }
}

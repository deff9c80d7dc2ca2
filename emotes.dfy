/**
 * The custom emote of the chat SDK: an immutable (id, name, animated) value,
 * its bracketed text token `<:name:id>` / `<a:name:id>`, the parser that reads
 * such a token and the printer that writes it.
 */
module Emotes {
  import opened Wrappers
  import opened Numerals

  /** A custom image-based emote; set once by its constructor, never updated. */
  datatype Emote = Emote(id: ULong, name: string, animated: bool)

  /** The exception `Parse` raises: an `ArgumentException` with message and parameter name. */
  datatype ArgumentError = ArgumentError(message: string, paramName: string)

  const InvalidEmoteFormat: ArgumentError := ArgumentError("Invalid emote format.", "text")

  // ---------------------------------------------------------------------------
  // The token grammar, stated independently of the parser.

  /** The token `<` [`a`] `:` name `:` digits `>`. */
  function Token(animated: bool, name: string, digits: string): string {
    "<" + (if animated then "a" else "") + ":" + name + ":" + digits + ">"
  }

  /** Where the name starts inside a token. */
  function NameStart(animated: bool): nat {
    if animated then 3 else 2
  }

  /**
   * `text` is a token of `e`: the name holds no `:`, and the id is written as a
   * numeral `ulong.TryParse` accepts (leading zeros allowed).
   */
  ghost predicate Denotes(text: string, e: Emote) {
    exists digits :: IsULongNumeral(digits) && Value(digits) == e.id
      && ':' !in e.name && text == Token(e.animated, e.name, digits)
  }

  /** Where each part of a token sits. */
  lemma TokenLayout(animated: bool, name: string, digits: string)
    ensures var t, s := Token(animated, name, digits), NameStart(animated);
      && |t| == s + |name| + |digits| + 2
      && t[0] == '<' && t[1] == (if animated then 'a' else ':') && t[s - 1] == ':'
      && t[s..s + |name|] == name && t[s + |name|] == ':'
      && t[s + |name| + 1..|t| - 1] == digits && t[|t| - 1] == '>'
  {
  }

  // ---------------------------------------------------------------------------
  // The .NET string members the parser relies on.

  /** `s.IndexOf(c, start)`: the first index at or after `start` holding `c`, or -1. */
  function IndexOf(s: string, c: char, start: nat): (r: int)
    requires start <= |s|
    ensures r == -1 <==> c !in s[start..]
    ensures r != -1 ==> start <= r < |s| && s[r] == c && c !in s[start..r]
    decreases |s| - start
  {
    if start == |s| then -1
    else if s[start] == c then start
    else
      var r := IndexOf(s, c, start + 1);
      assert s[start..] == [s[start]] + s[start + 1..];
      assert r != -1 ==> s[start..r] == [s[start]] + s[start + 1..r];
      r
  }

  /** `s.Substring(startIndex, length)`; .NET throws when the range leaves `s`, which the parser never lets happen. */
  function Substring(s: string, startIndex: nat, length: nat): string
    requires startIndex + length <= |s|
  {
    s[startIndex..startIndex + length]
  }

  // ---------------------------------------------------------------------------
  // Emote.TryParse, Emote.Parse, Emote.ToString

  /** `Emote.TryParse(text, out result)`: the emote on success, `None` (and `false`) otherwise. */
  function TryParse(text: string): Option<Emote> {
    if |text| >= 4 && text[0] == '<' && (text[1] == ':' || (text[1] == 'a' && text[2] == ':'))
       && text[|text| - 1] == '>'
    then
      var animated := text[1] == 'a';
      var startIndex := if animated then 3 else 2;
      var splitIndex := IndexOf(text, ':', startIndex);
      if splitIndex == -1 then None
      else
        match TryParseULong(Substring(text, splitIndex + 1, |text| - splitIndex - 2))
        case None => None
        case Some(id) =>
          var name := Substring(text, startIndex, splitIndex - startIndex);
          Some(Emote(id, name, animated))
    else None
  }

  /** `Emote.ToString()`: `<a:name:id>` when animated, `<:name:id>` otherwise. */
  function ToString(e: Emote): string {
    Token(e.animated, e.name, ULongToString(e.id))
  }

  /** A string with the fixed characters of a token in place is the token of its name and id parts. */
  lemma TokenOfParts(text: string, animated: bool, split: nat)
    requires NameStart(animated) <= split < |text| - 1
    requires text[0] == '<' && text[1] == (if animated then 'a' else ':') && text[NameStart(animated) - 1] == ':'
    requires text[split] == ':' && text[|text| - 1] == '>'
    ensures text == Token(animated, text[NameStart(animated)..split], text[split + 1..|text| - 1])
  {
    var s := NameStart(animated);
    var name, digits := text[s..split], text[split + 1..|text| - 1];
    assert text[..s] == "<" + (if animated then "a" else "") + ":";
    assert text == text[..s] + name + ":" + digits + ">";
  }

  /** Whatever `TryParse` accepts is a token of the emote it returns. */
  lemma TryParseSound(text: string)
    ensures TryParse(text).Some? ==> Denotes(text, TryParse(text).value)
  {
    if TryParse(text).Some? {
      var e := TryParse(text).value;
      var split := IndexOf(text, ':', NameStart(e.animated));
      var digits := text[split + 1..|text| - 1];
      assert TryParseULong(digits) == Some(e.id);
      TokenOfParts(text, e.animated, split);
    }
  }

  /** In a token with a `:`-free name, the first `:` after the name start is the one that ends the name. */
  lemma FirstColonOfToken(animated: bool, name: string, digits: string)
    requires ':' !in name
    ensures IndexOf(Token(animated, name, digits), ':', NameStart(animated)) == NameStart(animated) + |name|
  {
    var t, s := Token(animated, name, digits), NameStart(animated);
    TokenLayout(animated, name, digits);
    assert t[s..][|name|] == ':';
  }

  /** Every token of an emote parses, and to exactly that emote. */
  lemma TryParseComplete(text: string, e: Emote)
    requires Denotes(text, e)
    ensures TryParse(text) == Some(e)
  {
    var digits :| IsULongNumeral(digits) && Value(digits) == e.id
      && ':' !in e.name && text == Token(e.animated, e.name, digits);
    TokenLayout(e.animated, e.name, digits);
    FirstColonOfToken(e.animated, e.name, digits);
    var s := NameStart(e.animated);
    var split := s + |e.name|;
    assert Substring(text, split + 1, |text| - split - 2) == digits;
    assert Substring(text, s, split - s) == e.name;
  }

  /** `TryParse` fails exactly on the strings that are no emote's token. */
  lemma TryParseRejectsOnlyNonTokens(text: string)
    ensures TryParse(text).None? <==> forall e :: !Denotes(text, e)
  {
    TryParseSound(text);
    forall e | Denotes(text, e) ensures TryParse(text).Some? {
      TryParseComplete(text, e);
    }
  }

  /** The grammar is unambiguous: a string is a token of at most one emote. */
  lemma TokenDeterminesEmote(text: string, e1: Emote, e2: Emote)
    requires Denotes(text, e1) && Denotes(text, e2)
    ensures e1 == e2
  {
    TryParseComplete(text, e1);
    TryParseComplete(text, e2);
  }

  /** Tokens whose names hold no `:` are equal only when their parts are. */
  lemma TokenInjective(a1: bool, n1: string, d1: string, a2: bool, n2: string, d2: string)
    requires ':' !in n1 && ':' !in n2
    requires Token(a1, n1, d1) == Token(a2, n2, d2)
    ensures a1 == a2 && n1 == n2 && d1 == d2
  {
    TokenLayout(a1, n1, d1);
    TokenLayout(a2, n2, d2);
    TokenDigitsInjective(a1, n1, d1, d2);
  }

  /**
   * What `TryParse` makes of any token with a `:`-free name: the emote when the
   * id text is a numeral that fits in 64 bits (`<:x:>`, `<:x:12a>` and ids above
   * 2^64 - 1 fail); the name may be empty.
   */
  lemma TryParseToken(animated: bool, name: string, digits: string)
    requires ':' !in name
    ensures TryParse(Token(animated, name, digits))
      == if IsULongNumeral(digits) then Some(Emote(Value(digits), name, animated)) else None
  {
    var text := Token(animated, name, digits);
    if IsULongNumeral(digits) {
      TryParseComplete(text, Emote(Value(digits), name, animated));
    } else {
      TryParseSound(text);
      if TryParse(text).Some? {
        var e := TryParse(text).value;
        var d :| IsULongNumeral(d) && Value(d) == e.id && ':' !in e.name && text == Token(e.animated, e.name, d);
        TokenInjective(animated, name, digits, e.animated, e.name, d);
      }
    }
  }

  /** A token whose name holds a `:` is rejected outright, never read with a shorter name. */
  lemma ColonInNameRejected(animated: bool, name: string, digits: string)
    requires ':' in name
    ensures TryParse(Token(animated, name, digits)).None?
  {
    var text := Token(animated, name, digits);
    TryParseSound(text);
    if TryParse(text).Some? {
      var e := TryParse(text).value;
      var d :| IsULongNumeral(d) && Value(d) == e.id && ':' !in e.name && text == Token(e.animated, e.name, d);
      TokenLayout(animated, name, digits);
      TokenLayout(e.animated, e.name, d);
    }
  }

  /**
   * Shape of every accepted text: at least five characters (`<::0>`), framed by
   * `<` and `>`, `:` or `a:` after the `<`, animated exactly when the second
   * character is `a`, and a `:`-free name read from index 3 (animated) or 2.
   */
  lemma ParsedTokenShape(text: string)
    requires TryParse(text).Some?
    ensures var e, s := TryParse(text).value, NameStart(TryParse(text).value.animated);
      && |text| >= 5 && text[0] == '<' && text[|text| - 1] == '>'
      && (text[1] == ':' || (text[1] == 'a' && text[2] == ':'))
      && (e.animated <==> text[1] == 'a')
      && s + |e.name| < |text| && text[s..s + |e.name|] == e.name && ':' !in e.name
  {
    TryParseSound(text);
    var e := TryParse(text).value;
    var d :| IsULongNumeral(d) && Value(d) == e.id && ':' !in e.name && text == Token(e.animated, e.name, d);
    TokenLayout(e.animated, e.name, d);
  }

  /** `Emote.Parse(text)`: the `TryParse` result, or an `ArgumentException` on invalid format. */
  function Parse(text: string): (r: Result<Emote, ArgumentError>)
    ensures r.Success? ==> TryParse(text) == Some(r.value) && Denotes(text, r.value)
    ensures r.Failure? ==>
      r.error == InvalidEmoteFormat && TryParse(text).None? && forall e :: !Denotes(text, e)
  {
    TryParseSound(text);
    TryParseRejectsOnlyNonTokens(text);
    match TryParse(text)
    case Some(e) => Success(e)
    case None => Failure(InvalidEmoteFormat)
  }

  /**
   * Round trip: printing an emote and parsing the text gives the emote back
   * exactly when its name holds no `:`.
   */
  lemma ParseToString(e: Emote)
    ensures TryParse(ToString(e)) == Some(e) <==> ':' !in e.name
  {
    if ':' in e.name {
      ColonInNameRejected(e.animated, e.name, ULongToString(e.id));
    } else {
      ParsePrintedULong(e.id);
      TryParseComplete(ToString(e), e);
    }
  }

  /** Tokens are equal when their parts are; the id digits are what remains once animated flag and name agree. */
  lemma TokenDigitsInjective(animated: bool, name: string, d1: string, d2: string)
    requires Token(animated, name, d1) == Token(animated, name, d2)
    ensures d1 == d2
  {
    TokenLayout(animated, name, d1);
    TokenLayout(animated, name, d2);
  }

  /**
   * Print after parse: a parsed token prints back unchanged exactly when its id
   * digits carry no superfluous leading zero (`<:x:01>` prints as `<:x:1>`).
   */
  lemma ToStringOfParse(animated: bool, name: string, digits: string)
    requires TryParse(Token(animated, name, digits)).Some?
    ensures ToString(TryParse(Token(animated, name, digits)).value) == Token(animated, name, digits)
      <==> IsCanonical(digits)
  {
    if ':' in name {
      ColonInNameRejected(animated, name, digits);
    }
    TryParseToken(animated, name, digits);
    var e := Emote(Value(digits), name, animated);
    if IsCanonical(digits) {
      ULongToStringOfValue(digits);
    } else if ToString(e) == Token(animated, name, digits) {
      TokenDigitsInjective(animated, name, digits, ULongToString(e.id));
    }
  }

  /**
   * Print after parse, for any accepted text: printing the parsed emote gives
   * the text back exactly when the text writes the id without superfluous
   * leading zeros.
   */
  lemma PrintAfterParse(text: string)
    requires TryParse(text).Some?
    ensures var e := TryParse(text).value;
      ToString(e) == text <==> exists d :: IsCanonical(d) && text == Token(e.animated, e.name, d)
  {
    var e := TryParse(text).value;
    TryParseSound(text);
    var d0 :| IsULongNumeral(d0) && Value(d0) == e.id && ':' !in e.name && text == Token(e.animated, e.name, d0);
    ToStringOfParse(e.animated, e.name, d0);
    forall d | IsCanonical(d) && text == Token(e.animated, e.name, d) ensures ToString(e) == text {
      TokenDigitsInjective(e.animated, e.name, d, d0);
    }
  }

  // ---------------------------------------------------------------------------
  // Emote.Equals and Emote.GetHashCode

  /** What `Equals(object other)` can be handed: null, an emote, or an object of another type. */
  datatype Object = Null | EmoteObject(emote: Emote) | OtherObject

  /**
   * `Emote.Equals(object other)`: false for null and for non-emotes, otherwise
   * equal names and ids; the animated flag is ignored. The `other == this`
   * shortcut agrees with this, since an object has its own name and id.
   */
  function Equals(self: Emote, other: Object): bool {
    match other
    case Null => false
    case OtherObject => false
    case EmoteObject(o) => self.name == o.name && self.id == o.id
  }

  /** `Equals` relates emotes by name and id only, and is an equivalence on emotes. */
  lemma EqualsIsNameAndId(a: Emote, b: Emote, c: Emote)
    ensures Equals(a, EmoteObject(b)) <==> a.name == b.name && a.id == b.id
    ensures Equals(a, EmoteObject(a))
    ensures Equals(a, EmoteObject(b)) ==> Equals(b, EmoteObject(a))
    ensures Equals(a, EmoteObject(b)) && Equals(b, EmoteObject(c)) ==> Equals(a, EmoteObject(c))
    ensures !Equals(a, Null) && !Equals(a, OtherObject)
  {
  }

  /** The asymmetry of the flag: flipping `animated` keeps the emote equal yet changes its text. */
  lemma AnimatedIgnoredByEqualsNotByToString(e: Emote)
    ensures var f := e.(animated := !e.animated);
      Equals(e, EmoteObject(f)) && ToString(e) != ToString(f)
  {
    var f := e.(animated := !e.animated);
    TokenLayout(e.animated, e.name, ULongToString(e.id));
    TokenLayout(f.animated, f.name, ULongToString(f.id));
    assert ToString(e)[1] != ToString(f)[1];
  }

  /** `ulong.GetHashCode()`: the low 32 bits xor the high 32 bits. */
  function ULongHashCode(id: ULong): bv32 {
    (id % 0x1_0000_0000) as bv32 ^ (id / 0x1_0000_0000) as bv32
  }

  /**
   * `Emote.GetHashCode()` in unchecked 32-bit arithmetic; `stringHash` stands
   * for the runtime's per-process randomised `string.GetHashCode`.
   */
  function HashCode(e: Emote, stringHash: string -> bv32): bv32 {
    CombineHash(stringHash(e.name), ULongHashCode(e.id))
  }

  /** `(nameHash * 397) ^ idHash`, wrapping as `unchecked` int arithmetic does. */
  function CombineHash(nameHash: bv32, idHash: bv32): bv32 {
    (nameHash * 397) ^ idHash
  }

  /** Emotes that are `Equals` have the same hash code, whatever the string hash. */
  lemma EqualEmotesHashEqually(a: Emote, b: Emote, stringHash: string -> bv32)
    requires Equals(a, EmoteObject(b))
    ensures HashCode(a, stringHash) == HashCode(b, stringHash)
  {
    assert stringHash(a.name) == stringHash(b.name) && ULongHashCode(a.id) == ULongHashCode(b.id);
  }
}

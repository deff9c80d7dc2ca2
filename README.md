# Emote token codec

A model of the custom emote of the Discord.Net SDK. An emote is an immutable
value of three fields: a 64-bit unsigned `Id`, a display `Name` and an
`Animated` flag. It travels in message text as the bracketed token
`<:name:id>`, or `<a:name:id>` when it is animated. The model covers the parts
of `Emote` that do real work:

- `TryParse` reads a token and yields the emote or failure.
- `Parse` wraps it and raises an `ArgumentException` on failure.
- `ToString` writes the token back.
- `Equals` and `GetHashCode` compare by name and id only.

Everything is pure, so it is modelled with datatypes, functions and lemmas:

- `wrappers.dfy`: `Option` stands for the `out Emote result` / `bool` pair.
  `Result` stands for a value or a thrown exception.
- `numerals.dfy`: the two .NET number conversions the codec uses.
  - `ulong.TryParse(s, NumberStyles.None, CultureInfo.InvariantCulture, ...)` becomes
    `TryParseULong`. It folds in ASCII digits from the left and fails on the
    first non-digit or once the value leaves 64 bits.
  - `ulong.ToString()` becomes `ULongToString`, the shortest decimal numeral.
  - The spec side is `Value`, the number a digit string denotes, and
    `IsULongNumeral`, the set of strings the parser accepts.
- `emotes.dfy`: the `Emote` datatype, `TryParse`, `Parse`, `ToString`, `Equals`
  and `HashCode`. The token grammar is stated independently of the parser as
  `Denotes(text, e)`: `text` is `Token(animated, name, digits)`, the name holds
  no `:`, and `digits` is a numeral `ulong.TryParse` accepts whose value is the
  id. The parser is proved sound and complete for this grammar. Round trips in
  both directions follow from that.
- `emote_examples.dfy`: concrete tokens. These include the documented
  `<:dab:277855270321782784>`, `<a:wave:123>`, `<b:x:1>`, `<:x:>`, `<:x:12a>`,
  `<:a:b:5>`, `<::5>`, `<:x:007>`, and the ids 2^64 - 1 and 2^64.

Two behaviours of the code are worth noting:

- The name may be empty: `<::5>` parses to name `""` (`EmoteExamples.EmptyNameExample`).
- `Parse` throws `ArgumentException("Invalid emote format.", "text")`. The
  model returns this as `Failure(InvalidEmoteFormat)`.

## Model

| member | source | states |
|---|---|---|
| `Numerals.TryParseULong` | src/Discord.Net.Core/Entities/Emotes/Emote.cs:68 | `ulong.TryParse` with `NumberStyles.None` succeeds exactly on non-empty all-ASCII-digit strings whose value is below 2^64, and then returns that value; leading zeros are allowed, empty text, signs and other characters fail |
| `Numerals.Accumulate` | src/Discord.Net.Core/Entities/Emotes/Emote.cs:68 | the left-to-right digit fold with its per-step overflow check yields exactly the value of the whole string when every character is a digit and the value fits in 64 bits, and fails otherwise |
| `Numerals.PrefixValueBound` | src/Discord.Net.Core/Entities/Emotes/Emote.cs:68 | a prefix of a numeral never denotes more than the numeral, so stopping at the first overflowing prefix rejects exactly the numerals above 2^64 - 1 |
| `Numerals.ULongToString` | src/Discord.Net.Core/Entities/Emotes/Emote.cs:80 | the printed id is a non-empty run of digits with no superfluous leading zero, so a numeral of two or more digits starting with `0` is never printed |
| `Numerals.ValueOfULongToString` | src/Discord.Net.Core/Entities/Emotes/Emote.cs:80 | the printed id denotes the id |
| `Numerals.ParsePrintedULong` | src/Discord.Net.Core/Entities/Emotes/Emote.cs:80 | every 64-bit id prints as text that `ulong.TryParse` reads back as the same id |
| `Numerals.ULongToStringOfValue` | src/Discord.Net.Core/Entities/Emotes/Emote.cs:80 | a numeral without leading zeros is exactly what printing its value produces |
| `Emotes.Substring` | src/Discord.Net.Core/Entities/Emotes/Emote.cs:68-71 | `Substring(startIndex, length)` is the `length` characters from `startIndex`; its requires is the range .NET checks, and `TryParse` always meets it |
| `Emotes.TryParse` | src/Discord.Net.Core/Entities/Emotes/Emote.cs:56-77 | `Emote.TryParse`, guard by guard; no contract of its own: `TryParseSound` and `TryParseComplete` prove it accepts exactly the texts that are an emote's token under the grammar `Denotes`, and returns that emote |
| `Emotes.ToString` | src/Discord.Net.Core/Entities/Emotes/Emote.cs:80 | `Emote.ToString`, the token of the flag, name and printed id; no contract of its own: `ParseToString`, `ToStringOfParse` and `PrintAfterParse` relate it to `TryParse` |
| `Emotes.Equals` | src/Discord.Net.Core/Entities/Emotes/Emote.cs:27-36 | `Emote.Equals(object)`; no contract of its own: `EqualsIsNameAndId` states what it compares and that it is an equivalence |
| `Emotes.HashCode` | src/Discord.Net.Core/Entities/Emotes/Emote.cs:38-44 | `Emote.GetHashCode`, with the string hash as a parameter; no contract of its own: `EqualEmotesHashEqually` proves it agrees with `Equals` |
| `Emotes.CombineHash` | src/Discord.Net.Core/Entities/Emotes/Emote.cs:42 | `(nameHash * 397) ^ idHash` in wrapping 32-bit arithmetic; no contract of its own, used by `HashCode` |
| `Emotes.ULongHashCode` | src/Discord.Net.Core/Entities/Emotes/Emote.cs:42 | `Id.GetHashCode()`: the low 32 bits xor the high 32 bits; no contract of its own, used by `HashCode` |
| `Emotes.IndexOf` | src/Discord.Net.Core/Entities/Emotes/Emote.cs:64 | `IndexOf(':', startIndex)` is -1 exactly when no `:` lies at or after the start, and otherwise the first such position |
| `Emotes.TryParseSound` | src/Discord.Net.Core/Entities/Emotes/Emote.cs:56-73 | whatever `TryParse` accepts is the token `<[a]:name:digits>` of the emote it returns: a `:`-free name and an id numeral of that value |
| `Emotes.TryParseComplete` | src/Discord.Net.Core/Entities/Emotes/Emote.cs:56-73 | every token of an emote is accepted and yields exactly that emote (id, name and animated flag) |
| `Emotes.TryParseRejectsOnlyNonTokens` | src/Discord.Net.Core/Entities/Emotes/Emote.cs:58-75 | `TryParse` fails (result null) exactly on the texts that are no emote's token |
| `Emotes.TokenDeterminesEmote` | src/Discord.Net.Core/Entities/Emotes/Emote.cs:56-73 | the token grammar is unambiguous: a text is the token of at most one emote |
| `Emotes.TryParseToken` | src/Discord.Net.Core/Entities/Emotes/Emote.cs:64-72 | for a `:`-free name, a token parses to (value of the digits, name, flag) when the id text is a non-empty digit run below 2^64 and fails otherwise; the name may be empty |
| `Emotes.ColonInNameRejected` | src/Discord.Net.Core/Entities/Emotes/Emote.cs:64-69 | a token whose name holds `:` is rejected, never misread with a shorter name: the first `:` becomes the separator and the rest fails as an id |
| `Emotes.ParsedTokenShape` | src/Discord.Net.Core/Entities/Emotes/Emote.cs:59-71 | every accepted text is at least 5 long, starts with `<`, ends with `>`, has `:` or `a:` after the `<`, is animated exactly when its second character is `a`, and its name is the `:`-free text from index 3 (animated) or 2 |
| `Emotes.Parse` | src/Discord.Net.Core/Entities/Emotes/Emote.cs:49-54 | on success the `TryParse` value, a token of the text; otherwise the `Invalid emote format.` argument error for parameter `text`, and the text is no emote's token |
| `Emotes.ParseToString` | src/Discord.Net.Core/Entities/Emotes/Emote.cs:56-80 | parsing the printed emote gives back the same id, name and flag exactly when the name holds no `:` |
| `Emotes.ToStringOfParse` | src/Discord.Net.Core/Entities/Emotes/Emote.cs:47-80 | a parsed token prints back unchanged exactly when its id digits have no superfluous leading zero |
| `Emotes.PrintAfterParse` | src/Discord.Net.Core/Entities/Emotes/Emote.cs:47-80 | for any accepted text, printing the parsed emote gives the text back exactly when the text writes the id without superfluous leading zeros |
| `Emotes.EqualsIsNameAndId` | src/Discord.Net.Core/Entities/Emotes/Emote.cs:27-36 | `Equals` is false for null and non-emotes and otherwise holds exactly when names and ids match; it is reflexive, symmetric and transitive |
| `Emotes.AnimatedIgnoredByEqualsNotByToString` | src/Discord.Net.Core/Entities/Emotes/Emote.cs:27-80 | flipping the animated flag keeps the emote `Equals` to the original, yet its printed token differs |
| `Emotes.EqualEmotesHashEqually` | src/Discord.Net.Core/Entities/Emotes/Emote.cs:38-44 | emotes that are `Equals` have equal hash codes, whatever the string hash |
| `EmoteExamples.DabExample` | src/Discord.Net.Core/Entities/Emotes/Emote.cs:47 | `<:dab:277855270321782784>` parses to id 277855270321782784, name `dab`, static, and prints back unchanged |
| `EmoteExamples.AnimatedExample` | src/Discord.Net.Core/Entities/Emotes/Emote.cs:59-62 | `<a:wave:123>` is animated with name `wave`; `<:wave:123>` is the static emote of the same name and id |
| `EmoteExamples.BadTagExample` | src/Discord.Net.Core/Entities/Emotes/Emote.cs:51-59 | `Parse("<b:x:1>")` raises the invalid-format error |
| `EmoteExamples.ShortTextExample` | src/Discord.Net.Core/Entities/Emotes/Emote.cs:59 | every text shorter than four characters fails, `""` and `<:>` among them |
| `EmoteExamples.BadIdExamples` | src/Discord.Net.Core/Entities/Emotes/Emote.cs:68-69 | `<:x:>`, `<:x:12a>` and `<:x:+1>` fail |
| `EmoteExamples.ColonInNameExample` | src/Discord.Net.Core/Entities/Emotes/Emote.cs:64-69 | `<:a:b:5>` fails |
| `EmoteExamples.EmptyNameExample` | src/Discord.Net.Core/Entities/Emotes/Emote.cs:71 | `<::5>` parses with an empty name |
| `EmoteExamples.LeadingZeroExample` | src/Discord.Net.Core/Entities/Emotes/Emote.cs:68 | `<:x:007>` parses to id 7, which prints as `<:x:7>` |
| `EmoteExamples.IdRangeExample` | src/Discord.Net.Core/Entities/Emotes/Emote.cs:68-69 | the id 18446744073709551615 is accepted and 18446744073709551616 overflows and fails |
| `EmoteExamples.AnimatedFlagExample` | src/Discord.Net.Core/Entities/Emotes/Emote.cs:35 | `<a:x:1>` and `<:x:1>` parse to emotes that are `Equals` but print differently |

## Left out

- `CreatedAt` (`SnowflakeUtils.FromSnowflake`) and `Url` (`CDN.GetEmojiUrl`) are calls into code that is not part of this model.
- `GetHashCode`: the runtime's `string.GetHashCode` is randomised per process. It is a parameter (`stringHash`) of `HashCode`. `ulong.GetHashCode` is modelled as the runtime defines it: the low 32 bits xor the high 32 bits.
- The `other == this` reference shortcut in `Equals` is not modelled separately. Emotes are values, and an object always has its own name and id, so the shortcut gives the same answer as the field comparison.
- A `null` text, which makes the source throw `NullReferenceException`, is outside the model. The input is always a sequence of characters.
- Strings are sequences of Unicode scalar values. In the source, indices count UTF-16 code units, so texts holding surrogate pairs or lone surrogates are not represented faithfully.
- `Numerals.TryParseULong` accepts ASCII digits only. The .NET parser also ignores trailing NUL (`'\0'`) characters after the digits. That tolerance and any other `NumberStyles`/`CultureInfo` behaviour are not modelled.
- `DebuggerDisplay` is only a debugger aid.
- `GuildUserProperties.cs` is a bag of optional properties with no behaviour and is not part of this model.

/**
 The two pieces of the C library that the client's parsing rests on: `strtok` with a single space as
 delimiter, working in place, and `strtol` in base 10 on a 64-bit `long`.
 */
module CString {
  import opened Bank

  const TWO_TO_THE_63 := 0x8000_0000_0000_0000
  const TWO_TO_THE_64 := 0x1_0000_0000_0000_0000

  /** The text of a C string: bytes, none of them zero. */
  predicate IsCString(text: string) {
    forall k :: 0 <= k < |text| ==> 0 < text[k] as int < 256
  }

  // ----- Tokens -----

  function SkipSpaces(s: string): string {
    if s != "" && s[0] == ' ' then SkipSpaces(s[1..]) else s
  }

  /** The part of `s` before its first space. */
  function Word(s: string): (word: string)
    ensures |word| <= |s|
  {
    if s == "" || s[0] == ' ' then "" else [s[0]] + Word(s[1..])
  }

  /** The part of `s` behind its first word and the space that ends it. */
  function AfterWord(s: string): (rest: string)
    ensures s != "" ==> |rest| < |s|
  {
    var n := |Word(s)|;
    if n == |s| then "" else s[n + 1..]
  }

  /** The words of `s`, in order. */
  function Tokens(s: string): seq<string>
    decreases |s|
  {
    if s == "" then []
    else if s[0] == ' ' then Tokens(s[1..])
    else [Word(s)] + Tokens(AfterWord(s))
  }

  lemma {:induction false} WordIsWord(s: string)
    ensures ' ' !in Word(s)
    ensures Word(s) == s[..|Word(s)|]
    ensures |Word(s)| < |s| ==> s[|Word(s)|] == ' '
    ensures |Word(s)| == |s| <==> ' ' !in s
  {
    if s != "" && s[0] != ' ' {
      WordIsWord(s[1..]);
      assert s == [s[0]] + s[1..];
    }
  }

  lemma {:induction false} TokensSkip(s: string)
    ensures SkipSpaces(s) == "" || SkipSpaces(s)[0] != ' '
    ensures |SkipSpaces(s)| <= |s|
    ensures Tokens(s) == Tokens(SkipSpaces(s))
  {
    if s != "" && s[0] == ' ' {
      TokensSkip(s[1..]);
    }
  }

  predicate AllSpaces(s: string) {
    forall k :: 0 <= k < |s| ==> s[k] == ' '
  }

  /** Spaces alone make no word. */
  lemma {:induction false} SpacesMakeNoWord(gap: string)
    requires AllSpaces(gap)
    ensures Tokens(gap) == []
  {
    if gap != "" {
      SpacesMakeNoWord(gap[1..]);
    }
  }

  lemma {:induction false} WordOf(word: string, rest: string)
    requires ' ' !in word && (rest == "" || rest[0] == ' ')
    ensures Word(word + rest) == word
  {
    if word == "" {
      assert word + rest == rest;
    } else {
      var s := word + rest;
      assert s[0] == word[0] && s[1..] == word[1..] + rest;
      WordOf(word[1..], rest);
    }
  }

  /**
   Any spaces, then a word that ends at a space or at the end of the text: that word comes first, and the
   others follow from the rest.  With `SpacesMakeNoWord` this fixes the words of every text.
   */
  lemma {:induction false} WordThenRest(gap: string, word: string, rest: string)
    requires AllSpaces(gap) && word != "" && ' ' !in word && (rest == "" || rest[0] == ' ')
    ensures Tokens(gap + word + rest) == [word] + Tokens(rest)
    decreases |gap|
  {
    var s := gap + word + rest;
    if gap != "" {
      assert s[0] == ' ' && s[1..] == gap[1..] + word + rest;
      WordThenRest(gap[1..], word, rest);
    } else {
      assert s == word + rest && s[0] == word[0] != ' ';
      WordOf(word, rest);
      if rest != "" {
        assert AfterWord(s) == s[|word| + 1..] == rest[1..];
      }
    }
  }

  function WithoutSpaces(s: string): string {
    if s == "" then ""
    else if s[0] == ' ' then WithoutSpaces(s[1..])
    else [s[0]] + WithoutSpaces(s[1..])
  }

  function Joined(words: seq<string>): string {
    if words == [] then "" else words[0] + Joined(words[1..])
  }

  lemma {:induction false} WordStays(word: string, rest: string)
    requires ' ' !in word
    ensures WithoutSpaces(word + rest) == word + WithoutSpaces(rest)
  {
    if word == "" {
      assert word + rest == rest;
    } else {
      var s := word + rest;
      assert s[0] == word[0] && s[1..] == word[1..] + rest;
      WordStays(word[1..], rest);
      assert [word[0]] + (word[1..] + WithoutSpaces(rest)) == word + WithoutSpaces(rest);
    }
  }

  lemma WithoutSpacesOfWord(s: string)
    requires s != "" && s[0] != ' '
    ensures WithoutSpaces(s) == Word(s) + WithoutSpaces(AfterWord(s))
  {
    var word := Word(s);
    WordIsWord(s);
    var tail := s[|word|..];
    assert s == word + tail;
    WordStays(word, tail);
    if tail != "" {
      assert tail[0] == ' ' && tail[1..] == AfterWord(s);
    }
  }

  /** Together the words are the text less its spaces, each at least one character: nothing is dropped or moved. */
  lemma {:induction false} WordsMakeTheText(s: string)
    ensures Joined(Tokens(s)) == WithoutSpaces(s)
    ensures forall k :: 0 <= k < |Tokens(s)| ==> Tokens(s)[k] != "" && ' ' !in Tokens(s)[k]
    decreases |s|
  {
    if s == "" {
    } else if s[0] == ' ' {
      WordsMakeTheText(s[1..]);
    } else {
      WordIsWord(s);
      WithoutSpacesOfWord(s);
      WordsMakeTheText(AfterWord(s));
      assert Tokens(s)[1..] == Tokens(AfterWord(s)) && Tokens(s)[0] == Word(s);
    }
  }

  /** Words are made of the characters of the text, spaces left out. */
  lemma {:induction false} TokensComeFromTheText(s: string, k: nat, c: char)
    requires k < |Tokens(s)| && c in Tokens(s)[k]
    ensures c in s && c != ' '
    decreases |s|
  {
    if s[0] == ' ' {
      TokensComeFromTheText(s[1..], k, c);
    } else {
      WordIsWord(s);
      if k > 0 {
        TokensComeFromTheText(AfterWord(s), k - 1, c);
      }
    }
  }

  /** The first word of `s`, if `s` is not all spaces. */
  function FirstToken(s: string): Option<string> {
    if Tokens(s) == [] then None else Some(Tokens(s)[0])
  }

  lemma FirstTokenIs(s: string)
    ensures FirstToken(s) == if SkipSpaces(s) == "" then None else Some(Word(SkipSpaces(s)))
    ensures SkipSpaces(s) != "" ==> Tokens(s) == [Word(SkipSpaces(s))] + Tokens(AfterWord(SkipSpaces(s)))
  {
    TokensSkip(s);
  }

  /** The first word is everything exactly when there is no space. */
  lemma FirstTokenIsAll(s: string)
    requires s != ""
    ensures FirstToken(s).Some? && |FirstToken(s).value| == |s| <==> ' ' !in s
    ensures ' ' !in s ==> FirstToken(s) == Some(s)
  {
    FirstTokenIs(s);
    WordIsWord(s);
    if s[0] == ' ' {
      TokensSkip(s[1..]);
      WordIsWord(SkipSpaces(s));
    } else {
      assert SkipSpaces(s) == s && s[..|s|] == s;
    }
  }

  /** `strtok` over its own copy of a text: the delimiter behind each token becomes a zero byte. */
  class Tokenizer {
    const buffer: array<char>
    var next: nat

    ghost predicate Valid()
      reads this, buffer
    {
      && next < buffer.Length && buffer[buffer.Length - 1] == '\0'
      && forall k :: next <= k < buffer.Length - 1 ==> buffer[k] != '\0'
    }

    /** What has not been tokenised yet. */
    ghost function Rest(): string
      requires Valid()
      reads this, buffer
    {
      buffer[next..buffer.Length - 1]
    }

    constructor (text: string)
      requires '\0' !in text
      ensures Valid() && fresh(buffer) && Rest() == text
    {
      var copy := new char[|text| + 1](k requires 0 <= k <= |text| => if k < |text| then text[k] else '\0');
      buffer := copy;
      next := 0;
    }

    /** The first position from `next` on that holds no space. */
    method SkipDelimiters() returns (from: nat)
      requires Valid()
      ensures next <= from < buffer.Length
      ensures buffer[from..buffer.Length - 1] == SkipSpaces(Rest())
    {
      from := next;
      while buffer[from] == ' '
        invariant next <= from < buffer.Length
        invariant SkipSpaces(buffer[from..buffer.Length - 1]) == SkipSpaces(Rest())
        decreases buffer.Length - from
      {
        assert buffer[from..buffer.Length - 1][1..] == buffer[from + 1..buffer.Length - 1];
        from := from + 1;
      }
    }

    /** The first position from `from` on that holds a space or the final zero byte. */
    method FindEnd(from: nat) returns (to: nat)
      requires Valid() && next <= from < buffer.Length
      ensures from <= to < buffer.Length && (buffer[to] == ' ' || to == buffer.Length - 1)
      ensures buffer[from..to] == Word(buffer[from..buffer.Length - 1])
    {
      ghost var words := buffer[from..buffer.Length - 1];
      WordIsWord(words);
      assert forall k :: 0 <= k < |Word(words)| ==> words[k] == Word(words)[k] != ' ';
      to := from;
      while buffer[to] != ' ' && buffer[to] != '\0'
        invariant from <= to < buffer.Length && to - from <= |Word(words)|
        decreases buffer.Length - to
      {
        assert buffer[to] == words[to - from];
        to := to + 1;
      }
    }

    /** Ends the token that lies between the two positions, and moves behind it. */
    method Cut(ghost from: nat, to: nat)
      requires Valid() && next <= from <= to < buffer.Length && (buffer[to] == ' ' || to == buffer.Length - 1)
      requires buffer[from..to] == Word(buffer[from..buffer.Length - 1])
      modifies this, buffer
      ensures Valid() && Rest() == old(AfterWord(buffer[from..buffer.Length - 1]))
    {
      ghost var words := buffer[from..buffer.Length - 1];
      WordIsWord(words);
      if buffer[to] == ' ' {
        assert words[to - from] == ' ';
        buffer[to] := '\0';
        next := to + 1;
      } else {
        next := to;
      }
    }

    method Next() returns (token: Option<string>)
      requires Valid()
      modifies this, buffer
      ensures Valid()
      ensures token == FirstToken(old(Rest()))
      ensures Tokens(Rest()) == if token.None? then [] else Tokens(old(Rest()))[1..]
    {
      ghost var text := Rest();
      FirstTokenIs(text);
      var from := SkipDelimiters();
      if buffer[from] == '\0' {
        next := from;
        return None;
      }
      var to := FindEnd(from);
      token := Some(buffer[from..to]);
      Cut(from, to);
    }
  }

  // ----- Numbers -----

  predicate IsSpace(c: char) {
    c == ' ' || c == '\t' || c == '\n' || c == '\r' || c as int == 11 || c as int == 12
  }

  predicate IsDigit(c: char) {
    '0' <= c <= '9'
  }

  function SkipWhite(s: string): string {
    if s != "" && IsSpace(s[0]) then SkipWhite(s[1..]) else s
  }

  function DigitValue(c: char): nat
    requires IsDigit(c)
  {
    c as int - '0' as int
  }

  /** The leading digits of `s` read behind `value`, and what follows them. */
  function Digits(s: string, value: nat): (nat, string) {
    if s != "" && IsDigit(s[0]) then Digits(s[1..], 10 * value + DigitValue(s[0])) else (value, s)
  }

  /** A number written digit by digit, most significant first. */
  function Numeral(digits: string): (value: nat)
    requires forall k :: 0 <= k < |digits| ==> IsDigit(digits[k])
  {
    if digits == "" then 0 else 10 * Numeral(digits[..|digits| - 1]) + DigitValue(digits[|digits| - 1])
  }

  lemma NumeralAppend(digits: string, c: char, longer: string)
    requires IsDigit(c) && forall k :: 0 <= k < |digits| ==> IsDigit(digits[k])
    requires longer == digits + [c]
    ensures forall k :: 0 <= k < |longer| ==> IsDigit(longer[k])
    ensures Numeral(longer) == 10 * Numeral(digits) + DigitValue(c)
  {
    assert longer[..|digits|] == digits;
  }

  /** Reading digits from the left gives the number that they write. */
  lemma {:induction false} DigitsReadNumerals(digits: string, rest: string, k: nat)
    requires forall j :: 0 <= j < |digits| ==> IsDigit(digits[j])
    requires k <= |digits| && (rest == "" || !IsDigit(rest[0]))
    ensures Digits(digits[k..] + rest, Numeral(digits[..k])) == (Numeral(digits), rest)
    decreases |digits| - k
  {
    if k == |digits| {
      assert digits[k..] + rest == rest && digits[..k] == digits;
    } else {
      var s := digits[k..] + rest;
      assert s[0] == digits[k] && s[1..] == digits[k + 1..] + rest;
      assert digits[..k + 1][..k] == digits[..k] && digits[..k + 1][k] == digits[k];
      DigitsReadNumerals(digits, rest, k + 1);
    }
  }

  /** The number that `s` starts with, unbounded, and what follows it; `s` itself follows if there is none. */
  function Number(s: string): (int, string) {
    var t := SkipWhite(s);
    var sign := if t != "" && t[0] == '-' then -1 else 1;
    var u := if t != "" && (t[0] == '-' || t[0] == '+') then t[1..] else t;
    if u != "" && IsDigit(u[0]) then
      var (value, rest) := Digits(u, 0);
      (sign * value, rest)
    else (0, s)
  }

  /** `strtol`: the number clamped to 64 bits. */
  function Strtol(s: string): int {
    var value := Number(s).0;
    if value < -TWO_TO_THE_63 then -TWO_TO_THE_63
    else if value >= TWO_TO_THE_63 then TWO_TO_THE_63 - 1
    else value
  }

  /** `*endptr == '\0'`: nothing follows the number. */
  predicate IsWhole(s: string) {
    Number(s).1 == ""
  }

  /** Conversion of a `long` to an `int`, which keeps the low 32 bits. */
  function ToInt(x: int): int {
    var low := x % TWO_TO_THE_32;
    if low < 0x8000_0000 then low else low - TWO_TO_THE_32
  }

  /** Conversion of a `long` to an `unsigned long`. */
  function ToUnsigned(x: int): nat {
    x % TWO_TO_THE_64
  }

  /** `atoi` as the C library implements it: `strtol` converted to an `int`. */
  function Atoi(s: string): int {
    ToInt(Strtol(s))
  }

  // ----- What a text writes -----

  predicate AllDigits(s: string) {
    forall k :: 0 <= k < |s| ==> '0' <= s[k] <= '9'
  }

  /** Space, tab, line feed, vertical tab, form feed and carriage return. */
  predicate AllWhite(s: string) {
    forall k :: 0 <= k < |s| ==> s[k] as int == 32 || 9 <= s[k] as int <= 13
  }

  predicate IsSign(s: string) {
    s == "" || s == "-" || s == "+"
  }

  lemma {:induction false} SkipWhiteOf(white: string, rest: string)
    requires AllWhite(white) && (rest == "" || !AllWhite(rest[..1]))
    ensures SkipWhite(white + rest) == rest
  {
    if white == "" {
      assert white + rest == rest;
      assert rest != "" ==> rest[..1][0] == rest[0];
    } else {
      assert (white + rest)[0] == white[0] && (white + rest)[1..] == white[1..] + rest;
      SkipWhiteOf(white[1..], rest);
    }
  }

  /** White space, a sign and digits, up to the first other character: that is the number, signed. */
  lemma NumberIs(white: string, sign: string, digits: string, rest: string)
    requires AllWhite(white) && IsSign(sign) && digits != "" && AllDigits(digits)
    requires rest == "" || !('0' <= rest[0] <= '9')
    ensures
      var value: int := Numeral(digits);
      Number(white + sign + digits + rest) == (if sign == "-" then -value else value, rest)
  {
    var s, t, u := white + sign + digits + rest, sign + digits + rest, digits + rest;
    assert s == white + t && t[0] == if sign == "" then digits[0] else sign[0];
    assert t[..1][0] == t[0];
    SkipWhiteOf(white, t);
    assert sign == "" ==> t == u;
    assert sign != "" ==> t[1..] == u;
    assert u[0] == digits[0] && digits[0..] + rest == u && digits[..0] == "";
    DigitsReadNumerals(digits, rest, 0);
  }

  /** Without a digit behind white space and sign there is no number, and nothing is consumed. */
  lemma NumberIsNone(white: string, sign: string, rest: string)
    requires AllWhite(white) && IsSign(sign) && (rest == "" || !('0' <= rest[0] <= '9'))
    requires sign == "" && rest != "" ==> rest[0] != '-' && rest[0] != '+' && !AllWhite(rest[..1])
    ensures Number(white + sign + rest) == (0, white + sign + rest)
  {
    var s, t := white + sign + rest, sign + rest;
    assert s == white + t;
    if t != "" {
      assert t[0] == (if sign == "" then rest[0] else sign[0]) && t[..1][0] == t[0];
    }
    assert sign == "" ==> t == rest;
    assert sign != "" ==> t[1..] == rest;
    SkipWhiteOf(white, t);
  }

  /** Every text is of one of these two forms. */
  lemma NumberForms(s: string) returns (white: string, sign: string, digits: string, rest: string)
    ensures s == white + sign + digits + rest && AllWhite(white) && IsSign(sign) && AllDigits(digits)
    ensures rest == "" || !('0' <= rest[0] <= '9')
    ensures digits == "" && sign == "" && rest != "" ==> rest[0] != '-' && rest[0] != '+' && !AllWhite(rest[..1])
  {
    var t;
    white, t := SplitWhite(s);
    sign := if t != "" && (t[0] == '-' || t[0] == '+') then t[..1] else "";
    assert t == sign + t[|sign|..];
    digits, rest := SplitDigits(t[|sign|..]);
    assert digits == "" ==> digits + rest == rest;
    assert sign == "" ==> t[|sign|..] == t;
  }

  lemma {:induction false} SplitWhite(s: string) returns (white: string, rest: string)
    ensures s == white + rest && AllWhite(white) && (rest == "" || !AllWhite(rest[..1]))
  {
    if s == "" || !(s[0] as int == 32 || 9 <= s[0] as int <= 13) {
      white, rest := "", s;
      assert s != "" ==> s[..1][0] == s[0];
    } else {
      white, rest := SplitWhite(s[1..]);
      white := [s[0]] + white;
    }
  }

  lemma {:induction false} SplitDigits(s: string) returns (digits: string, rest: string)
    ensures s == digits + rest && AllDigits(digits) && (rest == "" || !('0' <= rest[0] <= '9'))
  {
    if s == "" || !('0' <= s[0] <= '9') {
      digits, rest := "", s;
    } else {
      digits, rest := SplitDigits(s[1..]);
      digits := [s[0]] + digits;
    }
  }

  /** A `long` that fits in an `int` stays; any other becomes the `int` that agrees with it in the low 32 bits. */
  lemma ToIntIsTheLowHalf(x: int)
    ensures -0x8000_0000 <= ToInt(x) < 0x8000_0000 && (ToInt(x) - x) % 0x1_0000_0000 == 0
    ensures -0x8000_0000 <= x < 0x8000_0000 ==> ToInt(x) == x
  {
  }

  /** `strtol` gives the number, or the nearest end of the 64-bit range. */
  lemma StrtolClamps(s: string)
    ensures -0x8000_0000_0000_0000 <= Strtol(s) < 0x8000_0000_0000_0000
    ensures -0x8000_0000_0000_0000 <= Number(s).0 < 0x8000_0000_0000_0000 ==> Strtol(s) == Number(s).0
    ensures Number(s).0 >= 0x8000_0000_0000_0000 ==> Strtol(s) == 0x7FFF_FFFF_FFFF_FFFF
    ensures Number(s).0 < -0x8000_0000_0000_0000 ==> Strtol(s) == -0x8000_0000_0000_0000
  {
  }

  /** A text of digits is a whole number, the one it writes. */
  lemma NumberOfDigits(digits: string)
    requires digits != "" && forall k :: 0 <= k < |digits| ==> IsDigit(digits[k])
    ensures Number(digits) == (Numeral(digits), "")
  {
    assert SkipWhite(digits) == digits && digits[0..] + "" == digits;
    DigitsReadNumerals(digits, "", 0);
  }
}

/** The string built-ins the data layer and the panels use: `toLowerCase`
    (ASCII letters only), `includes`, `split(' ')` and `join`, and `parseInt(s, 10)`. */
module JsStrings {
  import opened JsValues

  // ---------------------------------------------------------------------------
  // toLowerCase, restricted to ASCII

  predicate IsAsciiLetter(c: char) {
    'A' <= c <= 'Z' || 'a' <= c <= 'z'
  }

  predicate NoAsciiLetter(s: string) {
    forall i :: 0 <= i < |s| ==> !IsAsciiLetter(s[i])
  }

  function LowerChar(c: char): char {
    if 'A' <= c <= 'Z' then (c as int + 32) as char else c
  }

  /** `s.toLowerCase()` for ASCII: every upper-case ASCII letter is mapped to
      its lower-case letter and every other character is kept. */
  function ToLowerAscii(s: string): (r: string)
    ensures |r| == |s|
    ensures forall i :: 0 <= i < |s| ==> r[i] == LowerChar(s[i])
  {
    if s == [] then [] else [LowerChar(s[0])] + ToLowerAscii(s[1..])
  }

  lemma LowerAsciiIdempotent(s: string)
    ensures ToLowerAscii(ToLowerAscii(s)) == ToLowerAscii(s)
    ensures forall i :: 0 <= i < |s| ==> !('A' <= ToLowerAscii(s)[i] <= 'Z')
  {
    var l := ToLowerAscii(s);
    var ll := ToLowerAscii(l);
    forall i | 0 <= i < |s| ensures ll[i] == l[i] && !('A' <= l[i] <= 'Z') {
      assert l[i] == LowerChar(s[i]);
    }
    assert ll == l;
  }

  // ---------------------------------------------------------------------------
  // includes

  /** `hay.includes(needle)`: the needle is a prefix of some suffix of the hay. */
  predicate Includes(hay: string, needle: string)
    decreases |hay|
  {
    needle <= hay || (hay != [] && Includes(hay[1..], needle))
  }

  /** The needle occurs in the hay at position i. */
  ghost predicate OccursAt(hay: string, needle: string, i: int) {
    0 <= i && i + |needle| <= |hay| && hay[i..i + |needle|] == needle
  }

  /** The needle occurs somewhere in the hay. */
  ghost predicate OccursIn(hay: string, needle: string) {
    exists i :: OccursAt(hay, needle, i)
  }

  /** An occurrence at a position is found by `includes`. */
  lemma {:induction false} OccurrenceIsIncluded(hay: string, needle: string, i: int)
    requires OccursAt(hay, needle, i)
    ensures Includes(hay, needle)
    decreases i
  {
    if i == 0 {
      assert hay[..|needle|] == needle;
    } else {
      assert hay[1..][i - 1..i - 1 + |needle|] == hay[i..i + |needle|];
      OccurrenceIsIncluded(hay[1..], needle, i - 1);
    }
  }

  /** `includes` holds exactly when the needle occurs at some position. */
  lemma {:induction false} IncludesIff(hay: string, needle: string)
    ensures Includes(hay, needle) <==> OccursIn(hay, needle)
    decreases |hay|
  {
    if needle <= hay {
      assert OccursAt(hay, needle, 0);
    } else if hay != [] && Includes(hay[1..], needle) {
      IncludesIff(hay[1..], needle);
      var i :| OccursAt(hay[1..], needle, i);
      assert hay[1..][i..i + |needle|] == hay[i + 1..i + 1 + |needle|];
      assert OccursAt(hay, needle, i + 1);
    }
    forall i | OccursAt(hay, needle, i) ensures Includes(hay, needle) {
      OccurrenceIsIncluded(hay, needle, i);
    }
  }

  /** Every string includes the empty string. */
  lemma IncludesEmpty(hay: string)
    ensures Includes(hay, "")
  {
  }

  // ---------------------------------------------------------------------------
  // split(' ') and join

  /** `s.split(sep)` for a one-character separator: the pieces between the
      separators, at least one (the empty string gives `[""]`). */
  function SplitOn(s: string, sep: char): (r: seq<string>)
    ensures |r| >= 1
    ensures forall k :: 0 <= k < |r| ==> sep !in r[k]
    decreases |s|
  {
    if s == [] then [""]
    else
      var rest := SplitOn(s[1..], sep);
      if s[0] == sep then [""] + rest
      else [[s[0]] + rest[0]] + rest[1..]
  }

  /** `parts.join(sep)`. */
  function JoinWith(parts: seq<string>, sep: char): string {
    if |parts| == 0 then ""
    else if |parts| == 1 then parts[0]
    else parts[0] + [sep] + JoinWith(parts[1..], sep)
  }

  /** Joining the pieces again gives back the string. */
  lemma {:induction false} JoinSplit(s: string, sep: char)
    ensures JoinWith(SplitOn(s, sep), sep) == s
    decreases |s|
  {
    if s != [] {
      var rest := SplitOn(s[1..], sep);
      JoinSplit(s[1..], sep);
      if s[0] == sep {
        assert JoinWith([""] + rest, sep) == "" + [sep] + JoinWith(rest, sep);
      } else if |rest| == 1 {
        assert SplitOn(s, sep) == [[s[0]] + rest[0]];
      } else {
        var parts := [[s[0]] + rest[0]] + rest[1..];
        assert parts[1..] == rest[1..];
        assert JoinWith(rest, sep) == rest[0] + [sep] + JoinWith(rest[1..], sep);
      }
    }
  }

  /** A leading separator splits off an empty piece. */
  lemma SplitOnSeparator(sep: char, s: string)
    ensures SplitOn([sep] + s, sep) == [""] + SplitOn(s, sep)
  {
    assert ([sep] + s)[1..] == s;
  }

  /** A leading character other than the separator starts the first piece. */
  lemma SplitOnOther(c: char, s: string, sep: char)
    requires c != sep
    ensures SplitOn([c] + s, sep) == [[c] + SplitOn(s, sep)[0]] + SplitOn(s, sep)[1..]
  {
    assert ([c] + s)[1..] == s;
  }

  /** A character put in front of the first piece ends up in front of the join. */
  lemma JoinPrependsToFirst(c: char, parts: seq<string>, sep: char)
    requires |parts| >= 1
    ensures JoinWith([[c] + parts[0]] + parts[1..], sep) == [c] + JoinWith(parts, sep)
  {
    var q := [[c] + parts[0]] + parts[1..];
    if |parts| > 1 {
      assert q[1..] == parts[1..];
    }
  }

  /** Splitting a join of separator-free pieces gives back the pieces. */
  lemma {:induction false} SplitJoin(parts: seq<string>, sep: char)
    requires |parts| >= 1
    requires forall k :: 0 <= k < |parts| ==> sep !in parts[k]
    ensures SplitOn(JoinWith(parts, sep), sep) == parts
    decreases |parts|, |parts[0]|
  {
    var p := parts[0];
    if p == [] && |parts| == 1 {
      assert parts == [""];
    } else if p == [] {
      var tail := parts[1..];
      SplitJoin(tail, sep);
      assert JoinWith(parts, sep) == [sep] + JoinWith(tail, sep);
      SplitOnSeparator(sep, JoinWith(tail, sep));
      assert parts == [""] + tail;
    } else {
      assert p[0] in parts[0];
      var shorter := [p[1..]] + parts[1..];
      assert shorter[1..] == parts[1..];
      SplitJoin(shorter, sep);
      assert [p[0]] + shorter[0] == p;
      assert parts == [[p[0]] + shorter[0]] + shorter[1..];
      JoinPrependsToFirst(p[0], shorter, sep);
      SplitOnOther(p[0], JoinWith(shorter, sep), sep);
    }
  }

  // ---------------------------------------------------------------------------
  // The avatar of a registered user: name.split(' ').map(n => n[0]).join('')

  /** `words.map(n => n[0]).join('')`: `""[0]` is undefined, which `join`
      writes as the empty string. */
  function FirstLetters(words: seq<string>): string {
    if words == [] then ""
    else (if words[0] == "" then "" else [words[0][0]]) + FirstLetters(words[1..])
  }

  function Initials(name: string): string {
    FirstLetters(SplitOn(name, ' '))
  }

  /** The letters of s that start a word: a non-space character at the start,
      or right after a space (when atStart says the previous one was a space). */
  function WordStarts(s: string, atStart: bool): string {
    if s == [] then ""
    else (if atStart && s[0] != ' ' then [s[0]] else "") + WordStarts(s[1..], s[0] == ' ')
  }

  /** A single word contributes its first letter when it starts a word. */
  lemma {:induction false} WordStartsOfWord(w: string, atStart: bool)
    requires w != [] && ' ' !in w
    ensures WordStarts(w, atStart) == if atStart then [w[0]] else ""
  {
    if |w| > 1 {
      WordStartsOfWord(w[1..], false);
    }
  }

  /** The word before a space contributes on its own, and a new word starts after the space. */
  lemma {:induction false} WordStartsAfterWord(w: string, rest: string, atStart: bool)
    requires ' ' !in w
    ensures WordStarts(w + [' '] + rest, atStart) == WordStarts(w, atStart) + WordStarts(rest, true)
  {
    var s := w + [' '] + rest;
    if w == [] {
      assert s[1..] == rest;
    } else {
      assert s[1..] == w[1..] + [' '] + rest;
      WordStartsAfterWord(w[1..], rest, false);
    }
  }

  /** The avatar is the first character of every space-separated word, in order. */
  lemma {:induction false} InitialsAreWordStarts(s: string)
    ensures Initials(s) == WordStarts(s, true)
    ensures FirstLetters(SplitOn(s, ' ')[1..]) == WordStarts(s, false)
  {
    if s != [] {
      var rest := SplitOn(s[1..], ' ');
      InitialsAreWordStarts(s[1..]);
      if s[0] == ' ' {
        assert SplitOn(s, ' ') == [""] + rest;
        assert ([""] + rest)[1..] == rest;
      } else {
        var parts := [[s[0]] + rest[0]] + rest[1..];
        assert SplitOn(s, ' ') == parts;
        assert parts[1..] == rest[1..];
        assert FirstLetters(rest) == (if rest[0] == "" then "" else [rest[0][0]]) + FirstLetters(rest[1..]);
      }
    }
  }

  // ---------------------------------------------------------------------------
  // parseInt(s, 10)

  /** White space and line terminators that `parseInt` skips: TAB, LF, VT, FF,
      CR, every Zs space separator, LINE and PARAGRAPH SEPARATOR, and the BOM. */
  predicate IsJsWhitespace(c: char) {
    c == '\t' || c == '\n' || c == '\U{000B}' || c == '\U{000C}' || c == '\r'
    || c == ' ' || c == '\U{00A0}' || c == '\U{1680}' || ('\U{2000}' <= c <= '\U{200A}')
    || c == '\U{2028}' || c == '\U{2029}' || c == '\U{202F}' || c == '\U{205F}'
    || c == '\U{3000}' || c == '\U{FEFF}'
  }

  predicate IsDigit(c: char) {
    '0' <= c <= '9'
  }

  predicate AllDigits(s: string) {
    forall i :: 0 <= i < |s| ==> IsDigit(s[i])
  }

  function TrimStart(s: string): string {
    if s != [] && IsJsWhitespace(s[0]) then TrimStart(s[1..]) else s
  }

  /** The longest prefix of s made of decimal digits. */
  function DigitPrefix(s: string): (r: string)
    ensures AllDigits(r) && r <= s
  {
    if s != [] && IsDigit(s[0]) then [s[0]] + DigitPrefix(s[1..]) else []
  }

  /** The number a string of decimal digits denotes. */
  function DigitsValue(ds: string): nat
    requires AllDigits(ds)
  {
    if ds == [] then 0 else DigitsValue(ds[..|ds| - 1]) * 10 + (ds[|ds| - 1] as int - '0' as int)
  }

  /** `parseInt(s, 10)`: skip leading white space, read an optional sign, then
      the longest run of digits; with no digit the result is NaN. Trailing
      characters are ignored. (The result -0 of "-0" is `===` to 0.) The digit
      run is read exactly: JavaScript rounds a value above 2^53 to the nearest
      double, and a run too long for a double gives `Infinity`. */
  function ParseInt10(s: string): (r: Value)
    ensures r.Num? || r.NaN?
  {
    var t := TrimStart(s);
    if t != [] && t[0] == '-' then Negate(ParseDigitRun(t[1..]))
    else if t != [] && t[0] == '+' then ParseDigitRun(t[1..])
    else ParseDigitRun(t)
  }

  /** The number denoted by the longest run of digits at the start of u, or NaN. */
  function ParseDigitRun(u: string): (r: Value)
    ensures r.Num? || r.NaN?
  {
    var digits := DigitPrefix(u);
    if digits == [] then NaN else Num(DigitsValue(digits))
  }

  function Negate(v: Value): Value {
    if v.Num? then Num(-v.n) else v
  }

  function DigitChar(d: nat): char
    requires d < 10
  {
    ('0' as int + d) as char
  }

  /** `String(n)` for an integer n up to 2^53 (`Number.MAX_SAFE_INTEGER` + 1; beyond
      it JavaScript prints the shortest digits of the nearest double, and from
      10^21 on exponent notation): decimal digits without leading zeros. */
  function NatToDecimal(n: nat): (r: string)
    ensures r != [] && AllDigits(r)
  {
    if n < 10 then [DigitChar(n)] else NatToDecimal(n / 10) + [DigitChar(n % 10)]
  }

  function IntToDecimal(n: int): string {
    if n < 0 then "-" + NatToDecimal(-n) else NatToDecimal(n)
  }

  lemma {:induction false} DigitsValueOfDecimal(n: nat)
    ensures DigitsValue(NatToDecimal(n)) == n
  {
    if n >= 10 {
      var r := NatToDecimal(n);
      DigitsValueOfDecimal(n / 10);
      assert r[..|r| - 1] == NatToDecimal(n / 10);
    }
  }

  lemma {:induction false} DigitPrefixStops(ds: string, rest: string)
    requires AllDigits(ds)
    requires rest == [] || !IsDigit(rest[0])
    ensures DigitPrefix(ds + rest) == ds
  {
    if ds == [] {
    } else {
      DigitPrefixStops(ds[1..], rest);
      assert (ds + rest)[1..] == ds[1..] + rest;
    }
  }

  lemma {:induction false} TrimStartSkips(ws: string, t: string)
    requires forall i :: 0 <= i < |ws| ==> IsJsWhitespace(ws[i])
    ensures TrimStart(ws + t) == TrimStart(t)
  {
    if ws != [] {
      TrimStartSkips(ws[1..], t);
      var w := ws + t;
      assert w[0] == ws[0] && IsJsWhitespace(w[0]);
      assert w[1..] == ws[1..] + t;
      assert TrimStart(w) == TrimStart(w[1..]);
    } else {
      assert ws + t == t;
    }
  }

  /** A run of digits followed by a non-digit reads as the number the digits denote. */
  lemma ParseDigitRunOf(d: string, rest: string)
    requires d != [] && AllDigits(d)
    requires rest == [] || !IsDigit(rest[0])
    ensures ParseDigitRun(d + rest) == Num(DigitsValue(d))
  {
    DigitPrefixStops(d, rest);
  }

  /** A run of digits followed by non-digit text parses to the number it denotes. */
  lemma ParseDigits(d: string, rest: string)
    requires d != [] && AllDigits(d)
    requires rest == [] || !IsDigit(rest[0])
    ensures ParseInt10(d + rest) == Num(DigitsValue(d))
  {
    var u := d + rest;
    ParseDigitRunOf(d, rest);
    assert u[0] == d[0] && IsDigit(u[0]);
    assert TrimStart(u) == u;
  }

  /** The same run after a minus sign parses to its negation. */
  lemma ParseNegativeDigits(d: string, rest: string)
    requires d != [] && AllDigits(d)
    requires rest == [] || !IsDigit(rest[0])
    ensures ParseInt10("-" + d + rest) == Num(-(DigitsValue(d) as int))
  {
    var u := d + rest;
    ParseDigitRunOf(d, rest);
    var t := ['-'] + u;
    assert "-" + d + rest == t;
    assert t[0] == '-' && t[1..] == u;
    assert TrimStart(t) == t;
  }

  /** The same run after a plus sign parses to its value. */
  lemma ParsePositiveDigits(d: string, rest: string)
    requires d != [] && AllDigits(d)
    requires rest == [] || !IsDigit(rest[0])
    ensures ParseInt10("+" + d + rest) == Num(DigitsValue(d))
  {
    var u := d + rest;
    ParseDigitRunOf(d, rest);
    var t := ['+'] + u;
    assert "+" + d + rest == t;
    assert t[0] == '+' && t[1..] == u;
    assert TrimStart(t) == t;
  }

  /** The decimal form of any integer, signed when negative, parses back to it. */
  lemma ParseIntOfDecimalAlone(n: int, rest: string)
    requires rest == [] || !IsDigit(rest[0])
    ensures ParseInt10(IntToDecimal(n) + rest) == Num(n)
  {
    var m: nat := if n < 0 then -n else n;
    DigitsValueOfDecimal(m);
    if n < 0 {
      ParseNegativeDigits(NatToDecimal(m), rest);
    } else {
      ParseDigits(NatToDecimal(m), rest);
    }
  }

  /** `parseInt` reads back the decimal form of every integer, whatever white
      space precedes it and whatever non-digit text follows it. */
  lemma ParseIntOfDecimal(ws: string, n: int, rest: string)
    requires forall i :: 0 <= i < |ws| ==> IsJsWhitespace(ws[i])
    requires rest == [] || !IsDigit(rest[0])
    ensures ParseInt10(ws + IntToDecimal(n) + rest) == Num(n)
  {
    var t := IntToDecimal(n) + rest;
    assert ws + IntToDecimal(n) + rest == ws + t;
    TrimStartSkips(ws, t);
    ParseIntOfDecimalAlone(n, rest);
  }

  /** `parseInt` gives NaN exactly when, after the leading white space and an
      optional sign, no digit follows. */
  lemma ParseIntIsNaN(s: string)
    ensures var t := TrimStart(s);
            var u := if t != [] && (t[0] == '-' || t[0] == '+') then t[1..] else t;
            ParseInt10(s) == NaN <==> u == [] || !IsDigit(u[0])
  {
  }
}

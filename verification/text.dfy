/** The Python string operations the handlers rely on, over `string` (= `seq<char>`).
    Case mapping covers the ASCII letters only; `str.strip()` whitespace is
    Python's full `str.isspace()` set, and `int()` skips that set without the
    information separators U+001C to U+001F. */
module Text {
  import opened Optional

  // ---------------------------------------------------------------------------
  // Whitespace and `str.strip()`
  // ---------------------------------------------------------------------------

  /** Python's `str.isspace()` for one character. */
  predicate IsSpace(c: char) {
    || c == ' '
    || ('\t' <= c <= '\r')
    || ('\U{1C}' <= c <= '\U{1F}')
    || c == '\U{85}' || c == '\U{A0}' || c == '\U{1680}'
    || ('\U{2000}' <= c <= '\U{200A}')
    || c == '\U{2028}' || c == '\U{2029}' || c == '\U{202F}' || c == '\U{205F}' || c == '\U{3000}'
  }

  /** `s.lstrip()`: the suffix left after dropping the leading whitespace. */
  function StripLeft(s: string): (r: string)
    ensures |r| <= |s| && r == s[|s| - |r|..]
    ensures forall i :: 0 <= i < |s| - |r| ==> IsSpace(s[i])
    ensures r == [] || !IsSpace(r[0])
  {
    if s != [] && IsSpace(s[0]) then StripLeft(s[1..]) else s
  }

  /** `s.rstrip()`: the prefix left after dropping the trailing whitespace. */
  function StripRight(s: string): (r: string)
    ensures |r| <= |s| && r == s[..|r|]
    ensures forall i :: |r| <= i < |s| ==> IsSpace(s[i])
    ensures r == [] || !IsSpace(r[|r| - 1])
  {
    if s != [] && IsSpace(s[|s| - 1]) then StripRight(s[..|s| - 1]) else s
  }

  /** `s.strip()`: the longest slice of `s` that neither starts nor ends with
      whitespace, everything outside it being whitespace. */
  function Strip(s: string): (r: string)
    ensures var lead := |s| - |StripLeft(s)|;
      && lead + |r| <= |s|
      && r == s[lead..lead + |r|]
      && (forall i :: 0 <= i < lead ==> IsSpace(s[i]))
      && (forall i :: lead + |r| <= i < |s| ==> IsSpace(s[i]))
    ensures r == [] || (!IsSpace(r[0]) && !IsSpace(r[|r| - 1]))
  {
    StripRight(StripLeft(s))
  }

  /** A string with no surrounding whitespace is its own strip. */
  lemma StripUnspaced(s: string)
    requires s == [] || (!IsSpace(s[0]) && !IsSpace(s[|s| - 1]))
    ensures Strip(s) == s
  {
  }

  /** Any slice with non-space ends and only whitespace around it is the strip. */
  lemma StripUnique(s: string, a: nat, b: nat)
    requires a <= b <= |s|
    requires forall i :: 0 <= i < a ==> IsSpace(s[i])
    requires forall i :: b <= i < |s| ==> IsSpace(s[i])
    requires a < b ==> !IsSpace(s[a]) && !IsSpace(s[b - 1])
    ensures Strip(s) == s[a..b]
  {
    var r := Strip(s);
    var lead := |s| - |StripLeft(s)|;
    if r != [] {
      assert s[lead] == r[0] && s[lead + |r| - 1] == r[|r| - 1];
    }
  }

  /** Whitespace added before a string does not change its strip. */
  lemma {:induction false} StripIgnoresLeft(left: string, s: string)
    requires forall i :: 0 <= i < |left| ==> IsSpace(left[i])
    ensures StripLeft(left + s) == StripLeft(s)
    ensures Strip(left + s) == Strip(s)
  {
    if left == [] {
      assert left + s == s;
    } else {
      assert (left + s)[1..] == left[1..] + s;
      assert IsSpace((left + s)[0]);
      StripIgnoresLeft(left[1..], s);
    }
  }

  /** Whitespace added after a string does not change its strip. */
  lemma StripIgnoresRight(s: string, right: string)
    requires forall i :: 0 <= i < |right| ==> IsSpace(right[i])
    ensures Strip(s + right) == Strip(s)
  {
    var t := s + right;
    var lead := |s| - |StripLeft(s)|;
    var r := Strip(s);
    var a, b := lead, lead + |r|;
    forall i | 0 <= i < a ensures IsSpace(t[i]) {
      assert t[i] == s[i];
    }
    forall i | b <= i < |t| ensures IsSpace(t[i]) {
      if i < |s| { assert t[i] == s[i]; } else { assert t[i] == right[i - |s|]; }
    }
    if r != [] {
      assert t[a] == r[0] && t[b - 1] == r[|r| - 1];
    }
    StripUnique(t, a, b);
    assert t[a..b] == r;
  }

  /** Whitespace added around a string does not change its strip. */
  lemma StripIgnoresPadding(left: string, s: string, right: string)
    requires forall i :: 0 <= i < |left| ==> IsSpace(left[i])
    requires forall i :: 0 <= i < |right| ==> IsSpace(right[i])
    ensures Strip(left + s + right) == Strip(s)
  {
    StripIgnoresRight(left + s, right);
    StripIgnoresLeft(left, s);
  }

  // ---------------------------------------------------------------------------
  // Case mapping: `str.lower()`, `str.upper()`, `str.title()`
  // ---------------------------------------------------------------------------

  predicate IsUpperLetter(c: char) { 'A' <= c <= 'Z' }
  predicate IsLowerLetter(c: char) { 'a' <= c <= 'z' }

  /** A cased character, in Python's sense, restricted to ASCII. */
  predicate IsLetter(c: char) { IsUpperLetter(c) || IsLowerLetter(c) }

  function LowerChar(c: char): char {
    if IsUpperLetter(c) then (c as int + 32) as char else c
  }

  function UpperChar(c: char): char {
    if IsLowerLetter(c) then (c as int - 32) as char else c
  }

  function Lower(s: string): (r: string)
    ensures |r| == |s|
  {
    seq(|s|, i requires 0 <= i < |s| => LowerChar(s[i]))
  }

  function Upper(s: string): (r: string)
    ensures |r| == |s|
  {
    seq(|s|, i requires 0 <= i < |s| => UpperChar(s[i]))
  }

  /** CPython's `str.title()` loop: `afterLetter` is the "previous character
      was cased" flag; a letter after a letter is lowered, any other letter
      raised, and every other character copied. */
  function TitleFrom(s: string, afterLetter: bool): (r: string)
    ensures |r| == |s|
    ensures forall i :: 0 <= i < |s| ==>
      r[i] == (if (if i == 0 then afterLetter else IsLetter(s[i - 1])) then LowerChar(s[i]) else UpperChar(s[i]))
  {
    if s == [] then []
    else [if afterLetter then LowerChar(s[0]) else UpperChar(s[0])] + TitleFrom(s[1..], IsLetter(s[0]))
  }

  /** `s.title()`: a letter is upper-cased at the start of a run of letters
      and lower-cased inside one; any other character is copied. */
  function Title(s: string): (r: string)
    ensures |r| == |s|
    ensures forall i :: 0 <= i < |s| ==>
      r[i] == (if i > 0 && IsLetter(s[i - 1]) then LowerChar(s[i]) else UpperChar(s[i]))
  {
    TitleFrom(s, false)
  }

  /** `title()` only looks at letters up to case: an argument typed in any
      case title-cases to the same string. */
  lemma {:induction false} TitleIgnoresCase(s: string)
    ensures Title(Lower(s)) == Title(s)
    ensures Title(Upper(s)) == Title(s)
  {
    var a, b, c := Title(Lower(s)), Title(s), Title(Upper(s));
    forall i | 0 <= i < |s|
      ensures a[i] == b[i] && c[i] == b[i]
    {
      if i > 0 {
        assert Lower(s)[i - 1] == LowerChar(s[i - 1]);
        assert Upper(s)[i - 1] == UpperChar(s[i - 1]);
      }
      assert Lower(s)[i] == LowerChar(s[i]);
      assert Upper(s)[i] == UpperChar(s[i]);
    }
  }

  // ---------------------------------------------------------------------------
  // Substrings: `part in s`, `s.split(sep)`, `sep.join(parts)`
  // ---------------------------------------------------------------------------

  predicate OccursAt(s: string, part: string, i: int) {
    0 <= i && i + |part| <= |s| && s[i..i + |part|] == part
  }

  /** Python's `part in s` for strings. */
  predicate Contains(s: string, part: string) {
    exists i :: 0 <= i <= |s| - |part| && OccursAt(s, part, i)
  }

  /** The first occurrence of `part` at or after `k`. */
  function FindFrom(s: string, part: string, k: nat): (r: Option<nat>)
    requires k <= |s| + 1
    ensures r.Some? ==> k <= r.value && OccursAt(s, part, r.value)
    ensures r.Some? ==> forall j :: k <= j < r.value ==> !OccursAt(s, part, j)
    ensures r.None? ==> forall j :: k <= j ==> !OccursAt(s, part, j)
    decreases |s| + 1 - k
  {
    if k + |part| > |s| then None
    else if s[k..k + |part|] == part then Some(k)
    else FindFrom(s, part, k + 1)
  }

  /** `s.find(part)`, with `None` for -1. */
  function IndexOf(s: string, part: string): (r: Option<nat>)
    ensures r.Some? <==> Contains(s, part)
    ensures r.Some? ==> OccursAt(s, part, r.value) && forall j :: 0 <= j < r.value ==> !OccursAt(s, part, j)
  {
    var r := FindFrom(s, part, 0);
    if r.Some? then
      assert OccursAt(s, part, r.value);
      r
    else
      r
  }

  lemma NoOccurrenceInPrefix(s: string, part: string, n: nat)
    requires part != [] && n <= |s|
    requires forall j :: 0 <= j < n ==> !OccursAt(s, part, j)
    ensures !Contains(s[..n], part)
  {
    forall j | 0 <= j <= n - |part|
      ensures !OccursAt(s[..n], part, j)
    {
      assert !OccursAt(s, part, j);
      assert s[..n][j..j + |part|] == s[j..j + |part|];
    }
  }

  /** `s.split(sep)` for a non-empty separator: the pieces between the
      non-overlapping occurrences of `sep`, found left to right. */
  function Split(s: string, sep: string): (r: seq<string>)
    requires sep != []
    ensures |r| >= 1
    ensures |r| == 1 <==> !Contains(s, sep)
    ensures |r| == 1 ==> r == [s]
    ensures forall i :: 0 <= i < |r| ==> !Contains(r[i], sep)
    ensures |r| >= 2 ==> var i := IndexOf(s, sep).value; r[0] == s[..i] && r[1..] == Split(s[i + |sep|..], sep)
    decreases |s|
  {
    match IndexOf(s, sep)
    case None => [s]
    case Some(i) =>
      NoOccurrenceInPrefix(s, sep, i);
      [s[..i]] + Split(s[i + |sep|..], sep)
  }

  /** `sep.join(parts)`. */
  function Join(sep: string, parts: seq<string>): string {
    if |parts| == 0 then ""
    else if |parts| == 1 then parts[0]
    else parts[0] + sep + Join(sep, parts[1..])
  }

  /** Joining the pieces of a split with the separator gives the string back. */
  lemma {:induction false} JoinSplit(s: string, sep: string)
    requires sep != []
    ensures Join(sep, Split(s, sep)) == s
    decreases |s|
  {
    var parts := Split(s, sep);
    if |parts| == 1 {
      assert parts == [s];
    } else {
      var i := IndexOf(s, sep).value;
      var rest := s[i + |sep|..];
      assert parts[0] == s[..i] && parts[1..] == Split(rest, sep);
      JoinSplit(rest, sep);
      JoinStep(sep, parts);
      assert s == s[..i] + sep + rest by { assert s[i..i + |sep|] == sep; }
    }
  }

  /** Joining two or more parts puts the separator after the first. */
  lemma JoinStep(sep: string, parts: seq<string>)
    requires |parts| >= 2
    ensures Join(sep, parts) == parts[0] + sep + Join(sep, parts[1..])
  {
  }

  // ---------------------------------------------------------------------------
  // `s.replace('\\n', '\n')` and its inverse
  // ---------------------------------------------------------------------------

  predicate StartsWithEscapedNewline(s: string) {
    |s| >= 2 && s[0] == '\\' && s[1] == 'n'
  }

  /** A backslash immediately followed by the letter n somewhere in `s`. */
  predicate HasEscapedNewline(s: string) {
    exists i :: 0 <= i < |s| - 1 && s[i] == '\\' && s[i + 1] == 'n'
  }

  /** Python's `s.replace('\\n', '\n')`: every two-character sequence
      backslash-n, scanned left to right without overlap, becomes a newline. */
  function UnescapeNewlines(s: string): (r: string)
    ensures |r| <= |s|
    ensures r == [] <==> s == []
    ensures s != [] ==> r[0] == (if StartsWithEscapedNewline(s) then '\n' else s[0])
  {
    if StartsWithEscapedNewline(s) then "\n" + UnescapeNewlines(s[2..])
    else if s == [] then []
    else [s[0]] + UnescapeNewlines(s[1..])
  }

  /** Text without a backslash-n is left as it is. */
  lemma {:induction false} UnescapeIdentity(s: string)
    requires !HasEscapedNewline(s)
    ensures UnescapeNewlines(s) == s
    decreases |s|
  {
    if s != [] {
      assert !StartsWithEscapedNewline(s) by {
        if |s| >= 2 { assert !(s[0] == '\\' && s[1] == 'n'); }
      }
      assert !HasEscapedNewline(s[1..]) by {
        forall i | 0 <= i < |s[1..]| - 1
          ensures !(s[1..][i] == '\\' && s[1..][i + 1] == 'n')
        {
          assert s[1..][i] == s[i + 1] && s[1..][i + 1] == s[i + 2];
        }
      }
      UnescapeIdentity(s[1..]);
      assert [s[0]] + s[1..] == s;
    }
  }

  /** The reverse substitution, `t.replace('\n', '\\n')`. */
  function EscapeNewlines(t: string): (r: string)
    ensures |r| >= |t|
    ensures t != [] ==> r[0] == (if t[0] == '\n' then '\\' else t[0])
  {
    if t == [] then []
    else if t[0] == '\n' then "\\n" + EscapeNewlines(t[1..])
    else [t[0]] + EscapeNewlines(t[1..])
  }

  /** After the replacement no backslash-n sequence is left. */
  lemma {:induction false} UnescapeLeavesNoEscape(s: string)
    ensures !HasEscapedNewline(UnescapeNewlines(s))
    decreases |s|
  {
    var r := UnescapeNewlines(s);
    if StartsWithEscapedNewline(s) {
      UnescapeLeavesNoEscape(s[2..]);
      var tail := UnescapeNewlines(s[2..]);
      assert r == "\n" + tail;
      forall i | 0 <= i < |r| - 1
        ensures !(r[i] == '\\' && r[i + 1] == 'n')
      {
        if i > 0 {
          assert r[i] == tail[i - 1] && r[i + 1] == tail[i];
        }
      }
    } else if s != [] {
      UnescapeLeavesNoEscape(s[1..]);
      var tail := UnescapeNewlines(s[1..]);
      assert r == [s[0]] + tail;
      forall i | 0 <= i < |r| - 1
        ensures !(r[i] == '\\' && r[i + 1] == 'n')
      {
        if i > 0 {
          assert r[i] == tail[i - 1] && r[i + 1] == tail[i];
        } else if s[0] == '\\' {
          assert tail[0] == (if StartsWithEscapedNewline(s[1..]) then '\n' else s[1]);
        }
      }
    }
  }

  /** Unescaping is undone by escaping, for text that had no newline of its own. */
  lemma {:induction false} EscapeUndoesUnescape(s: string)
    requires '\n' !in s
    ensures EscapeNewlines(UnescapeNewlines(s)) == s
    decreases |s|
  {
    if StartsWithEscapedNewline(s) {
      EscapeUndoesUnescape(s[2..]);
      assert s == "\\n" + s[2..];
    } else if s != [] {
      EscapeUndoesUnescape(s[1..]);
      assert s == [s[0]] + s[1..];
    }
  }

  /** Escaping is undone by unescaping, for text with no backslash-n of its own. */
  lemma {:induction false} UnescapeUndoesEscape(t: string)
    requires !HasEscapedNewline(t)
    ensures UnescapeNewlines(EscapeNewlines(t)) == t
    decreases |t|
  {
    if t != [] {
      var tail := t[1..];
      forall i | 0 <= i < |tail| - 1
        ensures !(tail[i] == '\\' && tail[i + 1] == 'n')
      {
        assert tail[i] == t[i + 1] && tail[i + 1] == t[i + 2];
      }
      UnescapeUndoesEscape(tail);
      var e := EscapeNewlines(t);
      if t[0] == '\n' {
        assert e == "\\n" + EscapeNewlines(tail);
        assert e[2..] == EscapeNewlines(tail);
      } else {
        assert e == [t[0]] + EscapeNewlines(tail);
        if t[0] == '\\' && tail != [] {
          assert tail[0] != 'n';
        }
        assert !StartsWithEscapedNewline(e);
        assert e[1..] == EscapeNewlines(tail);
      }
    }
  }

  // ---------------------------------------------------------------------------
  // Decimal integers: `str(n)` and `int(s)`
  // ---------------------------------------------------------------------------

  predicate IsDigit(c: char) { '0' <= c <= '9' }

  predicate AllDigits(s: string) {
    forall i :: 0 <= i < |s| ==> IsDigit(s[i])
  }

  function DigitChar(d: nat): (c: char)
    requires d < 10
    ensures IsDigit(c) && c as int - '0' as int == d
  {
    ('0' as int + d) as char
  }

  /** `str(n)` for a non-negative integer. */
  function DecimalText(n: nat): (r: string)
    ensures r != [] && AllDigits(r)
  {
    if n < 10 then [DigitChar(n)] else DecimalText(n / 10) + [DigitChar(n % 10)]
  }

  /** `str(i)` for any integer. */
  function IntText(i: int): string {
    if i < 0 then "-" + DecimalText(-i) else DecimalText(i)
  }

  /** The value of a run of decimal digits. */
  function DigitsValue(s: string): nat
    requires AllDigits(s)
  {
    if s == [] then 0 else DigitsValue(s[..|s| - 1]) * 10 + (s[|s| - 1] as int - '0' as int)
  }

  lemma {:induction false} DigitsValueOfText(n: nat)
    ensures DigitsValue(DecimalText(n)) == n
  {
    if n >= 10 {
      DigitsValueOfText(n / 10);
      var t := DecimalText(n);
      assert t[..|t| - 1] == DecimalText(n / 10);
    }
  }

  /** A number from 1000 to 9999 prints as four digits. */
  lemma FourDigitText(n: nat)
    requires 1000 <= n <= 9999
    ensures |DecimalText(n)| == 4
  {
    assert |DecimalText(n / 1000)| == 1;
    assert |DecimalText(n / 100)| == 2;
    assert |DecimalText(n / 10)| == 3;
  }

  /** The characters of `s` other than `_`, in order. */
  function DropUnderscores(s: string): (r: string)
    ensures |r| <= |s|
  {
    if s == [] then [] else (if s[0] == '_' then [] else [s[0]]) + DropUnderscores(s[1..])
  }

  /** Without its underscores, a run of digits and underscores is a run of
      digits; a run of digits alone is left as it is. */
  lemma {:induction false} DropUnderscoresDigits(s: string)
    requires forall i :: 0 <= i < |s| ==> IsDigit(s[i]) || s[i] == '_'
    ensures AllDigits(DropUnderscores(s))
  {
    if s != [] {
      DropUnderscoresDigits(s[1..]);
    }
  }

  /** A run of digits has no underscore to drop. */
  lemma {:induction false} DropUnderscoresKeepsDigits(s: string)
    requires AllDigits(s)
    ensures DropUnderscores(s) == s
  {
    if s != [] {
      DropUnderscoresKeepsDigits(s[1..]);
    }
  }

  /** The digits of a base-10 `int()` literal: ASCII digits, where a single
      underscore may stand between two digits. With digits at both ends and
      no two underscores in a row, every underscore has a digit on each side. */
  predicate DigitGroups(s: string) {
    && s != [] && IsDigit(s[0]) && IsDigit(s[|s| - 1])
    && (forall i :: 0 <= i < |s| ==> IsDigit(s[i]) || s[i] == '_')
    && !Contains(s, "__")
  }

  /** The value of a stripped `int()` literal: an optional sign, then digit
      groups. */
  function ReadLiteral(t: string): (r: Option<int>)
    ensures t != [] && AllDigits(t) ==> r == Some(DigitsValue(t))
  {
    var signed := t != [] && (t[0] == '+' || t[0] == '-');
    var body := if signed then t[1..] else t;
    if DigitGroups(body) then
      DropUnderscoresDigits(body);
      assert t != [] && AllDigits(t) ==> !signed && DropUnderscores(body) == t by {
        if t != [] && AllDigits(t) { assert IsDigit(t[0]); DropUnderscoresKeepsDigits(t); }
      }
      var magnitude: int := DigitsValue(DropUnderscores(body));
      Some(if signed && t[0] == '-' then -magnitude else magnitude)
    else
      assert !(t != [] && AllDigits(t)) by {
        if t != [] && AllDigits(t) { DigitsGroup(t); }
      }
      None
  }

  // ---------------------------------------------------------------------------
  // The whitespace `int()` skips
  // ---------------------------------------------------------------------------

  /** The ASCII information separators U+001C to U+001F: `str.isspace()`
      holds for them, but `int()` does not skip them. */
  predicate IsSeparator(c: char) {
    '\U{1C}' <= c <= '\U{1F}'
  }

  /** The whitespace `int()` skips around its literal: the ASCII blanks
      `\t\n\v\f\r` and space, and every non-ASCII `str.isspace()` character. */
  predicate IsIntSpace(c: char) {
    IsSpace(c) && !IsSeparator(c)
  }

  /** The suffix left after dropping the leading `int()` whitespace. */
  function IntStripLeft(s: string): (r: string)
    ensures |r| <= |s| && r == s[|s| - |r|..]
    ensures forall i :: 0 <= i < |s| - |r| ==> IsIntSpace(s[i])
    ensures r == [] || !IsIntSpace(r[0])
  {
    if s != [] && IsIntSpace(s[0]) then IntStripLeft(s[1..]) else s
  }

  /** The prefix left after dropping the trailing `int()` whitespace. */
  function IntStripRight(s: string): (r: string)
    ensures |r| <= |s| && r == s[..|r|]
    ensures forall i :: |r| <= i < |s| ==> IsIntSpace(s[i])
    ensures r == [] || !IsIntSpace(r[|r| - 1])
  {
    if s != [] && IsIntSpace(s[|s| - 1]) then IntStripRight(s[..|s| - 1]) else s
  }

  /** The text `int()` reads as a literal: the argument without its
      surrounding `int()` whitespace. */
  function IntStrip(s: string): (r: string)
    ensures var lead := |s| - |IntStripLeft(s)|;
      && lead + |r| <= |s|
      && r == s[lead..lead + |r|]
      && (forall i :: 0 <= i < lead ==> IsIntSpace(s[i]))
      && (forall i :: lead + |r| <= i < |s| ==> IsIntSpace(s[i]))
    ensures r == [] || (!IsIntSpace(r[0]) && !IsIntSpace(r[|r| - 1]))
  {
    IntStripRight(IntStripLeft(s))
  }

  /** Text that neither starts nor ends with `int()` whitespace is read as it
      stands. */
  lemma IntStripUnspaced(s: string)
    requires s == [] || (!IsIntSpace(s[0]) && !IsIntSpace(s[|s| - 1]))
    ensures IntStrip(s) == s
  {
  }

  /** Without information separators, `int()` strips exactly what
      `str.strip()` strips. */
  lemma {:induction false} IntStripLeftAgrees(s: string)
    requires forall i :: 0 <= i < |s| ==> !IsSeparator(s[i])
    ensures IntStripLeft(s) == StripLeft(s)
  {
    if s != [] {
      assert IsIntSpace(s[0]) == IsSpace(s[0]);
      IntStripLeftAgrees(s[1..]);
    }
  }

  lemma {:induction false} IntStripRightAgrees(s: string)
    requires forall i :: 0 <= i < |s| ==> !IsSeparator(s[i])
    ensures IntStripRight(s) == StripRight(s)
  {
    if s != [] {
      assert IsIntSpace(s[|s| - 1]) == IsSpace(s[|s| - 1]);
      IntStripRightAgrees(s[..|s| - 1]);
    }
  }

  lemma IntStripAgrees(s: string)
    requires forall i :: 0 <= i < |s| ==> !IsSeparator(s[i])
    ensures IntStrip(s) == Strip(s)
  {
    IntStripLeftAgrees(s);
    var t := StripLeft(s);
    assert forall i :: 0 <= i < |t| ==> t[i] == s[|s| - |t| + i];
    IntStripRightAgrees(t);
  }

  /** Python's `int(s)` on a string: the literal left after stripping the
      surrounding `int()` whitespace. */
  function ParseInt(s: string): (r: Option<int>)
    ensures var t := IntStrip(s); t != [] && AllDigits(t) ==> r == Some(DigitsValue(t))
    ensures IntStrip(s) == [] ==> r.None?
  {
    ReadLiteral(IntStrip(s))
  }

  /** An information separator before the digits makes `int()` fail, though
      `str.strip()` would drop it. */
  lemma SeparatorRejected(c: char, a: string)
    requires IsSeparator(c) && a != [] && AllDigits(a)
    ensures IsSpace(c) && Strip([c] + a) == a
    ensures ParseInt([c] + a) == None
  {
    SeparatorStripped(c, a);
    SeparatorKept(c, a);
  }

  /** `int()` keeps a leading information separator, which no literal starts
      with. */
  lemma SeparatorKept(c: char, a: string)
    requires IsSeparator(c) && a != [] && AllDigits(a)
    ensures ParseInt([c] + a) == None
  {
    SeparatorNotStripped(c, a);
    SeparatorStartsNoLiteral(c, a);
    ParseUnstripped([c] + a);
  }

  lemma SeparatorNotStripped(c: char, a: string)
    requires IsSeparator(c) && a != [] && AllDigits(a)
    ensures IntStrip([c] + a) == [c] + a
  {
    var t := [c] + a;
    assert t[0] == c && t[|t| - 1] == a[|a| - 1] && IsDigit(a[|a| - 1]);
    IntStripUnspaced(t);
  }

  lemma SeparatorStartsNoLiteral(c: char, a: string)
    requires IsSeparator(c) && a != [] && AllDigits(a)
    ensures ReadLiteral([c] + a) == None
  {
    var t := [c] + a;
    assert t[0] == c && !IsDigit(c) && c != '-' && c != '+';
    ReadFails(t);
  }

  /** `str.strip()` drops a leading information separator. */
  lemma SeparatorStripped(c: char, a: string)
    requires IsSeparator(c) && a != [] && AllDigits(a)
    ensures IsSpace(c) && Strip([c] + a) == a
  {
    assert IsDigit(a[0]) && IsDigit(a[|a| - 1]);
    StripUnspaced(a);
    StripIgnoresLeft([c], a);
  }

  /** Text with nothing to strip is read as it stands. */
  lemma ParseUnstripped(t: string)
    requires IntStrip(t) == t
    ensures ParseInt(t) == ReadLiteral(t)
  {
  }

  /** Dropping the underscores of a concatenation drops them from each part. */
  lemma {:induction false} DropUnderscoresAppend(a: string, b: string)
    ensures DropUnderscores(a + b) == DropUnderscores(a) + DropUnderscores(b)
  {
    if a != [] {
      assert (a + b)[0] == a[0] && (a + b)[1..] == a[1..] + b;
      DropUnderscoresAppend(a[1..], b);
    } else {
      assert a + b == b;
    }
  }

  /** An underscore between two runs of digits does not change the value
      `int()` reads: `int("1_000") == int("1000")`. */
  lemma UnderscoreIgnored(a: string, b: string)
    requires a != [] && b != [] && AllDigits(a) && AllDigits(b)
    ensures ParseInt(a + "_" + b) == ParseInt(a + b) == Some(DigitsValue(a + b))
  {
    var u, d := a + "_" + b, a + b;
    var first, last := a[0], b[|b| - 1];
    assert u[0] == first && u[|u| - 1] == last && d[0] == first && d[|d| - 1] == last;
    assert IsDigit(first) && IsDigit(last);
    UnspacedLiteral(u);
    UnspacedLiteral(d);
    UnderscoreChars(a, b);
    NoDoubleUnderscore(a, b);
    UnderscoreDropped(a, b);
    assert DigitGroups(u);
    ReadUnsigned(u);
    assert AllDigits(d);
  }

  /** Digit groups without a sign read as the value of their digits. */
  lemma ReadUnsigned(t: string)
    requires DigitGroups(t)
    ensures AllDigits(DropUnderscores(t))
    ensures ReadLiteral(t) == Some(DigitsValue(DropUnderscores(t)))
  {
    DropUnderscoresDigits(t);
    assert IsDigit(t[0]);
  }

  /** Text that starts with a sign or a digit and ends with a digit needs no
      stripping. */
  lemma UnspacedLiteral(t: string)
    requires t != [] && (IsDigit(t[0]) || t[0] == '-' || t[0] == '+') && IsDigit(t[|t| - 1])
    ensures ParseInt(t) == ReadLiteral(t)
  {
    IntStripUnspaced(t);
  }

  /** Two runs of digits joined by an underscore hold only digits and that
      underscore. */
  lemma UnderscoreChars(a: string, b: string)
    requires AllDigits(a) && AllDigits(b)
    ensures var u := a + "_" + b; forall i :: 0 <= i < |u| ==> IsDigit(u[i]) || u[i] == '_'
  {
    var u := a + "_" + b;
    forall i | 0 <= i < |u|
      ensures IsDigit(u[i]) || u[i] == '_'
    {
      if i < |a| { assert u[i] == a[i]; } else if i > |a| { assert u[i] == b[i - |a| - 1]; }
    }
  }

  /** Two runs of digits joined by one underscore have no `__`. */
  lemma NoDoubleUnderscore(a: string, b: string)
    requires b != [] && AllDigits(a) && AllDigits(b)
    ensures !Contains(a + "_" + b, "__")
  {
    var u := a + "_" + b;
    forall i | 0 <= i <= |u| - 2
      ensures !OccursAt(u, "__", i)
    {
      assert u[i..i + 2][0] == u[i] && u[i..i + 2][1] == u[i + 1];
      if i < |a| {
        assert u[i] == a[i];
      } else if i == |a| {
        assert u[i + 1] == b[0];
      } else {
        assert u[i] == b[i - |a| - 1];
      }
    }
  }

  /** Dropping the underscore joins the two runs. */
  lemma UnderscoreDropped(a: string, b: string)
    requires AllDigits(a) && AllDigits(b)
    ensures DropUnderscores(a + "_" + b) == a + b
  {
    calc {
      DropUnderscores(a + "_" + b);
    == { DropUnderscoresAppend(a + "_", b); }
      DropUnderscores(a + "_") + DropUnderscores(b);
    == { DropUnderscoresAppend(a, "_"); }
      DropUnderscores(a) + DropUnderscores("_") + DropUnderscores(b);
    == { DropUnderscoresKeepsDigits(a); DropUnderscoresKeepsDigits(b); assert DropUnderscores("_") == []; }
      a + [] + b;
    == { assert a + [] == a; }
      a + b;
    }
  }

  /** Two underscores in a row make `int()` fail. */
  lemma DoubledUnderscoreRejected(a: string, b: string)
    requires a != [] && b != [] && AllDigits(a) && AllDigits(b)
    ensures ParseInt(a + "__" + b) == None
  {
    var u := a + "__" + b;
    assert u[0] == a[0] && u[|u| - 1] == b[|b| - 1];
    UnspacedLiteral(u);
    assert !DigitGroups(u) by {
      assert OccursAt(u, "__", |a|) by { assert u[|a|..|a| + 2] == "__"; }
    }
    ReadFails(u);
  }

  /** An underscore before the first digit makes `int()` fail. */
  lemma LeadingUnderscoreRejected(a: string)
    requires a != [] && AllDigits(a)
    ensures ParseInt("_" + a) == None
  {
    var t := "_" + a;
    var first, last := t[0], t[|t| - 1];
    assert first == '_' && last == a[|a| - 1] && IsDigit(last);
    assert !IsIntSpace(first) && !IsIntSpace(last);
    IntStripUnspaced(t);
    assert !DigitGroups(t) by { assert !IsDigit(first); }
    ReadFails(t);
  }

  /** An underscore after the last digit makes `int()` fail. */
  lemma TrailingUnderscoreRejected(a: string)
    requires a != [] && AllDigits(a)
    ensures ParseInt(a + "_") == None
  {
    var t := a + "_";
    var first, last := t[0], t[|t| - 1];
    assert first == a[0] && IsDigit(first) && last == '_';
    assert !IsIntSpace(first) && !IsIntSpace(last);
    IntStripUnspaced(t);
    assert !DigitGroups(t) by { assert !IsDigit(last); }
    ReadFails(t);
  }

  /** Unsigned text that is not digit groups is no literal. */
  lemma ReadFails(t: string)
    requires t != [] && t[0] != '-' && t[0] != '+' && !DigitGroups(t)
    ensures ReadLiteral(t) == None
  {
  }

  /** `int(str(i)) == i`. */
  lemma ParseIntText(i: int)
    ensures ParseInt(IntText(i)) == Some(i)
  {
    var t := IntText(i);
    if i < 0 {
      var n: nat := -i;
      assert t == "-" + DecimalText(n);
      ParseNegativeText(n);
    } else {
      assert t == DecimalText(i);
      ParseDecimalText(i);
    }
  }

  /** `int(str(n)) == n` for a non-negative `n`. */
  lemma ParseDecimalText(n: nat)
    ensures ParseInt(DecimalText(n)) == Some(n)
  {
    var t := DecimalText(n);
    DigitsValueOfText(n);
    assert IsDigit(t[0]) && IsDigit(t[|t| - 1]);
    IntStripUnspaced(t);
  }

  /** `int("-" + str(n)) == -n`. */
  lemma ParseNegativeText(n: nat)
    ensures ParseInt("-" + DecimalText(n)) == Some(-(n as int))
  {
    var digits := DecimalText(n);
    var t := "-" + digits;
    var last := digits[|digits| - 1];
    assert t[0] == '-' && t[|t| - 1] == last && IsDigit(last);
    calc {
      ParseInt(t);
    == { UnspacedLiteral(t); }
      ReadLiteral(t);
    == { ReadNegative(digits); }
      Some(-(DigitsValue(digits) as int));
    == { DigitsValueOfText(n); }
      Some(-(n as int));
    }
  }

  /** A minus sign before a run of digits negates its value. */
  lemma ReadNegative(digits: string)
    requires digits != [] && AllDigits(digits)
    ensures ReadLiteral("-" + digits) == Some(-(DigitsValue(digits) as int))
  {
    var t := "-" + digits;
    assert t != [] && t[0] == '-';
    assert t[1..] == digits;
    DigitsGroup(digits);
    var magnitude: int := DigitsValue(DropUnderscores(digits));
    assert magnitude == DigitsValue(digits);
    assert ReadLiteral(t) == Some(-magnitude);
  }

  /** A non-empty run of digits is one digit group. */
  lemma DigitsGroup(s: string)
    requires s != [] && AllDigits(s)
    ensures DigitGroups(s) && DropUnderscores(s) == s
  {
    DropUnderscoresKeepsDigits(s);
    forall i | 0 <= i <= |s| - 2
      ensures !OccursAt(s, "__", i)
    {
      assert s[i..i + 2][0] == s[i];
    }
  }
}

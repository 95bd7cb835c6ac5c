/** The string primitives of JavaScript that the modelled code relies on:
    `trim`, `startsWith`, `split` with a one-character separator, `join`
    and the decimal rendering of integers. Characters are Unicode scalar
    values; JavaScript's UTF-16 code units are not modelled. */
module Strings {

  /** The characters `String.prototype.trim` removes: ECMAScript's
      WhiteSpace (TAB, VT, FF, ZWNBSP and the Zs category) and its
      LineTerminator characters (LF, CR, LS, PS). */
  predicate IsSpace(c: char) {
    c == ' ' || c == '\t' || c == '\n' || c == '\r'
    || c == '\U{000B}' || c == '\U{000C}' || c == '\U{00A0}' || c == '\U{FEFF}'
    || c == '\U{1680}' || ('\U{2000}' <= c <= '\U{200A}') || c == '\U{2028}'
    || c == '\U{2029}' || c == '\U{202F}' || c == '\U{205F}' || c == '\U{3000}'
  }

  /** `s.trim() === ""`: the text holds white space only (or nothing). */
  predicate IsBlank(s: string) {
    forall i :: 0 <= i < |s| ==> IsSpace(s[i])
  }

  /** Leading white space removed, as `parseInt` does before reading digits. */
  function TrimStart(s: string): (r: string)
    ensures |r| <= |s| && r == s[|s| - |r|..]
    ensures IsBlank(s[..|s| - |r|])
    ensures r == [] || !IsSpace(r[0])
  {
    if s != [] && IsSpace(s[0]) then TrimStart(s[1..]) else s
  }

  predicate StartsWith(s: string, prefix: string) {
    |prefix| <= |s| && s[..|prefix|] == prefix
  }

  predicate EndsWith(s: string, suffix: string) {
    |suffix| <= |s| && s[|s| - |suffix|..] == suffix
  }

  /** Number of occurrences of `c` in `s`. */
  function Occurrences(s: string, c: char): nat {
    if s == [] then 0 else (if s[0] == c then 1 else 0) + Occurrences(s[1..], c)
  }

  /** `s.split(sep)` for a one-character separator: the maximal pieces
      between separators, an empty piece where two separators touch or at
      either end. The empty string splits into one empty piece. */
  function Split(s: string, sep: char): (parts: seq<string>)
    ensures |parts| >= 1
  {
    if s == [] then [""]
    else
      var rest := Split(s[1..], sep);
      if s[0] == sep then [""] + rest else [[s[0]] + rest[0]] + rest[1..]
  }

  /** `parts.join(sep)`. */
  function Join(parts: seq<string>, sep: string): string {
    if parts == [] then ""
    else if |parts| == 1 then parts[0]
    else parts[0] + sep + Join(parts[1..], sep)
  }

  /** Joining pieces that lack a character, with a separator that lacks
      it, gives text that lacks it. */
  lemma {:induction false} JoinWithout(parts: seq<string>, sep: string, c: char)
    requires forall i :: 0 <= i < |parts| ==> c !in parts[i]
    requires c !in sep
    ensures c !in Join(parts, sep)
  {
    if |parts| > 1 {
      JoinWithout(parts[1..], sep, c);
    }
  }

  /** Splitting yields one more piece than there are separators. */
  lemma {:induction false} SplitCount(s: string, sep: char)
    ensures |Split(s, sep)| == Occurrences(s, sep) + 1
  {
    if s != [] {
      SplitCount(s[1..], sep);
    }
  }

  /** No piece of a split contains the separator. */
  lemma {:induction false} SplitPiecesFree(s: string, sep: char)
    ensures forall p :: p in Split(s, sep) ==> sep !in p
  {
    if s != [] {
      SplitPiecesFree(s[1..], sep);
      var rest := Split(s[1..], sep);
      if s[0] != sep {
        forall p | p in Split(s, sep) ensures sep !in p {
          if p != [s[0]] + rest[0] {
            assert p in rest[1..];
          }
        }
      }
    }
  }

  /** Joining the pieces with the separator gives the text back. */
  lemma {:induction false} SplitJoin(s: string, sep: char)
    ensures Join(Split(s, sep), [sep]) == s
  {
    if s != [] {
      SplitJoin(s[1..], sep);
      var rest := Split(s[1..], sep);
      if s[0] != sep {
        if |rest| == 1 {
          assert Join(Split(s, sep), [sep]) == [s[0]] + rest[0];
        } else {
          assert Join(Split(s, sep), [sep]) == [s[0]] + rest[0] + [sep] + Join(rest[1..], [sep]);
        }
      }
    }
  }

  /** A text without the separator splits into itself alone. */
  lemma {:induction false} SplitWithout(s: string, sep: char)
    requires sep !in s
    ensures Split(s, sep) == [s]
  {
    if s != [] {
      assert sep !in s[1..];
      SplitWithout(s[1..], sep);
      assert [s[0]] + s[1..] == s;
    }
  }

  /** What appending `c` does to the pieces `p` of a split. */
  function SplitAppend(p: seq<string>, c: char, sep: char): seq<string>
    requires |p| >= 1
  {
    if c == sep then p + [""] else p[..|p| - 1] + [p[|p| - 1] + [c]]
  }

  /** Appending one character either opens a new, empty piece (the
      separator) or extends the last piece. */
  lemma {:induction false} SplitSnoc(a: string, c: char, sep: char)
    ensures Split(a + [c], sep) == SplitAppend(Split(a, sep), c, sep)
  {
    if a == [] {
      assert a + [c] == [c];
      assert [c][1..] == [];
      assert Split([], sep) == [""];
      if c != sep {
        assert Split([c], sep) == [[c] + ""] + [""][1..];
        assert [c] + "" == [c];
      }
    } else {
      assert (a + [c])[1..] == a[1..] + [c];
      SplitSnoc(a[1..], c, sep);
      if a[0] == sep {
        SplitSnocAfterSep(a, c, sep);
      } else {
        SplitSnocInPiece(a, c, sep);
      }
    }
  }

  /** The inductive step of `SplitSnoc` when the text opens with the
      separator. */
  lemma {:induction false} SplitSnocAfterSep(a: string, c: char, sep: char)
    requires a != [] && a[0] == sep
    requires Split(a[1..] + [c], sep) == SplitAppend(Split(a[1..], sep), c, sep)
    ensures Split(a + [c], sep) == SplitAppend(Split(a, sep), c, sep)
  {
    var r := Split(a[1..], sep);
    var p := [""] + r;
    assert (a + [c])[1..] == a[1..] + [c] && (a + [c])[0] == sep;
    assert Split(a + [c], sep) == [""] + SplitAppend(r, c, sep);
    assert Split(a, sep) == p;
    if c == sep {
      assert [""] + (r + [""]) == p + [""];
    } else {
      assert p[..|p| - 1] == [""] + r[..|r| - 1] && p[|p| - 1] == r[|r| - 1];
      assert [""] + (r[..|r| - 1] + [r[|r| - 1] + [c]]) == ([""] + r[..|r| - 1]) + [r[|r| - 1] + [c]];
    }
  }

  /** The inductive step of `SplitSnoc` when the text opens inside its
      first piece. */
  lemma {:induction false} SplitSnocInPiece(a: string, c: char, sep: char)
    requires a != [] && a[0] != sep
    requires Split(a[1..] + [c], sep) == SplitAppend(Split(a[1..], sep), c, sep)
    ensures Split(a + [c], sep) == SplitAppend(Split(a, sep), c, sep)
  {
    var r := Split(a[1..], sep);
    var r' := SplitAppend(r, c, sep);
    assert (a + [c])[1..] == a[1..] + [c] && (a + [c])[0] == a[0];
    assert Split(a + [c], sep) == [[a[0]] + r'[0]] + r'[1..];
    assert Split(a, sep) == [[a[0]] + r[0]] + r[1..];
    SplitAppendOpened(a[0], r, c, sep);
  }

  /** Appending to the pieces commutes with putting a character in front
      of the first piece. */
  lemma {:induction false} SplitAppendOpened(x: char, r: seq<string>, c: char, sep: char)
    requires |r| >= 1
    ensures var r' := SplitAppend(r, c, sep);
            |r'| >= 1 && [[x] + r'[0]] + r'[1..] == SplitAppend([[x] + r[0]] + r[1..], c, sep)
  {
    var r' := SplitAppend(r, c, sep);
    var p := [[x] + r[0]] + r[1..];
    if c == sep {
      assert r' == r + [""];
      assert r'[0] == r[0] && r'[1..] == r[1..] + [""];
      assert [[x] + r[0]] + (r[1..] + [""]) == p + [""];
    } else if |r| > 1 {
      assert r' == r[..|r| - 1] + [r[|r| - 1] + [c]];
      assert r'[0] == r[0];
      assert r'[1..] == r[1..|r| - 1] + [r[|r| - 1] + [c]];
      assert p[..|p| - 1] == [[x] + r[0]] + r[1..|r| - 1] && p[|p| - 1] == r[|r| - 1];
      assert [[x] + r[0]] + (r[1..|r| - 1] + [r[|r| - 1] + [c]])
             == ([[x] + r[0]] + r[1..|r| - 1]) + [r[|r| - 1] + [c]];
    } else {
      assert r' == [r[0] + [c]];
      assert p == [[x] + r[0]];
      assert [x] + (r[0] + [c]) == ([x] + r[0]) + [c];
    }
  }

  /** A first piece free of the separator splits off on its own. */
  lemma {:induction false} SplitFirst(a: string, b: string, sep: char)
    requires sep !in a
    ensures Split(a + [sep] + b, sep) == [a] + Split(b, sep)
  {
    if a == [] {
      assert a + [sep] + b == [sep] + b;
      assert ([sep] + b)[1..] == b;
    } else {
      assert (a + [sep] + b)[1..] == a[1..] + [sep] + b;
      assert sep !in a[1..];
      SplitFirst(a[1..], b, sep);
      assert [a[0]] + a[1..] == a;
    }
  }

  /** The text after the last separator: `s.split(sep).pop()`. */
  function LastPiece(s: string, sep: char): (r: string)
    ensures sep !in r
    ensures EndsWith(s, r)
    ensures |r| < |s| ==> s[|s| - |r| - 1] == sep
  {
    if s == [] then ""
    else if s[|s| - 1] == sep then ""
    else
      var init, last := s[..|s| - 1], s[|s| - 1];
      var r := LastPiece(init, sep);
      assert s == init + [last];
      assert s[|s| - |r| - 1..] == init[|init| - |r|..] + [last];
      assert |r| < |init| ==> s[|s| - |r| - 2] == init[|init| - |r| - 1];
      r + [last]
  }

  /** `LastPiece` is the last element of `Split`. */
  lemma {:induction false} LastPieceIsLastSplit(s: string, sep: char)
    ensures LastPiece(s, sep) == Split(s, sep)[|Split(s, sep)| - 1]
    decreases |s|
  {
    if s != [] {
      var a := s[..|s| - 1];
      assert s == a + [s[|s| - 1]];
      SplitSnoc(a, s[|s| - 1], sep);
      LastPieceIsLastSplit(a, sep);
    }
  }

  function DigitChar(d: nat): char
    requires d < 16
  {
    "0123456789abcdef"[d]
  }

  /** Decimal rendering of a natural number, most significant digit first. */
  function NatToString(n: nat): (r: string)
    ensures |r| >= 1
    ensures forall i :: 0 <= i < |r| ==> '0' <= r[i] <= '9'
    decreases n
  {
    if n < 10 then [DigitChar(n)] else NatToString(n / 10) + [DigitChar(n % 10)]
  }

  /** `String(i)` for an integer: a minus sign, then the digits. */
  function IntToString(i: int): string {
    if i < 0 then "-" + NatToString(-i) else NatToString(i)
  }

  /** The value of a run of digits in the given radix. */
  function DigitValue(c: char): nat {
    if '0' <= c <= '9' then (c as int - '0' as int) as nat
    else if 'a' <= c <= 'z' then (c as int - 'a' as int + 10) as nat
    else if 'A' <= c <= 'Z' then (c as int - 'A' as int + 10) as nat
    else 36
  }

  predicate IsDigit(c: char, radix: nat) {
    DigitValue(c) < radix
  }

  function DigitsValue(ds: string, radix: nat): nat {
    if ds == [] then 0
    else DigitsValue(ds[..|ds| - 1], radix) * radix + DigitValue(ds[|ds| - 1])
  }

  /** The longest prefix of `s` made of digits of the radix. */
  function DigitPrefix(s: string, radix: nat): (r: string)
    ensures |r| <= |s| && r == s[..|r|]
    ensures forall i :: 0 <= i < |r| ==> IsDigit(r[i], radix)
    ensures |r| < |s| ==> !IsDigit(s[|r|], radix)
  {
    if s != [] && IsDigit(s[0], radix) then [s[0]] + DigitPrefix(s[1..], radix) else ""
  }

  /** A decimal digit reads back as its value. */
  lemma {:induction false} DigitCharValue(d: nat)
    requires d < 10
    ensures DigitValue(DigitChar(d)) == d
  {
    var digits := "0123456789abcdef";
    assert digits[0] == '0' && digits[1] == '1' && digits[2] == '2' && digits[3] == '3' && digits[4] == '4';
    assert digits[5] == '5' && digits[6] == '6' && digits[7] == '7' && digits[8] == '8' && digits[9] == '9';
  }

  /** Reading back the decimal rendering of `n` gives `n`. */
  lemma {:induction false} NatToStringValue(n: nat)
    ensures DigitsValue(NatToString(n), 10) == n
    decreases n
  {
    var s := NatToString(n);
    if n < 10 {
      DigitCharValue(n);
      assert s[..|s| - 1] == [];
    } else {
      NatToStringValue(n / 10);
      DigitCharValue(n % 10);
      assert s[..|s| - 1] == NatToString(n / 10) && s[|s| - 1] == DigitChar(n % 10);
      assert DigitsValue(s, 10) == (n / 10) * 10 + n % 10;
    }
  }

  /** A text made only of decimal digits is its own digit prefix. */
  lemma {:induction false} AllDigitsPrefix(s: string)
    requires forall i :: 0 <= i < |s| ==> '0' <= s[i] <= '9'
    ensures DigitPrefix(s, 10) == s
  {
    if s != [] {
      AllDigitsPrefix(s[1..]);
    }
  }
}

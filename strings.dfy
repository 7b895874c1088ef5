/**
 * The string operations the bot applies to button data and to names:
 * `split`, `join`, ASCII upper-casing, decimal rendering of numbers and the
 * title-casing of subscription names.
 */
module Strings {
  import opened Wrappers

  /** JavaScript's `s.split(sep)` for a one-character separator. */
  function Split(s: string, sep: char): (parts: seq<string>)
    ensures |parts| >= 1
    ensures forall i :: 0 <= i < |parts| ==> sep !in parts[i]
    decreases |s|
  {
    if s == [] then [""]
    else
      var rest := Split(s[1..], sep);
      if s[0] == sep then [""] + rest
      else [[s[0]] + rest[0]] + rest[1..]
  }

  /** JavaScript's `parts.join(sep)`. */
  function Join(parts: seq<string>, sep: string): string
  {
    if parts == [] then ""
    else if |parts| == 1 then parts[0]
    else parts[0] + sep + Join(parts[1..], sep)
  }

  /** Joining one more part adds the separator and that part at the end. */
  lemma {:induction false} JoinSnoc(parts: seq<string>, p: string, sep: string)
    requires parts != []
    ensures Join(parts + [p], sep) == Join(parts, sep) + sep + p
    decreases |parts|
  {
    if |parts| == 1 {
      assert (parts + [p])[1..] == [p];
    } else {
      assert (parts + [p])[1..] == parts[1..] + [p];
      JoinSnoc(parts[1..], p, sep);
    }
  }

  /** The pieces written one after the other (a string built up with `+=`). */
  function Concat(pieces: seq<string>): string
    decreases |pieces|
  {
    if pieces == [] then "" else Concat(pieces[..|pieces| - 1]) + pieces[|pieces| - 1]
  }

  lemma {:induction false} ConcatAppend(a: seq<string>, b: seq<string>)
    ensures Concat(a + b) == Concat(a) + Concat(b)
    decreases |b|
  {
    if b == [] {
      assert a + b == a;
    } else {
      var ab := a + b;
      assert ab[..|ab| - 1] == a + b[..|b| - 1] && ab[|ab| - 1] == b[|b| - 1];
      ConcatAppend(a, b[..|b| - 1]);
    }
  }

  /** Field `i` of a destructured split (`const [, a, b] = s.split("_")`). */
  function Field(parts: seq<string>, i: nat): (r: Option<string>)
    ensures r.Some? <==> i < |parts|
  {
    if i < |parts| then Some(parts[i]) else None
  }

  /** Joining the pieces of a split with the separator gives the string back. */
  lemma {:induction false} JoinSplit(s: string, sep: char)
    ensures Join(Split(s, sep), [sep]) == s
    decreases |s|
  {
    if s != [] {
      var rest := Split(s[1..], sep);
      JoinSplit(s[1..], sep);
      if s[0] == sep {
        assert ([""] + rest)[1..] == rest;
      } else if |rest| > 1 {
        assert ([[s[0]] + rest[0]] + rest[1..])[1..] == rest[1..];
        assert s == [s[0]] + s[1..];
      } else {
        assert s == [s[0]] + s[1..];
      }
    }
  }

  /** A string without the separator splits into itself alone. */
  lemma {:induction false} SplitNoSeparator(a: string, sep: char)
    requires sep !in a
    ensures Split(a, sep) == [a]
    decreases |a|
  {
    if a != [] {
      SplitNoSeparator(a[1..], sep);
      assert a == [a[0]] + a[1..];
    }
  }

  /** The first separator in `a + [sep] + b` cuts off `a` as the first field. */
  lemma {:induction false} SplitAtFirst(a: string, sep: char, b: string)
    requires sep !in a
    ensures Split(a + [sep] + b, sep) == [a] + Split(b, sep)
    decreases |a|
  {
    var s := a + [sep] + b;
    if a == [] {
      assert s[1..] == b;
    } else {
      assert s[1..] == a[1..] + [sep] + b;
      SplitAtFirst(a[1..], sep, b);
      assert a == [a[0]] + a[1..];
    }
  }

  /** The three underscore-separated fields of `tag_x_y` when `x` and `y` hold no underscore. */
  lemma ThreeFields(tag: string, x: string, y: string)
    requires '_' !in tag && '_' !in x && '_' !in y
    ensures Split(tag + "_" + x + "_" + y, '_') == [tag, x, y]
  {
    assert tag + "_" + x + "_" + y == tag + ['_'] + (x + ['_'] + y);
    SplitAtFirst(tag, '_', x + ['_'] + y);
    SplitAtFirst(x, '_', y);
    SplitNoSeparator(y, '_');
  }

  /** The first position of `c` in `s`. */
  function IndexOf(s: string, c: char): (k: nat)
    requires c in s
    ensures k < |s| && s[k] == c && c !in s[..k]
  {
    if s[0] == c then 0
    else
      var k := IndexOf(s[1..], c);
      assert s[..k + 1] == [s[0]] + s[1..][..k];
      k + 1
  }

  // ---------------------------------------------------------------------
  // Decimal rendering (`${n}` and `n.toString()` for integers)
  // ---------------------------------------------------------------------

  predicate IsDigit(c: char) { '0' <= c <= '9' }

  predicate AllDigits(s: string) { forall i :: 0 <= i < |s| ==> IsDigit(s[i]) }

  function DigitChar(d: nat): (c: char)
    requires d < 10
    ensures IsDigit(c)
  {
    ('0' as int + d) as char
  }

  function NatToString(n: nat): (r: string)
    ensures |r| >= 1 && AllDigits(r)
    decreases n
  {
    if n < 10 then [DigitChar(n)]
    else NatToString(n / 10) + [DigitChar(n % 10)]
  }

  /** Decimal form of an integer, with a leading `-` when it is negative. */
  function IntToString(i: int): (r: string)
    ensures |r| >= 1
    ensures forall k :: 0 <= k < |r| ==> IsDigit(r[k]) || r[k] == '-'
    ensures '_' !in r
  {
    if i < 0 then "-" + NatToString(-i) else NatToString(i)
  }

  /** Reference reading of decimal text: the number a string of digits denotes. */
  function DigitValue(c: char): int
  {
    c as int - '0' as int
  }

  function DecimalValue(s: string): int
    decreases |s|
  {
    if s == [] then 0 else DecimalValue(s[..|s| - 1]) * 10 + DigitValue(s[|s| - 1])
  }

  /** Reads an optional `-` followed by digits. */
  function IntValue(s: string): int
  {
    if s != [] && s[0] == '-' then -DecimalValue(s[1..]) else DecimalValue(s)
  }

  /** The digits written for `n` denote `n`. */
  lemma {:induction false} NatToStringValue(n: nat)
    ensures DecimalValue(NatToString(n)) == n
    decreases n
  {
    var r := NatToString(n);
    if n < 10 {
      assert r[..0] == [];
    } else {
      NatToStringValue(n / 10);
      assert r[..|r| - 1] == NatToString(n / 10);
    }
  }

  /** Reading back the decimal form of an integer gives the integer. */
  lemma IntToStringValue(i: int)
    ensures IntValue(IntToString(i)) == i
  {
    if i < 0 {
      NatToStringValue(-i);
      assert IntToString(i)[1..] == NatToString(-i);
    } else {
      NatToStringValue(i);
      assert IsDigit(NatToString(i)[0]);
    }
  }

  /** Different integers are written differently. */
  lemma IntToStringInjective(a: int, b: int)
    ensures IntToString(a) == IntToString(b) <==> a == b
  {
    IntToStringValue(a);
    IntToStringValue(b);
  }

  // ---------------------------------------------------------------------
  // Case conversion (ASCII letters only)
  // ---------------------------------------------------------------------

  function UpperChar(c: char): char
  {
    if 'a' <= c <= 'z' then (c as int - 'a' as int + 'A' as int) as char else c
  }

  /** `s.toUpperCase()` restricted to ASCII letters. */
  function UpperAscii(s: string): (r: string)
    ensures |r| == |s|
    ensures forall i :: 0 <= i < |s| ==> r[i] == UpperChar(s[i])
  {
    seq(|s|, i requires 0 <= i < |s| => UpperChar(s[i]))
  }

  /** `s.replace(/<from>/g, to)` for single characters. */
  function ReplaceChar(s: string, from: char, to: char): (r: string)
    ensures |r| == |s|
    ensures forall i :: 0 <= i < |s| ==> r[i] == if s[i] == from then to else s[i]
  {
    seq(|s|, i requires 0 <= i < |s| => if s[i] == from then to else s[i])
  }

  /** `w.charAt(0).toUpperCase() + w.slice(1)`. */
  function CapitalizeFirst(w: string): string
  {
    if w == [] then [] else [UpperChar(w[0])] + w[1..]
  }

  function CapitalizeAll(words: seq<string>): (r: seq<string>)
    ensures |r| == |words|
    ensures forall i :: 0 <= i < |words| ==> r[i] == CapitalizeFirst(words[i])
  {
    seq(|words|, i requires 0 <= i < |words| => CapitalizeFirst(words[i]))
  }

  /** Reference definition: upper-case exactly the characters that start a space-separated word. */
  function UpperWordStarts(m: string): (r: string)
    ensures |r| == |m|
    ensures forall i :: 0 <= i < |m| ==> r[i] == if i == 0 || m[i - 1] == ' ' then UpperChar(m[i]) else m[i]
  {
    seq(|m|, i requires 0 <= i < |m| => if i == 0 || m[i - 1] == ' ' then UpperChar(m[i]) else m[i])
  }

  /** Within one word, capitalising the first character is the reference definition. */
  lemma CapitalizeWord(a: string)
    requires ' ' !in a
    ensures CapitalizeFirst(a) == UpperWordStarts(a)
  {
    if a != [] {
      forall i | 0 < i < |a| ensures CapitalizeFirst(a)[i] == UpperWordStarts(a)[i] {
        assert a[i - 1] in a;
      }
    }
  }

  /** The reference definition on `a + " " + b` works word by word. */
  lemma UpperWordStartsAtSpace(a: string, b: string)
    requires ' ' !in a
    ensures UpperWordStarts(a + " " + b) == UpperWordStarts(a) + " " + UpperWordStarts(b)
  {
    var m := a + " " + b;
    var lhs, rhs := UpperWordStarts(m), UpperWordStarts(a) + " " + UpperWordStarts(b);
    forall i | 0 <= i < |m| ensures lhs[i] == rhs[i] {
      if i < |a| {
        assert m[i] == a[i];
        if i > 0 { assert m[i - 1] == a[i - 1]; }
      } else if i > |a| + 1 {
        assert m[i - 1] == b[i - |a| - 2];
        assert m[i] == b[i - |a| - 1];
      }
    }
  }

  lemma JoinCons(x: string, rest: seq<string>, sep: string)
    requires rest != []
    ensures Join([x] + rest, sep) == x + sep + Join(rest, sep)
  {
    assert ([x] + rest)[1..] == rest;
  }

  /** Split / capitalise / join on spaces agrees with the reference definition. */
  lemma {:induction false} CapitalizeWordsIsUpperWordStarts(m: string)
    ensures Join(CapitalizeAll(Split(m, ' ')), " ") == UpperWordStarts(m)
    decreases |m|
  {
    if ' ' !in m {
      SplitNoSeparator(m, ' ');
      assert CapitalizeAll([m]) == [CapitalizeFirst(m)];
      CapitalizeWord(m);
    } else {
      var k := IndexOf(m, ' ');
      var a, b := m[..k], m[k + 1..];
      assert m == a + [' '] + b;
      SplitAtFirst(a, ' ', b);
      var tail := Split(b, ' ');
      assert CapitalizeAll([a] + tail) == [CapitalizeFirst(a)] + CapitalizeAll(tail);
      JoinCons(CapitalizeFirst(a), CapitalizeAll(tail), " ");
      CapitalizeWordsIsUpperWordStarts(b);
      CapitalizeWord(a);
      UpperWordStartsAtSpace(a, b);
    }
  }

  /**
   * How a subscription name is displayed:
   * `name.replace(/_/g, " ").split(" ").map(capitalize).join(" ")`.
   * Title-casing keeps the length; an underscore becomes a space; a character that
   * starts the name or follows a space or underscore is upper-cased; every other
   * character is kept as it is.
   */
  function TitleCase(name: string): (r: string)
    ensures |r| == |name|
    ensures forall i :: 0 <= i < |name| ==>
      r[i] == (if name[i] == '_' then ' '
               else if i == 0 || name[i - 1] == '_' || name[i - 1] == ' ' then UpperChar(name[i])
               else name[i])
  {
    CapitalizeWordsIsUpperWordStarts(ReplaceChar(name, '_', ' '));
    Join(CapitalizeAll(Split(ReplaceChar(name, '_', ' '), ' ')), " ")
  }
}

/** The Python string operations the bot relies on: `str.split()`, `str.split(sep)`,
    `sep.join(...)`, `str.replace` on one character, `str(int)` and the `,` option of
    the format mini-language (PEP 378). */
module Text {
  import opened Wrappers

  // ---------------------------------------------------------------------------
  // Characters

  /** The characters Python's `str.isspace()` accepts; `str.split()` splits on runs of them. */
  predicate IsSpace(c: char) {
    var n := c as int;
    n == 0x20 || 0x09 <= n <= 0x0D || 0x1C <= n <= 0x1F || n == 0x85 || n == 0xA0 ||
    n == 0x1680 || 0x2000 <= n <= 0x200A || n == 0x2028 || n == 0x2029 || n == 0x202F ||
    n == 0x205F || n == 0x3000
  }

  predicate IsDigit(c: char) {
    '0' <= c <= '9'
  }

  predicate AllDigits(s: string) {
    forall i :: 0 <= i < |s| ==> IsDigit(s[i])
  }

  /** `s.replace(from, to)` for single characters. */
  function ReplaceChar(s: string, from: char, to: char): (r: string)
    ensures |r| == |s|
    ensures forall i :: 0 <= i < |s| ==> r[i] == if s[i] == from then to else s[i]
  {
    seq(|s|, i requires 0 <= i < |s| => if s[i] == from then to else s[i])
  }

  /** Replacing `from` by a character the text did not contain, and then that character
      back by `from`, gives the original text: nothing but the `from` positions changed. */
  lemma ReplaceCharBack(s: string, from: char, to: char)
    requires to !in s
    ensures ReplaceChar(ReplaceChar(s, from, to), to, from) == s
  {
    var r := ReplaceChar(ReplaceChar(s, from, to), to, from);
    assert forall i :: 0 <= i < |s| ==> r[i] == s[i];
  }

  /** After replacing every `from` by a different character, no `from` is left. */
  lemma ReplaceCharRemoves(s: string, from: char, to: char)
    requires from != to
    ensures from !in ReplaceChar(s, from, to)
  {
  }

  /** `s.replace(c, "")`. */
  function RemoveChar(s: string, c: char): (r: string)
    ensures c !in r
    ensures |r| <= |s|
    decreases |s|
  {
    if s == [] then [] else (if s[0] == c then [] else [s[0]]) + RemoveChar(s[1..], c)
  }

  lemma {:induction false} RemoveCharAppend(a: string, b: string, c: char)
    ensures RemoveChar(a + b, c) == RemoveChar(a, c) + RemoveChar(b, c)
    decreases |a|
  {
    if a == [] {
      assert a + b == b;
    } else {
      var head := if a[0] == c then [] else [a[0]];
      assert (a + b)[0] == a[0];
      assert (a + b)[1..] == a[1..] + b;
      calc {
        RemoveChar(a + b, c);
        head + RemoveChar(a[1..] + b, c);
        { RemoveCharAppend(a[1..], b, c); }
        head + (RemoveChar(a[1..], c) + RemoveChar(b, c));
        (head + RemoveChar(a[1..], c)) + RemoveChar(b, c);
        RemoveChar(a, c) + RemoveChar(b, c);
      }
    }
  }

  lemma {:induction false} RemoveCharAbsent(s: string, c: char)
    requires c !in s
    ensures RemoveChar(s, c) == s
    decreases |s|
  {
    if s != [] {
      RemoveCharAbsent(s[1..], c);
    }
  }

  lemma ReplaceCharAppend(a: string, b: string, from: char, to: char)
    ensures ReplaceChar(a + b, from, to) == ReplaceChar(a, from, to) + ReplaceChar(b, from, to)
  {
  }

  /** Number of occurrences of `c` in `s`. */
  function CountChar(s: string, c: char): nat
    decreases |s|
  {
    if s == [] then 0 else (if s[0] == c then 1 else 0) + CountChar(s[1..], c)
  }

  lemma {:induction false} CountCharAppend(a: string, b: string, c: char)
    ensures CountChar(a + b, c) == CountChar(a, c) + CountChar(b, c)
    decreases |a|
  {
    if a == [] {
      assert a + b == b;
    } else {
      assert (a + b)[1..] == a[1..] + b;
      CountCharAppend(a[1..], b, c);
    }
  }

  lemma {:induction false} CountCharAbsent(s: string, c: char)
    requires c !in s
    ensures CountChar(s, c) == 0
    decreases |s|
  {
    if s != [] {
      CountCharAbsent(s[1..], c);
    }
  }

  // ---------------------------------------------------------------------------
  // Joining and splitting

  /** `sep.join(parts)`. */
  function Join(parts: seq<string>, sep: string): string
    decreases |parts|
  {
    if parts == [] then ""
    else if |parts| == 1 then parts[0]
    else parts[0] + sep + Join(parts[1..], sep)
  }

  /** A token of `str.split()`: non-empty and free of whitespace. */
  predicate IsWord(t: string) {
    |t| > 0 && forall i :: 0 <= i < |t| ==> !IsSpace(t[i])
  }

  /** The length of the longest whitespace-free prefix of `s`. */
  function WordLen(s: string): (k: nat)
    ensures k <= |s|
    ensures forall i :: 0 <= i < k ==> !IsSpace(s[i])
    ensures k < |s| ==> IsSpace(s[k])
    decreases |s|
  {
    if s == [] || IsSpace(s[0]) then 0 else 1 + WordLen(s[1..])
  }

  /** `s.split()`: the maximal runs of non-whitespace characters, left to right. */
  function Words(s: string): (ts: seq<string>)
    ensures forall i :: 0 <= i < |ts| ==> IsWord(ts[i])
    decreases |s|
  {
    if s == [] then []
    else if IsSpace(s[0]) then Words(s[1..])
    else
      var k := WordLen(s);
      [s[..k]] + Words(s[k..])
  }

  lemma {:induction false} WordLenOfWordThen(t: string, rest: string)
    requires forall i :: 0 <= i < |t| ==> !IsSpace(t[i])
    requires rest == [] || IsSpace(rest[0])
    ensures WordLen(t + rest) == |t|
    decreases |t|
  {
    if t == [] {
      assert t + rest == rest;
    } else {
      assert (t + rest)[1..] == t[1..] + rest;
      WordLenOfWordThen(t[1..], rest);
    }
  }

  /** The tokens of a whitespace-free word followed by the rest. */
  lemma WordsOfWordThen(t: string, rest: string)
    requires IsWord(t)
    requires rest == [] || IsSpace(rest[0])
    ensures Words(t + rest) == [t] + Words(rest)
  {
    var s := t + rest;
    WordLenOfWordThen(t, rest);
    assert s[..|t|] == t;
    assert s[|t|..] == rest;
  }

  /** Splitting words joined by single spaces gives the words back. */
  lemma {:induction false} WordsOfJoin(ts: seq<string>)
    requires forall i :: 0 <= i < |ts| ==> IsWord(ts[i])
    ensures Words(Join(ts, " ")) == ts
    decreases |ts|
  {
    if ts == [] {
    } else if |ts| == 1 {
      WordsOfWordThen(ts[0], "");
      assert ts[0] + "" == ts[0];
    } else {
      var rest := Join(ts[1..], " ");
      WordsOfWordThen(ts[0], " " + rest);
      assert ts[0] + " " + rest == ts[0] + (" " + rest);
      assert (" " + rest)[1..] == rest;
      WordsOfJoin(ts[1..]);
      assert [ts[0]] + ts[1..] == ts;
    }
  }

  /** `pat` occurs in `s` starting at index `i`. */
  predicate OccursAt(s: string, pat: string, i: nat) {
    i + |pat| <= |s| && s[i..i + |pat|] == pat
  }

  predicate Contains(s: string, pat: string) {
    exists i: nat :: i <= |s| && OccursAt(s, pat, i)
  }

  /** The first index at or after `i` where `pat` occurs in `s`, if any. */
  function FindFrom(s: string, pat: string, i: nat): (r: Option<nat>)
    requires i <= |s|
    ensures r.Some? ==> i <= r.value && OccursAt(s, pat, r.value)
    ensures r.Some? ==> forall j: nat :: i <= j < r.value ==> !OccursAt(s, pat, j)
    ensures r.None? ==> forall j: nat :: i <= j <= |s| ==> !OccursAt(s, pat, j)
    decreases |s| - i
  {
    if i + |pat| > |s| then None
    else if s[i..i + |pat|] == pat then Some(i)
    else if i == |s| then None
    else FindFrom(s, pat, i + 1)
  }

  /** `s.split(sep)` for a non-empty separator: the pieces between the non-overlapping
      occurrences of `sep`, found left to right. */
  function SplitOn(s: string, sep: string): (pieces: seq<string>)
    requires |sep| > 0
    ensures |pieces| >= 1
    ensures Join(pieces, sep) == s
    ensures forall k :: 0 <= k < |pieces| ==> !Contains(pieces[k], sep)
    decreases |s|
  {
    match FindFrom(s, sep, 0)
    case None => [s]
    case Some(j) =>
      var head, tail := s[..j], s[j + |sep|..];
      var rest := SplitOn(tail, sep);
      assert s == head + sep + tail;
      assert !Contains(head, sep) by {
        forall i: nat | i <= |head| && OccursAt(head, sep, i) ensures false {
          assert head[i..i + |sep|] == s[i..i + |sep|];
          assert OccursAt(s, sep, i);
        }
      }
      [head] + rest
  }

  // ---------------------------------------------------------------------------
  // Integers as text

  function DigitChar(d: nat): (c: char)
    requires d < 10
    ensures IsDigit(c)
  {
    (48 + d) as char
  }

  function DigitValue(c: char): nat
    requires IsDigit(c)
  {
    c as int - 48
  }

  /** The decimal digits of `n`, most significant first, without leading zeros. */
  function NatToString(n: nat): (s: string)
    ensures |s| > 0 && AllDigits(s)
    ensures s[0] == '0' <==> n == 0
    decreases n
  {
    if n < 10 then [DigitChar(n)] else NatToString(n / 10) + [DigitChar(n % 10)]
  }

  /** The number a string of decimal digits denotes. */
  function DigitsValue(s: string): nat
    requires AllDigits(s)
    decreases |s|
  {
    if s == [] then 0 else 10 * DigitsValue(s[..|s| - 1]) + DigitValue(s[|s| - 1])
  }

  lemma {:induction false} NatToStringRoundTrip(n: nat)
    ensures DigitsValue(NatToString(n)) == n
    decreases n
  {
    if n >= 10 {
      var s := NatToString(n);
      assert s[..|s| - 1] == NatToString(n / 10);
      NatToStringRoundTrip(n / 10);
    }
  }

  /** Python's `str(i)` for an integer. */
  function IntToString(i: int): (s: string)
    ensures |s| > 0
  {
    if i < 0 then "-" + NatToString(-i) else NatToString(i)
  }

  /** Reading back the decimal text of an integer. */
  function ParseInt(s: string): Option<int> {
    if |s| > 1 && s[0] == '-' && AllDigits(s[1..]) then Some(-(DigitsValue(s[1..]) as int))
    else if |s| > 0 && AllDigits(s) then Some(DigitsValue(s))
    else None
  }

  lemma IntToStringRoundTrip(i: int)
    ensures ParseInt(IntToString(i)) == Some(i)
  {
    var s := IntToString(i);
    if i < 0 {
      assert s[1..] == NatToString(-i);
      NatToStringRoundTrip(-i);
      assert ParseInt(s) == Some(-(DigitsValue(s[1..]) as int));
    } else {
      NatToStringRoundTrip(i);
      assert IsDigit(s[0]);
      assert ParseInt(s) == Some(DigitsValue(s));
    }
  }

  /** Inserts `sep` between groups of three digits, counted from the right. */
  function GroupThousands(d: string, sep: char): string
    decreases |d|
  {
    if |d| <= 3 then d else GroupThousands(d[..|d| - 3], sep) + [sep] + d[|d| - 3..]
  }

  /** Python's `format(i, ",")` (PEP 378): the sign, then the digits grouped in threes. */
  function FormatWithCommas(i: int): string {
    (if i < 0 then "-" else "") + GroupThousands(NatToString(if i < 0 then -i else i), ',')
  }

  /** Grouping adds one separator per three digits beyond the first group. */
  lemma {:induction false} GroupThousandsLength(d: string, sep: char)
    requires |d| > 0
    ensures |GroupThousands(d, sep)| == |d| + (|d| - 1) / 3
    decreases |d|
  {
    if |d| > 3 {
      GroupThousandsLength(d[..|d| - 3], sep);
    }
  }

  lemma DigitsSlices(d: string)
    requires AllDigits(d) && |d| > 3
    ensures AllDigits(d[..|d| - 3]) && AllDigits(d[|d| - 3..])
  {
  }

  lemma NoSepInDigits(d: string, sep: char)
    requires AllDigits(d) && !IsDigit(sep)
    ensures sep !in d
  {
  }

  /** The separator stands exactly at the positions 4, 8, 12, ... counted from the right end
      of the grouped text; every other position holds a digit. */
  lemma {:induction false} GroupThousandsSeparators(d: string, sep: char)
    requires |d| > 0 && AllDigits(d) && !IsDigit(sep)
    ensures forall i :: 0 <= i < |GroupThousands(d, sep)| ==>
      (GroupThousands(d, sep)[i] == sep <==> (|GroupThousands(d, sep)| - i) % 4 == 0)
    decreases |d|
  {
    if |d| <= 3 {
      NoSepInDigits(d, sep);
    } else {
      var front, back := d[..|d| - 3], d[|d| - 3..];
      DigitsSlices(d);
      NoSepInDigits(back, sep);
      GroupThousandsSeparators(front, sep);
      SeparatorsSnoc(GroupThousands(front, sep), back, sep);
    }
  }

  /** One more group of three digits keeps every separator at a multiple of four from the right. */
  lemma SeparatorsSnoc(gf: string, back: string, sep: char)
    requires |back| == 3 && sep !in back
    requires forall i :: 0 <= i < |gf| ==> (gf[i] == sep <==> (|gf| - i) % 4 == 0)
    ensures var g := gf + [sep] + back;
      forall i :: 0 <= i < |g| ==> (g[i] == sep <==> (|g| - i) % 4 == 0)
  {
    var g := gf + [sep] + back;
    forall i | 0 <= i < |g| ensures g[i] == sep <==> (|g| - i) % 4 == 0 {
      if i < |gf| {
        assert g[i] == gf[i];
        assert (|g| - i) % 4 == (|gf| - i) % 4;
      } else if i > |gf| {
        assert g[i] == back[i - |gf| - 1];
      }
    }
  }

  /** Removing the separators from the grouped text gives the digits back. */
  lemma {:induction false} GroupThousandsUngroup(d: string, sep: char)
    requires AllDigits(d) && !IsDigit(sep)
    ensures RemoveChar(GroupThousands(d, sep), sep) == d
    decreases |d|
  {
    if |d| <= 3 {
      NoSepInDigits(d, sep);
      RemoveCharAbsent(d, sep);
    } else {
      var front, back := d[..|d| - 3], d[|d| - 3..];
      DigitsSlices(d);
      NoSepInDigits(back, sep);
      GroupThousandsUngroup(front, sep);
      RemoveSeparatorSnoc(GroupThousands(front, sep), back, sep);
      assert front + back == d;
    }
  }

  lemma RemoveSeparatorSnoc(gf: string, back: string, sep: char)
    requires sep !in back
    ensures RemoveChar(gf + [sep] + back, sep) == RemoveChar(gf, sep) + back
  {
    calc {
      RemoveChar(gf + [sep] + back, sep);
      == { RemoveCharAppend(gf + [sep], back, sep); }
      RemoveChar(gf + [sep], sep) + RemoveChar(back, sep);
      == { RemoveCharAppend(gf, [sep], sep); RemoveCharAbsent(back, sep); }
      RemoveChar(gf, sep) + RemoveChar([sep], sep) + back;
      == { assert RemoveChar([sep], sep) == []; }
      RemoveChar(gf, sep) + back;
    }
  }

  lemma {:induction false} GroupThousandsReplace(d: string, a: char, b: char)
    requires AllDigits(d) && !IsDigit(a)
    ensures ReplaceChar(GroupThousands(d, a), a, b) == GroupThousands(d, b)
    decreases |d|
  {
    if |d| <= 3 {
      NoSepInDigits(d, a);
    } else {
      var front, back := d[..|d| - 3], d[|d| - 3..];
      DigitsSlices(d);
      NoSepInDigits(back, a);
      GroupThousandsReplace(front, a, b);
      ReplaceCharAppend(GroupThousands(front, a) + [a], back, a, b);
      ReplaceCharAppend(GroupThousands(front, a), [a], a, b);
    }
  }
}

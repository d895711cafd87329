/** String building blocks of the renderer: `sep.join(parts)`, `str(n)` for
    integers, and substring facts about the emitted HTML. */
module Text {

  /** `sep.join(parts)`. */
  function Join(sep: string, parts: seq<string>): (r: string)
    ensures |parts| == 0 ==> r == ""
    ensures |parts| > 0 ==> parts[0] <= r
  {
    if |parts| == 0 then ""
    else if |parts| == 1 then parts[0]
    else parts[0] + sep + Join(sep, parts[1..])
  }

  /** The concatenation of all pieces, in order. */
  function Concat(pieces: seq<string>): string {
    if |pieces| == 0 then "" else pieces[0] + Concat(pieces[1..])
  }

  function DigitChar(d: nat): char
    requires d < 10
  {
    "0123456789"[d]
  }

  predicate IsDigit(c: char) {
    '0' <= c <= '9'
  }

  /** `str(n)` for a non-negative integer: its decimal digits, most significant first. */
  function NatToString(n: nat): (r: string)
    ensures |r| > 0
    ensures forall i :: 0 <= i < |r| ==> IsDigit(r[i])
  {
    if n < 10 then [DigitChar(n)] else NatToString(n / 10) + [DigitChar(n % 10)]
  }

  /** `str(n)` for any integer: a minus sign before the digits of a negative number. */
  function IntToString(n: int): (r: string)
    ensures |r| > 0
    ensures forall i :: 0 <= i < |r| ==> IsDigit(r[i]) || (i == 0 && r[i] == '-' && n < 0)
    ensures r[0] == '-' <==> n < 0
    ensures n >= 0 && r[0] == '0' ==> r == "0"
    ensures n < 0 ==> |r| >= 2 && r[1] != '0'
  {
    NatNoLeadingZero(if n < 0 then -n else n);
    if n < 0 then "-" + NatToString(-n) else NatToString(n)
  }

  /** `str` writes no leading zero: only zero itself starts with `0`. */
  lemma {:induction false} NatNoLeadingZero(n: nat)
    ensures NatToString(n)[0] == '0' ==> n == 0
    ensures n == 0 ==> NatToString(n) == "0"
  {
    if n >= 10 {
      NatNoLeadingZero(n / 10);
      assert NatToString(n)[0] == NatToString(n / 10)[0];
    }
  }

  /** Reading back `str(n)` gives `n` again: the digits of a non-negative
      number denote it, and a negative number is a minus sign before the
      digits of its absolute value. */
  lemma IntToStringRoundTrip(n: int)
    ensures n >= 0 ==> DigitsValue(IntToString(n)) == n
    ensures n < 0 ==> |IntToString(n)| >= 2 && DigitsValue(IntToString(n)[1..]) == -n
  {
    if n >= 0 {
      NatToStringRoundTrip(n);
    } else {
      NegativeDigits(n);
      NatToStringRoundTrip(-n);
    }
  }

  lemma NegativeDigits(n: int)
    requires n < 0
    ensures IntToString(n)[1..] == NatToString(-n)
  {
    var digits := NatToString(-n);
    assert ("-" + digits)[1..] == digits;
  }

  /** The number a string of decimal digits denotes. */
  function DigitsValue(s: string): nat
    requires forall i :: 0 <= i < |s| ==> IsDigit(s[i])
  {
    if |s| == 0 then 0
    else
      var last := s[|s| - 1];
      assert IsDigit(last);
      DigitsValue(s[..|s| - 1]) * 10 + (last as int - '0' as int)
  }

  /** Reading back the digits `str` writes gives the number again. */
  lemma {:induction false} NatToStringRoundTrip(n: nat)
    ensures DigitsValue(NatToString(n)) == n
  {
    var s := NatToString(n);
    if n < 10 {
      assert s[..|s| - 1] == "";
    } else {
      assert s[..|s| - 1] == NatToString(n / 10);
      NatToStringRoundTrip(n / 10);
    }
  }

  /** `t in s` for strings. */
  predicate Contains(s: string, t: string) {
    exists i :: 0 <= i <= |s| && OccursAt(s, t, i)
  }

  /** `t` occurs in `s` starting at index `i`. */
  predicate OccursAt(s: string, t: string, i: nat) {
    i + |t| <= |s| && s[i..i + |t|] == t
  }

  /** Every `<` in `s` is followed by a character, and that character is not `s`;
      a string of this shape cannot contain any tag whose name starts with `s`. */
  predicate NoSTagOpen(s: string) {
    forall i :: 0 <= i < |s| && s[i] == '<' ==> i + 1 < |s| && s[i + 1] != 's'
  }

  /** `<inner>`: a tag with its name and attributes. */
  function Open(inner: string): string {
    "<" + inner + ">"
  }

  lemma OpenNoSTagOpen(inner: string)
    requires '<' !in inner
    requires |inner| > 0 && inner[0] != 's'
    ensures NoSTagOpen(Open(inner))
  {
    var s := Open(inner);
    assert forall i :: 0 < i < |s| - 1 ==> s[i] == inner[i - 1];
  }

  lemma NoAngleNoSTagOpen(s: string)
    requires '<' !in s
    ensures NoSTagOpen(s)
  {
    forall i | 0 <= i < |s| ensures s[i] != '<' {
      assert s[i] in s;
    }
  }

  lemma {:induction false} ConcatNoSTagOpen(pieces: seq<string>)
    requires forall p :: p in pieces ==> NoSTagOpen(p)
    ensures NoSTagOpen(Concat(pieces))
  {
    if |pieces| > 0 {
      assert forall p :: p in pieces[1..] ==> p in pieces;
      ConcatNoSTagOpen(pieces[1..]);
      var a, b := pieces[0], Concat(pieces[1..]);
      assert NoSTagOpen(a);
      forall i | 0 <= i < |a + b| && (a + b)[i] == '<' ensures i + 1 < |a + b| && (a + b)[i + 1] != 's' {
        if i < |a| {
          assert a[i] == '<';
        } else {
          assert b[i - |a|] == '<';
        }
      }
    }
  }

  /** A string without `<s` contains no `<script>` start tag. */
  lemma NoSTagOpenHasNoScript(s: string)
    requires NoSTagOpen(s)
    ensures !Contains(s, "<script>")
  {
    forall i | 0 <= i <= |s| ensures !OccursAt(s, "<script>", i) {
      if i + 8 <= |s| {
        assert s[i..i + 8][0] == s[i] && s[i..i + 8][1] == s[i + 1];
        assert "<script>"[1] == 's';
      }
    }
  }

  /** A string contains whatever sits between a prefix and a suffix of it. */
  lemma ContainsMiddle(a: string, b: string, c: string)
    ensures Contains(a + b + c, b)
  {
    assert (a + b + c)[|a|..|a| + |b|] == b;
    assert OccursAt(a + b + c, b, |a|);
  }

  lemma ContainsPrefix(s: string, t: string)
    requires t <= s
    ensures Contains(s, t)
  {
    assert OccursAt(s, t, 0);
  }

  lemma ContainsTrans(s: string, t: string, u: string)
    requires Contains(s, t) && Contains(t, u)
    ensures Contains(s, u)
  {
    var i :| 0 <= i <= |s| && OccursAt(s, t, i);
    var j :| 0 <= j <= |t| && OccursAt(t, u, j);
    assert s[i..i + |t|] == t;
    forall m | 0 <= m < |u| ensures s[i + j + m] == u[m] {
      assert s[i..i + |t|][j + m] == t[j + m];
      assert t[j..j + |u|][m] == u[m];
    }
    assert s[i + j..i + j + |u|] == u;
    assert OccursAt(s, u, i + j);
  }

  /** Every part of a join occurs in it. */
  lemma {:induction false} JoinContainsPart(sep: string, parts: seq<string>, k: nat)
    requires k < |parts|
    ensures Contains(Join(sep, parts), parts[k])
  {
    if k == 0 {
      ContainsPrefix(Join(sep, parts), parts[0]);
    } else {
      var rest := Join(sep, parts[1..]);
      JoinContainsPart(sep, parts[1..], k - 1);
      ContainsMiddle(parts[0] + sep, rest, "");
      assert parts[0] + sep + rest + "" == Join(sep, parts);
      ContainsTrans(Join(sep, parts), rest, parts[k]);
    }
  }

  /** Every piece of a concatenation occurs in it. */
  lemma {:induction false} ConcatContainsPiece(pieces: seq<string>, k: nat)
    requires k < |pieces|
    ensures Contains(Concat(pieces), pieces[k])
  {
    var t := pieces[k];
    var rest := Concat(pieces[1..]);
    assert Concat(pieces) == pieces[0] + rest;
    if k == 0 {
      assert OccursAt(Concat(pieces), t, 0);
    } else {
      ConcatContainsPiece(pieces[1..], k - 1);
      var i :| 0 <= i <= |rest| && OccursAt(rest, t, i);
      assert Concat(pieces)[|pieces[0]| + i..|pieces[0]| + i + |t|] == rest[i..i + |t|];
      assert OccursAt(Concat(pieces), t, |pieces[0]| + i);
    }
  }
}

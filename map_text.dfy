/** The two Java library routines that `GameMap.parse` leans on, written out:
    `String.split("\\r?\\n")` and `Integer.parseInt`, each with the function
    that produces text it reads back exactly. */
module MapText {
  import opened Wrappers
  import opened Int32

  /** The pieces of `s` between its `'\n'` characters; there is always one
      more piece than there are line feeds. */
  function Pieces(s: string): (r: seq<string>)
    ensures |r| >= 1
    ensures forall i :: 0 <= i < |r| ==> '\n' !in r[i]
  {
    if |s| == 0 then [""]
    else
      var rest := Pieces(s[1..]);
      if s[0] == '\n' then [""] + rest
      else [[s[0]] + rest[0]] + rest[1..]
  }

  /** A piece followed by `"\r\n"` loses its carriage return to the separator. */
  function StripCarriageReturn(p: string): string {
    if |p| > 0 && p[|p| - 1] == '\r' then p[..|p| - 1] else p
  }

  /** `String.split` drops every trailing empty string. */
  function DropTrailingEmpty(ls: seq<string>): (r: seq<string>)
    ensures |r| <= |ls| && r == ls[..|r|]
    ensures r == [] || r[|r| - 1] != ""
    ensures forall i :: |r| <= i < |ls| ==> ls[i] == ""
  {
    if |ls| > 0 && ls[|ls| - 1] == "" then DropTrailingEmpty(ls[..|ls| - 1]) else ls
  }

  /** `s.split("\\r?\\n")`: with no separator the text itself is the only
      line, even when it is empty; otherwise the pieces between separators,
      without their trailing empty ones (so possibly none at all). */
  function SplitLines(s: string): (r: seq<string>)
    ensures forall i :: 0 <= i < |r| ==> '\n' !in r[i]
  {
    var ps := Pieces(s);
    if |ps| == 1 then ps
    else DropTrailingEmpty(StripSeparators(ps))
  }

  /** Each piece but the last was followed by a line feed: a carriage return
      just before that line feed belongs to the separator. */
  function StripSeparators(ps: seq<string>): (r: seq<string>)
    ensures |r| == |ps|
  {
    seq(|ps|, i requires 0 <= i < |ps| =>
          if i < |ps| - 1 then StripCarriageReturn(ps[i]) else ps[i])
  }

  /** The text of a map file: every line followed by a line feed. */
  function JoinLines(ls: seq<string>): string {
    if ls == [] then "" else ls[0] + "\n" + JoinLines(ls[1..])
  }

  /** Lines that `JoinLines` and `SplitLines` carry unchanged. */
  predicate PlainLines(ls: seq<string>) {
    && |ls| >= 1
    && ls[|ls| - 1] != ""
    && forall i :: 0 <= i < |ls| ==> '\n' !in ls[i] && (ls[i] == [] || ls[i][|ls[i]| - 1] != '\r')
  }

  lemma {:induction false} PiecesAfterLine(a: string, b: string)
    requires '\n' !in a
    ensures Pieces(a + "\n" + b) == [a] + Pieces(b)
  {
    var s := a + "\n" + b;
    if |a| == 0 {
      assert s == "\n" + b && s[1..] == b;
    } else {
      assert '\n' !in a[1..] by {
        forall i | 0 <= i < |a[1..]| ensures a[1..][i] != '\n' {
          assert a[1..][i] == a[i + 1];
        }
      }
      assert s[0] == a[0] != '\n';
      assert s[1..] == a[1..] + "\n" + b;
      PiecesAfterLine(a[1..], b);
      var rest := Pieces(s[1..]);
      assert rest[0] == a[1..] && rest[1..] == Pieces(b);
      assert [a[0]] + a[1..] == a;
    }
  }

  lemma {:induction false} PiecesOfJoin(ls: seq<string>)
    requires forall i :: 0 <= i < |ls| ==> '\n' !in ls[i]
    ensures Pieces(JoinLines(ls)) == ls + [""]
  {
    if ls != [] {
      PiecesOfJoin(ls[1..]);
      PiecesAfterLine(ls[0], JoinLines(ls[1..]));
    }
  }

  /** Text without a line feed is one piece. */
  lemma {:induction false} PiecesOfLine(s: string)
    requires '\n' !in s
    ensures Pieces(s) == [s]
  {
    if |s| > 0 {
      assert '\n' !in s[1..] by {
        forall i | 0 <= i < |s[1..]| ensures s[1..][i] != '\n' {
          assert s[1..][i] == s[i + 1];
        }
      }
      PiecesOfLine(s[1..]);
      assert [s[0]] + s[1..] == s;
    }
  }

  /** With no separator in it, the text is its own single line, even when
      it is empty. */
  lemma SplitSingleLine(s: string)
    requires '\n' !in s
    ensures SplitLines(s) == [s]
  {
    PiecesOfLine(s);
  }

  /** Splitting a map file gives back exactly its lines. */
  lemma SplitJoinedLines(ls: seq<string>)
    requires PlainLines(ls)
    ensures SplitLines(JoinLines(ls)) == ls
  {
    PiecesOfJoin(ls);
    var ps := ls + [""];
    assert StripSeparators(ps) == ps by {
      var stripped := StripSeparators(ps);
      forall i | 0 <= i < |ps| ensures stripped[i] == ps[i] {
        if i < |ls| { assert ps[i] == ls[i]; }
      }
    }
    assert DropTrailingEmpty(ps) == ls by {
      assert ps[..|ls|] == ls;
    }
  }

  predicate IsDigit(c: char) {
    '0' <= c <= '9'
  }

  predicate AllDigits(s: string) {
    forall i :: 0 <= i < |s| ==> IsDigit(s[i])
  }

  /** The value of a string of decimal digits, most significant first. */
  function DigitsValue(s: string): nat
    requires AllDigits(s)
  {
    if |s| == 0 then 0 else 10 * DigitsValue(s[..|s| - 1]) + (s[|s| - 1] as int - '0' as int)
  }

  /** `Integer.parseInt(s)`: an optional sign and at least one ASCII digit,
      with a value that fits in an `int`; `None` where Java throws
      `NumberFormatException`. */
  function ParseInt(s: string): (r: Option<int>)
    ensures r.Some? ==> InRange(r.value)
  {
    if |s| == 0 then None
    else
      var digits := if s[0] == '-' || s[0] == '+' then s[1..] else s;
      if |digits| == 0 || !AllDigits(digits) then None
      else
        var magnitude: int := DigitsValue(digits);
        var v := if s[0] == '-' then -magnitude else magnitude;
        if InRange(v) then Some(v) else None
  }

  /** The decimal digits of `n`, as `Integer.toString` writes them. */
  function Digits(n: nat): (r: string)
    ensures |r| >= 1 && AllDigits(r)
  {
    if n < 10 then [('0' as int + n) as char]
    else Digits(n / 10) + [('0' as int + n % 10) as char]
  }

  /** `Integer.toString(n)`. */
  function Decimal(n: int): string {
    if n < 0 then "-" + Digits(-n) else Digits(n)
  }

  lemma {:induction false} DigitsValueOfDigits(n: nat)
    ensures DigitsValue(Digits(n)) == n
  {
    if n >= 10 {
      DigitsValueOfDigits(n / 10);
      var d := Digits(n);
      assert d[..|d| - 1] == Digits(n / 10);
    }
  }

  /** `Integer.parseInt` reads back every `int` that `Integer.toString` writes. */
  lemma ParseIntOfDecimal(n: int)
    requires InRange(n)
    ensures ParseInt(Decimal(n)) == Some(n)
  {
    var m := if n < 0 then -n else n;
    DigitsValueOfDigits(m);
    var s := Decimal(n);
    if n < 0 {
      assert s[1..] == Digits(m);
    } else {
      assert IsDigit(s[0]);
    }
  }

  /** Text that does not start with an optional sign and digits is not a number. */
  lemma ParseIntRejectsNonDigit(s: string, i: nat)
    requires i < |s| && !IsDigit(s[i])
    requires i > 0 || (s[0] != '-' && s[0] != '+')
    ensures ParseInt(s) == None
  {
    if s[0] == '-' || s[0] == '+' {
      assert s[1..][i - 1] == s[i];
    }
  }
}

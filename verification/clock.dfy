/** The countdown display: `formatTime` renders a number of seconds as
    `M:SS`, minutes in plain decimal and seconds zero-padded to two digits.
    `ParseTime` reads such a display back and is its inverse. */
module Clock {
  import opened Wrappers

  predicate IsDigit(c: char) {
    '0' <= c <= '9'
  }

  /** The character of a decimal digit. */
  function DigitChar(d: nat): (c: char)
    requires d < 10
    ensures IsDigit(c)
  {
    ('0' as int + d) as char
  }

  /** The value of a decimal digit character (its offset from '0'). */
  function DigitValue(c: char): (d: int)
    ensures IsDigit(c) ==> 0 <= d < 10 && DigitChar(d) == c
  {
    c as int - '0' as int
  }

  predicate AllDigits(s: string) {
    forall i :: 0 <= i < |s| ==> IsDigit(s[i])
  }

  /** A decimal numeral as a number renders it: at least one digit and no
      leading zero unless the numeral is exactly "0". */
  predicate Canonical(s: string) {
    1 <= |s| && AllDigits(s) && (s[0] == '0' ==> |s| == 1)
  }

  /** The number a string of decimal digits denotes (most significant first). */
  function Value(s: string): (v: int)
    ensures AllDigits(s) ==> v >= 0
    decreases |s|
  {
    if s == [] then 0 else 10 * Value(s[..|s| - 1]) + DigitValue(s[|s| - 1])
  }

  lemma ValueSnoc(p: string, c: char)
    ensures Value(p + [c]) == 10 * Value(p) + DigitValue(c)
  {
    assert (p + [c])[..|p|] == p;
  }

  /** `n.toString()` for a non-negative integer: its decimal numeral. */
  function NatToString(n: nat): (r: string)
    ensures Canonical(r)
    ensures Value(r) == n
    ensures r[0] == '0' <==> n == 0
    ensures |r| == 1 <==> n < 10
    decreases n
  {
    if n < 10 then [DigitChar(n)]
    else
      var p := NatToString(n / 10);
      ValueSnoc(p, DigitChar(n % 10));
      p + [DigitChar(n % 10)]
  }

  /** Every canonical numeral is the rendering of its own value. */
  lemma {:induction false} CanonicalRendering(s: string)
    requires Canonical(s)
    ensures NatToString(Value(s)) == s
    decreases |s|
  {
    if |s| == 1 {
      assert s == [s[0]];
      assert Value(s) == DigitValue(s[0]) by {
        assert s[..0] == [];
      }
    } else {
      var p := s[..|s| - 1];
      var c := s[|s| - 1];
      assert s == p + [c];
      assert Canonical(p);
      CanonicalRendering(p);
      ValueSnoc(p, c);
      var hi: nat := Value(p);
      var d := DigitValue(c);
      assert hi != 0;
      assert Value(s) == 10 * hi + d;
      assert Value(s) / 10 == hi && Value(s) % 10 == d;
      assert NatToString(Value(s)) == NatToString(hi) + [DigitChar(d)];
    }
  }

  /** `padStart(2, '0')`: prefix zeros until the string is two characters long. */
  function PadStart2(s: string): (r: string)
    ensures |s| >= 2 ==> r == s
    ensures |r| == if |s| >= 2 then |s| else 2
    ensures r[|r| - |s|..] == s
    ensures forall i :: 0 <= i < |r| - |s| ==> r[i] == '0'
  {
    if |s| >= 2 then s else if |s| == 1 then ['0'] + s else "00"
  }

  /** Zero-padding a numeral of at most two digits keeps its digits and value. */
  lemma PadKeepsValue(t: string)
    requires Canonical(t) && |t| <= 2
    ensures AllDigits(PadStart2(t)) && Value(PadStart2(t)) == Value(t)
  {
    if |t| == 1 {
      assert t == [t[0]];
      assert Value(t) == DigitValue(t[0]) by { assert t[..0] == []; }
      ValueSnoc(['0'], t[0]);
      assert Value(['0']) == 0 by { assert ['0'][..0] == []; }
    }
  }

  /** The seconds field of the display: a number below 60 as two digits. */
  function SecondsField(secs: nat): (q: string)
    requires secs < 60
    ensures |q| == 2 && AllDigits(q) && Value(q) == secs
  {
    var t := NatToString(secs);
    PadKeepsValue(t);
    PadStart2(t)
  }

  /** Splitting `m + ":" + q` with a two-character `q` at its colon. */
  lemma DisplayParts(m: string, q: string)
    requires |q| == 2
    ensures var r := m + ":" + q;
      |r| == |m| + 3 && r[|r| - 3] == ':' && r[..|r| - 3] == m && r[|r| - 2..] == q
  {
  }

  /** `formatTime(seconds)`: whole minutes, a colon, then the seconds
      within the minute padded to two digits. */
  function FormatTime(seconds: nat): (t: string) {
    NatToString(seconds / 60) + ":" + SecondsField(seconds % 60)
  }

  /** The display splits at its third-last character, a colon, into a
      canonical minute count and two digits below 60, and minutes times 60
      plus seconds is the number rendered. */
  lemma FormatTimeReadsBack(seconds: nat)
    ensures var r := FormatTime(seconds);
      |r| >= 4 && r[|r| - 3] == ':'
      && Canonical(r[..|r| - 3]) && AllDigits(r[|r| - 2..])
      && Value(r[|r| - 2..]) < 60
      && Value(r[..|r| - 3]) * 60 + Value(r[|r| - 2..]) == seconds
  {
    var m := NatToString(seconds / 60);
    var q := SecondsField(seconds % 60);
    DisplayParts(m, q);
  }

  /** Reads an `M:SS` display back into seconds; `None` for anything that is
      not a canonical minute count, a colon and two digits below 60. */
  function ParseTime(t: string): (r: Option<nat>)
    ensures r.Some? ==> |t| >= 4 && t[|t| - 3] == ':'
  {
    if |t| >= 4 && t[|t| - 3] == ':' && Canonical(t[..|t| - 3])
       && AllDigits(t[|t| - 2..]) && Value(t[|t| - 2..]) < 60
    then Some(Value(t[..|t| - 3]) * 60 + Value(t[|t| - 2..]))
    else None
  }

  /** Reading a rendered display gives back the seconds it was rendered from. */
  lemma ParseFormat(seconds: nat)
    ensures ParseTime(FormatTime(seconds)) == Some(seconds)
  {
    var r := FormatTime(seconds);
    FormatTimeReadsBack(seconds);
    var mins := Value(r[..|r| - 3]);
    var secs := Value(r[|r| - 2..]);
    assert mins * 60 + secs == seconds;
    assert ParseTime(r) == Some(mins * 60 + secs);
  }

  /** Two digits denoting a number below 60 are that number's seconds field. */
  lemma {:induction false} SecondsFieldOf(q: string)
    requires |q| == 2 && AllDigits(q) && Value(q) < 60
    ensures SecondsField(Value(q)) == q
  {
    var v := Value(q);
    ValueSnoc([q[0]], q[1]);
    assert Value([q[0]]) == DigitValue(q[0]) by {
      ValueSnoc([], q[0]);
      assert [] + [q[0]] == [q[0]];
    }
    assert [q[0]] + [q[1]] == q;
    if q[0] == '0' {
      var t := NatToString(v);
      assert t == [DigitChar(v)];
      assert t == [q[1]];
      assert SecondsField(v) == ['0'] + t;
    } else {
      CanonicalRendering(q);
    }
  }

  /** Minutes times 60 plus seconds below 60 splits back into its parts. */
  lemma MinutesSeconds(mins: nat, secs: nat)
    requires secs < 60
    ensures (mins * 60 + secs) / 60 == mins && (mins * 60 + secs) % 60 == secs
  {
  }

  /** Every display that reads back is exactly the rendering of what it reads as. */
  lemma {:induction false} FormatParse(t: string)
    requires ParseTime(t).Some?
    ensures FormatTime(ParseTime(t).value) == t
  {
    var p := t[..|t| - 3];
    var q := t[|t| - 2..];
    assert t == p + ":" + q;
    var mins: nat := Value(p);
    var secs: nat := Value(q);
    var n := ParseTime(t).value;
    assert n == mins * 60 + secs;
    MinutesSeconds(mins, secs);
    assert n / 60 == mins && n % 60 == secs;
    CanonicalRendering(p);
    SecondsFieldOf(q);
    assert NatToString(n / 60) == p;
    assert SecondsField(n % 60) == q;
  }

  /** The initial countdown of five minutes displays as "5:00". */
  lemma FiveMinutes()
    ensures FormatTime(300) == "5:00"
  {
    assert NatToString(5) == [DigitChar(5)] == "5";
    assert NatToString(0) == [DigitChar(0)] == "0";
    assert PadStart2("0") == "00";
    assert SecondsField(0) == "00";
    assert FormatTime(300) == NatToString(5) + ":" + SecondsField(0);
  }
}

/** Decimal rendering of integers (`std::to_string`, `std::format("{}")`,
    `operator<<`) and comma-separated lines, with the facts the writers
    rely on: decimal texts are unambiguous, and a joined line splits back
    into its fields when no field holds the separator. */
module Text {

  function DigitChar(d: nat): (c: char)
    requires d < 10
    ensures '0' <= c <= '9'
  {
    "0123456789"[d]
  }

  predicate IsDigits(s: string)
  {
    forall i :: 0 <= i < |s| ==> '0' <= s[i] <= '9'
  }

  /** The decimal text of a non-negative number, without leading zeros. */
  function NatText(n: nat): (s: string)
    ensures |s| >= 1 && IsDigits(s)
    ensures n < 10 <==> |s| == 1
  {
    if n < 10 then [DigitChar(n)] else NatText(n / 10) + [DigitChar(n % 10)]
  }

  /** The decimal text of any integer: a '-' in front of negative values. */
  function IntText(i: int): (s: string)
    ensures |s| >= 1
    ensures i < 0 <==> s[0] == '-'
  {
    if i < 0 then "-" + NatText(-i) else NatText(i)
  }

  lemma DigitCharInjective(a: nat, b: nat)
    requires a < 10 && b < 10 && DigitChar(a) == DigitChar(b)
    ensures a == b
  {
  }

  /** Different numbers have different decimal texts. */
  lemma {:induction false} NatTextInjective(a: nat, b: nat)
    requires NatText(a) == NatText(b)
    ensures a == b
    decreases a
  {
    if a < 10 || b < 10 {
      if a < 10 && b < 10 {
        DigitCharInjective(a, b);
      }
    } else {
      var sa, sb := NatText(a), NatText(b);
      assert sa[|sa| - 1] == DigitChar(a % 10) && sb[|sb| - 1] == DigitChar(b % 10);
      DigitCharInjective(a % 10, b % 10);
      assert NatText(a / 10) == sa[..|sa| - 1] == sb[..|sb| - 1] == NatText(b / 10);
      NatTextInjective(a / 10, b / 10);
    }
  }

  lemma IntTextInjective(a: int, b: int)
    requires IntText(a) == IntText(b)
    ensures a == b
  {
    if a < 0 && b < 0 {
      assert NatText(-a) == IntText(a)[1..] == IntText(b)[1..] == NatText(-b);
      NatTextInjective(-a, -b);
    } else if a >= 0 && b >= 0 {
      NatTextInjective(a, b);
    }
  }

  /** A decimal text holds no character other than digits and a leading '-'. */
  lemma IntTextFree(i: int, c: char)
    requires !('0' <= c <= '9') && c != '-'
    ensures c !in IntText(i) && c !in NatText(if i < 0 then -i else i)
  {
    var s := NatText(if i < 0 then -i else i);
    assert forall k :: 0 <= k < |s| ==> s[k] != c;
    assert IntText(i) == (if i < 0 then "-" + s else s);
  }

  /** The `WxH` word of a frame size. */
  function SizeWord(width: nat, height: nat): string
  {
    NatText(width) + "x" + NatText(height)
  }

  lemma SizeWordFree(width: nat, height: nat, c: char)
    requires !('0' <= c <= '9') && c != '-' && c != 'x'
    ensures c !in SizeWord(width, height)
  {
    IntTextFree(width, c);
    IntTextFree(height, c);
  }

  /** A `WxH` word names one frame size. */
  lemma SizeWordInjective(w1: nat, h1: nat, w2: nat, h2: nat)
    requires SizeWord(w1, h1) == SizeWord(w2, h2)
    ensures w1 == w2 && h1 == h2
  {
    var a1, b1, a2, b2 := NatText(w1), NatText(h1), NatText(w2), NatText(h2);
    IntTextFree(w1, 'x');
    IntTextFree(h1, 'x');
    IntTextFree(w2, 'x');
    IntTextFree(h2, 'x');
    SplitPair(a1, 'x', b1);
    SplitPair(a2, 'x', b2);
    NatTextInjective(w1, w2);
    NatTextInjective(h1, h2);
  }

  lemma AppendAssociates(a: string, b: string, c: string)
    ensures a + b + c == a + (b + c)
  {
  }

  /** `fields` joined with `sep` between consecutive fields (no trailing separator). */
  function Join(fields: seq<string>, sep: string): string
  {
    if |fields| == 0 then ""
    else if |fields| == 1 then fields[0]
    else fields[0] + sep + Join(fields[1..], sep)
  }

  /** Each field followed by `sep`, including the last one. */
  function Terminated(fields: seq<string>, sep: string): string
  {
    if |fields| == 0 then "" else fields[0] + sep + Terminated(fields[1..], sep)
  }

  /** A text split at every occurrence of `c`; the reference reading of a CSV line. */
  function SplitOn(s: string, c: char): (r: seq<string>)
    ensures |r| >= 1
    decreases |s|
  {
    if |s| == 0 then [""]
    else
      var rest := SplitOn(s[1..], c);
      if s[0] == c then [""] + rest else [[s[0]] + rest[0]] + rest[1..]
  }

  /** No field holds the character `c`. */
  predicate FreeOf(fields: seq<string>, c: char)
  {
    forall i :: 0 <= i < |fields| ==> c !in fields[i]
  }

  lemma FreeOfConcat(a: seq<string>, b: seq<string>, c: char)
    requires FreeOf(a, c) && FreeOf(b, c)
    ensures FreeOf(a + b, c)
  {
    forall i | 0 <= i < |a + b| ensures c !in (a + b)[i] {
      if i < |a| { assert (a + b)[i] == a[i]; } else { assert (a + b)[i] == b[i - |a|]; }
    }
  }

  lemma {:induction false} SplitNoSeparator(s: string, c: char)
    requires c !in s
    ensures SplitOn(s, c) == [s]
    decreases |s|
  {
    if |s| > 0 {
      SplitNoSeparator(s[1..], c);
      assert [s[0]] + s[1..] == s;
    }
  }

  lemma {:induction false} SplitAtFirst(a: string, c: char, b: string)
    requires c !in a
    ensures SplitOn(a + [c] + b, c) == [a] + SplitOn(b, c)
    decreases |a|
  {
    if |a| == 0 {
      assert a + [c] + b == [c] + b;
      assert ([c] + b)[1..] == b;
    } else {
      SplitAtFirst(a[1..], c, b);
      assert (a + [c] + b)[1..] == a[1..] + [c] + b;
      assert [a[0]] + a[1..] == a;
    }
  }

  /** Two separator-free fields around one separator split back into the pair. */
  lemma SplitPair(a: string, c: char, b: string)
    requires c !in a && c !in b
    ensures SplitOn(a + [c] + b, c) == [a, b]
  {
    SplitAtFirst(a, c, b);
    SplitNoSeparator(b, c);
  }

  /** Splitting a joined line gives the fields back: the line is unambiguous. */
  lemma {:induction false} SplitJoin(fields: seq<string>, c: char)
    requires |fields| >= 1 && FreeOf(fields, c)
    ensures SplitOn(Join(fields, [c]), c) == fields
    decreases |fields|
  {
    if |fields| == 1 {
      SplitNoSeparator(fields[0], c);
    } else {
      SplitJoin(fields[1..], c);
      SplitAtFirst(fields[0], c, Join(fields[1..], [c]));
      assert [fields[0]] + fields[1..] == fields;
    }
  }

  /** The number of occurrences of `c` in `s`. */
  function Count(s: string, c: char): nat
  {
    if |s| == 0 then 0 else (if s[0] == c then 1 else 0) + Count(s[1..], c)
  }

  lemma {:induction false} CountAppend(a: string, b: string, c: char)
    ensures Count(a + b, c) == Count(a, c) + Count(b, c)
    decreases |a|
  {
    if |a| == 0 {
      assert a + b == b;
    } else {
      CountAppend(a[1..], b, c);
      assert (a + b)[1..] == a[1..] + b;
    }
  }

  lemma {:induction false} CountFree(s: string, c: char)
    requires c !in s
    ensures Count(s, c) == 0
    decreases |s|
  {
    if |s| > 0 {
      CountFree(s[1..], c);
    }
  }

  /** A joined line of n separator-free fields holds exactly n - 1 separators. */
  lemma {:induction false} JoinSeparatorCount(fields: seq<string>, c: char)
    requires |fields| >= 1 && FreeOf(fields, c)
    ensures Count(Join(fields, [c]), c) == |fields| - 1
    decreases |fields|
  {
    if |fields| == 1 {
      CountFree(fields[0], c);
    } else {
      JoinSeparatorCount(fields[1..], c);
      CountFree(fields[0], c);
      CountAppend(fields[0], [c], c);
      CountAppend(fields[0] + [c], Join(fields[1..], [c]), c);
      assert Count([c], c) == 1;
    }
  }

  lemma {:induction false} JoinAppend(fields: seq<string>, last: string, sep: string)
    requires |fields| >= 1
    ensures Join(fields + [last], sep) == Join(fields, sep) + sep + last
    decreases |fields|
  {
    if |fields| == 1 {
      assert (fields + [last])[1..] == [last];
    } else {
      JoinAppend(fields[1..], last, sep);
      assert (fields + [last])[1..] == fields[1..] + [last];
    }
  }

  lemma {:induction false} TerminatedAppend(fields: seq<string>, last: string, sep: string)
    ensures Terminated(fields + [last], sep) == Terminated(fields, sep) + last + sep
    decreases |fields|
  {
    if |fields| == 0 {
      assert fields + [last] == [last];
    } else {
      TerminatedAppend(fields[1..], last, sep);
      assert (fields + [last])[1..] == fields[1..] + [last];
    }
  }

  /** A joined line is every field but the last followed by the separator,
      then the last field: the shape a stream gets when each field but the
      last is written with a trailing separator. */
  lemma {:induction false} JoinAsTerminated(fields: seq<string>, sep: string)
    requires |fields| >= 1
    ensures Join(fields, sep) == Terminated(fields[..|fields| - 1], sep) + fields[|fields| - 1]
    decreases |fields|
  {
    if |fields| > 1 {
      var rest := fields[1..];
      JoinAsTerminated(rest, sep);
      assert fields[..|fields| - 1][1..] == rest[..|rest| - 1];
      assert fields[..|fields| - 1][0] == fields[0];
      assert rest[|rest| - 1] == fields[|fields| - 1];
    }
  }

  /** Splitting a terminated line at its separator gives the fields back,
      followed by one empty field after the last separator. */
  lemma TerminatedSplits(fields: seq<string>, c: char)
    requires FreeOf(fields, c)
    ensures SplitOn(Terminated(fields, [c]), c) == fields + [""]
  {
    var all := fields + [""];
    JoinAsTerminated(all, [c]);
    assert all[..|all| - 1] == fields && all[|all| - 1] == "";
    assert Join(all, [c]) == Terminated(fields, [c]) + "" == Terminated(fields, [c]);
    forall i | 0 <= i < |all| ensures c !in all[i] {
      if i < |fields| { assert all[i] == fields[i]; }
    }
    SplitJoin(all, c);
  }
}

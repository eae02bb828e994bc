/** Strings as the operator builds them: decimal numbers, line splitting, suffixes. */
module Text {

  const NEWLINE: char := '\n'

  function Digit(n: nat): (c: char)
    requires n < 10
    ensures c as int == '0' as int + n
  {
    ('0' as int + n) as char
  }

  /** strconv.Itoa on the loop index of the mount targets. */
  function Itoa(n: nat): (s: string)
    ensures |s| > 0
  {
    if n < 10 then [Digit(n)] else Itoa(n / 10) + [Digit(n % 10)]
  }

  lemma {:induction false} ItoaInjective(a: nat, b: nat)
    requires Itoa(a) == Itoa(b)
    ensures a == b
  {
    var s, t := Itoa(a), Itoa(b);
    assert s[|s| - 1] == Digit(a % 10) && t[|t| - 1] == Digit(b % 10);
    if a >= 10 && b >= 10 {
      assert s[..|s| - 1] == Itoa(a / 10);
      assert t[..|t| - 1] == Itoa(b / 10);
      ItoaInjective(a / 10, b / 10);
    }
  }

  // ---- reading decimal numbers back --------------------------------------------------------

  predicate IsDigit(c: char)
  {
    '0' <= c <= '9'
  }

  function DigitValue(c: char): int
  {
    c as int - '0' as int
  }

  /** The number that a text of digits stands for. */
  function Value(s: string): int
  {
    if s == "" then 0 else 10 * Value(s[..|s| - 1]) + DigitValue(s[|s| - 1])
  }

  /** s is n in decimal: digits only, and no zero in front of others. */
  predicate Decimal(s: string, n: int)
  {
    && s != "" && (forall c | c in s :: IsDigit(c))
    && (s[0] == '0' ==> s == "0")
    && Value(s) == n
  }

  lemma {:induction false} ItoaIsDecimal(n: nat)
    ensures Decimal(Itoa(n), n)
    ensures n > 0 ==> Itoa(n)[0] != '0'
  {
    var s := Itoa(n);
    if n < 10 {
      assert s[..0] == "";
    } else {
      ItoaIsDecimal(n / 10);
      assert s[..|s| - 1] == Itoa(n / 10);
      assert s[0] == Itoa(n / 10)[0];
    }
  }

  lemma {:induction false} ValueGrows(s: string)
    requires s != "" && forall c | c in s :: IsDigit(c)
    ensures Value(s) >= 0 && (s[0] != '0' ==> Value(s) >= 1)
  {
    assert s[|s| - 1] in s;
    if |s| > 1 {
      ValueGrows(s[..|s| - 1]);
    } else {
      assert s[..0] == "";
    }
  }

  /** A number has one decimal form only. */
  lemma {:induction false} OneDecimal(s: string, t: string, n: int)
    requires Decimal(s, n) && Decimal(t, n)
    ensures s == t
  {
    var a, b := s[..|s| - 1], t[..|t| - 1];
    assert s[|s| - 1] in s && t[|t| - 1] in t;
    assert s == a + [s[|s| - 1]] && t == b + [t[|t| - 1]];
    if a != "" { ValueGrows(a); }
    if b != "" { ValueGrows(b); }
    assert DigitValue(s[|s| - 1]) == DigitValue(t[|t| - 1]) && Value(a) == Value(b);
    if a != "" && b != "" {
      OneDecimal(a, b, Value(a));
    }
  }

  /** The text before and after a varying middle part determines that part. */
  lemma MiddleCancels(pre: string, x: string, y: string, post: string)
    requires pre + x + post == pre + y + post
    ensures x == y
  {
    var s := pre + x + post;
    assert |x| == |y|;
    assert x == s[|pre|..|pre| + |x|];
    assert y == s[|pre|..|pre| + |y|];
  }

  predicate EndsWith(s: string, suffix: string)
  {
    |suffix| <= |s| && s[|s| - |suffix|..] == suffix
  }

  /** The part of s before the first occurrence of c; all of s when c does not occur. */
  function Before(s: string, c: char): (r: string)
    ensures r <= s && c !in r && (r == s || s[|r|] == c)
  {
    if s == "" || s[0] == c then "" else [s[0]] + Before(s[1..], c)
  }

  /** strings.Split(s, "\n"): the empty string has one, empty, line. */
  function Split(s: string): (ls: seq<string>)
    ensures |ls| > 0
  {
    if s == "" then [""]
    else if s[0] == NEWLINE then [""] + Split(s[1..])
    else
      var rest := Split(s[1..]);
      [[s[0]] + rest[0]] + rest[1..]
  }

  function Join(ls: seq<string>): string
    requires |ls| > 0
  {
    if |ls| == 1 then ls[0] else ls[0] + [NEWLINE] + Join(ls[1..])
  }

  lemma {:induction false} JoinSplit(s: string)
    ensures Join(Split(s)) == s
  {
    if s == "" {
    } else {
      var rest := Split(s[1..]);
      JoinSplit(s[1..]);
      assert s == [s[0]] + s[1..];
      if s[0] == NEWLINE {
        assert Split(s)[1..] == rest;
      } else if |rest| == 1 {
      } else {
        assert Split(s)[1..] == rest[1..];
        assert ([s[0]] + rest[0]) + [NEWLINE] + Join(rest[1..]) == [s[0]] + (rest[0] + [NEWLINE] + Join(rest[1..]));
      }
    }
  }

  predicate OneLine(s: string)
  {
    NEWLINE !in s
  }

  lemma {:induction false} SplitLines(s: string)
    ensures forall l | l in Split(s) :: OneLine(l)
  {
    if s != "" {
      SplitLines(s[1..]);
      var rest := Split(s[1..]);
      assert rest[0] in rest;
    }
  }

  /** Splitting a one-line text followed by a newline and more text. */
  lemma {:induction false} SplitCons(l: string, s: string)
    requires OneLine(l)
    ensures Split(l) == [l]
    ensures Split(l + [NEWLINE] + s) == [l] + Split(s)
  {
    if l == "" {
      assert l + [NEWLINE] + s == [NEWLINE] + s;
      assert ([NEWLINE] + s)[1..] == s;
    } else {
      SplitCons(l[1..], s);
      var t := l + [NEWLINE] + s;
      assert t[1..] == l[1..] + [NEWLINE] + s;
      assert [l[0]] + l[1..] == l;
    }
  }

  lemma {:induction false} SplitJoin(ls: seq<string>)
    requires |ls| > 0 && forall l | l in ls :: OneLine(l)
    ensures Split(Join(ls)) == ls
  {
    if |ls| == 1 {
      SplitCons(ls[0], "");
      assert ls == [ls[0]];
    } else {
      SplitJoin(ls[1..]);
      SplitCons(ls[0], Join(ls[1..]));
      assert ls == [ls[0]] + ls[1..];
    }
  }

  /** The lines of a text followed directly by more text: the last and the first line merge. */
  function Glue(a: seq<string>, b: seq<string>): (r: seq<string>)
    requires |a| > 0 && |b| > 0
    ensures |r| == |a| + |b| - 1
  {
    a[..|a| - 1] + [a[|a| - 1] + b[0]] + b[1..]
  }

  lemma GlueHead(h: string, a: seq<string>, b: seq<string>)
    requires |a| > 0 && |b| > 0
    ensures Glue([h] + a, b) == [h] + Glue(a, b)
  {
    var ha := [h] + a;
    assert ha[..|ha| - 1] == [h] + a[..|a| - 1];
    assert ha[|ha| - 1] == a[|a| - 1];
  }

  lemma GlueChar(c: char, a: seq<string>, b: seq<string>)
    requires |a| > 0 && |b| > 0
    ensures var g := Glue(a, b);
            Glue([[c] + a[0]] + a[1..], b) == [[c] + g[0]] + g[1..]
  {
    var ca := [[c] + a[0]] + a[1..];
    if |a| == 1 {
      assert ([c] + a[0]) + b[0] == [c] + (a[0] + b[0]);
    } else {
      assert ca[..|ca| - 1] == [[c] + a[0]] + a[1..|a| - 1];
      assert a[..|a| - 1] == [a[0]] + a[1..|a| - 1];
    }
  }

  lemma {:induction false} SplitAppend(s: string, t: string)
    ensures Split(s + t) == Glue(Split(s), Split(t))
  {
    if s == "" {
      assert s + t == t;
      assert "" + Split(t)[0] == Split(t)[0];
    } else {
      SplitAppend(s[1..], t);
      assert (s + t)[1..] == s[1..] + t;
      if s[0] == NEWLINE {
        GlueHead("", Split(s[1..]), Split(t));
      } else {
        GlueChar(s[0], Split(s[1..]), Split(t));
      }
    }
  }
}

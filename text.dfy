/**
 * The string primitives the core relies on, written out: `str.startswith`,
 * `sep.join(parts)`, `s.split('\n')` and the decimal rendering of an `int`
 * that f-strings perform. Strings are sequences of characters.
 */
module Text {

  /** `s.startswith(p)`. */
  predicate StartsWith(s: string, p: string) {
    |p| <= |s| && s[..|p|] == p
  }

  /** `sep.join(parts)`: the parts in order with `sep` between neighbours. */
  function Join(parts: seq<string>, sep: string): string
  {
    if |parts| == 0 then ""
    else if |parts| == 1 then parts[0]
    else parts[0] + sep + Join(parts[1..], sep)
  }

  /** Joined parts begin with the first part. */
  lemma JoinHead(parts: seq<string>, sep: string)
    requires |parts| >= 1
    ensures StartsWith(Join(parts, sep), parts[0])
  {
    if |parts| > 1 {
      assert Join(parts, sep) == parts[0] + (sep + Join(parts[1..], sep));
    }
  }

  lemma PrefixExtends(s: string, p: string, t: string)
    requires StartsWith(s, p)
    ensures StartsWith(s + t, p)
  {
    assert (s + t)[..|p|] == s[..|p|];
  }

  /** `s.split('\n')`: the maximal newline-free pieces; never empty, `""` gives `[""]`. */
  function Split(s: string): (r: seq<string>)
    ensures |r| >= 1
    ensures forall i :: 0 <= i < |r| ==> '\n' !in r[i]
    decreases |s|
  {
    if |s| == 0 then [""]
    else if s[0] == '\n' then [""] + Split(s[1..])
    else
      var rest := Split(s[1..]);
      [[s[0]] + rest[0]] + rest[1..]
  }

  /** Joining the pieces of a split with newlines gives back the original text. */
  lemma {:induction false} JoinSplit(s: string)
    ensures Join(Split(s), "\n") == s
    decreases |s|
  {
    if |s| == 0 {
    } else if s[0] == '\n' {
      JoinSplit(s[1..]);
      assert Split(s) == [""] + Split(s[1..]);
      assert (["" ] + Split(s[1..]))[1..] == Split(s[1..]);
    } else {
      var rest := Split(s[1..]);
      JoinSplit(s[1..]);
      var head := [s[0]] + rest[0];
      assert Split(s) == [head] + rest[1..];
      if |rest| == 1 {
        assert Join(Split(s), "\n") == head;
        assert Join(rest, "\n") == rest[0];
      } else {
        assert ([head] + rest[1..])[1..] == rest[1..];
        assert Join(Split(s), "\n") == head + "\n" + Join(rest[1..], "\n");
        assert Join(rest, "\n") == rest[0] + "\n" + Join(rest[1..], "\n");
        assert s == [s[0]] + s[1..];
      }
    }
  }

  /** A newline-free string splits into itself alone. */
  lemma {:induction false} SplitSingleLine(x: string)
    requires '\n' !in x
    ensures Split(x) == [x]
    decreases |x|
  {
    if |x| > 0 {
      assert '\n' !in x[1..] by {
        forall k | 0 <= k < |x[1..]| ensures x[1..][k] != '\n' {
          assert x[1..][k] == x[k + 1];
        }
      }
      SplitSingleLine(x[1..]);
      assert [x[0]] + x[1..] == x;
    }
  }

  /** Splitting `x + "\n" + y` with a newline-free `x` yields `x` and then the pieces of `y`. */
  lemma {:induction false} SplitAfterLine(x: string, y: string)
    requires '\n' !in x
    ensures Split(x + "\n" + y) == [x] + Split(y)
    decreases |x|
  {
    var s := x + "\n" + y;
    if |x| == 0 {
      assert s[0] == '\n' && s[1..] == y;
    } else {
      assert s[0] == x[0] && s[0] != '\n';
      assert s[1..] == x[1..] + "\n" + y;
      assert '\n' !in x[1..] by {
        forall k | 0 <= k < |x[1..]| ensures x[1..][k] != '\n' {
          assert x[1..][k] == x[k + 1];
        }
      }
      SplitAfterLine(x[1..], y);
      var rest := Split(s[1..]);
      assert rest == [x[1..]] + Split(y);
      assert [x[0]] + x[1..] == x;
      assert rest[1..] == Split(y);
    }
  }

  /** Splitting newline-free lines joined by newlines gives back exactly those lines. */
  lemma {:induction false} SplitJoin(lines: seq<string>)
    requires |lines| >= 1
    requires forall i :: 0 <= i < |lines| ==> '\n' !in lines[i]
    ensures Split(Join(lines, "\n")) == lines
    decreases |lines|
  {
    if |lines| == 1 {
      SplitSingleLine(lines[0]);
    } else {
      SplitJoin(lines[1..]);
      SplitAfterLine(lines[0], Join(lines[1..], "\n"));
      assert [lines[0]] + lines[1..] == lines;
    }
  }

  function DigitChar(d: nat): (c: char)
    requires d < 10
    ensures '0' <= c <= '9' && (c as int) - ('0' as int) == d
  {
    ('0' as int + d) as char
  }

  predicate IsDigits(s: string) {
    forall i :: 0 <= i < |s| ==> '0' <= s[i] <= '9'
  }

  /** The decimal digits of `n`, most significant first, as Python's `str(n)` writes them. */
  function NatToString(n: nat): (r: string)
    ensures |r| >= 1 && IsDigits(r)
  {
    if n < 10 then [DigitChar(n)] else NatToString(n / 10) + [DigitChar(n % 10)]
  }

  /** Python's `str(i)` for an `int`: a leading '-' for negative values. */
  function IntToString(i: int): (r: string)
    ensures |r| >= 1
    ensures (i < 0) == (r[0] == '-')
    ensures '0' <= r[|r| - 1] <= '9'
  {
    if i < 0 then "-" + NatToString(-i) else NatToString(i)
  }

  /** The value of a string of decimal digits, the reading that inverts the rendering. */
  function DigitsValue(s: string): nat
    requires IsDigits(s)
  {
    if |s| == 0 then 0
    else DigitsValue(s[..|s| - 1]) * 10 + ((s[|s| - 1] as int) - ('0' as int))
  }

  function ParseInt(s: string): int
    requires |s| >= 1
    requires if s[0] == '-' then IsDigits(s[1..]) else IsDigits(s)
  {
    if s[0] == '-' then 0 - (DigitsValue(s[1..]) as int) else DigitsValue(s)
  }

  lemma {:induction false} NatToStringRoundTrip(n: nat)
    ensures DigitsValue(NatToString(n)) == n
  {
    if n >= 10 {
      NatToStringRoundTrip(n / 10);
      var r := NatToString(n);
      assert r[..|r| - 1] == NatToString(n / 10);
    }
  }

  /** Reading back the rendering of an integer gives the integer: the rendering is injective. */
  lemma IntToStringRoundTrip(i: int)
    ensures var r := IntToString(i);
      (if r[0] == '-' then IsDigits(r[1..]) else IsDigits(r)) && ParseInt(r) == i
  {
    var r := IntToString(i);
    if i < 0 {
      assert r[1..] == NatToString(-i);
      NatToStringRoundTrip(-i);
    } else {
      NatToStringRoundTrip(i);
    }
  }

  lemma Assoc<T>(a: seq<T>, b: seq<T>, c: seq<T>)
    ensures a + b + c == a + (b + c)
  {
  }

  lemma AppendEmpty<T>(s: seq<T>, e: seq<T>)
    requires |e| == 0
    ensures s + e == s
  {
  }

  lemma DropPrefix<T>(a: seq<T>, b: seq<T>)
    ensures (a + b)[|a|..] == b
  {
  }

  lemma TakePrefix<T>(a: seq<T>, b: seq<T>)
    ensures (a + b)[..|a|] == a
  {
  }

  lemma LastOfAppend<T>(a: seq<T>, b: seq<T>)
    requires |b| > 0
    ensures (a + b)[|a + b| - 1] == b[|b| - 1]
  {
  }
}

/**
 * String helpers shared by the scripts: Python's `str.split(sep)`,
 * `sep.join(tokens)`, `str.rindex(c)` and `str(n)` for a non-negative int,
 * each with the facts the rest of the model relies on.
 */
module Text {

  /** Index of the first occurrence of `c` in `s`. */
  function IndexOf(s: string, c: char): (r: nat)
    requires c in s
    ensures r < |s| && s[r] == c && c !in s[..r]
  {
    if s[0] == c then 0 else 1 + IndexOf(s[1..], c)
  }

  /** Index of the last occurrence of `c` in `s` (Python's `s.rindex(c)`). */
  function LastIndexOf(s: string, c: char): (r: nat)
    requires c in s
    ensures r < |s| && s[r] == c && c !in s[r + 1..]
  {
    if s[|s| - 1] == c then |s| - 1
    else
      assert c in s[..|s| - 1] by { var k :| 0 <= k < |s| && s[k] == c; assert s[..|s| - 1][k] == c; }
      LastIndexOf(s[..|s| - 1], c)
  }

  /** Python's `sep.join(ts)` for a one-character separator. */
  function Join(ts: seq<string>, sep: char): string
  {
    if |ts| == 0 then ""
    else if |ts| == 1 then ts[0]
    else ts[0] + [sep] + Join(ts[1..], sep)
  }

  /**
   * Python's `s.split(sep)` for a one-character separator: the maximal
   * separator-free pieces between separators, at least one (possibly empty).
   */
  function Split(s: string, sep: char): (r: seq<string>)
    ensures |r| >= 1
    ensures forall k :: 0 <= k < |r| ==> sep !in r[k]
    ensures Join(r, sep) == s
    decreases |s|
  {
    if sep !in s then [s]
    else
      var i := IndexOf(s, sep);
      var rest := Split(s[i + 1..], sep);
      assert s == s[..i] + [sep] + s[i + 1..];
      [s[..i]] + rest
  }

  /** A join starts with its first piece, followed by a separator when more pieces follow. */
  lemma JoinHead(ts: seq<string>, sep: char)
    requires |ts| >= 1
    ensures ts[0] <= Join(ts, sep)
    ensures |ts| > 1 ==> |ts[0]| < |Join(ts, sep)| && Join(ts, sep)[|ts[0]|] == sep
    ensures |ts| > 1 ==> Join(ts, sep)[|ts[0]| + 1..] == Join(ts[1..], sep)
    ensures |ts| == 1 ==> Join(ts, sep) == ts[0]
  {
    if |ts| > 1 {
      var s := Join(ts, sep);
      assert s == ts[0] + [sep] + Join(ts[1..], sep);
      assert s[|ts[0]| + 1..] == Join(ts[1..], sep);
    }
  }

  /** Joining a piece in front of a non-empty join adds one separator. */
  lemma JoinCons(t: string, ts: seq<string>, sep: char)
    requires |ts| >= 1
    ensures Join([t] + ts, sep) == t + [sep] + Join(ts, sep)
  {
    assert ([t] + ts)[1..] == ts;
  }

  lemma JoinTwo(a: string, b: string, sep: char)
    ensures Join([a, b], sep) == a + [sep] + b
  {
    JoinCons(a, [b], sep);
  }

  lemma JoinThree(a: string, b: string, c: string, sep: char)
    ensures Join([a, b, c], sep) == a + [sep] + b + [sep] + c
  {
    JoinTwo(b, c, sep);
    JoinCons(a, [b, c], sep);
  }

  lemma JoinFour(a: string, b: string, c: string, d: string, sep: char)
    ensures Join([a, b, c, d], sep) == a + [sep] + b + [sep] + c + [sep] + d
  {
    JoinThree(b, c, d, sep);
    JoinCons(a, [b, c, d], sep);
  }

  /** Joining two non-empty lists puts one separator between their joins. */
  lemma {:induction false} JoinAppend(ts: seq<string>, us: seq<string>, sep: char)
    requires |ts| >= 1 && |us| >= 1
    ensures Join(ts + us, sep) == Join(ts, sep) + [sep] + Join(us, sep)
    decreases |ts|
  {
    if |ts| == 1 {
      JoinCons(ts[0], us, sep);
      assert [ts[0]] + us == ts + us;
    } else {
      assert (ts + us)[1..] == ts[1..] + us;
      JoinAppend(ts[1..], us, sep);
    }
  }

  /** `Split` is `Join`'s inverse on separator-free pieces. */
  lemma {:induction false} SplitJoin(ts: seq<string>, sep: char)
    requires |ts| >= 1
    requires forall k :: 0 <= k < |ts| ==> sep !in ts[k]
    ensures Split(Join(ts, sep), sep) == ts
    decreases |ts|
  {
    if |ts| > 1 {
      var s := Join(ts, sep);
      assert s == ts[0] + [sep] + Join(ts[1..], sep);
      assert s[|ts[0]|] == sep;
      assert s[..|ts[0]|] == ts[0];
      assert IndexOf(s, sep) == |ts[0]| by {
        var i := IndexOf(s, sep);
        assert sep !in s[..|ts[0]|];
      }
      assert s[|ts[0]| + 1..] == Join(ts[1..], sep);
      SplitJoin(ts[1..], sep);
    }
  }

  /** Appending one piece to a non-empty join adds exactly one separator. */
  lemma {:induction false} JoinSnoc(ts: seq<string>, t: string, sep: char)
    requires |ts| >= 1
    ensures Join(ts + [t], sep) == Join(ts, sep) + [sep] + t
    decreases |ts|
  {
    if |ts| > 1 {
      assert (ts + [t])[1..] == ts[1..] + [t];
      JoinSnoc(ts[1..], t, sep);
    }
  }

  /** A join of separator-free pieces contains one separator fewer than there are pieces. */
  lemma {:induction false} JoinSeparatorCount(ts: seq<string>, sep: char)
    requires |ts| >= 1
    requires forall k :: 0 <= k < |ts| ==> sep !in ts[k]
    ensures multiset(Join(ts, sep))[sep] == |ts| - 1
    decreases |ts|
  {
    if |ts| > 1 {
      JoinSeparatorCount(ts[1..], sep);
      assert multiset(ts[0])[sep] == 0;
    }
  }

  /** The character for a decimal digit. */
  function Digit(d: nat): (c: char)
    requires d < 10
    ensures '0' <= c <= '9'
  {
    "0123456789"[d]
  }

  /** A non-empty string of decimal digits. */
  predicate IsDecimal(s: string)
  {
    |s| >= 1 && forall k :: 0 <= k < |s| ==> '0' <= s[k] <= '9'
  }

  /** Python's `str(n)` for a non-negative integer, and `f"{n}"`. */
  function Decimal(n: nat): (s: string)
    ensures IsDecimal(s)
  {
    if n < 10 then [Digit(n)] else Decimal(n / 10) + [Digit(n % 10)]
  }

  /** Reads a string of decimal digits back as a number (the inverse of `Decimal`). */
  function ParseDecimal(s: string): nat
    requires IsDecimal(s)
  {
    if |s| == 1 then s[0] as int - '0' as int
    else 10 * ParseDecimal(s[..|s| - 1]) + (s[|s| - 1] as int - '0' as int)
  }

  lemma {:induction false} ParseDecimalOfDecimal(n: nat)
    ensures ParseDecimal(Decimal(n)) == n
  {
    var s := Decimal(n);
    if n >= 10 {
      assert s[..|s| - 1] == Decimal(n / 10);
      ParseDecimalOfDecimal(n / 10);
    }
  }

  /** Decimal text is never a word and carries no separator used by the scripts. */
  lemma DecimalIsDigits(n: nat, c: char)
    requires !('0' <= c <= '9')
    ensures c !in Decimal(n)
  {
  }
}

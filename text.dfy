/**
 * Text helpers shared by the CSV writer and the command line: joining fields
 * with a separator (how a header or a row is laid out) and the decimal
 * rendering that `printf("%d", ...)` gives a non-negative counter value.
 */
module Text {

  /** Fields separated by `sep`, no separator before the first or after the last. */
  function Join(fields: seq<string>, sep: string): string
    decreases |fields|
  {
    if |fields| == 0 then ""
    else if |fields| == 1 then fields[0]
    else Join(fields[..|fields| - 1], sep) + sep + fields[|fields| - 1]
  }

  /** Number of occurrences of `c` in `s`. */
  function Occurrences(s: string, c: char): nat
    decreases |s|
  {
    if |s| == 0 then 0
    else Occurrences(s[..|s| - 1], c) + (if s[|s| - 1] == c then 1 else 0)
  }

  /** Occurrences of `c` summed over all fields. */
  function TotalOccurrences(fields: seq<string>, c: char): nat
    decreases |fields|
  {
    if |fields| == 0 then 0
    else TotalOccurrences(fields[..|fields| - 1], c) + Occurrences(fields[|fields| - 1], c)
  }

  lemma {:induction false} OccurrencesAppend(a: string, b: string, c: char)
    ensures Occurrences(a + b, c) == Occurrences(a, c) + Occurrences(b, c)
    decreases |b|
  {
    if |b| == 0 {
      assert a + b == a;
    } else {
      assert (a + b)[..|a + b| - 1] == a + b[..|b| - 1];
      OccurrencesAppend(a, b[..|b| - 1], c);
    }
  }

  /**
   * A line of n fields joined with a one-character separator holds exactly
   * n - 1 separators besides those inside the fields themselves.
   */
  lemma {:induction false} JoinSeparators(fields: seq<string>, c: char)
    requires |fields| > 0
    ensures Occurrences(Join(fields, [c]), c) == |fields| - 1 + TotalOccurrences(fields, c)
    decreases |fields|
  {
    if |fields| == 1 {
      assert TotalOccurrences(fields[..0], c) == 0;
    } else {
      var init := fields[..|fields| - 1];
      JoinSeparators(init, c);
      OccurrencesAppend(Join(init, [c]), [c], c);
      OccurrencesAppend(Join(init, [c]) + [c], fields[|fields| - 1], c);
      assert Occurrences([c], c) == 1 by {
        assert [c][..0] == [];
      }
    }
  }

  /** Appending one more field to a non-empty line adds a separator and the field. */
  lemma JoinSnoc(fields: seq<string>, sep: string, i: nat)
    requires 0 < i < |fields|
    ensures Join(fields[..i + 1], sep) == Join(fields[..i], sep) + sep + fields[i]
  {
    assert fields[..i + 1][..i] == fields[..i];
  }

  predicate IsDigit(c: char) {
    '0' <= c <= '9'
  }

  function DigitChar(d: nat): (c: char)
    requires d < 10
    ensures IsDigit(c) && c as int - '0' as int == d
  {
    ('0' as int + d) as char
  }

  /** The decimal digits of `n`, most significant first, without leading zeros. */
  function NatText(n: nat): (s: string)
    ensures |s| > 0 && forall i :: 0 <= i < |s| ==> IsDigit(s[i])
    ensures |s| > 1 ==> s[0] != '0'
  {
    if n < 10 then [DigitChar(n)] else NatText(n / 10) + [DigitChar(n % 10)]
  }

  /** The value of a non-empty string of decimal digits. */
  function DigitsValue(s: string): nat
    requires forall i :: 0 <= i < |s| ==> IsDigit(s[i])
    decreases |s|
  {
    if |s| == 0 then 0
    else
      assert IsDigit(s[|s| - 1]);
      10 * DigitsValue(s[..|s| - 1]) + (s[|s| - 1] as int - '0' as int)
  }

  /** Reading the decimal text back gives the number: the rendering is injective. */
  lemma {:induction false} NatTextRoundTrip(n: nat)
    ensures DigitsValue(NatText(n)) == n
  {
    if n >= 10 {
      NatTextRoundTrip(n / 10);
      var s := NatText(n);
      assert s[..|s| - 1] == NatText(n / 10);
    }
  }

  /** The concatenation of `f(x)` over the elements `x` of `s`, in order. */
  function Concat<T>(s: seq<T>, f: T -> string): string
    decreases |s|
  {
    if |s| == 0 then "" else f(s[0]) + Concat(s[1..], f)
  }

  lemma {:induction false} ConcatAppend<T>(a: seq<T>, b: seq<T>, f: T -> string)
    ensures Concat(a + b, f) == Concat(a, f) + Concat(b, f)
    decreases |a|
  {
    if |a| == 0 {
      assert a + b == b;
    } else {
      assert (a + b)[1..] == a[1..] + b;
      ConcatAppend(a[1..], b, f);
    }
  }

  /** Concatenating one more element: the loop step of a writer that emits `f(x)` per element. */
  lemma ConcatSnoc<T>(s: seq<T>, i: nat, f: T -> string)
    requires i < |s|
    ensures Concat(s[..i + 1], f) == Concat(s[..i], f) + f(s[i])
  {
    assert s[..i + 1] == s[..i] + [s[i]];
    ConcatAppend(s[..i], [s[i]], f);
    assert [s[i]][1..] == [];
  }
}

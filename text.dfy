/**
 * Text helpers shared by the configuration writers: decimal rendering of
 * numbers (JavaScript's `"" + n` for a non-negative integer), prefix tests on
 * lines, and the selection of the lines of a file that open with a given
 * prefix, which is how the properties of the generated files are stated.
 */
module Text {

  function DigitChar(d: nat): (c: char)
    requires d < 10
  {
    "0123456789"[d]
  }

  /** Decimal rendering of a natural number, as JavaScript converts it when it is
      concatenated to a string. */
  function NatToString(n: nat): (s: string)
    ensures |s| >= 1
    decreases n
  {
    if n < 10 then [DigitChar(n)] else NatToString(n / 10) + [DigitChar(n % 10)]
  }

  /** The last character of a rendering is the units digit; when the number has
      two digits or more, the one before it is the tens digit. */
  lemma LastDigits(n: nat)
    ensures NatToString(n)[|NatToString(n)| - 1] == DigitChar(n % 10)
    ensures n < 10 <==> |NatToString(n)| == 1
    ensures n >= 10 ==> NatToString(n)[|NatToString(n)| - 2] == DigitChar((n / 10) % 10)
  {
    if n >= 10 {
      var hi := NatToString(n / 10);
      assert NatToString(n) == hi + [DigitChar(n % 10)];
      LastDigits(n / 10);
    }
  }

  predicate StartsWith(line: string, prefix: string) {
    |prefix| <= |line| && forall i | 0 <= i < |prefix| :: line[i] == prefix[i]
  }

  /** The lines of `lines` that start with `prefix`, in their original order. */
  function Select(lines: seq<string>, prefix: string): (r: seq<string>)
  {
    if lines == [] then []
    else (if StartsWith(lines[0], prefix) then [lines[0]] else []) + Select(lines[1..], prefix)
  }

  /** Selecting from a concatenation selects from each part, keeping the order. */
  lemma {:induction false} SelectAppend(a: seq<string>, b: seq<string>, prefix: string)
    ensures Select(a + b, prefix) == Select(a, prefix) + Select(b, prefix)
  {
    if a == [] {
      assert a + b == b;
    } else {
      assert (a + b)[0] == a[0];
      assert (a + b)[1..] == a[1..] + b;
      SelectAppend(a[1..], b, prefix);
    }
  }

  /** A single line is selected exactly when it carries the prefix. */
  lemma SelectIn(line: string, prefix: string)
    requires StartsWith(line, prefix)
    ensures Select([line], prefix) == [line]
  {
    assert [line][1..] == [];
  }

  /** A line that differs from the prefix at position `i` is not selected. */
  lemma SelectOut(line: string, prefix: string, i: nat)
    requires i < |prefix| && i < |line| && line[i] != prefix[i]
    ensures Select([line], prefix) == []
  {
    assert [line][1..] == [];
  }

  lemma StartsWithAppend(prefix: string, rest: string)
    ensures StartsWith(prefix + rest, prefix)
  {
  }

  /** Appending pieces one after another appends their concatenation. */
  lemma Regroup<T>(s0: seq<T>, a: seq<T>, b: seq<T>, c: seq<T>, d: seq<T>)
    ensures s0 + a + b + c + d == s0 + (a + b + c + d)
  {
  }
}

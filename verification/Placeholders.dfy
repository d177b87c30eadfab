/** Positional placeholders `$N`: how the builders render them, how a SQL text
    is read back as the sequence of placeholder numbers it mentions, and the
    numbering invariant a well-formed statement keeps (its placeholders are
    exactly `$1`, `$2`, ..., `$n` in order, n being the number of parameters). */
module Placeholders {

  import opened Values

  predicate IsDigit(c: char) { '0' <= c <= '9' }

  predicate AllDigits(s: string) { forall i :: 0 <= i < |s| ==> IsDigit(s[i]) }

  function DigitChar(d: nat): (c: char)
    requires d < 10
    ensures IsDigit(c)
  {
    ('0' as int + d) as char
  }

  function DigitValue(c: char): (d: nat)
    requires IsDigit(c)
    ensures d < 10 && DigitChar(d) == c
  {
    c as int - '0' as int
  }

  /** Decimal rendering of a count, as PHP interpolates an integer into a string. */
  function NatToString(n: nat): (s: string)
    ensures 1 <= |s| && AllDigits(s)
    ensures n < 10 <==> |s| == 1
    ensures n > 0 ==> s[0] != '0'
  {
    if n < 10 then [DigitChar(n)] else NatToString(n / 10) + [DigitChar(n % 10)]
  }

  /** Value of a run of decimal digits (a non-digit counts as 0). */
  function ParseDigits(s: string): nat
  {
    if |s| == 0 then 0
    else ParseDigits(s[..|s| - 1]) * 10 + (if IsDigit(s[|s| - 1]) then DigitValue(s[|s| - 1]) else 0)
  }

  lemma {:induction false} ParseNatToString(n: nat)
    ensures ParseDigits(NatToString(n)) == n
  {
    var s := NatToString(n);
    if n >= 10 {
      assert s[..|s| - 1] == NatToString(n / 10);
      ParseNatToString(n / 10);
    }
  }

  /** Different counts are rendered differently. */
  lemma NatToStringInjective(m: nat, n: nat)
    requires NatToString(m) == NatToString(n)
    ensures m == n
  {
    ParseNatToString(m);
    ParseNatToString(n);
  }

  /** The text `$N`. */
  function Placeholder(n: nat): string { "$" + NatToString(n) }

  /** The text `name = $N`. */
  function Equality(name: string, n: nat): string { name + " = " + Placeholder(n) }

  /** `name = $N` reads back as the name, then ` = `, then the placeholder of N. */
  lemma EqualityParts(name: string, n: nat)
    ensures var r := Equality(name, n);
      && |r| == |name| + 3 + |Placeholder(n)|
      && r[..|name|] == name && r[|name|..|name| + 3] == " = "
      && r[|name| + 3..] == Placeholder(n)
  {
  }

  /** Length of the leading run of digits of `s`. */
  function DigitRun(s: string): (k: nat)
    ensures k <= |s|
  {
    if |s| > 0 && IsDigit(s[0]) then 1 + DigitRun(s[1..]) else 0
  }

  /** The placeholder numbers a SQL text mentions, left to right: every `$`
      immediately followed by a maximal run of decimal digits. */
  function PlaceholderNumbers(s: string): seq<nat>
    decreases |s|
  {
    if |s| == 0 then []
    else if s[0] == '$' && |s| > 1 && IsDigit(s[1]) then
      var k := DigitRun(s[1..]);
      [ParseDigits(s[1..1 + k])] + PlaceholderNumbers(s[1 + k..])
    else PlaceholderNumbers(s[1..])
  }

  /** A text whose end could still be extended into a placeholder by a following digit. */
  predicate EndsOpen(a: string) { |a| > 0 && (IsDigit(a[|a| - 1]) || a[|a| - 1] == '$') }

  predicate StartsWithDigit(b: string) { |b| > 0 && IsDigit(b[0]) }

  /** The numbers from + 1, ..., from + count, in order. */
  function Numbering(from: nat, count: nat): (r: seq<nat>)
    ensures |r| == count
  {
    if count == 0 then [] else Numbering(from, count - 1) + [from + count]
  }

  /** The numbering invariant of a statement: placeholders `$1` .. `$n` in order,
      n the number of bound parameters. */
  ghost predicate WellNumbered(sql: string, params: seq<Value>)
  {
    PlaceholderNumbers(sql) == Numbering(0, |params|)
  }

  lemma {:induction false} NumberingSplit(from: nat, a: nat, b: nat)
    ensures Numbering(from, a) + Numbering(from + a, b) == Numbering(from, a + b)
  {
    if b > 0 {
      NumberingSplit(from, a, b - 1);
    }
  }

  lemma {:induction false} DigitRunAllDigits(s: string)
    requires AllDigits(s)
    ensures DigitRun(s) == |s|
  {
    if |s| > 0 {
      DigitRunAllDigits(s[1..]);
    }
  }

  /** A digit run is not extended by appending text, unless the left part ends
      in a digit and the right part starts with one. */
  lemma {:induction false} DigitRunConcat(x: string, y: string)
    requires !StartsWithDigit(y) || (|x| > 0 && !IsDigit(x[|x| - 1]))
    ensures DigitRun(x + y) == DigitRun(x)
  {
    if |x| == 0 {
      assert x + y == y;
    } else if IsDigit(x[0]) {
      assert (x + y)[1..] == x[1..] + y;
      if |x| > 1 {
        assert x[1..][|x[1..]| - 1] == x[|x| - 1];
      }
      DigitRunConcat(x[1..], y);
    } else {
      assert (x + y)[0] == x[0];
    }
  }

  /** Reading placeholders distributes over concatenation unless the seam
      could glue a `$` or digits of the left part to digits of the right part. */
  lemma {:induction false} PlaceholdersConcat(a: string, b: string)
    requires !(EndsOpen(a) && StartsWithDigit(b))
    ensures PlaceholderNumbers(a + b) == PlaceholderNumbers(a) + PlaceholderNumbers(b)
    decreases |a|, 1
  {
    if |a| == 0 {
      assert a + b == b;
    } else if a[0] == '$' && |a| > 1 && IsDigit(a[1]) {
      ConcatPlaceholderFirst(a, b);
    } else {
      ConcatOtherFirst(a, b);
    }
  }

  /** The inductive step of PlaceholdersConcat when `a` starts with a placeholder. */
  lemma {:induction false} ConcatPlaceholderFirst(a: string, b: string)
    requires |a| > 1 && a[0] == '$' && IsDigit(a[1])
    requires !(EndsOpen(a) && StartsWithDigit(b))
    ensures PlaceholderNumbers(a + b) == PlaceholderNumbers(a) + PlaceholderNumbers(b)
    decreases |a|, 0
  {
    var k := DigitRun(a[1..]);
    var rest := a[1 + k..];
    var n := ParseDigits(a[1..1 + k]);
    ConcatAfterPlaceholder(a, b);
    SuffixKeepsEnd(a, 1 + k, b);
    PlaceholdersConcat(rest, b);
  }

  /** The inductive step of PlaceholdersConcat when `a` does not start with a placeholder. */
  lemma {:induction false} ConcatOtherFirst(a: string, b: string)
    requires |a| > 0 && !(a[0] == '$' && |a| > 1 && IsDigit(a[1]))
    requires !(EndsOpen(a) && StartsWithDigit(b))
    ensures PlaceholderNumbers(a + b) == PlaceholderNumbers(a) + PlaceholderNumbers(b)
    decreases |a|, 0
  {
    ConcatAfterOther(a, b);
    SuffixKeepsEnd(a, 1, b);
    PlaceholdersConcat(a[1..], b);
  }

  lemma SuffixKeepsEnd(a: string, i: nat, b: string)
    requires i <= |a|
    requires !(EndsOpen(a) && StartsWithDigit(b))
    ensures !(EndsOpen(a[i..]) && StartsWithDigit(b))
  {
    if i < |a| {
      assert a[i..][|a[i..]| - 1] == a[|a| - 1];
    }
  }

  /** One unfolding step of PlaceholdersConcat when `a` starts with a placeholder. */
  lemma ConcatAfterPlaceholder(a: string, b: string)
    requires |a| > 1 && a[0] == '$' && IsDigit(a[1])
    requires !(EndsOpen(a) && StartsWithDigit(b))
    ensures var k := DigitRun(a[1..]);
      && 1 + k <= |a|
      && PlaceholderNumbers(a) == [ParseDigits(a[1..1 + k])] + PlaceholderNumbers(a[1 + k..])
      && PlaceholderNumbers(a + b) == [ParseDigits(a[1..1 + k])] + PlaceholderNumbers(a[1 + k..] + b)
  {
    var ab := a + b;
    var k := DigitRun(a[1..]);
    assert DigitRun(ab[1..]) == k by {
      assert ab[1..] == a[1..] + b;
      assert a[1..][|a[1..]| - 1] == a[|a| - 1];
      DigitRunConcat(a[1..], b);
    }
    ConcatSlices(a, b, 1, 1 + k);
    UnfoldPlaceholder(a);
    UnfoldPlaceholder(ab);
  }

  /** The definition of PlaceholderNumbers at a text starting with a placeholder. */
  lemma UnfoldPlaceholder(s: string)
    requires |s| > 1 && s[0] == '$' && IsDigit(s[1])
    ensures var k := DigitRun(s[1..]);
      && 1 + k <= |s|
      && PlaceholderNumbers(s) == [ParseDigits(s[1..1 + k])] + PlaceholderNumbers(s[1 + k..])
  {
  }

  lemma ConcatSlices(a: string, b: string, i: nat, j: nat)
    requires i <= j <= |a|
    ensures (a + b)[i..j] == a[i..j] && (a + b)[j..] == a[j..] + b
  {
  }

  /** One unfolding step of PlaceholdersConcat when `a` does not start with a placeholder. */
  lemma ConcatAfterOther(a: string, b: string)
    requires |a| > 0 && !(a[0] == '$' && |a| > 1 && IsDigit(a[1]))
    requires !(EndsOpen(a) && StartsWithDigit(b))
    ensures PlaceholderNumbers(a) == PlaceholderNumbers(a[1..])
    ensures PlaceholderNumbers(a + b) == PlaceholderNumbers(a[1..] + b)
  {
    var ab := a + b;
    assert ab[1..] == a[1..] + b;
    if a[0] == '$' && |a| == 1 {
      assert !StartsWithDigit(b);
    }
  }

  lemma {:induction false} NoDollarNoPlaceholders(s: string)
    requires '$' !in s
    ensures PlaceholderNumbers(s) == []
  {
    if |s| > 0 {
      assert s[0] in s;
      NoDollarNoPlaceholders(s[1..]);
    }
  }

  /** `$N` reads back as the single placeholder N. */
  lemma PlaceholderReadsBack(n: nat)
    ensures PlaceholderNumbers(Placeholder(n)) == [n]
  {
    var s := Placeholder(n);
    DigitRunAllDigits(NatToString(n));
    ParseNatToString(n);
    assert s[1..] == NatToString(n);
    assert s[1..1 + |NatToString(n)|] == NatToString(n);
    assert s[1 + |NatToString(n)|..] == [];
  }

  /** `name = $N` mentions exactly placeholder N when the name has no `$`. */
  lemma EqualityPlaceholders(name: string, n: nat)
    requires '$' !in name
    ensures PlaceholderNumbers(Equality(name, n)) == [n]
    ensures !EndsOpen(name + " = ")
  {
    var prefix := name + " = ";
    assert '$' !in prefix;
    NoDollarNoPlaceholders(prefix);
    PlaceholdersConcat(prefix, Placeholder(n));
    PlaceholderReadsBack(n);
  }
}

/** The few JavaScript string operations the server relies on:
    `String.prototype.includes`, `Array.prototype.join` and the decimal
    rendering of a non-negative integer (`${n}` in a template literal).
    A `char` stands for one UTF-16 code unit, so `|s|` is JavaScript's
    `s.length`. */
module JsStrings {

  /** `sub` occurs in `s` starting at index `i`: the reference meaning of
      substring containment. */
  ghost predicate OccursAt(s: string, sub: string, i: int)
  {
    0 <= i && i + |sub| <= |s| && s[i..i + |sub|] == sub
  }

  /** `s.includes(sub)`, computed by scanning from the left. */
  function Includes(s: string, sub: string): (r: bool)
    ensures r <==> exists i :: OccursAt(s, sub, i)
    decreases |s|
  {
    if sub <= s then
      assert OccursAt(s, sub, 0);
      true
    else if |s| == 0 then
      false
    else
      var r := Includes(s[1..], sub);
      ShiftOccurrence(s, sub);
      r
  }

  /** An occurrence in `s` other than at 0 is an occurrence in `s[1..]`, one
      place to the left, and back. */
  lemma ShiftOccurrence(s: string, sub: string)
    requires |s| > 0 && !(sub <= s)
    ensures (exists i :: OccursAt(s[1..], sub, i)) <==> (exists i :: OccursAt(s, sub, i))
  {
    if exists i :: OccursAt(s[1..], sub, i) {
      var i :| OccursAt(s[1..], sub, i);
      assert s[i + 1..i + 1 + |sub|] == s[1..][i..i + |sub|];
      assert OccursAt(s, sub, i + 1);
    }
    if exists i :: OccursAt(s, sub, i) {
      var i :| OccursAt(s, sub, i);
      assert s[1..][i - 1..i - 1 + |sub|] == s[i..i + |sub|];
      assert OccursAt(s[1..], sub, i - 1);
    }
  }

  /** A string that starts with `p` includes `p`. */
  lemma PrefixIncluded(p: string, rest: string)
    ensures Includes(p + rest, p)
  {
  }

  /** A string that lacks one of the characters of `sub` cannot include `sub`. */
  lemma MissingCharExcludes(s: string, sub: string, c: char)
    requires c in sub && c !in s
    ensures !Includes(s, sub)
  {
  }

  /** A string that does not include `a` does not include any extension of `a`. */
  lemma ExtensionExcluded(s: string, a: string, b: string)
    requires !Includes(s, a)
    ensures !Includes(s, a + b)
  {
  }

  /** An occurrence that avoids the separator `c` lies wholly on one side of it. */
  lemma SeparatorSplits(a: string, c: char, b: string, sub: string)
    requires c !in sub
    requires Includes(a + [c] + b, sub)
    ensures Includes(a, sub) || Includes(b, sub)
  {
    var s := a + [c] + b;
    var i :| OccursAt(s, sub, i);
    assert s[|a|] == c;
    assert i + |sub| <= |a| || i > |a| by {
      assert forall k :: i <= k < i + |sub| ==> s[k] == sub[k - i];
    }
    if i + |sub| <= |a| {
      assert s[i..i + |sub|] == a[i..i + |sub|];
      assert OccursAt(a, sub, i);
    } else if i > |a| {
      var j := i - |a| - 1;
      assert s[i..i + |sub|] == b[j..j + |sub|];
      assert OccursAt(b, sub, j);
    }
  }

  /** `words.join(sep)` */
  function Join(words: seq<string>, sep: char): string
    decreases |words|
  {
    if |words| == 0 then ""
    else if |words| == 1 then words[0]
    else words[0] + [sep] + Join(words[1..], sep)
  }

  /** The words of a joined string are the only places a separator-free
      substring can come from. */
  lemma {:induction false} JoinedIncludes(words: seq<string>, sep: char, sub: string)
    requires |words| > 0 && sep !in sub
    requires Includes(Join(words, sep), sub)
    ensures exists w :: w in words && Includes(w, sub)
    decreases |words|
  {
    if |words| > 1 {
      SeparatorSplits(words[0], sep, Join(words[1..], sep), sub);
      if !Includes(words[0], sub) {
        JoinedIncludes(words[1..], sep, sub);
        var w :| w in words[1..] && Includes(w, sub);
        assert w in words;
      }
    }
  }

  /** A message assembled from words each of which lacks some character of
      `sub` (the one `missing` names for it) does not include `sub`, provided
      `sub` has no separator in it. */
  lemma WordsExclude(words: seq<string>, missing: seq<char>, sep: char, sub: string)
    requires |words| > 0 && |missing| == |words| && sep !in sub
    requires forall k :: 0 <= k < |words| ==> missing[k] in sub && missing[k] !in words[k]
    ensures !Includes(Join(words, sep), sub)
  {
    if Includes(Join(words, sep), sub) {
      JoinedIncludes(words, sep, sub);
      var w :| w in words && Includes(w, sub);
      var k :| 0 <= k < |words| && words[k] == w;
      MissingCharExcludes(w, sub, missing[k]);
    }
  }

  function DigitChar(d: nat): char
    requires d < 10
  {
    "0123456789"[d]
  }

  function DigitValue(c: char): nat
  {
    if '0' <= c <= '9' then (c as int) - ('0' as int) else 0
  }

  /** `${n}` for a non-negative integer: its decimal digits, with no
      leading zero. */
  function Decimal(n: nat): (r: string)
    ensures |r| > 0 && (|r| > 1 ==> r[0] != '0')
    ensures forall k :: 0 <= k < |r| ==> '0' <= r[k] <= '9'
  {
    if n < 10 then [DigitChar(n)] else Decimal(n / 10) + [DigitChar(n % 10)]
  }

  /** The integer a string of decimal digits denotes (`Number(s)` on such a
      string); the left inverse of `Decimal`. */
  function DecimalValue(s: string): nat
  {
    if |s| == 0 then 0 else 10 * DecimalValue(s[..|s| - 1]) + DigitValue(s[|s| - 1])
  }

  /** Reading `Decimal(n)` back gives `n`: the decimal text determines the number. */
  lemma {:induction false} DecimalRoundTrip(n: nat)
    ensures DecimalValue(Decimal(n)) == n
  {
    if n >= 10 {
      var s := Decimal(n);
      assert s[..|s| - 1] == Decimal(n / 10);
      DecimalRoundTrip(n / 10);
    }
  }
}

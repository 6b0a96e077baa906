/**
 * The parts of `java.lang.String`, `Long.toString` and `Arrays.toString` the monitor relies on.
 * Case conversion is ASCII only.
 */
module JavaStrings {

  /** `Character.toLowerCase` restricted to ASCII letters. */
  function Lower(c: char): (r: char)
    ensures 'A' <= c <= 'Z' ==> r as int == c as int + 32
    ensures !('A' <= c <= 'Z') ==> r == c
    ensures !('A' <= r <= 'Z')
  {
    if 'A' <= c <= 'Z' then (c as int + 32) as char else c
  }

  /** `String.toLowerCase`: every character lowered, length kept. */
  function LowerStr(s: string): (r: string)
    ensures |r| == |s|
    ensures forall i :: 0 <= i < |s| ==> r[i] == Lower(s[i])
  {
    seq(|s|, i requires 0 <= i < |s| => Lower(s[i]))
  }

  lemma LowerStrIdempotent(s: string)
    ensures LowerStr(LowerStr(s)) == LowerStr(s)
  {
  }

  /** `String.equalsIgnoreCase`. */
  predicate EqualsIgnoreCase(a: string, b: string)
  {
    LowerStr(a) == LowerStr(b)
  }

  lemma EqualsIgnoreCaseIsEquivalence(a: string, b: string, c: string)
    ensures EqualsIgnoreCase(a, a)
    ensures EqualsIgnoreCase(a, b) ==> EqualsIgnoreCase(b, a)
    ensures EqualsIgnoreCase(a, b) && EqualsIgnoreCase(b, c) ==> EqualsIgnoreCase(a, c)
    ensures EqualsIgnoreCase(a, b) ==> |a| == |b|
  {
    if EqualsIgnoreCase(a, b) {
      assert |LowerStr(a)| == |LowerStr(b)|;
    }
  }

  /** `p` occurs in `s` at position `i`. */
  predicate OccursAt(s: string, p: string, i: nat)
  {
    i + |p| <= |s| && s[i..i + |p|] == p
  }

  /** `String.contains`. */
  predicate Contains(s: string, p: string)
  {
    exists i: nat | i <= |s| :: OccursAt(s, p, i)
  }

  lemma ContainsEmpty(s: string)
    ensures Contains(s, "")
  {
    assert OccursAt(s, "", 0);
  }

  lemma ContainsSelf(s: string)
    ensures Contains(s, s)
  {
    assert OccursAt(s, s, 0);
  }

  /** `String.indexOf(p, from)`: the first occurrence at or after `from`, or -1. */
  function IndexOf(s: string, p: string, from: nat): (r: int)
    ensures r == -1 || (from <= r && OccursAt(s, p, r))
    ensures r == -1 ==> forall k: nat :: from <= k ==> !OccursAt(s, p, k)
    ensures r != -1 ==> forall k: nat :: from <= k < r ==> !OccursAt(s, p, k)
    decreases |s| - from
  {
    if from + |p| > |s| then -1
    else if s[from..from + |p|] == p then from
    else IndexOf(s, p, from + 1)
  }

  /** `t` matches `s` at position `i` from its `j`-th character on, compared one character at a time. */
  predicate MatchesFrom(s: string, t: string, i: nat, j: nat)
    requires i + |t| <= |s| && j <= |t|
    decreases |t| - j
  {
    j == |t| || (s[i + j] == t[j] && MatchesFrom(s, t, i, j + 1))
  }

  lemma {:induction false} MatchesFromSpec(s: string, t: string, i: nat, j: nat)
    requires i + |t| <= |s| && j <= |t|
    ensures MatchesFrom(s, t, i, j) <==> s[i + j..i + |t|] == t[j..]
    decreases |t| - j
  {
    if j < |t| {
      MatchesFromSpec(s, t, i, j + 1);
      assert s[i + j..i + |t|] == [s[i + j]] + s[i + j + 1..i + |t|];
      assert t[j..] == [t[j]] + t[j + 1..];
    }
  }

  /**
   * `s.replace(t, "")` from position `i` on: a single left-to-right pass that
   * drops every non-overlapping occurrence of `t`.
   */
  function RemoveAllFrom(s: string, t: string, i: nat): (r: string)
    requires |t| > 0 && i <= |s|
    ensures |r| <= |s| - i
    decreases |s| - i
  {
    if i + |t| > |s| then s[i..]
    else if MatchesFrom(s, t, i, 0) then RemoveAllFrom(s, t, i + |t|)
    else [s[i]] + RemoveAllFrom(s, t, i + 1)
  }

  /** `s.replace(t, "")`. */
  function RemoveAll(s: string, t: string): (r: string)
    requires |t| > 0
    ensures |r| <= |s|
  {
    RemoveAllFrom(s, t, 0)
  }

  lemma {:induction false} RemoveAllFromAbsent(s: string, t: string, i: nat)
    requires |t| > 0 && i <= |s|
    requires forall k: nat :: i <= k ==> !OccursAt(s, t, k)
    ensures RemoveAllFrom(s, t, i) == s[i..]
    decreases |s| - i
  {
    if i + |t| <= |s| {
      MatchesFromSpec(s, t, i, 0);
      assert t[0..] == t;
      assert !OccursAt(s, t, i);
      RemoveAllFromAbsent(s, t, i + 1);
      assert s[i..] == [s[i]] + s[i + 1..];
    }
  }

  /** A string without an occurrence of `t` is left as it is. */
  lemma RemoveAllAbsent(s: string, t: string)
    requires |t| > 0
    requires !Contains(s, t)
    ensures RemoveAll(s, t) == s
  {
    RemoveAllFromAbsent(s, t, 0);
  }

  /** A string in which the first character of `t` never appears is left as it is. */
  lemma RemoveAllWithoutFirstChar(s: string, t: string)
    requires |t| > 0 && t[0] !in s
    ensures RemoveAll(s, t) == s
  {
    forall k: nat | k + |t| <= |s| ensures !OccursAt(s, t, k) {
      assert s[k..k + |t|][0] == s[k];
    }
    RemoveAllFromAbsent(s, t, 0);
  }

  /** An occurrence at the very end goes, and the part before it stays when it cannot start one. */
  lemma {:induction false} RemoveAllTrailingOccurrence(a: string, t: string, i: nat)
    requires |t| > 0 && t[0] !in a && i <= |a|
    ensures RemoveAllFrom(a + t, t, i) == a[i..]
    decreases |a| - i
  {
    if i < |a| {
      assert (a + t)[i] == a[i];
      assert a[i] in a;
      RemoveAllTrailingOccurrence(a, t, i + 1);
      assert a[i..] == [a[i]] + a[i + 1..];
    } else {
      MatchesFromSpec(a + t, t, i, 0);
      assert (a + t)[i..i + |t|] == t;
      assert t[0..] == t;
    }
  }

  /** `String.compareTo`: first differing character's difference, else the length difference. */
  function Compare(a: string, b: string): (r: int)
    decreases |a|
  {
    if a == [] || b == [] then |a| - |b|
    else if a[0] != b[0] then a[0] as int - b[0] as int
    else Compare(a[1..], b[1..])
  }

  lemma {:induction false} CompareAntisymmetric(a: string, b: string)
    ensures Compare(a, b) == -Compare(b, a)
    decreases |a|
  {
    if a == [] || b == [] {
    } else if a[0] != b[0] {
    } else {
      CompareAntisymmetric(a[1..], b[1..]);
    }
  }

  lemma {:induction false} CompareZeroIffEqual(a: string, b: string)
    ensures Compare(a, b) == 0 <==> a == b
    decreases |a|
  {
    if a == [] || b == [] {
    } else if a[0] != b[0] {
    } else {
      CompareZeroIffEqual(a[1..], b[1..]);
      assert a == [a[0]] + a[1..] && b == [b[0]] + b[1..];
    }
  }

  lemma {:induction false} CompareTransitive(a: string, b: string, c: string)
    requires Compare(a, b) <= 0 && Compare(b, c) <= 0
    ensures Compare(a, c) <= 0
    decreases |a|
  {
    if a == [] || b == [] || c == [] {
    } else if a[0] != b[0] || b[0] != c[0] {
    } else {
      CompareTransitive(a[1..], b[1..], c[1..]);
    }
  }

  /** The order `String.compareTo` sorts by. */
  predicate StrLe(a: string, b: string)
  {
    Compare(a, b) <= 0
  }

  lemma StrLeTotalPreorder()
    ensures forall a, b :: StrLe(a, b) || StrLe(b, a)
    ensures forall a, b, c :: StrLe(a, b) && StrLe(b, c) ==> StrLe(a, c)
  {
    forall a, b ensures StrLe(a, b) || StrLe(b, a) {
      CompareAntisymmetric(a, b);
    }
    forall a, b, c | StrLe(a, b) && StrLe(b, c) ensures StrLe(a, c) {
      CompareTransitive(a, b, c);
    }
  }

  /** Decimal digits of a natural number, as `Long.toString` prints them. */
  function NatToString(n: nat): (r: string)
    ensures |r| >= 1
    ensures forall i :: 0 <= i < |r| ==> '0' <= r[i] <= '9'
    decreases n
  {
    var d := ['0' + (n % 10) as char];
    if n < 10 then d else NatToString(n / 10) + d
  }

  /** The number a string of decimal digits denotes. */
  function DigitsValue(s: string): nat
  {
    if s == [] then 0
    else
      var c := s[|s| - 1];
      DigitsValue(s[..|s| - 1]) * 10 + (if '0' <= c <= '9' then (c - '0') as nat else 0)
  }

  /** The digits read back to the number, and only 0 itself starts with '0'. */
  lemma {:induction false} NatToStringValue(n: nat)
    ensures DigitsValue(NatToString(n)) == n
    ensures NatToString(n)[0] == '0' ==> n == 0
    decreases n
  {
    var r := NatToString(n);
    if n >= 10 {
      NatToStringValue(n / 10);
      var d := ['0' + (n % 10) as char];
      assert r == NatToString(n / 10) + d;
      assert r[..|r| - 1] == NatToString(n / 10);
    }
  }

  /** `Long.toString`. */
  function IntToString(n: int): (r: string)
    ensures |r| >= 1
    ensures n < 0 <==> r[0] == '-'
    ensures n < 0 ==> DigitsValue(r[1..]) == -n
    ensures n >= 0 ==> DigitsValue(r) == n
  {
    NatToStringValue(if n < 0 then -n else n);
    if n < 0 then
      assert ("-" + NatToString(-n))[1..] == NatToString(-n);
      "-" + NatToString(-n)
    else NatToString(n)
  }

  /** Elements separated by `sep`. */
  function Join(xs: seq<string>, sep: string): string
  {
    if xs == [] then ""
    else if |xs| == 1 then xs[0]
    else xs[0] + sep + Join(xs[1..], sep)
  }

  /** `Arrays.toString` of a (non-null) `String[]`. */
  function ArrayToString(xs: seq<string>): (r: string)
    ensures |r| >= 2 && r[0] == '[' && r[|r| - 1] == ']'
    ensures xs == [] ==> r == "[]"
  {
    "[" + Join(xs, ", ") + "]"
  }

  /** Every element of the array appears in its printed form. */
  lemma {:induction false} JoinContainsElements(xs: seq<string>, sep: string, i: nat)
    requires i < |xs|
    ensures Contains(Join(xs, sep), xs[i])
  {
    if i == 0 {
      if |xs| == 1 {
        ContainsSelf(xs[0]);
      } else {
        assert OccursAt(Join(xs, sep), xs[0], 0);
      }
    } else {
      JoinContainsElements(xs[1..], sep, i - 1);
      var rest := Join(xs[1..], sep);
      var k: nat :| k <= |rest| && OccursAt(rest, xs[1..][i - 1], k);
      var off := |xs[0] + sep|;
      assert Join(xs, sep) == (xs[0] + sep) + rest;
      assert Join(xs, sep)[off + k..off + k + |xs[i]|] == rest[k..k + |xs[i]|];
      assert OccursAt(Join(xs, sep), xs[i], off + k);
    }
  }
}

/** The string operations the engine uses: `toUpperCase`, `toLowerCase` and
    `includes`, restricted to the ASCII letters. */
module Text {

  function UpperChar(c: char): (u: char)
  {
    if 'a' <= c <= 'z' then (c as int - 32) as char else c
  }

  function LowerChar(c: char): (l: char)
  {
    if 'A' <= c <= 'Z' then (c as int + 32) as char else c
  }

  /** `s.toUpperCase()` on ASCII letters. */
  function ToUpper(s: string): (u: string)
    ensures |u| == |s|
    ensures forall i :: 0 <= i < |s| ==> u[i] == UpperChar(s[i])
  {
    seq(|s|, i requires 0 <= i < |s| => UpperChar(s[i]))
  }

  /** `s.toLowerCase()` on ASCII letters. */
  function ToLower(s: string): (l: string)
    ensures |l| == |s|
    ensures forall i :: 0 <= i < |s| ==> l[i] == LowerChar(s[i])
  {
    seq(|s|, i requires 0 <= i < |s| => LowerChar(s[i]))
  }

  /** `p` occurs in `s` starting at position `i`. */
  ghost predicate OccursAt(s: string, p: string, i: int)
  {
    0 <= i && i + |p| <= |s| && s[i..i + |p|] == p
  }

  /** `s.includes(p)`: some suffix of `s` starts with `p`. */
  predicate Contains(s: string, p: string)
    decreases |s|
  {
    (|p| <= |s| && s[..|p|] == p) || (|s| > 0 && Contains(s[1..], p))
  }

  /** An occurrence of `p` at any position makes `s` contain `p`. */
  lemma {:induction false} OccursThenContains(s: string, p: string, i: int)
    requires OccursAt(s, p, i)
    ensures Contains(s, p)
    decreases i
  {
    if i > 0 {
      assert s[1..][i - 1..i - 1 + |p|] == s[i..i + |p|];
      OccursThenContains(s[1..], p, i - 1);
    }
  }

  /** A string that contains `p` has an occurrence of `p`, at position `i`. */
  lemma {:induction false} ContainsThenOccurs(s: string, p: string) returns (i: nat)
    requires Contains(s, p)
    ensures OccursAt(s, p, i)
    decreases |s|
  {
    if |p| <= |s| && s[..|p|] == p {
      i := 0;
    } else {
      var j := ContainsThenOccurs(s[1..], p);
      assert s[j + 1..j + 1 + |p|] == s[1..][j..j + |p|];
      i := j + 1;
    }
  }

  /** `Contains` means exactly that `p` occurs somewhere in `s`. */
  lemma ContainsIffOccurs(s: string, p: string)
    ensures Contains(s, p) <==> exists i :: OccursAt(s, p, i)
  {
    if Contains(s, p) {
      var i := ContainsThenOccurs(s, p);
    }
    forall i | OccursAt(s, p, i) ensures Contains(s, p) {
      OccursThenContains(s, p, i);
    }
  }

  /** A string that contains `p` contains every prefix `q` of `p`. */
  lemma {:induction false} ContainsPrefixOf(s: string, p: string, q: string)
    requires Contains(s, p)
    requires |q| <= |p| && p[..|q|] == q
    ensures Contains(s, q)
    decreases |s|
  {
    if |p| <= |s| && s[..|p|] == p {
      assert s[..|q|] == s[..|p|][..|q|];
    } else {
      ContainsPrefixOf(s[1..], p, q);
    }
  }

  /** A string without the first character of `p` does not contain `p`. */
  lemma {:induction false} MissingFirstCharNotContained(s: string, p: string)
    requires |p| > 0 && p[0] !in s
    ensures !Contains(s, p)
    decreases |s|
  {
    if |s| > 0 {
      MissingFirstCharNotContained(s[1..], p);
    }
  }

  /** A string shorter than `p`, or as long and different, does not contain `p`. */
  lemma {:induction false} TooShortNotContained(s: string, p: string)
    requires |s| < |p| || (|s| == |p| && s != p)
    ensures !Contains(s, p)
    decreases |s|
  {
    if |s| > 0 {
      TooShortNotContained(s[1..], p);
    }
  }

  /** Upper-casing forgets whether the input was upper- or lower-case. */
  lemma CaseMappingsAgree(s: string)
    ensures ToUpper(ToLower(s)) == ToUpper(s)
    ensures ToUpper(ToUpper(s)) == ToUpper(s)
    ensures ToLower(ToUpper(s)) == ToLower(s)
    ensures ToLower(ToLower(s)) == ToLower(s)
  {
  }
}

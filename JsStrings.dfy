/** The small part of JavaScript's string semantics the resolver relies on:
    optional strings and their truthiness, `a || b` on optional strings,
    `toLowerCase`, `includes` and `replace` with a one-character pattern. */
module JsStrings {

  /** A JavaScript value of type `string | undefined`. */
  datatype Option<+T> = None | Some(value: T)

  /** JavaScript truthiness of a `string | undefined`: `undefined` and `""` are falsy. */
  predicate Truthy(o: Option<string>) {
    o.Some? && o.value != ""
  }

  /** `a || b` on two `string | undefined` values. */
  function Or(a: Option<string>, b: Option<string>): (r: Option<string>)
    ensures Truthy(r) <==> Truthy(a) || Truthy(b)
    ensures Truthy(a) ==> r == a
    ensures !Truthy(a) ==> r == b
  {
    if Truthy(a) then a else b
  }

  /** `a || d` where the default `d` is a plain string. */
  function OrElse(a: Option<string>, d: string): (r: string)
    ensures Truthy(a) ==> Some(r) == a
    ensures !Truthy(a) ==> r == d
  {
    if Truthy(a) then a.value else d
  }

  /** ASCII lower-casing of one character. */
  function LowerChar(c: char): (r: char)
    ensures !('A' <= r <= 'Z')
    ensures 'A' <= c <= 'Z' ==> r as int == c as int - 'A' as int + 'a' as int
    ensures !('A' <= c <= 'Z') ==> r == c
  {
    if 'A' <= c <= 'Z' then (c as int - 'A' as int + 'a' as int) as char else c
  }

  /** `s.toLowerCase()`, restricted to ASCII letters. */
  function Lower(s: string): (r: string)
    ensures |r| == |s|
    ensures forall i :: 0 <= i < |s| ==> r[i] == LowerChar(s[i])
  {
    seq(|s|, i requires 0 <= i < |s| => LowerChar(s[i]))
  }

  /** A string in which no upper-case ASCII letter occurs. */
  predicate IsLower(s: string) {
    forall i :: 0 <= i < |s| ==> !('A' <= s[i] <= 'Z')
  }

  /** `s?.toLowerCase()` on a `string | undefined`. */
  function LowerOpt(o: Option<string>): (r: Option<string>)
    ensures r.Some? <==> o.Some?
    ensures Truthy(r) <==> Truthy(o)
    ensures o.Some? ==> r.value == Lower(o.value)
  {
    match o
    case None => None
    case Some(s) => Some(Lower(s))
  }

  predicate IsLowerOpt(o: Option<string>) {
    o.Some? ==> IsLower(o.value)
  }

  lemma LowerIsLower(s: string)
    ensures IsLower(Lower(s))
  {
  }

  /** Lower-casing leaves an already lower-cased string alone. */
  lemma LowerOfLower(s: string)
    requires IsLower(s)
    ensures Lower(s) == s
  {
  }

  lemma LowerIdempotent(s: string)
    ensures Lower(Lower(s)) == Lower(s)
  {
    LowerIsLower(s);
    LowerOfLower(Lower(s));
  }

  lemma LowerEmpty(s: string)
    ensures Lower(s) == "" <==> s == ""
  {
  }

  /** `pre` is a prefix of `s`. */
  predicate StartsWith(s: string, pre: string) {
    |pre| <= |s| && s[..|pre|] == pre
  }

  /** `s.includes(sub)`. */
  function Contains(s: string, sub: string): (r: bool)
    ensures sub == "" ==> r
    ensures |s| < |sub| ==> !r
  {
    StartsWith(s, sub) || (s != [] && Contains(s[1..], sub))
  }

  /** `sub` occurs in `s` starting at position `i`. */
  predicate OccursAt(s: string, sub: string, i: int) {
    0 <= i && i + |sub| <= |s| && s[i..i + |sub|] == sub
  }

  /** `Contains` agrees with the textbook definition: `sub` occurs at some position of `s`. */
  lemma {:induction false} ContainsIffOccurs(s: string, sub: string)
    ensures Contains(s, sub) <==> exists i :: OccursAt(s, sub, i)
  {
    if s != [] {
      ContainsIffOccurs(s[1..], sub);
      if Contains(s, sub) {
        if StartsWith(s, sub) {
          assert OccursAt(s, sub, 0);
        } else {
          var j :| OccursAt(s[1..], sub, j);
          assert s[1..][j..j + |sub|] == s[j + 1..j + 1 + |sub|];
          assert OccursAt(s, sub, j + 1);
        }
      } else {
        forall i | 0 < i
          ensures OccursAt(s, sub, i) ==> OccursAt(s[1..], sub, i - 1)
        {
          if OccursAt(s, sub, i) {
            var j := i - 1;
            assert s[1..][j..j + |sub|] == s[j + 1..j + 1 + |sub|];
          }
        }
        assert !StartsWith(s, sub);
        assert !OccursAt(s, sub, 0);
      }
    } else if Contains(s, sub) {
      assert OccursAt(s, sub, 0);
    }
  }

  /** A string ends with the pattern it was extended with. */
  lemma {:induction false} ContainsSuffix(a: string, b: string)
    ensures Contains(a + b, b)
  {
    if a == [] {
      assert a + b == b;
      assert StartsWith(b, b);
    } else {
      assert (a + b)[1..] == a[1..] + b;
      ContainsSuffix(a[1..], b);
    }
  }

  /** `s.replace(c, "")` for a one-character pattern: only the first occurrence is removed. */
  function ReplaceFirst(s: string, c: char): (r: string)
    ensures c !in s ==> r == s
    ensures c in s ==> |r| == |s| - 1
  {
    if s == [] then []
    else if s[0] == c then s[1..]
    else [s[0]] + ReplaceFirst(s[1..], c)
  }

  /** The character removed by `ReplaceFirst` is the first occurrence of `c`, and nothing else changes. */
  lemma {:induction false} ReplaceFirstAt(s: string, c: char, i: nat)
    requires i < |s| && s[i] == c && c !in s[..i]
    ensures ReplaceFirst(s, c) == s[..i] + s[i + 1..]
  {
    if i > 0 {
      assert s[0] in s[..i];
      assert s[1..][..i - 1] == s[1..i];
      assert c !in s[1..][..i - 1];
      ReplaceFirstAt(s[1..], c, i - 1);
      assert s[..i] == [s[0]] + s[1..][..i - 1];
      assert s[i + 1..] == s[1..][i..];
    }
  }

  /** `ReplaceFirstAt` at every position where the first occurrence of `c` may sit. */
  lemma ReplaceFirstAtFirst(s: string, c: char)
    ensures forall i :: 0 <= i < |s| && s[i] == c && c !in s[..i] ==> ReplaceFirst(s, c) == s[..i] + s[i + 1..]
  {
    forall i | 0 <= i < |s| && s[i] == c && c !in s[..i]
      ensures ReplaceFirst(s, c) == s[..i] + s[i + 1..]
    {
      ReplaceFirstAt(s, c, i);
    }
  }

  /** Removing a character keeps a lower-cased string lower-cased. */
  lemma {:induction false} ReplaceFirstKeepsLower(s: string, c: char)
    requires IsLower(s)
    ensures IsLower(ReplaceFirst(s, c))
  {
    if s != [] && s[0] != c {
      assert IsLower(s[1..]);
      ReplaceFirstKeepsLower(s[1..], c);
      assert ReplaceFirst(s, c) == [s[0]] + ReplaceFirst(s[1..], c);
    }
  }

  lemma AppendKeepsLower(a: string, b: string)
    requires IsLower(a) && IsLower(b)
    ensures IsLower(a + b)
  {
    forall i | 0 <= i < |a + b|
      ensures !('A' <= (a + b)[i] <= 'Z')
    {
      if i >= |a| {
        assert (a + b)[i] == b[i - |a|];
      }
    }
  }

  /** A non-empty pattern can only occur in a string that holds its first character. */
  lemma ContainsNeedsFirstChar(s: string, sub: string)
    requires sub != [] && Contains(s, sub)
    ensures sub[0] in s
  {
    ContainsIffOccurs(s, sub);
    var i :| OccursAt(s, sub, i);
    assert s[i] == s[i..i + |sub|][0];
  }
}

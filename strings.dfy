/**
 * The few JavaScript string operations the backend relies on:
 * truthiness of an optional string, `includes`, `replace` with a string
 * pattern (first occurrence only) and `toUpperCase` on ASCII letters.
 */
module Strings {
  import opened Wrappers

  /** JavaScript truthiness of an optional string field: absent, null and "" are falsy. */
  predicate Truthy(o: Option<string>) {
    o.Some? && o.value != ""
  }

  /** `x || null`: a falsy string becomes null, a truthy one is kept. */
  function OrNull(o: Option<string>): (r: Option<string>)
    ensures r.Some? <==> Truthy(o)
    ensures r.Some? ==> r == o
  {
    if Truthy(o) then o else None
  }

  predicate IsPrefix(p: string, s: string) {
    |p| <= |s| && s[..|p|] == p
  }

  /** `t` occurs in `s` starting at index `i`. */
  predicate OccursAt(s: string, t: string, i: nat) {
    i + |t| <= |s| && s[i..i + |t|] == t
  }

  /** `s.includes(t)` */
  function Contains(s: string, t: string): bool
    decreases |s|
  {
    IsPrefix(t, s) || (|s| > 0 && Contains(s[1..], t))
  }

  /** An occurrence in the tail is an occurrence in the whole string, one index further on. */
  lemma OccursAtTail(s: string, t: string, i: nat)
    requires |s| > 0
    ensures OccursAt(s[1..], t, i) <==> OccursAt(s, t, i + 1)
  {
    if i + 1 + |t| <= |s| {
      assert s[1..][i..i + |t|] == s[i + 1..i + 1 + |t|];
    }
  }

  /** `includes` holds exactly when there is an index where `t` occurs. */
  lemma {:induction false} ContainsIffOccurs(s: string, t: string)
    ensures Contains(s, t) <==> exists i: nat :: OccursAt(s, t, i)
    decreases |s|
  {
    if IsPrefix(t, s) {
      assert OccursAt(s, t, 0);
    } else if |s| == 0 {
      assert |t| > 0;
    } else {
      ContainsIffOccurs(s[1..], t);
      if Contains(s[1..], t) {
        var i: nat :| OccursAt(s[1..], t, i);
        OccursAtTail(s, t, i);
      } else {
        forall i: nat ensures !OccursAt(s, t, i) {
          if i == 0 {
            assert !IsPrefix(t, s);
          } else {
            OccursAtTail(s, t, i - 1);
          }
        }
      }
    }
  }

  /** `s.replace(pat, rep)` with a string pattern: only the first occurrence is replaced. */
  function ReplaceFirst(s: string, pat: string, rep: string): string
    decreases |s|
  {
    if IsPrefix(pat, s) then rep + s[|pat|..]
    else if s == [] then s
    else [s[0]] + ReplaceFirst(s[1..], pat, rep)
  }

  /** With `i` the first occurrence of `pat`, the result is `s` with exactly that occurrence replaced. */
  lemma {:induction false} ReplaceFirstAtFirstOccurrence(s: string, pat: string, rep: string, i: nat)
    requires OccursAt(s, pat, i)
    requires forall j: nat :: j < i ==> !OccursAt(s, pat, j)
    ensures ReplaceFirst(s, pat, rep) == s[..i] + rep + s[i + |pat|..]
    decreases i
  {
    if i == 0 {
      assert IsPrefix(pat, s);
    } else {
      var tail := s[1..];
      assert !IsPrefix(pat, s) by {
        assert !OccursAt(s, pat, 0);
      }
      assert ReplaceFirst(s, pat, rep) == [s[0]] + ReplaceFirst(tail, pat, rep);
      OccursAtTail(s, pat, i - 1);
      forall j: nat | j < i - 1 ensures !OccursAt(tail, pat, j) {
        OccursAtTail(s, pat, j);
      }
      ReplaceFirstAtFirstOccurrence(tail, pat, rep, i - 1);
      assert s[..i] == [s[0]] + tail[..i - 1];
      assert s[i + |pat|..] == tail[i - 1 + |pat|..];
    }
  }

  /** A string that starts with `pat` has that leading occurrence replaced. */
  lemma ReplaceFirstOfPrefixed(pat: string, tail: string, rep: string)
    ensures ReplaceFirst(pat + tail, pat, rep) == rep + tail
  {
    assert IsPrefix(pat, pat + tail);
    assert (pat + tail)[|pat|..] == tail;
  }

  /** Without an occurrence of `pat`, `replace` returns the string unchanged. */
  lemma {:induction false} ReplaceFirstWithoutOccurrence(s: string, pat: string, rep: string)
    requires !Contains(s, pat)
    ensures ReplaceFirst(s, pat, rep) == s
    decreases |s|
  {
    if s != [] {
      ReplaceFirstWithoutOccurrence(s[1..], pat, rep);
    }
  }

  function UpperChar(c: char): (u: char)
    ensures 'a' <= c <= 'z' ==> 'A' <= u <= 'Z' && u as int == c as int - 32
    ensures !('a' <= c <= 'z') ==> u == c
  {
    if 'a' <= c <= 'z' then (c as int - 'a' as int + 'A' as int) as char else c
  }

  /** `s.toUpperCase()` on the ASCII letters; every other character is kept. */
  function ToUpper(s: string): (r: string)
    ensures |r| == |s|
    ensures forall i :: 0 <= i < |s| ==> r[i] == UpperChar(s[i])
  {
    seq(|s|, i requires 0 <= i < |s| => UpperChar(s[i]))
  }

  /** Upper-casing twice is upper-casing once. */
  lemma ToUpperIdempotent(s: string)
    ensures ToUpper(ToUpper(s)) == ToUpper(s)
  {
  }
}

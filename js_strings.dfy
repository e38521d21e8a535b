/**
 * The two JavaScript string operations the game logic relies on:
 * `String.prototype.includes` and `Array.prototype.join` over strings.
 */
module JsStrings {

  /** `s.includes(sub)`: sub starts at position 0 of s, or further on. */
  predicate Includes(s: string, sub: string)
    decreases |s|
  {
    (|sub| <= |s| && s[..|sub|] == sub) || (|s| > 0 && Includes(s[1..], sub))
  }

  /** sub occurs in s starting at index i. */
  predicate OccursAt(s: string, sub: string, i: int)
  {
    0 <= i && i + |sub| <= |s| && s[i..i + |sub|] == sub
  }

  /** Reference definition: sub occurs in s at some index. */
  ghost predicate Occurs(s: string, sub: string)
  {
    exists i :: OccursAt(s, sub, i)
  }

  lemma {:induction false} IncludesIff(s: string, sub: string)
    ensures Includes(s, sub) <==> Occurs(s, sub)
  {
    if Includes(s, sub) {
      var i := IncludesWitness(s, sub);
    }
    if Occurs(s, sub) {
      var i :| OccursAt(s, sub, i);
      OccursAtIncludes(s, sub, i);
    }
  }

  /** When `includes` holds, an index where sub starts. */
  lemma {:induction false} IncludesWitness(s: string, sub: string) returns (i: nat)
    requires Includes(s, sub)
    ensures OccursAt(s, sub, i)
    decreases |s|
  {
    if |sub| <= |s| && s[..|sub|] == sub {
      i := 0;
    } else {
      var j := IncludesWitness(s[1..], sub);
      assert s[j + 1..j + 1 + |sub|] == s[1..][j..j + |sub|];
      i := j + 1;
    }
  }

  lemma {:induction false} OccursAtIncludes(s: string, sub: string, i: int)
    requires OccursAt(s, sub, i)
    ensures Includes(s, sub)
    decreases i
  {
    if i > 0 {
      assert s[1..][i - 1..i - 1 + |sub|] == s[i..i + |sub|];
      OccursAtIncludes(s[1..], sub, i - 1);
    } else {
      assert s[..|sub|] == s[i..i + |sub|];
    }
  }

  /** What a string contains, any extension of it on the right contains too. */
  lemma IncludesBefore(a: string, b: string, sub: string)
    requires Includes(a, sub)
    ensures Includes(a + b, sub)
  {
    var i := IncludesWitness(a, sub);
    assert (a + b)[i..i + |sub|] == a[i..i + |sub|];
    OccursAtIncludes(a + b, sub, i);
  }

  /** What a string contains, any extension of it on the left contains too. */
  lemma IncludesAfter(a: string, b: string, sub: string)
    requires Includes(b, sub)
    ensures Includes(a + b, sub)
  {
    var i := IncludesWitness(b, sub);
    assert (a + b)[|a| + i..|a| + i + |sub|] == b[i..i + |sub|];
    OccursAtIncludes(a + b, sub, |a| + i);
  }

  /** A string written as a + sub + b contains sub. */
  lemma IncludesInfix(a: string, sub: string, b: string)
    ensures Includes(a + sub + b, sub)
  {
    assert Includes(sub, sub);
    IncludesAfter(a, sub, sub);
    IncludesBefore(a + sub, b, sub);
  }

  /** Containment is transitive: whatever contains a also contains every part of a. */
  lemma IncludesTransitive(s: string, a: string, b: string)
    requires Includes(s, a) && Includes(a, b)
    ensures Includes(s, b)
  {
    var i := IncludesWitness(s, a);
    var j := IncludesWitness(a, b);
    forall k | 0 <= k < |b|
      ensures s[i + j..i + j + |b|][k] == b[k]
    {
      assert b[k] == a[j + k] == s[i..i + |a|][j + k];
    }
    OccursAtIncludes(s, b, i + j);
  }

  /** `parts.join(sep)`: "" for no parts, the parts separated by sep otherwise. */
  function Join(parts: seq<string>, sep: string): string
  {
    if |parts| == 0 then ""
    else if |parts| == 1 then parts[0]
    else parts[0] + sep + Join(parts[1..], sep)
  }

  /**
   * With a non-empty separator the join is empty exactly when there is no
   * part, or a single empty part.
   */
  lemma {:induction false} JoinEmptyIff(parts: seq<string>, sep: string)
    requires sep != ""
    ensures Join(parts, sep) == "" <==> |parts| == 0 || (|parts| == 1 && parts[0] == "")
  {
    if |parts| >= 2 {
      assert |Join(parts, sep)| >= |sep| > 0;
    }
  }

  /** The join's length: the parts' lengths and one separator between each two parts. */
  lemma {:induction false} JoinLength(parts: seq<string>, sep: string)
    requires |parts| > 0
    ensures |Join(parts, sep)| == SumLengths(parts) + (|parts| - 1) * |sep|
  {
    if |parts| > 1 {
      JoinLength(parts[1..], sep);
    }
  }

  /**
   * Splitting the parts anywhere splits the join there, around one
   * separator; in particular appending a part appends the separator and it.
   */
  lemma {:induction false} JoinSplit(parts: seq<string>, k: int, sep: string)
    requires 0 < k < |parts|
    ensures Join(parts, sep) == Join(parts[..k], sep) + sep + Join(parts[k..], sep)
    decreases k
  {
    if k > 1 {
      JoinSplit(parts[1..], k - 1, sep);
      assert parts[..k][1..] == parts[1..][..k - 1];
      assert parts[1..][k - 1..] == parts[k..];
    }
  }

  lemma JoinSplitAll(parts: seq<string>, sep: string)
    ensures forall k :: 0 < k < |parts| ==> Join(parts, sep) == Join(parts[..k], sep) + sep + Join(parts[k..], sep)
  {
    forall k | 0 < k < |parts|
      ensures Join(parts, sep) == Join(parts[..k], sep) + sep + Join(parts[k..], sep)
    {
      JoinSplit(parts, k, sep);
    }
  }

  function SumLengths(parts: seq<string>): nat
  {
    if |parts| == 0 then 0 else |parts[0]| + SumLengths(parts[1..])
  }
}

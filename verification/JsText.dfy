/** JavaScript string behaviour the screens rely on: truthiness of a string,
    `toLowerCase` (restricted to ASCII letters) and `String.prototype.includes`. */
module JsText {

  /** A string is truthy in JavaScript exactly when it is not empty. */
  predicate Truthy(s: string) {
    |s| > 0
  }

  predicate IsUpper(c: char) {
    'A' <= c <= 'Z'
  }

  /** ASCII lower-casing of one character. */
  function LowerChar(c: char): (d: char)
    ensures !IsUpper(d)
    ensures !IsUpper(c) ==> d == c
    ensures IsUpper(c) ==> 'a' <= d <= 'z' && d as int - c as int == 32
  {
    if IsUpper(c) then (c as int + 32) as char else c
  }

  /** `s.toLowerCase()`: every character folded, length kept. */
  function ToLower(s: string): (r: string)
    ensures |r| == |s|
    ensures forall i :: 0 <= i < |s| ==> r[i] == LowerChar(s[i])
  {
    if s == [] then [] else [LowerChar(s[0])] + ToLower(s[1..])
  }

  /** Lower-casing twice is lower-casing once. */
  lemma ToLowerIdempotent(s: string)
    ensures ToLower(ToLower(s)) == ToLower(s)
  {
    var once := ToLower(s);
    assert forall i :: 0 <= i < |once| ==> ToLower(once)[i] == once[i];
  }

  predicate StartsWith(s: string, prefix: string) {
    |prefix| <= |s| && s[..|prefix|] == prefix
  }

  /** `s.includes(sub)`: `sub` occurs in `s` at some position. */
  predicate Includes(s: string, sub: string): (b: bool)
    ensures sub == [] ==> b
    ensures StartsWith(s, sub) ==> b
    ensures b ==> |sub| <= |s|
    decreases |s|
  {
    StartsWith(s, sub) || (s != [] && Includes(s[1..], sub))
  }

  /** `sub` occurs in `s` starting at index `i`. */
  predicate OccursAt(s: string, sub: string, i: int) {
    0 <= i <= |s| - |sub| && s[i..i + |sub|] == sub
  }

  /** The recursive definition of `includes` agrees with "`sub` occurs somewhere in `s`". */
  lemma {:induction false} IncludesAt(s: string, sub: string)
    ensures Includes(s, sub) <==> exists i :: OccursAt(s, sub, i)
    decreases |s|
  {
    if s == [] {
      if Includes(s, sub) {
        assert OccursAt(s, sub, 0);
      }
    } else {
      IncludesAt(s[1..], sub);
      if Includes(s, sub) {
        if StartsWith(s, sub) {
          assert OccursAt(s, sub, 0);
        } else {
          var j :| OccursAt(s[1..], sub, j);
          assert s[j + 1..j + 1 + |sub|] == s[1..][j..j + |sub|];
          assert OccursAt(s, sub, j + 1);
        }
      }
      if exists i :: OccursAt(s, sub, i) {
        var i :| OccursAt(s, sub, i);
        if i == 0 {
          assert StartsWith(s, sub);
        } else {
          assert s[1..][i - 1..i - 1 + |sub|] == s[i..i + |sub|];
          assert OccursAt(s[1..], sub, i - 1);
        }
      }
    }
  }

  /** Every string includes the empty string and itself. */
  lemma IncludesEmptyAndSelf(s: string)
    ensures Includes(s, "") && Includes(s, s)
  {
    assert StartsWith(s, "");
    assert StartsWith(s, s);
  }

  /** `field.toLowerCase().includes(filter.toLowerCase())`. */
  predicate IncludesIgnoringCase(field: string, filter: string): (b: bool)
    ensures filter == [] ==> b
    ensures ToLower(filter) == ToLower(field) ==> b
    ensures b ==> |filter| <= |field|
  {
    var lowerField, lowerFilter := ToLower(field), ToLower(filter);
    assert StartsWith(lowerField, lowerField);
    Includes(lowerField, lowerFilter)
  }

  /** When every window of `s` as long as `sub` covers a position of `s` holding a
      character that `sub` lacks, `s` does not include `sub`. */
  lemma NotIncludedAcrossGap(s: string, sub: string, k: nat)
    requires |s| - |sub| <= k < |sub| && k < |s|
    requires s[k] !in sub
    ensures !Includes(s, sub)
  {
    forall i | 0 <= i <= |s| - |sub|
      ensures !OccursAt(s, sub, i)
    {
      assert s[i..i + |sub|][k - i] == s[k];
    }
    IncludesAt(s, sub);
  }

  /** Case-insensitively, `s` does not include `sub` when every window of `s` as long as
      `sub` covers a position `k` whose character, lower-cased, matches none of `sub`'s. */
  lemma NotIncludedIgnoringCase(s: string, sub: string, k: nat)
    requires |s| - |sub| <= k < |sub| && k < |s|
    requires forall i :: 0 <= i < |sub| ==> LowerChar(sub[i]) != LowerChar(s[k])
    ensures !IncludesIgnoringCase(s, sub)
  {
    var ls, lsub := ToLower(s), ToLower(sub);
    assert ls[k] !in lsub by {
      forall i | 0 <= i < |lsub|
        ensures lsub[i] != ls[k]
      {
      }
    }
    NotIncludedAcrossGap(ls, lsub, k);
  }
}

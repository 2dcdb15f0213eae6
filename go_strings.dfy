/**
 * The functions of Go's `strings` package that HandleLNURL uses. A Go string is a
 * sequence of bytes; here each element of a `string` stands for one byte, so lengths
 * and offsets are byte counts as in Go.
 */
module GoStrings {

  /** `sub` occurs in `s` starting at offset `i`. */
  predicate OccursAt(s: string, sub: string, i: int) {
    0 <= i && i + |sub| <= |s| && s[i..i + |sub|] == sub
  }

  /** strings.HasPrefix */
  predicate HasPrefix(s: string, prefix: string)
    ensures HasPrefix(s, prefix) <==> exists t :: s == prefix + t
  {
    if |prefix| <= |s| && s[..|prefix|] == prefix then
      assert s == prefix + s[|prefix|..];
      true
    else
      false
  }

  /** strings.HasSuffix */
  predicate HasSuffix(s: string, suffix: string)
    ensures HasSuffix(s, suffix) <==> exists t :: s == t + suffix
  {
    if |suffix| <= |s| && s[|s| - |suffix|..] == suffix then
      assert s == s[..|s| - |suffix|] + suffix;
      true
    else
      false
  }

  /** Dropping the first byte shifts every later occurrence one place to the left. */
  lemma OccursAtTail(s: string, sub: string)
    requires |s| >= 1
    ensures forall i {:trigger OccursAt(s, sub, i)} :: 1 <= i ==>
              (OccursAt(s, sub, i) <==> OccursAt(s[1..], sub, i - 1))
  {
  }

  /**
   * strings.Index: the offset of the first occurrence of `sub` in `s`, or -1 when
   * `sub` does not occur at all.
   */
  function Index(s: string, sub: string): (r: int)
    ensures -1 <= r
    ensures r >= 0 ==> OccursAt(s, sub, r)
    ensures r >= 0 ==> forall i :: 0 <= i < r ==> !OccursAt(s, sub, i)
    ensures r == -1 ==> forall i :: !OccursAt(s, sub, i)
    decreases |s|
  {
    if |s| < |sub| then -1
    else if s[..|sub|] == sub then 0
    else
      OccursAtTail(s, sub);
      var k := Index(s[1..], sub);
      if k < 0 then -1 else k + 1
  }

  /** strings.Contains, which Go defines as `Index(s, sub) >= 0`. */
  function Contains(s: string, sub: string): (b: bool)
    ensures b <==> exists i :: OccursAt(s, sub, i)
  {
    Index(s, sub) >= 0
  }

  /** strings.SplitN(s, string(sep), 2) for a one-byte separator. */
  function SplitN2(s: string, sep: char): (parts: seq<string>)
    ensures 1 <= |parts| <= 2
    ensures |parts| == 2 <==> sep in s
    ensures |parts| == 1 ==> parts[0] == s
    ensures |parts| == 2 ==> parts[0] + [sep] + parts[1] == s && sep !in parts[0]
  {
    var k := Index(s, [sep]);
    if k < 0 then
      assert sep !in s by {
        forall i | 0 <= i < |s| ensures s[i] != sep {
          assert !OccursAt(s, [sep], i);
          assert s[i..i + 1] == [s[i]];
        }
      }
      [s]
    else
      assert s[k..k + 1] == [sep] && s[k] == sep;
      assert sep !in s[..k] by {
        forall i | 0 <= i < k ensures s[i] != sep {
          assert !OccursAt(s, [sep], i);
          assert s[i..i + 1] == [s[i]];
        }
      }
      assert s[..k] + [sep] + s[k + 1..] == s;
      [s[..k], s[k + 1..]]
  }
}

/** The two `strings` functions the middleware relies on, over `seq<char>`:
    `SplitN(s, " ", 2)` and `EqualFold` against an ASCII word. */
module GoStrings {
  import opened Wrappers

  /** The index of the first space in `s`, if any. */
  function FirstSpace(s: string): (k: Option<nat>)
    ensures k.None? <==> ' ' !in s
    ensures k.Some? ==> k.value < |s| && s[k.value] == ' ' && ' ' !in s[..k.value]
  {
    if |s| == 0 then None
    else if s[0] == ' ' then Some(0)
    else
      match FirstSpace(s[1..])
      case None => None
      case Some(j) =>
        assert s[..j + 1] == [s[0]] + s[1..][..j];
        Some(j + 1)
  }

  /** `strings.SplitN(s, " ", 2)`: the whole string when it has no space,
      otherwise the part before the first space and everything after it. */
  function SplitFirstSpace(s: string): (parts: seq<string>)
    ensures 1 <= |parts| <= 2
    ensures |parts| == 1 <==> ' ' !in s
    ensures |parts| == 1 ==> parts[0] == s
    ensures |parts| == 2 ==> ' ' !in parts[0] && s == parts[0] + " " + parts[1]
  {
    match FirstSpace(s)
    case None => [s]
    case Some(k) =>
      assert s == s[..k] + " " + s[k + 1..];
      [s[..k], s[k + 1..]]
  }

  /** Joining at a space and splitting again gives the parts back, whatever
      the second part contains. */
  lemma {:induction false} SplitJoin(head: string, tail: string)
    requires ' ' !in head
    ensures SplitFirstSpace(head + " " + tail) == [head, tail]
  {
    var s := head + " " + tail;
    FirstSpaceOfJoin(head, tail);
    assert s[..|head|] == head;
    assert s[|head| + 1..] == tail;
  }

  lemma {:induction false} FirstSpaceOfJoin(head: string, tail: string)
    requires ' ' !in head
    ensures FirstSpace(head + " " + tail) == Some(|head|)
  {
    var s := head + " " + tail;
    if |head| > 0 {
      assert s[1..] == head[1..] + " " + tail;
      FirstSpaceOfJoin(head[1..], tail);
    }
  }

  /** ASCII lower-casing. */
  function ToLowerAscii(c: char): char
  {
    if 'A' <= c <= 'Z' then (c as int + 32) as char else c
  }

  /** `strings.EqualFold(w, word)` for a lower-case ASCII `word` with no `k`
      or `s`: the only non-ASCII characters that Unicode simple folding maps
      onto ASCII letters are the Kelvin sign (onto `k`) and the long s (onto
      `s`), so ASCII case folding decides it exactly. */
  predicate EqualFoldAscii(w: string, word: string)
  {
    |w| == |word| && forall i :: 0 <= i < |w| ==> ToLowerAscii(w[i]) == word[i]
  }
}

/** Java's String.trim() and the "null or blank" checks built on it. */
module Text {

  /** String.trim() removes every leading and trailing character whose code is at most U+0020. */
  predicate IsTrimmable(c: char) {
    c <= ' '
  }

  /** The first loop of String.trim(): `st` moves right past trimmable characters. */
  function SkipLeading(s: string, st: nat): (r: nat)
    requires st <= |s|
    ensures st <= r <= |s|
    ensures r == |s| || !IsTrimmable(s[r])
    ensures forall i :: st <= i < r ==> IsTrimmable(s[i])
    decreases |s| - st
  {
    if st < |s| && IsTrimmable(s[st]) then SkipLeading(s, st + 1) else st
  }

  /** The second loop of String.trim(): `len` moves left past trimmable characters, never below `st`. */
  function SkipTrailing(s: string, st: nat, len: nat): (r: nat)
    requires st <= len <= |s|
    ensures st <= r <= len
    ensures r == st || !IsTrimmable(s[r - 1])
    ensures forall i :: r <= i < len ==> IsTrimmable(s[i])
    decreases len
  {
    if st < len && IsTrimmable(s[len - 1]) then SkipTrailing(s, st, len - 1) else len
  }

  /** String.trim(): the characters between the two loops' stopping points. */
  function Trim(s: string): string {
    var st := SkipLeading(s, 0);
    s[st..SkipTrailing(s, st, |s|)]
  }

  /** `s.trim().isEmpty()`. */
  predicate IsBlank(s: string) {
    Trim(s) == []
  }

  /** The trimmed string is the piece `s[lo..hi]` of the input, everything cut off around it was
      trimmable, and when it is not empty it starts and ends with a character trim() keeps. */
  lemma TrimShape(s: string) returns (lo: nat, hi: nat)
    ensures lo <= hi <= |s| && Trim(s) == s[lo..hi]
    ensures forall i :: 0 <= i < lo ==> IsTrimmable(s[i])
    ensures forall i :: hi <= i < |s| ==> IsTrimmable(s[i])
    ensures lo < hi ==> !IsTrimmable(s[lo]) && !IsTrimmable(s[hi - 1])
  {
    lo := SkipLeading(s, 0);
    hi := SkipTrailing(s, lo, |s|);
  }

  /** A string is blank exactly when every one of its characters is trimmable. */
  lemma BlankIffAllTrimmable(s: string)
    ensures IsBlank(s) <==> forall i :: 0 <= i < |s| ==> IsTrimmable(s[i])
  {
    var lo, hi := TrimShape(s);
    if lo < hi {
      assert !IsTrimmable(s[lo]);
    }
  }

  /** Trimming twice is trimming once. */
  lemma TrimIdempotent(s: string)
    ensures Trim(Trim(s)) == Trim(s)
  {
    var lo, hi := TrimShape(s);
    var t := s[lo..hi];
    if t != [] {
      assert t[0] == s[lo] && t[|t| - 1] == s[hi - 1];
      assert SkipLeading(t, 0) == 0;
      assert SkipTrailing(t, 0, |t|) == |t|;
    }
  }
}

/** Rust's `str::trim`. */
module RustStrings {
  /** Unicode White_Space, which Rust's `str::trim` strips. */
  predicate IsWhitespace(c: char) {
    var n := c as int;
    9 <= n <= 13 || n == 32 || n == 0x85 || n == 0xA0 || n == 0x1680 || 0x2000 <= n <= 0x200A
    || n == 0x2028 || n == 0x2029 || n == 0x202F || n == 0x205F || n == 0x3000
  }

  function TrimStart(s: string): string {
    if s != "" && IsWhitespace(s[0]) then TrimStart(s[1..]) else s
  }

  function TrimEnd(s: string): string {
    if s != "" && IsWhitespace(s[|s| - 1]) then TrimEnd(s[..|s| - 1]) else s
  }

  function Trim(s: string): string {
    TrimEnd(TrimStart(s))
  }

  lemma {:induction false} TrimStartSkips(before: string, rest: string)
    requires forall c | c in before :: IsWhitespace(c)
    ensures TrimStart(before + rest) == TrimStart(rest)
  {
    if before == "" {
      assert before + rest == rest;
    } else {
      assert (before + rest)[1..] == before[1..] + rest;
      TrimStartSkips(before[1..], rest);
    }
  }

  lemma {:induction false} TrimEndSkips(rest: string, after: string)
    requires forall c | c in after :: IsWhitespace(c)
    ensures TrimEnd(rest + after) == TrimEnd(rest)
  {
    if after == "" {
      assert rest + after == rest;
    } else {
      assert (rest + after)[..|rest + after| - 1] == rest + after[..|after| - 1];
      TrimEndSkips(rest, after[..|after| - 1]);
    }
  }

  lemma {:induction false} TrimStartDrops(s: string) returns (n: nat)
    ensures n <= |s| && TrimStart(s) == s[n..]
    ensures forall k | 0 <= k < n :: IsWhitespace(s[k])
    ensures TrimStart(s) != "" ==> !IsWhitespace(TrimStart(s)[0])
  {
    if s != "" && IsWhitespace(s[0]) {
      var m := TrimStartDrops(s[1..]);
      n := m + 1;
    } else {
      n := 0;
    }
  }

  lemma {:induction false} TrimEndDrops(s: string) returns (n: nat)
    ensures n <= |s| && TrimEnd(s) == s[..n]
    ensures forall k | n <= k < |s| :: IsWhitespace(s[k])
    ensures TrimEnd(s) != "" ==> !IsWhitespace(TrimEnd(s)[|TrimEnd(s)| - 1])
  {
    if s != "" && IsWhitespace(s[|s| - 1]) {
      n := TrimEndDrops(s[..|s| - 1]);
    } else {
      n := |s|;
    }
  }

  /** Trimming cuts white space off both ends, and all of it. */
  lemma TrimIsInnerPart(s: string) returns (from: nat, to: nat)
    ensures from <= to <= |s| && Trim(s) == s[from..to]
    ensures forall k | 0 <= k < |s| && !(from <= k < to) :: IsWhitespace(s[k])
    ensures Trim(s) != "" ==> !IsWhitespace(s[from]) && !IsWhitespace(s[to - 1])
  {
    from := TrimStartDrops(s);
    var n := TrimEndDrops(s[from..]);
    to := from + n;
    if Trim(s) != "" {
      assert s[from..][..n] == s[from..to];
      assert TrimStart(s)[0] == s[from] && Trim(s)[0] == s[from];
    }
  }

  lemma BlankIffAllWhitespace(s: string)
    ensures Trim(s) == "" <==> forall c | c in s :: IsWhitespace(c)
  {
    var from, to := TrimIsInnerPart(s);
    if from < to {
      assert s[from] in s;
    }
  }

  /** The characters Unicode calls White_Space. */
  lemma WhitespaceIsUnicode(c: char)
    ensures IsWhitespace(c) <==>
              c as int in {0x09, 0x0A, 0x0B, 0x0C, 0x0D, 0x20, 0x85, 0xA0, 0x1680, 0x2000, 0x2001, 0x2002, 0x2003,
                           0x2004, 0x2005, 0x2006, 0x2007, 0x2008, 0x2009, 0x200A, 0x2028, 0x2029, 0x202F,
                           0x205F, 0x3000}
  {
  }
}

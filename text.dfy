/**
 * The string operations the page and the route rely on: `String.prototype.trim`,
 * `substring(0, n)` and `Array.prototype.join`, over `seq<char>`.
 */
module Text {

  /**
   * The whitespace that `trim` strips, restricted to the ASCII whitespace
   * characters, no-break space, the byte-order mark and the two Unicode line
   * terminators.
   */
  const Whitespace: set<char> :=
    {' ', '\t', '\n', '\r', '\U{000B}', '\U{000C}', '\U{00A0}', '\U{FEFF}', '\U{2028}', '\U{2029}'}

  predicate IsSpace(c: char)
  {
    c in Whitespace
  }

  /** `s` holds at least one character that is not whitespace. */
  predicate HasContent(s: string)
  {
    exists i :: 0 <= i < |s| && !IsSpace(s[i])
  }

  function TrimStart(s: string): (r: string)
    ensures |r| <= |s| && r == s[|s| - |r|..]
    ensures forall k :: 0 <= k < |s| - |r| ==> IsSpace(s[k])
    ensures r != [] ==> !IsSpace(r[0])
    decreases |s|
  {
    if s != [] && IsSpace(s[0]) then TrimStart(s[1..]) else s
  }

  function TrimEnd(s: string): (r: string)
    ensures |r| <= |s| && r == s[..|r|]
    ensures forall k :: |r| <= k < |s| ==> IsSpace(s[k])
    ensures r != [] ==> !IsSpace(r[|r| - 1])
    decreases |s|
  {
    if s != [] && IsSpace(s[|s| - 1]) then TrimEnd(s[..|s| - 1]) else s
  }

  /** `r` is the slice of `s` at offset `i`, and everything outside it is whitespace. */
  predicate CutsOnlySpace(s: string, r: string, i: int)
  {
    0 <= i <= |s| - |r| && r == s[i..i + |r|] &&
    (forall k :: 0 <= k < i ==> IsSpace(s[k])) && (forall k :: i + |r| <= k < |s| ==> IsSpace(s[k]))
  }

  /**
   * `s` without its leading and trailing whitespace: a slice of `s` that
   * neither starts nor ends with whitespace, with only whitespace cut away on
   * either side.
   */
  function Trim(s: string): (r: string)
    ensures r == [] || (!IsSpace(r[0]) && !IsSpace(r[|r| - 1]))
    ensures exists i :: CutsOnlySpace(s, r, i)
  {
    TrimCutsOnlySpace(s);
    TrimEnd(TrimStart(s))
  }

  lemma TrimCutsOnlySpace(s: string)
    ensures CutsOnlySpace(s, TrimEnd(TrimStart(s)), |s| - |TrimStart(s)|)
  {
    var t := TrimStart(s);
    CutPrefixThenSuffix(s, t, TrimEnd(t), |s| - |t|);
  }

  /** Cutting whitespace off the front and then off the back cuts only whitespace from `s`. */
  lemma CutPrefixThenSuffix(s: string, t: string, r: string, i: nat)
    requires i <= |s| && t == s[i..] && (forall k :: 0 <= k < i ==> IsSpace(s[k]))
    requires |r| <= |t| && r == t[..|r|] && (forall k :: |r| <= k < |t| ==> IsSpace(t[k]))
    ensures CutsOnlySpace(s, r, i)
  {
    assert r == s[i..i + |r|];
    forall k | i + |r| <= k < |s|
      ensures IsSpace(s[k])
    {
      assert s[k] == t[k - i];
    }
  }

  lemma HasContentFirst(s: string)
    requires s != []
    ensures HasContent(s) <==> !IsSpace(s[0]) || HasContent(s[1..])
  {
    if HasContent(s[1..]) {
      var i :| 0 <= i < |s[1..]| && !IsSpace(s[1..][i]);
      assert s[i + 1] == s[1..][i];
    }
    if HasContent(s) && IsSpace(s[0]) {
      var i :| 0 <= i < |s| && !IsSpace(s[i]);
      assert s[1..][i - 1] == s[i];
    }
  }

  lemma HasContentLast(s: string)
    requires s != []
    ensures HasContent(s) <==> !IsSpace(s[|s| - 1]) || HasContent(s[..|s| - 1])
  {
    var t := s[..|s| - 1];
    if HasContent(t) {
      var i :| 0 <= i < |t| && !IsSpace(t[i]);
      assert s[i] == t[i];
    }
    if HasContent(s) && IsSpace(s[|s| - 1]) {
      var i :| 0 <= i < |s| && !IsSpace(s[i]);
      assert t[i] == s[i];
    }
  }

  lemma {:induction false} TrimStartEmpty(s: string)
    ensures TrimStart(s) == [] <==> !HasContent(s)
    decreases |s|
  {
    if s != [] {
      HasContentFirst(s);
      if IsSpace(s[0]) {
        TrimStartEmpty(s[1..]);
      }
    }
  }

  lemma {:induction false} TrimEndEmpty(s: string)
    ensures TrimEnd(s) == [] <==> !HasContent(s)
    decreases |s|
  {
    if s != [] {
      HasContentLast(s);
      if IsSpace(s[|s| - 1]) {
        TrimEndEmpty(s[..|s| - 1]);
      }
    }
  }

  /** A trimmed string is empty (falsy) exactly when the string is all whitespace. */
  lemma TrimEmpty(s: string)
    ensures Trim(s) == [] <==> !HasContent(s)
  {
    var t := TrimStart(s);
    TrimStartEmpty(s);
    TrimEndEmpty(t);
    if t != [] {
      assert !IsSpace(t[0]);
    }
  }

  /** `s.substring(0, n)`: the first `n` characters, or all of `s` when it is shorter. */
  function Truncate(s: string, n: nat): (r: string)
    ensures |r| == if |s| < n then |s| else n
    ensures r <= s
  {
    if |s| <= n then s else s[..n]
  }

  /** The lines with `sep` between consecutive ones and no trailing separator. */
  function Join(lines: seq<string>, sep: char): (r: string)
    ensures |lines| >= 1 ==> lines[0] <= r
    decreases |lines|
  {
    if lines == [] then ""
    else if |lines| == 1 then lines[0]
    else lines[0] + [sep] + Join(lines[1..], sep)
  }

  /** The index of the first `c` in `s`. */
  function IndexOf(s: string, c: char): (i: nat)
    requires c in s
    ensures i < |s| && s[i] == c && c !in s[..i]
    decreases |s|
  {
    if s[0] == c then 0 else 1 + IndexOf(s[1..], c)
  }

  /** The pieces of `s` between the separators. */
  function Split(s: string, sep: char): (r: seq<string>)
    ensures |r| >= 1
    decreases |s|
  {
    if sep !in s then [s]
    else
      var i := IndexOf(s, sep);
      [s[..i]] + Split(s[i + 1..], sep)
  }

  /** Joining lines that hold no separator can be undone by splitting. */
  lemma {:induction false} SplitJoin(lines: seq<string>, sep: char)
    requires |lines| >= 1
    requires forall k :: 0 <= k < |lines| ==> sep !in lines[k]
    ensures Split(Join(lines, sep), sep) == lines
    decreases |lines|
  {
    if |lines| > 1 {
      var rest := Join(lines[1..], sep);
      var s := lines[0] + [sep] + rest;
      assert s[|lines[0]|] == sep && s[..|lines[0]|] == lines[0];
      assert IndexOf(s, sep) == |lines[0]|;
      assert s[|lines[0]| + 1..] == rest;
      SplitJoin(lines[1..], sep);
    }
  }
}

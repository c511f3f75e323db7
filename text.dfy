/** The conventional Option datatype, used for the source's nullable strings. */
module Wrappers {
  datatype Option<+T> = None | Some(value: T)
}

/**
 * Character-level helpers for the line grammar: the whitespace class `\s` of
 * java.util.regex, trimming, whitespace-delimited tokens (as java.util.Scanner
 * with delimiter `\s+` produces them), ASCII case folding and String.trim().
 */
module Text {
  import opened Wrappers

  /** The regex class `\s`: space, tab, newline, vertical tab, form feed, carriage return. */
  predicate IsSpace(c: char) {
    c == ' ' || c == '\t' || c == '\n' || c == '\U{0B}' || c == '\U{0C}' || c == '\r'
  }

  predicate AllSpace(s: string) {
    forall i :: 0 <= i < |s| ==> IsSpace(s[i])
  }

  predicate NoSpace(s: string) {
    forall i :: 0 <= i < |s| ==> !IsSpace(s[i])
  }

  /** Drops the leading run of whitespace. */
  function TrimStart(s: string): (r: string)
    ensures |r| <= |s| && r == s[|s| - |r|..]
    ensures r != [] ==> !IsSpace(r[0])
  {
    if s != [] && IsSpace(s[0]) then TrimStart(s[1..]) else s
  }

  /** What TrimStart drops is whitespace. */
  lemma {:induction false} TrimStartDropsSpace(s: string)
    ensures AllSpace(s[..|s| - |TrimStart(s)|])
  {
    if s != [] && IsSpace(s[0]) {
      var r := TrimStart(s[1..]);
      TrimStartDropsSpace(s[1..]);
      assert s[..|s| - |r|] == [s[0]] + s[1..][..|s[1..]| - |r|];
    }
  }

  /** Drops the trailing run of whitespace. */
  function TrimEnd(s: string): (r: string)
    ensures |r| <= |s| && r == s[..|r|]
    ensures r != [] ==> !IsSpace(r[|r| - 1])
  {
    if s != [] && IsSpace(s[|s| - 1]) then TrimEnd(s[..|s| - 1]) else s
  }

  /** What TrimEnd drops is whitespace. */
  lemma {:induction false} TrimEndDropsSpace(s: string)
    ensures AllSpace(s[|TrimEnd(s)|..])
  {
    if s != [] && IsSpace(s[|s| - 1]) {
      var r := TrimEnd(s[..|s| - 1]);
      TrimEndDropsSpace(s[..|s| - 1]);
      assert s[|r|..] == s[..|s| - 1][|r|..] + [s[|s| - 1]];
    }
  }

  /**
   * TrimEnd gives a text that ends in a visible character exactly when the
   * text is that one followed by nothing but whitespace.
   */
  lemma {:induction false} TrimEndIs(s: string, w: string)
    requires w != [] && !IsSpace(w[|w| - 1])
    ensures TrimEnd(s) == w <==> |w| <= |s| && s[..|w|] == w && AllSpace(s[|w|..])
    decreases |s|
  {
    if s != [] && IsSpace(s[|s| - 1]) {
      var s' := s[..|s| - 1];
      TrimEndIs(s', w);
      if |w| < |s| {
        assert s[..|w|] == s'[..|w|];
        assert s[|w|..] == s'[|w|..] + [s[|s| - 1]];
      }
    } else if |w| < |s| {
      assert s[|w|..][|s| - 1 - |w|] == s[|s| - 1];
    } else if |w| == |s| {
      assert s[..|w|] == s;
    }
  }

  /**
   * The line terminators of java.util.regex that `\s` does not match
   * (NEXT LINE, LINE SEPARATOR, PARAGRAPH SEPARATOR). `\n` and `\r` are
   * whitespace already.
   */
  predicate IsFinalTerminator(c: char)
  {
    c == '\U{85}' || c == '\U{2028}' || c == '\U{2029}'
  }

  /**
   * What `\s*$` accepts without MULTILINE: whitespace to the end of the
   * input, or whitespace and then one line terminator that ends the input.
   */
  predicate LineEnd(t: string)
  {
    forall i :: 0 <= i < |t| ==> IsSpace(t[i]) || (i == |t| - 1 && IsFinalTerminator(t[i]))
  }

  /** `s` without one final terminator, if it ends with one. */
  function DropTerminator(s: string): string
  {
    if s != [] && IsFinalTerminator(s[|s| - 1]) then s[..|s| - 1] else s
  }

  /** A text that does not end in a terminator meets `\s*$` only by being whitespace. */
  lemma LineEndWithoutTerminator(t: string)
    requires t == [] || !IsFinalTerminator(t[|t| - 1])
    ensures LineEnd(t) <==> AllSpace(t)
  {
  }

  /** A text followed by a final terminator meets `\s*$` exactly when the text is whitespace. */
  lemma LineEndWithTerminator(t: string, x: char)
    requires IsFinalTerminator(x)
    ensures LineEnd(t + [x]) <==> AllSpace(t)
  {
    if LineEnd(t + [x]) {
      forall i | 0 <= i < |t|
        ensures IsSpace(t[i])
      {
        assert (t + [x])[i] == t[i];
      }
    }
  }

  /**
   * Trimming the end after dropping a final terminator leaves `w` exactly
   * when `w` is followed by what `\s*$` accepts.
   */
  lemma TrimLineEndIs(s: string, w: string)
    requires w != [] && !IsSpace(w[|w| - 1]) && !IsFinalTerminator(w[|w| - 1])
    ensures TrimEnd(DropTerminator(s)) == w <==> |w| <= |s| && s[..|w|] == w && LineEnd(s[|w|..])
  {
    var d := DropTerminator(s);
    TrimEndIs(d, w);
    if d != s {
      var x := s[|s| - 1];
      assert s == d + [x];
      if |w| <= |d| {
        assert s[..|w|] == d[..|w|];
        assert s[|w|..] == d[|w|..] + [x];
        LineEndWithTerminator(d[|w|..], x);
      }
    } else if |w| <= |s| {
      LineEndWithoutTerminator(s[|w|..]);
    }
  }

  /** Length of the leading run of non-whitespace characters. */
  function TokenLength(s: string): (n: nat)
    ensures n <= |s| && NoSpace(s[..n])
    ensures n < |s| ==> IsSpace(s[n])
  {
    if s == [] || IsSpace(s[0]) then 0
    else
      var n := TokenLength(s[1..]);
      assert s[..n + 1] == [s[0]] + s[1..][..n];
      n + 1
  }

  /** A non-empty run of non-whitespace characters. */
  predicate IsWord(w: string) {
    w != [] && NoSpace(w)
  }

  /** The maximal non-whitespace runs of `s`, in order. */
  function Tokens(s: string): (ts: seq<string>)
    ensures forall i :: 0 <= i < |ts| ==> IsWord(ts[i])
    decreases |s|
  {
    var t := TrimStart(s);
    if t == [] then []
    else
      var n := TokenLength(t);
      var w := t[..n];
      assert IsWord(w);
      [w] + Tokens(t[n..])
  }

  /** A text has no token exactly when it is all whitespace. */
  lemma TokensEmpty(s: string)
    ensures Tokens(s) == [] <==> AllSpace(s)
  {
    var t := TrimStart(s);
    TrimStartDropsSpace(s);
    if t == [] {
      assert s[..|s| - |t|] == s;
    } else {
      assert s[|s| - |t|] == t[0];
    }
  }

  /**
   * java.util.Scanner with delimiter `\s+`: the first token, or None when the
   * text is nothing but whitespace.
   */
  function FirstToken(s: string): (r: Option<string>)
    ensures r.None? <==> AllSpace(s)
    ensures r.Some? ==>
      var t := TrimStart(s);
      r.value != [] && NoSpace(r.value) && |r.value| <= |t| && t[..|r.value|] == r.value &&
      (|r.value| == |t| || IsSpace(t[|r.value|]))
  {
    TokensEmpty(s);
    var ts := Tokens(s);
    if ts == [] then None else Some(ts[0])
  }

  function LowerAscii(c: char): char {
    if 'A' <= c <= 'Z' then (c as int + 32) as char else c
  }

  /**
   * String.equalsIgnoreCase, by ASCII case folding.  For the literals it is
   * used with here ("foreach", "end") no other character folds onto their
   * letters, so the folding is exact.
   */
  predicate EqualsIgnoreCase(a: string, b: string): (r: bool)
    ensures a == b ==> r
    ensures r ==> |a| == |b|
    ensures r ==> forall i :: 0 <= i < |a| && 'a' <= a[i] <= 'z' ==> b[i] == a[i] || b[i] == a[i] - 'a' + 'A'
  {
    |a| == |b| && forall i :: 0 <= i < |a| ==> LowerAscii(a[i]) == LowerAscii(b[i])
  }

  /** The characters String.trim() strips: every one at or below U+0020. */
  predicate AllControl(s: string) {
    forall k :: 0 <= k < |s| ==> s[k] <= ' '
  }

  /** String.trim(): strips every character at or below U+0020 from both ends. */
  function JavaTrim(s: string): (r: string)
    ensures |r| <= |s|
    ensures r != [] ==> r[0] > ' ' && r[|r| - 1] > ' '
    decreases |s|
  {
    if s != [] && s[0] <= ' ' then JavaTrim(s[1..])
    else if s != [] && s[|s| - 1] <= ' ' then JavaTrim(s[..|s| - 1])
    else s
  }

  /** s[i..j] is what String.trim() leaves: only stripped characters lie around it. */
  predicate TrimmedAt(s: string, i: nat, j: nat) {
    i <= j <= |s| && JavaTrim(s) == s[i..j] && AllControl(s[..i]) && AllControl(s[j..])
  }

  /** Stripping a leading character keeps the slice, shifted by one. */
  lemma TrimmedAfterFirst(s: string, i: nat, j: nat)
    requires s != [] && s[0] <= ' ' && TrimmedAt(s[1..], i, j)
    ensures TrimmedAt(s, i + 1, j + 1)
  {
    var t := s[1..];
    assert s[..i + 1] == [s[0]] + t[..i];
    assert t[i..j] == s[i + 1..j + 1] && t[j..] == s[j + 1..];
  }

  /** Stripping a trailing character keeps the slice. */
  lemma TrimmedBeforeLast(s: string, i: nat, j: nat)
    requires s != [] && s[0] > ' ' && s[|s| - 1] <= ' ' && TrimmedAt(s[..|s| - 1], i, j)
    ensures TrimmedAt(s, i, j)
  {
    var t := s[..|s| - 1];
    assert s[j..] == t[j..] + [s[|s| - 1]];
    assert t[i..j] == s[i..j] && t[..i] == s[..i];
  }

  /**
   * String.trim() returns a slice of its input: the input is the result with
   * characters at or below U+0020, and only those, added at either end.
   */
  lemma {:induction false} JavaTrimIsSlice(s: string)
    ensures exists i: nat, j: nat :: TrimmedAt(s, i, j)
    decreases |s|
  {
    if s != [] && s[0] <= ' ' {
      JavaTrimIsSlice(s[1..]);
      var i: nat, j: nat :| TrimmedAt(s[1..], i, j);
      TrimmedAfterFirst(s, i, j);
    } else if s != [] && s[|s| - 1] <= ' ' {
      JavaTrimIsSlice(s[..|s| - 1]);
      var i: nat, j: nat :| TrimmedAt(s[..|s| - 1], i, j);
      TrimmedBeforeLast(s, i, j);
    } else {
      assert s[0..|s|] == s && s[..0] == [] && s[|s|..] == [];
      assert TrimmedAt(s, 0, |s|);
    }
  }
}

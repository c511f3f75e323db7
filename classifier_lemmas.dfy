/** What the ordered grammar guarantees about every line. */
module ClassifierLemmas {
  import opened Wrappers
  import opened Text
  import opened Classifier

  /** The first match is at k when the k-th answer matches and none before it does. */
  lemma {:induction false} FirstMatchAt<T>(rs: seq<Option<T>>, i: nat, k: nat)
    requires i <= k < |rs| && rs[k].Some?
    requires forall j :: i <= j < k ==> rs[j].None?
    ensures FirstMatch(rs, i) == Some(k)
    decreases k - i
  {
    if i < k {
      FirstMatchAt(rs, i + 1, k);
    }
  }

  /** Priority order: the first rule that matches decides. */
  lemma ClassifyFirstMatch(lex: Lexicon, line: string, k: nat)
    requires k < RuleCount && Rule(lex, k, line).Some?
    requires forall j :: 0 <= j < k ==> Rule(lex, j, line).None?
    ensures Classify(lex, line) == Rule(lex, k, line).value
  {
    var rs := Results(lex, line);
    assert rs[k] == Rule(lex, k, line);
    FirstMatchAt(rs, 0, k);
  }

  /** A run of non-whitespace ended by whitespace at position k is a token of length k. */
  lemma {:induction false} TokenLengthAt(s: string, k: nat)
    requires k < |s| && NoSpace(s[..k]) && IsSpace(s[k])
    ensures TokenLength(s) == k
  {
    if k > 0 {
      assert !IsSpace(s[..k][0]);
      assert s[1..][..k - 1] == s[..k][1..];
      TokenLengthAt(s[1..], k - 1);
    }
  }

  /** A line introduced by a keyword has that keyword as its first token. */
  lemma KeywordRestFirstToken(line: string, keyword: string)
    requires keyword != [] && NoSpace(keyword)
    requires KeywordRest(line, keyword).Some?
    ensures FirstToken(line) == Some(keyword)
  {
    var t := TrimStart(line);
    assert t[..|keyword|] == keyword && IsSpace(t[|keyword|]);
    TokenLengthAt(t, |keyword|);
    assert Tokens(line)[0] == t[..|keyword|];
  }

  /** Every keyword is a non-empty word. */
  lemma KeywordsAreWords(j: nat)
    requires j < RuleCount
    ensures RuleKeyword(j) != [] && NoSpace(RuleKeyword(j))
  {
    var k := RuleKeyword(j);
    assert forall i :: 0 <= i < |k| ==> 'a' <= LowerAscii(k[i]) <= 'z' by {
      if j == 0 {} else if j == 1 {} else if j == 2 {} else if j == 3 {} else if j == 4 {}
      else if j == 5 {} else if j == 6 {} else if j == 7 {} else if j == 8 {} else {}
    }
  }

  /** Every rule but `foreach` and `end` needs its keyword at the head of the line. */
  lemma RuleNeedsKeyword(lex: Lexicon, j: nat, line: string)
    requires j < RuleCount && j != 3 && j != 4 && Rule(lex, j, line).Some?
    ensures KeywordRest(line, RuleKeyword(j)).Some?
  {
  }

  /**
   * Apart from `foreach` and `end`, a recognised statement is decided by the
   * first token of its line: the first token is the statement's keyword.
   */
  lemma KeywordDecides(lex: Lexicon, line: string)
    requires Classify(lex, line) !in {Any, Foreach, End}
    ensures FirstToken(line) == Some(Keyword(Classify(lex, line)))
  {
    var j := RuleIndex(Classify(lex, line));
    assert j != 3 && j != 4;
    RuleNeedsKeyword(lex, j, line);
    KeywordsAreWords(j);
    KeywordRestFirstToken(line, RuleKeyword(j));
  }

  /**
   * Totality with its fallback: a line whose first token is no keyword of the
   * grammar, and which is not `foreach` or `end`, is `Any`.
   */
  lemma UnknownKeywordIsAny(lex: Lexicon, line: string)
    requires FirstToken(line).None? || FirstToken(line).value !in
      {"useYAMLLibrary", "makeNewRoot", "batch", "saveTo", "useAsInput", "verbose", "print", "debug"}
    requires !EqualsIgnoreCase(line, "foreach") && !EqualsIgnoreCase(line, "end")
    ensures Classify(lex, line) == Any
  {
    if Classify(lex, line) != Any {
      var j := RuleIndex(Classify(lex, line));
      if j != 3 && j != 4 {
        RuleNeedsKeyword(lex, j, line);
        KeywordsAreWords(j);
        KeywordRestFirstToken(line, RuleKeyword(j));
      }
    }
  }

  /** A keyword does not head a line that differs from it at some position before the keyword ends. */
  lemma KeywordMissAt(line: string, keyword: string, p: nat)
    requires TrimStart(line) == line && p < |keyword| && p < |line| && line[p] != keyword[p]
    ensures KeywordRest(line, keyword).None?
  {
  }

  /** The rules before `foreach` all need a keyword starting with u, m or b. */
  lemma EarlyRulesMiss(lex: Lexicon, line: string)
    requires line != [] && line[0] !in "umb" && !IsSpace(line[0])
    ensures forall j :: 0 <= j < 3 ==> Rule(lex, j, line).None?
  {
    assert TrimStart(line) == line;
    KeywordMissAt(line, RuleKeyword(0), 0);
    KeywordMissAt(line, RuleKeyword(1), 0);
    KeywordMissAt(line, RuleKeyword(2), 0);
  }

  /** `foreach` is recognised exactly when it is the whole line, in any letter case. */
  lemma ForeachExactly(lex: Lexicon, line: string)
    ensures Classify(lex, line) == Foreach <==> EqualsIgnoreCase(line, "foreach")
  {
    if EqualsIgnoreCase(line, "foreach") {
      ForeachLine(lex, line);
    }
  }

  lemma ForeachLine(lex: Lexicon, line: string)
    requires EqualsIgnoreCase(line, "foreach")
    ensures Classify(lex, line) == Foreach
  {
    assert LowerAscii(line[0]) == 'f';
    EarlyRulesMiss(lex, line);
    assert Rule(lex, 3, line) == Some(Foreach);
    ClassifyFirstMatch(lex, line, 3);
  }

  /** `end` is recognised exactly when it is the whole line, in any letter case. */
  lemma EndExactly(lex: Lexicon, line: string)
    ensures Classify(lex, line) == End <==> EqualsIgnoreCase(line, "end")
  {
    if EqualsIgnoreCase(line, "end") {
      EndLine(lex, line);
    }
  }

  lemma EndLine(lex: Lexicon, line: string)
    requires EqualsIgnoreCase(line, "end")
    ensures Classify(lex, line) == End
  {
    assert LowerAscii(line[0]) == 'e';
    EarlyRulesMiss(lex, line);
    assert Rule(lex, 3, line).None?;
    assert Rule(lex, 4, line) == Some(End);
    ClassifyFirstMatch(lex, line, 4);
  }

  /** The keywords other than `foreach` and `end` pairwise differ at position 0 or 3. */
  lemma KeywordsDiffer(i: nat, j: nat) returns (p: nat)
    requires i < j < RuleCount && i != 3 && i != 4 && j != 3 && j != 4
    ensures p < |RuleKeyword(i)| && p < |RuleKeyword(j)| && RuleKeyword(i)[p] != RuleKeyword(j)[p]
  {
    p := if i == 0 && j == 6 then 3 else 0;
    if i == 0 {
      if j == 6 { assert "useYAMLLibrary"[3] != "useAsInput"[3]; }
    }
  }

  /** Facts about the keywords that head a line. */
  lemma KeywordShape(j: nat)
    requires j < RuleCount && j != 3 && j != 4
    ensures 4 <= |RuleKeyword(j)| && NoSpace(RuleKeyword(j))
    ensures LowerAscii(RuleKeyword(j)[0]) != 'f' && LowerAscii(RuleKeyword(j)[0]) != 'e'
  {
    KeywordsAreWords(j);
    if j == 0 {} else if j == 1 {} else if j == 2 {} else if j == 5 {} else if j == 6 {}
    else if j == 7 {} else if j == 8 {} else {}
  }

  /** A keyword followed by one space and an argument that starts with a visible character. */
  lemma KeywordLineRest(j: nat, arg: string, line: string)
    requires j < RuleCount && j != 3 && j != 4
    requires arg != [] && !IsSpace(arg[0]) && line == RuleKeyword(j) + " " + arg
    ensures TrimStart(line) == line && KeywordRest(line, RuleKeyword(j)) == Some(arg)
  {
    var kw := RuleKeyword(j);
    KeywordShape(j);
    assert line[0] == kw[0];
    assert line[..|kw|] == kw && line[|kw|] == ' ' && line[|kw|..] == " " + arg;
    assert TrimStart(" " + arg) == arg by {
      assert (" " + arg)[1..] == arg;
    }
  }

  /** No rule before the j-th matches a line headed by the j-th keyword. */
  lemma EarlierRulesMiss(lex: Lexicon, j: nat, arg: string, line: string)
    requires j < RuleCount && j != 3 && j != 4
    requires arg != [] && !IsSpace(arg[0]) && line == RuleKeyword(j) + " " + arg
    ensures forall i :: 0 <= i < j ==> Rule(lex, i, line).None?
  {
    forall i | 0 <= i < j ensures Rule(lex, i, line).None? {
      EarlierRuleMisses(lex, i, j, arg, line);
    }
  }

  /** The i-th rule, for i before j, does not match a line headed by the j-th keyword. */
  lemma EarlierRuleMisses(lex: Lexicon, i: nat, j: nat, arg: string, line: string)
    requires i < j < RuleCount && j != 3 && j != 4
    requires arg != [] && !IsSpace(arg[0]) && line == RuleKeyword(j) + " " + arg
    ensures Rule(lex, i, line).None?
  {
    var kw := RuleKeyword(j);
    KeywordShape(j);
    KeywordLineRest(j, arg, line);
    if i == 3 || i == 4 {
      assert line[0] == kw[0];
      assert LowerAscii(line[0]) != LowerAscii("foreach"[0]);
      assert LowerAscii(line[0]) != LowerAscii("end"[0]);
    } else {
      var p := KeywordsDiffer(i, j);
      assert line[p] == kw[p];
      KeywordMissAt(line, RuleKeyword(i), p);
    }
  }

  /**
   * A line made of a keyword, one space and an argument that starts with a
   * visible character is decided by that keyword's rule alone: no earlier rule
   * matches it.
   */
  lemma ClassifyKeywordLine(lex: Lexicon, j: nat, arg: string, line: string, st: Statement)
    requires j < RuleCount && j != 3 && j != 4
    requires arg != [] && !IsSpace(arg[0]) && line == RuleKeyword(j) + " " + arg
    requires Arguments(lex, j, arg) == Some(st)
    ensures Classify(lex, line) == st
  {
    KeywordLineRest(j, arg, line);
    EarlierRulesMiss(lex, j, arg, line);
    assert Rule(lex, j, line) == Arguments(lex, j, arg);
    ClassifyFirstMatch(lex, line, j);
  }

  /** The i-th rule, for i after j, does not match a line headed by the j-th keyword. */
  lemma LaterRuleMisses(lex: Lexicon, i: nat, j: nat, arg: string, line: string)
    requires j < i < RuleCount && j != 3 && j != 4
    requires arg != [] && !IsSpace(arg[0]) && line == RuleKeyword(j) + " " + arg
    ensures Rule(lex, i, line).None?
  {
    var kw := RuleKeyword(j);
    KeywordShape(j);
    KeywordLineRest(j, arg, line);
    if i == 3 || i == 4 {
      assert line[0] == kw[0];
      assert LowerAscii(line[0]) != LowerAscii("foreach"[0]);
      assert LowerAscii(line[0]) != LowerAscii("end"[0]);
    } else {
      var p := KeywordsDiffer(j, i);
      assert line[p] == kw[p];
      KeywordMissAt(line, RuleKeyword(i), p);
    }
  }

  /**
   * A line made of a keyword, one space and an argument that starts with a
   * visible character, whose argument that keyword's rule rejects, matches no
   * rule: it is `Any`.
   */
  lemma KeywordLineMiss(lex: Lexicon, j: nat, arg: string, line: string)
    requires j < RuleCount && j != 3 && j != 4
    requires arg != [] && !IsSpace(arg[0]) && line == RuleKeyword(j) + " " + arg
    requires Arguments(lex, j, arg).None?
    ensures Classify(lex, line) == Any
  {
    KeywordLineRest(j, arg, line);
    EarlierRulesMiss(lex, j, arg, line);
    forall i | 0 <= i < RuleCount ensures Results(lex, line)[i].None? {
      if j < i {
        LaterRuleMisses(lex, i, j, arg, line);
      }
    }
  }

  /** Lengths that do not fit are passed over on the way down. */
  lemma {:induction false} LongestFromSkips(s: string, ok: string -> bool, suffixOk: string -> bool, k: nat, m: nat)
    requires m <= k <= |s|
    requires forall j :: m < j <= k ==> !Fits(s, ok, suffixOk, j)
    ensures LongestFrom(s, ok, suffixOk, k) == LongestFrom(s, ok, suffixOk, m)
    decreases k
  {
    if m < k {
      LongestFromSkips(s, ok, suffixOk, k - 1, m);
    }
  }

  /** The whole text is the longest fit when `ok` accepts it and `suffixOk` the empty rest. */
  lemma LongestWhole(s: string, ok: string -> bool, suffixOk: string -> bool)
    requires s != [] && ok(s) && suffixOk([])
    ensures Longest(s, ok, suffixOk) == Some(|s|)
  {
    assert s[..|s|] == s && s[|s|..] == [];
    assert Fits(s, ok, suffixOk, |s|);
  }

  /**
   * When `ok` accepts only words, a word followed by whitespace (or by nothing)
   * that `ok` and `suffixOk` accept is the longest fit.
   */
  lemma LongestWord(ok: string -> bool, suffixOk: string -> bool, w: string, tail: string)
    requires forall x :: ok(x) ==> NoSpace(x)
    requires w != [] && ok(w) && suffixOk(tail) && (tail == [] || IsSpace(tail[0]))
    ensures Longest(w + tail, ok, suffixOk) == Some(|w|)
  {
    var s := w + tail;
    assert s[..|w|] == w && s[|w|..] == tail;
    assert Fits(s, ok, suffixOk, |w|);
    forall j | |w| < j <= |s| ensures !Fits(s, ok, suffixOk, j) {
      assert s[..j][|w|] == tail[0];
    }
    LongestFromSkips(s, ok, suffixOk, |s|, |w|);
  }

  /** Flags written one after another, each after a single space. */
  function Spaced(flags: seq<string>): string {
    if flags == [] then [] else " " + flags[0] + Spaced(flags[1..])
  }

  /** The style of the last of a list of flags, None for no flags. */
  function LastStyle(flags: seq<string>): Option<QuoteStyle> {
    if flags == [] then None else Some(FlagStyle(flags[|flags| - 1]))
  }

  /** A quote flag at the head of a text is recognised with its own length. */
  lemma FlagLengthOf(flag: string, rest: string)
    requires IsQuoteFlag(flag)
    ensures FlagLength(flag + rest) == |flag|
  {
    var u := flag + rest;
    assert u[..|flag|] == flag;
    if flag != "--no-quote" {
      assert u[2] == flag[2];
      assert u[..10] != "--no-quote" by { assert u[..10][2] == u[2]; }
    }
  }

  /**
   * Single-spaced flags are repetitions of the flag group, and group 2 holds
   * the last of them: the last flag wins.
   */
  lemma {:induction false} SpacedFlags(flags: seq<string>)
    requires forall i :: 0 <= i < |flags| ==> IsQuoteFlag(flags[i])
    ensures FlagRepeats(Spaced(flags))
    ensures RepeatsLastFlag(Spaced(flags)) == LastStyle(flags)
  {
    if flags != [] {
      var t, flag, rest := Spaced(flags), flags[0], Spaced(flags[1..]);
      assert t == " " + (flag + rest);
      FlagLengthOf(flag, rest);
      assert t[1..] == flag + rest;
      assert t[1 + |flag|..] == rest;
      assert t[1..1 + |flag|] == flag;
      SpacedFlags(flags[1..]);
      if |flags| > 1 {
        assert flags[1..][|flags| - 2] == flags[|flags| - 1];
      }
    }
  }

  /** The argument part of `makeNewRoot name` followed by single-spaced flags. */
  lemma MakeNewRootFlagsArgs(lex: Lexicon, name: string, flags: seq<string>)
    requires forall s :: lex.isName(s) ==> NoSpace(s)
    requires name != [] && lex.isName(name)
    requires forall i :: 0 <= i < |flags| ==> IsQuoteFlag(flags[i])
    ensures MakeNewRootArgs(lex, name + Spaced(flags)) == Some(MakeNewRoot(name, LastStyle(flags)))
  {
    var tail := Spaced(flags);
    var arg := name + tail;
    SpacedFlags(flags);
    assert FlagSuffix(tail) && LastFlag(tail) == RepeatsLastFlag(tail);
    if flags != [] {
      assert tail[0] == ' ';
    }
    LongestWord(lex.isName, FlagSuffix, name, tail);
    assert arg[..|name|] == name && arg[|name|..] == tail;
  }

  /** A makeNewRoot line is the keyword, one space and an argument that starts with the name. */
  lemma MakeNewRootLine(name: string, tail: string, line: string)
    requires name != [] && !IsSpace(name[0]) && line == "makeNewRoot " + name + tail
    ensures !IsSpace((name + tail)[0]) && line == RuleKeyword(1) + " " + (name + tail)
  {
    assert "makeNewRoot " + name + tail == "makeNewRoot " + (name + tail);
    assert RuleKeyword(1) + " " == "makeNewRoot ";
    assert (name + tail)[0] == name[0];
  }

  /**
   * makeNewRoot, for names without whitespace: a name followed by any number
   * of single-spaced quote flags is recognised, and the quote style is the
   * last flag's (Plain, SingleQuoted or DoubleQuoted), or none without flags.
   */
  lemma MakeNewRootFlags(lex: Lexicon, name: string, flags: seq<string>, line: string)
    requires forall s :: lex.isName(s) ==> NoSpace(s)
    requires name != [] && lex.isName(name)
    requires forall i :: 0 <= i < |flags| ==> IsQuoteFlag(flags[i])
    requires line == "makeNewRoot " + name + Spaced(flags)
    ensures Classify(lex, line) == MakeNewRoot(name, LastStyle(flags))
  {
    MakeNewRootLine(name, Spaced(flags), line);
    MakeNewRootFlagsArgs(lex, name, flags);
    ClassifyKeywordLine(lex, 1, name + Spaced(flags), line, MakeNewRoot(name, LastStyle(flags)));
  }

  /** A text that starts with whitespace starts with no flag. */
  lemma NoFlagAtSpace(u: string)
    requires u != [] && IsSpace(u[0])
    ensures FlagLength(u) == 0
  {
    if |u| >= 10 {
      assert u[..10][0] == u[0];
    }
    if |u| >= 14 {
      assert u[..14][0] == u[0];
    }
  }

  /** Every quote flag starts with a dash. */
  lemma FlagStartsWithDash(f: string)
    requires IsQuoteFlag(f)
    ensures |f| > 1 && f[0] == '-'
  {
  }

  /**
   * After a flag, a second flag preceded by two whitespace characters breaks
   * the repetition.
   */
  lemma FlagsBrokenAt(t: string, f1: string, f2: string)
    requires f1 != [] && |f2| > 1 && !IsSpace(f1[0]) && !IsSpace(f2[0])
    requires FlagLength(f1 + ("  " + f2)) == |f1|
    requires t == " " + f1 + "  " + f2
    ensures !FlagSuffix(t)
  {
    var rest := "  " + f2;
    assert t == " " + (f1 + rest);
    assert t[1..] == f1 + rest && t[1 + |f1|..] == rest;
    assert !FlagSuffix(t[1..]) by {
      assert t[1..][0] == f1[0];
    }
    assert !LineEnd(t) by {
      assert t[1] == f1[0];
    }
    assert rest[1..] == " " + f2;
    NoFlagAtSpace(rest[1..]);
    assert !LineEnd(rest) by {
      assert rest[2] == f2[0];
    }
    assert !FlagRepeats(rest);
    assert !FlagRepeats(t);
  }

  /** Two spaces before a flag break the repetition: `\s--flag` takes exactly one. */
  lemma DoubleSpaceBreaksFlags(f1: string, f2: string)
    requires IsQuoteFlag(f1) && IsQuoteFlag(f2)
    ensures !FlagSuffix(" " + f1 + "  " + f2)
  {
    FlagLengthOf(f1, "  " + f2);
    FlagStartsWithDash(f1);
    FlagStartsWithDash(f2);
    FlagsBrokenAt(" " + f1 + "  " + f2, f1, f2);
  }

  /** With two spaces between the flags, makeNewRoot's rule rejects the argument at every name length. */
  lemma DoubleSpacedFlagsArgs(lex: Lexicon, name: string, f1: string, f2: string)
    requires forall s :: lex.isName(s) ==> NoSpace(s)
    requires name != [] && NoSpace(name) && IsQuoteFlag(f1) && IsQuoteFlag(f2)
    ensures MakeNewRootArgs(lex, name + (" " + f1 + "  " + f2)).None?
  {
    var tail := " " + f1 + "  " + f2;
    var arg := name + tail;
    DoubleSpaceBreaksFlags(f1, f2);
    forall j | 0 < j <= |arg| ensures !Fits(arg, lex.isName, FlagSuffix, j) {
      if j > |name| {
        assert arg[..j][|name|] == ' ';
      } else if j < |name| {
        assert arg[j..][0] == name[j];
      } else {
        assert arg[j..] == tail;
      }
    }
    LongestFromSkips(arg, lex.isName, FlagSuffix, |arg|, 0);
  }

  /** The line with two spaces between its flags, as the keyword, one space and an argument. */
  lemma DoubleSpacedFlagsLine(name: string, tail: string, f1: string, f2: string, line: string)
    requires name != [] && !IsSpace(name[0]) && tail == " " + f1 + "  " + f2
    requires line == "makeNewRoot " + name + " " + f1 + "  " + f2
    ensures !IsSpace((name + tail)[0]) && line == RuleKeyword(1) + " " + (name + tail)
  {
    assert line == "makeNewRoot " + name + tail;
    MakeNewRootLine(name, tail, line);
  }

  /**
   * A makeNewRoot line whose flags are separated by two spaces is no
   * makeNewRoot statement at all, for names without whitespace: it is left to
   * the back-end dispatch.
   */
  lemma DoubleSpacedFlagsRejected(lex: Lexicon, name: string, f1: string, f2: string, line: string)
    requires forall s :: lex.isName(s) ==> NoSpace(s)
    requires name != [] && NoSpace(name) && IsQuoteFlag(f1) && IsQuoteFlag(f2)
    requires line == "makeNewRoot " + name + " " + f1 + "  " + f2
    ensures Classify(lex, line) == Any
  {
    var tail := " " + f1 + "  " + f2;
    DoubleSpacedFlagsLine(name, tail, f1, f2, line);
    DoubleSpacedFlagsArgs(lex, name, f1, f2);
    KeywordLineMiss(lex, 1, name + tail, line);
  }

  /** `verbose on` and `verbose off`, followed by what `\s*$` accepts, set the flag to whether the argument is "on". */
  lemma VerboseArgument(lex: Lexicon, arg: string, w: string, line: string)
    requires (arg == "on" || arg == "off") && LineEnd(w) && line == "verbose " + arg + w
    ensures Classify(lex, line) == Verbose(arg == "on")
  {
    var rest := arg + w;
    assert rest[..|arg|] == arg && rest[|arg|..] == w;
    assert Arguments(lex, 7, rest) == VerboseArgs(rest) == Some(Verbose(arg == "on"));
    assert line == RuleKeyword(7) + " " + rest;
    ClassifyKeywordLine(lex, 7, rest, line, Verbose(arg == "on"));
  }

  /** `print -`, followed by what `\s*$` accepts, is the statement that passes the current document on. */
  lemma PrintDashLine(lex: Lexicon, w: string, line: string)
    requires LineEnd(w) && line == "print -" + w
    ensures Classify(lex, line) == PrintDash
  {
    var rest := "-" + w;
    assert rest[1..] == w;
    assert Arguments(lex, 8, rest) == PrintDashArgs(rest) == Some(PrintDash);
    assert line == RuleKeyword(8) + " " + rest;
    ClassifyKeywordLine(lex, 8, rest, line, PrintDash);
  }

  /** `debug --dump`, followed by what `\s*$` accepts, is the dump statement. */
  lemma DebugDumpLine(lex: Lexicon, w: string, line: string)
    requires LineEnd(w) && line == "debug --dump" + w
    ensures Classify(lex, line) == DebugDump
  {
    var rest := "--dump" + w;
    assert rest[..6] == "--dump" && rest[6..] == w;
    assert Arguments(lex, 9, rest) == DebugDumpArgs(rest) == Some(DebugDump);
    assert line == RuleKeyword(9) + " " + rest;
    ClassifyKeywordLine(lex, 9, rest, line, DebugDump);
  }

  /**
   * `$` also matches before a line terminator that ends the input, so a
   * final LINE SEPARATOR does not stop `print -` from matching.
   */
  lemma PrintDashBeforeSeparator(lex: Lexicon, line: string)
    requires line == "print -\U{2028}"
    ensures Classify(lex, line) == PrintDash
  {
    assert "\U{2028}"[..0] == [];
    PrintDashLine(lex, "\U{2028}", line);
  }

  /** Likewise a final NEXT LINE, after whitespace, ends a `debug --dump` line. */
  lemma DebugDumpBeforeNextLine(lex: Lexicon, line: string)
    requires line == "debug --dump \U{85}"
    ensures Classify(lex, line) == DebugDump
  {
    assert " \U{85}"[..1] == " ";
    DebugDumpLine(lex, " \U{85}", line);
  }

  /** `saveTo R` for a reference R that starts with a visible character. */
  lemma SaveToLine(lex: Lexicon, reference: string, line: string)
    requires reference != [] && !IsSpace(reference[0]) && lex.isReference(reference)
    requires line == "saveTo " + reference
    ensures Classify(lex, line) == SaveTo(reference)
  {
    LongestWhole(reference, lex.isReference, LineEnd);
    assert reference[..|reference|] == reference;
    assert Arguments(lex, 5, reference) == SaveToArgs(lex, reference) == Some(SaveTo(reference));
    assert line == RuleKeyword(5) + " " + reference;
    ClassifyKeywordLine(lex, 5, reference, line, SaveTo(reference));
  }

  /** `useAsInput R` for a reference R that starts with a visible character. */
  lemma UseAsInputLine(lex: Lexicon, reference: string, line: string)
    requires reference != [] && !IsSpace(reference[0]) && lex.isReference(reference)
    requires line == "useAsInput " + reference
    ensures Classify(lex, line) == UseAsInput(reference)
  {
    LongestWhole(reference, lex.isReference, LineEnd);
    assert reference[..|reference|] == reference;
    assert Arguments(lex, 6, reference) == UseAsInputArgs(lex, reference) == Some(UseAsInput(reference));
    assert line == RuleKeyword(6) + " " + reference;
    ClassifyKeywordLine(lex, 6, reference, line, UseAsInput(reference));
  }

  /** `batch F` for a name F that starts with a visible character. */
  lemma BatchLine(lex: Lexicon, path: string, line: string)
    requires path != [] && !IsSpace(path[0]) && lex.isName(path)
    requires line == "batch " + path
    ensures Classify(lex, line) == SubBatch(path)
  {
    LongestWhole(path, lex.isName, LineEnd);
    assert path[..|path|] == path;
    assert Arguments(lex, 2, path) == BatchArgs(lex, path) == Some(SubBatch(path));
    assert line == RuleKeyword(2) + " " + path;
    ClassifyKeywordLine(lex, 2, path, line, SubBatch(path));
  }

  /** `useYAMLLibrary L` for a library L that starts with a visible character. */
  lemma YamlLibraryLine(lex: Lexicon, library: string, line: string)
    requires library != [] && !IsSpace(library[0]) && lex.isLibrary(library)
    requires line == "useYAMLLibrary " + library
    ensures Classify(lex, line) == YamlLibrary(library)
  {
    LongestWhole(library, lex.isLibrary, LineEnd);
    assert library[..|library|] == library;
    assert Arguments(lex, 0, library) == YamlLibraryArgs(lex, library) == Some(YamlLibrary(library));
    assert line == RuleKeyword(0) + " " + library;
    ClassifyKeywordLine(lex, 0, library, line, YamlLibrary(library));
  }
}

/**
 * The line grammar of the batch language: the ordered, anchored rules that
 * BatchFileGrammer.identifyLine tries, as one total function `Classify`.
 *
 * The regular expressions REGEXP_NAME and REGEXP_OBJECT_REFERENCE and the list
 * of YAML libraries belong to classes outside this model; a `Lexicon` stands
 * for them.  A capture group `\s+(P)\s*$` is modelled as the regex engine
 * resolves it for a greedy pattern P: the argument starts after the whitespace
 * that follows the keyword, and it is the LONGEST prefix of the rest that P
 * accepts and after which the remainder of the pattern still matches.
 */
module Classifier {
  import opened Wrappers
  import opened Text

  /** The argument sub-patterns whose definitions are not part of this model. */
  datatype Lexicon = Lexicon(
    isLibrary: string -> bool,     // YAML_Libraries.list("|")
    isName: string -> bool,        // REGEXP_NAME
    isReference: string -> bool)   // REGEXP_OBJECT_REFERENCE

  /** Enums.ScalarStyle, restricted to the values this core produces or inherits. */
  datatype QuoteStyle = Undefined | Plain | SingleQuoted | DoubleQuoted

  /**
   * One statement of the language.  The first eleven variants are the kinds
   * the grammar recognises (BatchCmdType); Properties, SetProperty, Print and
   * Sleep are dispatched by the interpreter and supplied by a classifier
   * extension that is not part of this model.
   */
  datatype Statement =
    | YamlLibrary(library: string)
    | MakeNewRoot(name: string, quoteFlag: Option<QuoteStyle>)
    | SubBatch(path: string)
    | Foreach
    | End
    | SaveTo(reference: string)
    | UseAsInput(reference: string)
    | Verbose(on: bool)
    | PrintDash
    | DebugDump
    | Properties(key: string, file: string)
    | SetProperty(key: string, value: string)
    | Print(expression: string)
    | Sleep(seconds: int)
    | Any

  /** The statements BatchFileGrammer itself can produce. */
  predicate IsGrammarStatement(s: Statement) {
    !(s.Properties? || s.SetProperty? || s.Print? || s.Sleep?)
  }

  /** The argument of a recognised statement is one its rule's pattern accepts. */
  predicate WellFormed(lex: Lexicon, s: Statement) {
    match s
    case YamlLibrary(library) => lex.isLibrary(library)
    case MakeNewRoot(name, _) => lex.isName(name)
    case SubBatch(path) => lex.isName(path)
    case SaveTo(reference) => lex.isReference(reference)
    case UseAsInput(reference) => lex.isReference(reference) || IsInlineValue(reference)
    case _ => true
  }

  // ---------------------------------------------------------------------
  // Pattern pieces

  /** `['" ${}@%a-zA-Z0-9\[\]\.,:_/-]`, the character class of REGEXP_INLINEVALUE. */
  predicate IsInlineValueChar(c: char) {
    c in "'\" ${}@%[].,:_/-" || 'a' <= c <= 'z' || 'A' <= c <= 'Z' || '0' <= c <= '9'
  }

  /** REGEXP_INLINEVALUE: one or more characters of that class. */
  predicate IsInlineValue(s: string) {
    s != [] && forall i :: 0 <= i < |s| ==> IsInlineValueChar(s[i])
  }

  /**
   * `^\s*keyword\s+`: when the line starts (after optional whitespace) with the
   * keyword followed by at least one whitespace character, the text after
   * that whitespace.
   */
  function KeywordRest(line: string, keyword: string): (r: Option<string>)
    ensures r.Some? ==> r.value == [] || !IsSpace(r.value[0])
    ensures r.Some? ==> |r.value| < |line|
  {
    var t := TrimStart(line);
    if |t| > |keyword| && t[..|keyword|] == keyword && IsSpace(t[|keyword|]) then
      Some(TrimStart(t[|keyword|..]))
    else None
  }

  /** The prefix of length k is accepted by `ok` and the rest by `suffixOk`. */
  predicate Fits(s: string, ok: string -> bool, suffixOk: string -> bool, k: nat)
    requires k <= |s|
  {
    ok(s[..k]) && suffixOk(s[k..])
  }

  /**
   * A greedy capture of length k: the prefix of length k fits, and no longer
   * prefix does.
   */
  predicate Greedy(s: string, ok: string -> bool, suffixOk: string -> bool, k: nat) {
    1 <= k <= |s| && Fits(s, ok, suffixOk, k) &&
    forall j :: k < j <= |s| ==> !Fits(s, ok, suffixOk, j)
  }

  /** No non-empty prefix of `s` fits. */
  predicate NoFit(s: string, ok: string -> bool, suffixOk: string -> bool) {
    forall j :: 1 <= j <= |s| ==> !Fits(s, ok, suffixOk, j)
  }

  /**
   * The longest non-empty prefix of `s` that `ok` accepts and whose remainder
   * `suffixOk` accepts, as a length: what a greedy group finds once the
   * engine has backtracked far enough for the rest of the pattern to match.
   */
  function Longest(s: string, ok: string -> bool, suffixOk: string -> bool): (r: Option<nat>)
    ensures r.Some? ==> Greedy(s, ok, suffixOk, r.value)
    ensures r.None? <==> NoFit(s, ok, suffixOk)
  {
    LongestFrom(s, ok, suffixOk, |s|)
  }

  /** The longest fit of length at most k. */
  function LongestFrom(s: string, ok: string -> bool, suffixOk: string -> bool, k: nat): (r: Option<nat>)
    requires k <= |s|
    ensures r.Some? ==> 1 <= r.value <= k && Fits(s, ok, suffixOk, r.value)
    ensures r.Some? ==> forall j :: r.value < j <= k ==> !Fits(s, ok, suffixOk, j)
    ensures r.None? <==> forall j :: 1 <= j <= k ==> !Fits(s, ok, suffixOk, j)
    decreases k
  {
    if k == 0 then None
    else if Fits(s, ok, suffixOk, k) then Some(k)
    else LongestFrom(s, ok, suffixOk, k - 1)
  }

  predicate IsQuoteFlag(tok: string) {
    tok == "--no-quote" || tok == "--single-quote" || tok == "--double-quote"
  }

  /** The quote-flag mapping of identifyLine; Undefined is the loop's default. */
  function FlagStyle(tok: string): (q: QuoteStyle)
    ensures q != Undefined <==> IsQuoteFlag(tok)
  {
    if tok == "--no-quote" then Plain
    else if tok == "--single-quote" then SingleQuoted
    else if tok == "--double-quote" then DoubleQuoted
    else Undefined
  }

  /** The length of the quote flag that `u` starts with, or 0 when it starts with none. */
  function FlagLength(u: string): (n: nat)
    ensures n > 0 ==> n <= |u| && IsQuoteFlag(u[..n])
  {
    if |u| >= 10 && u[..10] == "--no-quote" then 10
    else if |u| >= 14 && (u[..14] == "--single-quote" || u[..14] == "--double-quote") then 14
    else 0
  }

  /**
   * `(\s--no-quote|\s--single-quote|\s--double-quote)*\s*$`: repetitions of
   * exactly one whitespace character and a flag, then the line end.
   */
  predicate FlagRepeats(t: string)
    decreases |t|
  {
    LineEnd(t) ||
    (|t| > 0 && IsSpace(t[0]) && FlagLength(t[1..]) > 0 && FlagRepeats(t[1 + FlagLength(t[1..])..]))
  }

  /**
   * What REGEXP_MKNEWROOT accepts after the name: `\s*` and then the
   * repetitions.  Whatever is not empty starts with whitespace or is a
   * lone final terminator.
   */
  predicate FlagSuffix(t: string): (b: bool)
    ensures b ==> t == [] || IsSpace(t[0]) || (|t| == 1 && IsFinalTerminator(t[0]))
    decreases |t|
  {
    FlagRepeats(t) || (|t| > 0 && IsSpace(t[0]) && FlagSuffix(t[1..]))
  }

  /** Group 2 over the repetitions: the flag of the last one, None when there is none. */
  function RepeatsLastFlag(t: string): (r: Option<QuoteStyle>)
    ensures r.Some? ==> r.value != Undefined
    decreases |t|
  {
    if |t| > 0 && IsSpace(t[0]) && FlagLength(t[1..]) > 0 then
      var n := FlagLength(t[1..]);
      assert t[1..][..n] == t[1..1 + n];
      match RepeatsLastFlag(t[1 + n..])
      case Some(q) => Some(q)
      case None => Some(FlagStyle(t[1..1 + n]))
    else None
  }

  /**
   * Group 2 of REGEXP_MKNEWROOT, mapped as identifyLine maps it: the last
   * repetition's flag, found after the leading whitespace; never Undefined.
   */
  function LastFlag(t: string): (r: Option<QuoteStyle>)
    ensures r.Some? ==> r.value != Undefined
    decreases |t|
  {
    if FlagRepeats(t) then RepeatsLastFlag(t)
    else if |t| > 0 && IsSpace(t[0]) then LastFlag(t[1..])
    else None
  }

  // ---------------------------------------------------------------------
  // The rules, in the order identifyLine tries them

  /** Number of rules. */
  const RuleCount := 10

  /** The keyword of the i-th rule. */
  function RuleKeyword(i: nat): string
    requires i < RuleCount
  {
    match i
    case 0 => "useYAMLLibrary"
    case 1 => "makeNewRoot"
    case 2 => "batch"
    case 3 => "foreach"
    case 4 => "end"
    case 5 => "saveTo"
    case 6 => "useAsInput"
    case 7 => "verbose"
    case 8 => "print"
    case _ => "debug"
  }

  /** The position in the priority order of the rule that produces a statement. */
  function RuleIndex(s: Statement): nat {
    match s
    case YamlLibrary(_) => 0
    case MakeNewRoot(_, _) => 1
    case SubBatch(_) => 2
    case Foreach => 3
    case End => 4
    case SaveTo(_) => 5
    case UseAsInput(_) => 6
    case Verbose(_) => 7
    case PrintDash => 8
    case DebugDump => 9
    case _ => RuleCount
  }

  /** The keyword that introduces a statement of the grammar. */
  function Keyword(s: Statement): string {
    if RuleIndex(s) < RuleCount then RuleKeyword(RuleIndex(s)) else ""
  }

  /** `useYAMLLibrary\s+(library)\s*$`, given the text after the keyword. */
  function YamlLibraryArgs(lex: Lexicon, rest: string): (r: Option<Statement>)
    ensures r.Some? ==> r.value.YamlLibrary? && WellFormed(lex, r.value)
    ensures r.Some? ==> var n := |r.value.library|;
      Greedy(rest, lex.isLibrary, LineEnd, n) && r.value.library == rest[..n]
    ensures r.None? <==> NoFit(rest, lex.isLibrary, LineEnd)
  {
    match Longest(rest, lex.isLibrary, LineEnd)
    case Some(k) => Some(YamlLibrary(rest[..k]))
    case None => None
  }

  /** `makeNewRoot\s+(name)` followed by optional quote flags. */
  function MakeNewRootArgs(lex: Lexicon, rest: string): (r: Option<Statement>)
    ensures r.Some? ==> r.value.MakeNewRoot? && WellFormed(lex, r.value)
    ensures r.Some? ==> var n := |r.value.name|;
      Greedy(rest, lex.isName, FlagSuffix, n) && r.value.name == rest[..n] &&
      r.value.quoteFlag == LastFlag(rest[n..])
    ensures r.None? <==> NoFit(rest, lex.isName, FlagSuffix)
  {
    match Longest(rest, lex.isName, FlagSuffix)
    case Some(k) => Some(MakeNewRoot(rest[..k], LastFlag(rest[k..])))
    case None => None
  }

  /** `batch\s+(name)\s*$`. */
  function BatchArgs(lex: Lexicon, rest: string): (r: Option<Statement>)
    ensures r.Some? ==> r.value.SubBatch? && WellFormed(lex, r.value)
    ensures r.Some? ==> var n := |r.value.path|;
      Greedy(rest, lex.isName, LineEnd, n) && r.value.path == rest[..n]
    ensures r.None? <==> NoFit(rest, lex.isName, LineEnd)
  {
    match Longest(rest, lex.isName, LineEnd)
    case Some(k) => Some(SubBatch(rest[..k]))
    case None => None
  }

  /** `saveTo\s+(reference)\s*$`. */
  function SaveToArgs(lex: Lexicon, rest: string): (r: Option<Statement>)
    ensures r.Some? ==> r.value.SaveTo? && WellFormed(lex, r.value)
    ensures r.Some? ==> var n := |r.value.reference|;
      Greedy(rest, lex.isReference, LineEnd, n) && r.value.reference == rest[..n]
    ensures r.None? <==> NoFit(rest, lex.isReference, LineEnd)
  {
    match Longest(rest, lex.isReference, LineEnd)
    case Some(k) => Some(SaveTo(rest[..k]))
    case None => None
  }

  /**
   * `useAsInput\s+(reference|inline value)\s*$`: the first alternative is
   * tried at every length before the second.
   */
  function UseAsInputArgs(lex: Lexicon, rest: string): (r: Option<Statement>)
    ensures r.Some? ==> r.value.UseAsInput? && WellFormed(lex, r.value)
    ensures r.Some? ==> var n := |r.value.reference|;
      n <= |rest| && r.value.reference == rest[..n] &&
      (Greedy(rest, lex.isReference, LineEnd, n) ||
       (NoFit(rest, lex.isReference, LineEnd) && Greedy(rest, IsInlineValue, LineEnd, n)))
    ensures r.None? <==> NoFit(rest, lex.isReference, LineEnd) && NoFit(rest, IsInlineValue, LineEnd)
  {
    match Longest(rest, lex.isReference, LineEnd)
    case Some(k) => Some(UseAsInput(rest[..k]))
    case None =>
      match Longest(rest, IsInlineValue, LineEnd)
      case Some(k) => Some(UseAsInput(rest[..k]))
      case None => None
  }

  /** `verbose\s+(on|off)\s*$`. */
  function VerboseArgs(rest: string): (r: Option<Statement>)
    ensures r.Some? ==> r.value.Verbose?
    ensures r == Some(Verbose(true)) <==> |rest| >= 2 && rest[..2] == "on" && LineEnd(rest[2..])
    ensures r == Some(Verbose(false)) <==> |rest| >= 3 && rest[..3] == "off" && LineEnd(rest[3..])
  {
    TrimLineEndIs(rest, "on");
    TrimLineEndIs(rest, "off");
    if TrimEnd(DropTerminator(rest)) == "on" then Some(Verbose(true))
    else if TrimEnd(DropTerminator(rest)) == "off" then Some(Verbose(false))
    else None
  }

  /** `print\s+-\s*$`. */
  function PrintDashArgs(rest: string): (r: Option<Statement>)
    ensures r.Some? ==> r.value.PrintDash?
    ensures r.Some? <==> |rest| >= 1 && rest[0] == '-' && LineEnd(rest[1..])
  {
    TrimLineEndIs(rest, "-");
    if TrimEnd(DropTerminator(rest)) == "-" then Some(PrintDash) else None
  }

  /** `debug\s+--dump\s*$`. */
  function DebugDumpArgs(rest: string): (r: Option<Statement>)
    ensures r.Some? ==> r.value.DebugDump?
    ensures r.Some? <==> |rest| >= 6 && rest[..6] == "--dump" && LineEnd(rest[6..])
  {
    TrimLineEndIs(rest, "--dump");
    if TrimEnd(DropTerminator(rest)) == "--dump" then Some(DebugDump) else None
  }

  /** The argument part of the i-th rule, applied to the text after its keyword. */
  function Arguments(lex: Lexicon, i: nat, rest: string): (r: Option<Statement>)
    requires i < RuleCount && i != 3 && i != 4
    ensures r.Some? ==> IsGrammarStatement(r.value) && RuleIndex(r.value) == i && WellFormed(lex, r.value)
  {
    match i
    case 0 => YamlLibraryArgs(lex, rest)
    case 1 => MakeNewRootArgs(lex, rest)
    case 2 => BatchArgs(lex, rest)
    case 5 => SaveToArgs(lex, rest)
    case 6 => UseAsInputArgs(lex, rest)
    case 7 => VerboseArgs(rest)
    case 8 => PrintDashArgs(rest)
    case _ => DebugDumpArgs(rest)
  }

  /**
   * The i-th rule of the fixed priority order: `foreach` and `end` compare the
   * whole line ignoring case; every other rule needs its keyword followed by
   * whitespace at the head of the line.
   */
  function Rule(lex: Lexicon, i: nat, line: string): (r: Option<Statement>)
    requires i < RuleCount
    ensures r.Some? ==> IsGrammarStatement(r.value) && RuleIndex(r.value) == i && WellFormed(lex, r.value)
  {
    if i == 3 then (if EqualsIgnoreCase(line, "foreach") then Some(Foreach) else None)
    else if i == 4 then (if EqualsIgnoreCase(line, "end") then Some(End) else None)
    else
      match KeywordRest(line, RuleKeyword(i))
      case None => None
      case Some(rest) => Arguments(lex, i, rest)
  }

  /** The answers of all rules to a line, in priority order. */
  function Results(lex: Lexicon, line: string): (rs: seq<Option<Statement>>)
    ensures |rs| == RuleCount
  {
    seq(RuleCount, i requires 0 <= i < RuleCount => Rule(lex, i, line))
  }

  /** The position of the first answer from the i-th on that is a match. */
  function FirstMatch<T>(rs: seq<Option<T>>, i: nat): (r: Option<nat>)
    requires i <= |rs|
    ensures r.Some? ==> i <= r.value < |rs| && rs[r.value].Some?
    ensures r.Some? ==> forall j :: i <= j < r.value ==> rs[j].None?
    ensures r.None? <==> forall j :: i <= j < |rs| ==> rs[j].None?
    decreases |rs| - i
  {
    if i == |rs| then None
    else if rs[i].Some? then Some(i)
    else FirstMatch(rs, i + 1)
  }

  /**
   * identifyLine: the rules are tried in their fixed order and the first match
   * wins; a line that no rule matches is `Any` (left to the backend
   * dispatch), never an error.  A recognised statement carries an argument
   * that its rule's pattern accepts.
   */
  function Classify(lex: Lexicon, line: string): (s: Statement)
    ensures IsGrammarStatement(s) && WellFormed(lex, s)
    ensures s != Any ==> RuleIndex(s) < RuleCount && Rule(lex, RuleIndex(s), line) == Some(s)
    ensures s != Any ==> forall j :: 0 <= j < RuleIndex(s) ==> Results(lex, line)[j].None?
    ensures s == Any <==> forall j :: 0 <= j < RuleCount ==> Results(lex, line)[j].None?
  {
    var rs := Results(lex, line);
    match FirstMatch(rs, 0)
    case Some(k) => rs[k].value
    case None => Any
  }
}

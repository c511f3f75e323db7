/**
 * BatchFileGrammer: a cursor over the lines of a batch script that classifies
 * the current line and keeps what it found in per-line fields.
 *
 * The superclass ScriptFileScanner is not part of this model.  From it the
 * class takes the lines, the 1-based `currentLineNum` (0 before the first
 * line is read), and the moves `nextLine` and `skipLine`; both moves are
 * modelled as advancing the cursor by one line and resetting the per-line
 * fields, as `resetFlagsForEachLine` describes.
 */
module Grammar {
  import opened Wrappers
  import opened Text
  import opened Classifier
  import opened Brackets

  /** BatchFileGrammer.BatchCmdType. */
  datatype CmdType =
    | CmdMakeNewRoot | CmdSubBatch | CmdForeach | CmdEnd | CmdSaveTo | CmdUseAsInput
    | CmdYamlLibrary | CmdVerbose | CmdPrintDash | CmdDebugDump | CmdAny

  /** YAML_Libraries.ASUXYAML_Library, the library a line starts with. */
  const DefaultLibrary := "ASUXYAML_Library"

  /** The per-line fields of the grammar, which every line starts from afresh. */
  datatype Flags = Flags(
    whichCmd: CmdType,
    yamlLibrary: string,
    saveTo: Option<string>,
    useAsInput: Option<string>,
    makeNewRoot: Option<string>,
    subBatchFile: Option<string>,
    batchVerbose: bool)

  /** The values resetFlagsForEachLine gives the per-line fields. */
  const ResetFlags := Flags(CmdAny, DefaultLibrary, None, None, None, None, false)

  /** The command type identifyLine records for a statement. */
  function CmdOf(s: Statement): CmdType {
    match s
    case YamlLibrary(_) => CmdYamlLibrary
    case MakeNewRoot(_, _) => CmdMakeNewRoot
    case SubBatch(_) => CmdSubBatch
    case Foreach => CmdForeach
    case End => CmdEnd
    case SaveTo(_) => CmdSaveTo
    case UseAsInput(_) => CmdUseAsInput
    case Verbose(_) => CmdVerbose
    case PrintDash => CmdPrintDash
    case DebugDump => CmdDebugDump
    case _ => CmdAny
  }

  /**
   * What identifyLine does to the per-line fields: the matched rule stores its
   * argument and its command type, `foreach` and `end` switch batch verbosity
   * off, and a line no rule matches changes nothing.
   */
  function Identify(f: Flags, s: Statement): (r: Flags)
    ensures IsGrammarStatement(s) && s != Any ==> r.whichCmd == CmdOf(s)
    ensures !IsGrammarStatement(s) || s == Any ==> r == f
    ensures !s.YamlLibrary? ==> r.yamlLibrary == f.yamlLibrary
    ensures !s.SaveTo? ==> r.saveTo == f.saveTo
    ensures !s.UseAsInput? ==> r.useAsInput == f.useAsInput
    ensures !s.MakeNewRoot? ==> r.makeNewRoot == f.makeNewRoot
    ensures !s.SubBatch? ==> r.subBatchFile == f.subBatchFile
    ensures !(s.Verbose? || s.Foreach? || s.End?) ==> r.batchVerbose == f.batchVerbose
  {
    match s
    case YamlLibrary(library) => f.(whichCmd := CmdYamlLibrary, yamlLibrary := library)
    case MakeNewRoot(name, _) => f.(whichCmd := CmdMakeNewRoot, makeNewRoot := Some(name))
    case SubBatch(path) => f.(whichCmd := CmdSubBatch, subBatchFile := Some(path))
    case Foreach => f.(whichCmd := CmdForeach, batchVerbose := false)
    case End => f.(whichCmd := CmdEnd, batchVerbose := false)
    case SaveTo(reference) => f.(whichCmd := CmdSaveTo, saveTo := Some(reference))
    case UseAsInput(reference) => f.(whichCmd := CmdUseAsInput, useAsInput := Some(reference))
    case Verbose(on) => f.(whichCmd := CmdVerbose, batchVerbose := on)
    case PrintDash => f.(whichCmd := CmdPrintDash)
    case DebugDump => f.(whichCmd := CmdDebugDump)
    case _ => f
  }

  /** The per-line fields once a line has been reset and identified. */
  function FlagsOf(s: Statement): Flags {
    Identify(ResetFlags, s)
  }

  /**
   * What identifyLine does to the quote style, which is never reset: a
   * makeNewRoot line with a quote flag sets it, every other line keeps it.
   */
  function NextQuote(q: QuoteStyle, s: Statement): (r: QuoteStyle)
    ensures r == q || (s.MakeNewRoot? && s.quoteFlag == Some(r))
    ensures !SetsQuote(s) ==> r == q
  {
    if s.MakeNewRoot? && s.quoteFlag.Some? then s.quoteFlag.value else q
  }

  /** The quote style after identifying the statements ks in order, from UNDEFINED. */
  function QuoteAfter(ks: seq<Statement>): QuoteStyle {
    if ks == [] then Undefined else NextQuote(QuoteAfter(ks[..|ks| - 1]), ks[|ks| - 1])
  }

  /** Whether a statement is a makeNewRoot line that carries a quote flag. */
  predicate SetsQuote(s: Statement) {
    s.MakeNewRoot? && s.quoteFlag.Some?
  }

  class BatchFileGrammar {
    const lex: Lexicon
    const lines: seq<string>
    /**
     * The recognition identifyLine performs, `Classify` over this grammar's
     * lexicon (see the constructor); the cursor's reasoning does not depend on
     * how a line is recognised.
     */
    const classify: string -> Statement
    /** The statement of every line. */
    const kinds: seq<Statement>
    var currentLineNum: nat

    var whichCmd: CmdType
    var yamlLibrary: string
    var saveTo: Option<string>
    var useAsInput: Option<string>
    var makeNewRoot: Option<string>
    var subBatchFile: Option<string>
    var batchVerbose: bool
    var quoteType: QuoteStyle

    /** The per-line fields, together. */
    function Fields(): Flags
      reads this
    {
      Flags(whichCmd, yamlLibrary, saveTo, useAsInput, makeNewRoot, subBatchFile, batchVerbose)
    }

    /** The statement of the current line; `Any` before the first line. */
    function CurrentStatement(): (s: Statement)
      reads this
      requires currentLineNum <= |kinds|
      ensures kinds == KindsOf(classify, lines) && currentLineNum >= 1 ==> s == classify(lines[currentLineNum - 1])
    {
      if currentLineNum == 0 then Any else kinds[currentLineNum - 1]
    }

    /**
     * The fields describe the current line, and the quote style is the one
     * left by the makeNewRoot lines identified so far.
     */
    ghost predicate Valid()
      reads this
    {
      (forall line :: IsGrammarStatement(classify(line))) &&
      kinds == KindsOf(classify, lines) &&
      currentLineNum <= |lines| &&
      Fields() == FlagsOf(CurrentStatement()) &&
      quoteType == QuoteAfter(kinds[..currentLineNum])
    }

    constructor(lex: Lexicon, lines: seq<string>)
      ensures Valid() && this.lex == lex && this.lines == lines && currentLineNum == 0
      ensures forall line :: classify(line) == Classify(lex, line)
      ensures quoteType == Undefined
    {
      this.lex := lex;
      this.lines := lines;
      this.classify := line => Classify(lex, line);
      this.kinds := KindsOf(line => Classify(lex, line), lines);
      currentLineNum := 0;
      whichCmd := CmdAny;
      yamlLibrary := DefaultLibrary;
      saveTo := None;
      useAsInput := None;
      makeNewRoot := None;
      subBatchFile := None;
      batchVerbose := false;
      quoteType := Undefined;
    }

    /** resetFlagsForEachLine: every per-line field back to its default; the quote style stays. */
    method ResetFlagsForEachLine()
      modifies this
      ensures Fields() == ResetFlags
      ensures quoteType == old(quoteType) && currentLineNum == old(currentLineNum)
    {
      whichCmd := CmdAny;
      yamlLibrary := DefaultLibrary;
      saveTo := None;
      useAsInput := None;
      makeNewRoot := None;
      subBatchFile := None;
      batchVerbose := false;
    }

    /** identifyLine: classify the current line and record what it is. */
    method IdentifyLine()
      requires kinds == KindsOf(classify, lines) && 1 <= currentLineNum <= |lines|
      modifies this
      ensures currentLineNum == old(currentLineNum)
      ensures Fields() == Identify(old(Fields()), kinds[currentLineNum - 1])
      ensures quoteType == NextQuote(old(quoteType), kinds[currentLineNum - 1])
    {
      var s := classify(lines[currentLineNum - 1]);
      assert s == kinds[currentLineNum - 1];
      match s
      case YamlLibrary(library) =>
        yamlLibrary := library;
        whichCmd := CmdYamlLibrary;
      case MakeNewRoot(name, flag) =>
        makeNewRoot := Some(name);
        if flag.Some? {
          quoteType := flag.value;
        }
        whichCmd := CmdMakeNewRoot;
      case SubBatch(path) =>
        subBatchFile := Some(path);
        whichCmd := CmdSubBatch;
      case Foreach =>
        whichCmd := CmdForeach;
        batchVerbose := false;
      case End =>
        whichCmd := CmdEnd;
        batchVerbose := false;
      case SaveTo(reference) =>
        saveTo := Some(reference);
        whichCmd := CmdSaveTo;
      case UseAsInput(reference) =>
        useAsInput := Some(reference);
        whichCmd := CmdUseAsInput;
      case Verbose(on) =>
        batchVerbose := on;
        whichCmd := CmdVerbose;
      case PrintDash =>
        whichCmd := CmdPrintDash;
      case DebugDump =>
        whichCmd := CmdDebugDump;
      case _ =>
    }

    /** Whether a further line can be read. */
    predicate HasNextLine()
      reads this
    {
      currentLineNum < |lines|
    }

    /** The superclass's skipLine: move to the next line without identifying it. */
    method SkipLine()
      requires currentLineNum < |lines|
      modifies this
      ensures currentLineNum == old(currentLineNum) + 1
      ensures Fields() == ResetFlags && quoteType == old(quoteType)
    {
      currentLineNum := currentLineNum + 1;
      ResetFlagsForEachLine();
    }

    /** nextLine: move to the next line and identify it; the line is returned. */
    method NextLine() returns (line: string)
      requires Valid() && HasNextLine()
      modifies this
      ensures Valid() && currentLineNum == old(currentLineNum) + 1
      ensures line == lines[currentLineNum - 1]
    {
      SkipLine();
      IdentifyLine();
      QuoteAfterStep(kinds, currentLineNum - 1);
      line := lines[currentLineNum - 1];
    }

    /** getSaveTo: the saveTo argument, only on a saveTo line. */
    function GetSaveTo(): (r: Option<string>)
      reads this
      requires Valid()
      ensures r.Some? <==> CurrentStatement().SaveTo?
      ensures r.Some? ==> r.value == CurrentStatement().reference
    {
      if whichCmd == CmdSaveTo then saveTo else None
    }

    /** getUseAsInput: the useAsInput argument, only on a useAsInput line. */
    function GetUseAsInput(): (r: Option<string>)
      reads this
      requires Valid()
      ensures r.Some? <==> CurrentStatement().UseAsInput?
      ensures r.Some? ==> r.value == CurrentStatement().reference
    {
      if whichCmd == CmdUseAsInput then useAsInput else None
    }

    /** getMakeNewRoot: the new root's name, only on a makeNewRoot line. */
    function GetMakeNewRoot(): (r: Option<string>)
      reads this
      requires Valid()
      ensures r.Some? <==> CurrentStatement().MakeNewRoot?
      ensures r.Some? ==> r.value == CurrentStatement().name
    {
      if whichCmd == CmdMakeNewRoot then makeNewRoot else None
    }

    /** getSubBatchFile: the sub-script's name, only on a batch line. */
    function GetSubBatchFile(): (r: Option<string>)
      reads this
      requires Valid()
      ensures r.Some? <==> CurrentStatement().SubBatch?
      ensures r.Some? ==> r.value == CurrentStatement().path
    {
      if whichCmd == CmdSubBatch then subBatchFile else None
    }

    /** getYAMLLibrary: the library a useYAMLLibrary line names, the default otherwise. */
    function GetYamlLibrary(): (r: string)
      reads this
      requires Valid()
      ensures CurrentStatement().YamlLibrary? ==> r == CurrentStatement().library
      ensures !CurrentStatement().YamlLibrary? ==> r == DefaultLibrary
    {
      yamlLibrary
    }

    /** getBatchVerbose: true exactly on a `verbose on` line. */
    function GetBatchVerbose(): (r: bool)
      reads this
      requires Valid()
      ensures r <==> CurrentStatement() == Verbose(true)
    {
      batchVerbose
    }

    /** getQuoteType: the flag of the last makeNewRoot line read that had one. */
    function GetQuoteType(): (r: QuoteStyle)
      reads this
      requires Valid()
      ensures r == QuoteAfter(kinds[..currentLineNum])
    {
      quoteType
    }

    /** getCmdType. */
    function GetCmdType(): (r: CmdType)
      reads this
      requires Valid()
      ensures r == CmdOf(CurrentStatement())
    {
      whichCmd
    }

    /** isForEachLine: true exactly on a `foreach` line. */
    predicate IsForEachLine()
      reads this
      requires Valid()
      ensures IsForEachLine() <==> CurrentStatement() == Foreach
    {
      whichCmd == CmdForeach
    }

    /** isEndLine: true exactly on an `end` line. */
    predicate IsEndLine()
      reads this
      requires Valid()
      ensures IsEndLine() <==> CurrentStatement() == End
    {
      whichCmd == CmdEnd
    }

    /**
     * getCommand: on a line no rule recognised, its first whitespace-delimited
     * token; None on a recognised line, before the first line, and on a line
     * of whitespace only.
     */
    function GetCommand(): (r: Option<string>)
      reads this
      requires Valid()
      ensures r.Some? <==>
        CurrentStatement() == Any && currentLineNum >= 1 && !AllSpace(lines[currentLineNum - 1])
      ensures CurrentStatement() == Any && currentLineNum >= 1 ==> r == FirstToken(lines[currentLineNum - 1])
      ensures r.Some? ==>
        var t := TrimStart(lines[currentLineNum - 1]);
        IsWord(r.value) && |r.value| <= |t| && t[..|r.value|] == r.value &&
        (|r.value| == |t| || IsSpace(t[|r.value|]))
    {
      if whichCmd != CmdAny || currentLineNum == 0 then None
      else FirstToken(lines[currentLineNum - 1])
    }

    /**
     * skip2MatchingEnd: from the current line, skip (identifying each line)
     * to the `end` that matches; when the lines run out first the error
     * names the line the skip started from.
     */
    method Skip2MatchingEnd() returns (err: Option<nat>)
      requires Valid() && currentLineNum >= 1
      modifies this
      ensures Valid() && old(currentLineNum) <= currentLineNum
      ensures err.None? ==> MatchingEnd(kinds, old(currentLineNum), 0) == Some(currentLineNum)
      ensures err.Some? ==> (MatchingEnd(kinds, old(currentLineNum), 0).None? &&
        err.value == old(currentLineNum) && currentLineNum == |lines|)
    {
      var bookmark := currentLineNum;
      var found := false;
      var level := 0;
      while currentLineNum < |lines|
        invariant Valid() && bookmark <= currentLineNum <= |lines| && level >= 0
        invariant MatchingEnd(kinds, currentLineNum, level) == MatchingEnd(kinds, bookmark, 0)
        decreases |lines| - currentLineNum
      {
        ghost var pos, before := currentLineNum, level;
        SkipLine();
        IdentifyLine();
        QuoteAfterStep(kinds, pos);
        assert CurrentStatement() == kinds[pos];
        if IsForEachLine() {
          level := level + 1;
        }
        if IsEndLine() {
          level := level - 1;
          if level < 0 {
            assert MatchingEnd(kinds, pos, before) == Some(currentLineNum);
            found := true;
            break;
          }
        }
        assert MatchingEnd(kinds, pos, before) == MatchingEnd(kinds, currentLineNum, level);
      }
      if !found {
        err := Some(bookmark);
      } else {
        err := None;
      }
    }
  }

  /**
   * The quote style after one more statement.  A proof helper that unfolds
   * QuoteAfter by one statement.
   */
  lemma QuoteAfterStep(ks: seq<Statement>, k: nat)
    requires k < |ks|
    ensures QuoteAfter(ks[..k + 1]) == NextQuote(QuoteAfter(ks[..k]), ks[k])
  {
    assert ks[..k + 1][..k] == ks[..k];
  }

  /**
   * quoteType carries over: after a run of lines it is the flag of the last
   * makeNewRoot line that had one ...
   */
  lemma {:induction false} QuoteFromLastSetter(ks: seq<Statement>, k: nat)
    requires k < |ks| && SetsQuote(ks[k])
    requires forall j :: k < j < |ks| ==> !SetsQuote(ks[j])
    ensures QuoteAfter(ks) == ks[k].quoteFlag.value
    decreases |ks|
  {
    if k < |ks| - 1 {
      var init := ks[..|ks| - 1];
      assert init[k] == ks[k];
      assert forall j :: k < j < |init| ==> init[j] == ks[j];
      QuoteFromLastSetter(init, k);
    }
  }

  /** ... and UNDEFINED when no line had one. */
  lemma {:induction false} QuoteWithoutSetter(ks: seq<Statement>)
    requires forall i :: 0 <= i < |ks| ==> !SetsQuote(ks[i])
    ensures QuoteAfter(ks) == Undefined
  {
    if ks != [] {
      var init := ks[..|ks| - 1];
      assert forall i :: 0 <= i < |init| ==> init[i] == ks[i];
      QuoteWithoutSetter(init);
    }
  }
}

/**
 * The meaning of a batch script, as BatchCmdProcessor.processBatch and go give
 * it: each statement maps the current document and the processor's state to
 * the next ones, `end` returns early, and go turns every failure into the
 * empty document.
 *
 * Everything the processor calls but which is not part of this model (macro
 * evaluation, the foreach body, property files, argument tokenising and
 * parsing, the command back ends, the batch files that can be opened) is a
 * field of `Env`.
 */
module Interpreter {
  import opened Wrappers
  import opened Text
  import opened Classifier
  import opened Brackets
  import opened Documents

  /** The two command families onAnyCmd can hand a line to. */
  datatype Family = NodeImpl | AwsSdk

  /**
   * What the processor consults and never changes: its quote style (a
   * constructor argument) and the code outside this model.
   */
  datatype Env = Env(
    quoteType: QuoteStyle,
    lex: Lexicon,
    // identifyLine's recognition; `Recognises` ties it to Classify over lex
    classify: string -> Statement,
    // determineCmdType's further kinds, consulted on lines the grammar leaves as Any
    extension: string -> Statement,
    // Macros.eval; None when it throws
    eval: (string, Scopes) -> Option<string>,
    // StringUtils.removeBeginEndQuotes
    unquote: string -> string,
    // Properties.load from the named file; None when the file cannot be read
    loadProps: string -> Option<map<string, string>>,
    // processFOREACHCmd_Step1 on the lines, the 1-based foreach line and the input
    foreach: (seq<string>, nat, Doc) -> Option<Doc>,
    // convStr2Array; None when it throws
    tokenize: (string, Scopes) -> Option<seq<string>>,
    // the family's CmdLineArgs.create: the quote style the arguments carry, None when it throws
    parseArgs: (Family, seq<string>) -> Option<QuoteStyle>,
    // CmdInvoker.processCommand with the arguments, quote style, YAML library and input
    backend: (Family, seq<string>, QuoteStyle, Option<string>, Doc) -> Option<Doc>,
    // the batch files that can be opened, by name
    scripts: map<string, seq<string>>)

  /** The recognition in `env` is the grammar's. */
  ghost predicate Recognises(env: Env) {
    forall line {:trigger Classify(env.lex, line)} :: env.classify(line) == Classify(env.lex, line)
  }

  /** The processor's fields that statements change. */
  datatype State = State(verbose: bool, runcount: nat, scopes: Scopes, mnc: Option<MemoryAndContext>)

  /** Why a statement threw a BatchFileException (or another Exception). */
  datatype BatchError =
    | Unterminated(startLine: nat)
    | MissingLabel
    | NoMemory(name: string)
    | NothingStored(reference: string)
    | WrongType(reference: string, typeName: string)
    | MacroFailure
    | NoCommand
    | UnknownCommand(keyword: string)
    | NoContext
    | ArgumentsFailure
    | BackendFailure
    | ForeachFailure
    | PropertiesFileMissing(file: string)
    | NegativeSleep(seconds: int)

  /** What ends the program without an Exception: System.exit, or an Error. */
  datatype Halt = ExitStatus(code: int) | StackExhausted

  datatype Outcome = Done(doc: Doc) | Failed(error: BatchError) | Halted(halt: Halt)

  /** How a run ends, and the state it leaves. */
  datatype Run = Run(outcome: Outcome, st: State)

  /** One statement's result: carry on from `pos` with `doc`, or stop. */
  datatype StepResult = Next(doc: Doc, st: State, pos: nat) | Stop(run: Run)

  /** The kind determineCmdType settles on: the grammar's, else the extension's. */
  function Determine(env: Env, recognised: Statement, line: string): (s: Statement)
    ensures recognised != Any ==> s == recognised
    ensures recognised == Any ==> s == Any || !IsGrammarStatement(s)
  {
    if recognised != Any then recognised
    else
      var x := env.extension(line);
      if IsGrammarStatement(x) then Any else x
  }

  /** The kind of a line. */
  function Kind(env: Env, line: string): Statement {
    Determine(env, env.classify(line), line)
  }

  /** The kinds after which runcount is not incremented. */
  predicate Uncounted(s: Statement) {
    s.SetProperty? || s.YamlLibrary? || s.Verbose? || s.Sleep?
  }

  function Bump(st: State): (r: State)
    ensures r.runcount == st.runcount + 1
  {
    st.(runcount := st.runcount + 1)
  }

  /** The Context, when both the MemoryAndContext and its context are present. */
  function ContextOf(st: State): Option<Context> {
    if st.mnc.Some? then st.mnc.value.context else None
  }

  function WithContext(st: State, ctx: Context): (r: State)
    ensures ContextOf(r) == Some(ctx)
  {
    st.(mnc := Some(MemoryAndContext(Some(ctx))))
  }

  /** The labelled memory, when there is one. */
  function MemoryOf(st: State): Option<map<string, Stored>> {
    if ContextOf(st).Some? then Some(ContextOf(st).value.memory) else None
  }

  /**
   * processSaveToLine: the input is stored under the evaluated label and is
   * also the new current document; a missing label or missing memory fails.
   */
  function SaveToRun(env: Env, saveTo: Option<string>, st: State, input: Doc): (r: Run)
    ensures r.st.runcount == st.runcount && r.st.scopes == st.scopes && r.st.verbose == st.verbose
    ensures r.outcome.Failed? || r.outcome == Done(input)
    ensures r.outcome.Failed? ==> r.st == st
    ensures r.outcome.Done? <==>
      saveTo.Some? && env.eval(saveTo.value, st.scopes).Some? && MemoryOf(st).Some?
    ensures r.outcome.Done? ==>
      var name := env.eval(saveTo.value, st.scopes).value;
      MemoryOf(r.st) == Some(MemoryOf(st).value[name := Document(input)]) &&
      ContextOf(r.st).value.library == ContextOf(st).value.library
  {
    if saveTo.None? then Run(Failed(MissingLabel), st)
    else match env.eval(saveTo.value, st.scopes)
      case None => Run(Failed(MacroFailure), st)
      case Some(name) =>
        match ContextOf(st)
        case None => Run(Failed(NoMemory(name)), st)
        case Some(ctx) =>
          Run(Done(input), WithContext(st, ctx.(memory := ctx.memory[name := Document(input)])))
  }

  /**
   * processUseAsInputLine: the document stored under the evaluated, unquoted
   * reference; failing when there is no memory, nothing (or null) under the
   * label, or something that is not a document.
   */
  function UseAsInputRun(env: Env, reference: string, st: State): (r: Run)
    ensures r.st == st
    ensures r.outcome.Done? <==>
      env.eval(reference, st.scopes).Some? && ContextOf(st).Some? &&
      var name := env.unquote(env.eval(reference, st.scopes).value);
      name in ContextOf(st).value.memory &&
      ContextOf(st).value.memory[name].Document? && ContextOf(st).value.memory[name].doc != Null
    ensures r.outcome.Done? ==>
      ContextOf(st).value.memory[env.unquote(env.eval(reference, st.scopes).value)] == Document(r.outcome.doc)
  {
    match env.eval(reference, st.scopes)
    case None => Run(Failed(MacroFailure), st)
    case Some(e) =>
      var name := env.unquote(e);
      match ContextOf(st)
      case None => Run(Failed(NoMemory(name)), st)
      case Some(ctx) =>
        if name !in ctx.memory || ctx.memory[name] == Document(Null) then
          Run(Failed(NothingStored(reference)), st)
        else match ctx.memory[name]
          case Document(d) => Run(Done(d), st)
          case Foreign(t) => Run(Failed(WrongType(reference, t)), st)
  }

  /** onPropertyLineCmd: loads the file into a scope named by the key; the document passes through. */
  function PropertiesRun(env: Env, key: string, file: string, st: State, input: Doc): (r: Run)
    ensures r.st == st.(scopes := r.st.scopes) && r.st.scopes.globals == st.scopes.globals
    ensures r.outcome.Done? ==> r.outcome.doc == input
  {
    match (env.eval(key, st.scopes), env.eval(file, st.scopes))
    case (Some(k), Some(f)) =>
      (match env.loadProps(f)
       case None => Run(Failed(PropertiesFileMissing(f)), st)
       case Some(props) => Run(Done(input), st.(scopes := st.scopes.(files := st.scopes.files[k := props]))))
    case _ => Run(Failed(MacroFailure), st)
  }

  /**
   * Whether onPrintCmd looks the evaluated text up in memory: always, except
   * when the trimmed text ends in the two characters `\n` and what is left
   * once they are chopped off is blank.
   */
  predicate LooksUpMemory(text: string): (b: bool)
    ensures !b ==> |JavaTrim(text)| >= 2 && JavaTrim(text)[|JavaTrim(text)| - 2..] == "\\n"
    ensures text == "\\n" ==> !b
  {
    var t := JavaTrim(text);
    !(|t| >= 2 && t[|t| - 2..] == "\\n" && JavaTrim(text[..|text| - 2]) == [])
  }

  /**
   * onPrintCmd, for its effect on the document (none) and on failure: `-`
   * prints the input; any other expression is evaluated, and looking it up in
   * memory dereferences the MemoryAndContext.
   */
  function PrintRun(env: Env, expression: string, st: State, input: Doc): (r: Run)
    ensures r.st == st
    ensures r.outcome.Done? ==> r.outcome.doc == input
  {
    if expression == "-" then Run(Done(input), st)
    else match env.eval(expression, st.scopes)
      case None => Run(Failed(MacroFailure), st)
      case Some(text) =>
        if LooksUpMemory(text) && st.mnc.None? then Run(Failed(NoContext), st)
        else Run(Done(input), st)
  }

  /** onAnyCmd's choice of command family by the (trimmed) keyword. */
  function SelectFamily(keyword: string): (r: Option<Family>)
    ensures r.Some? <==> keyword == "yaml" || keyword == "aws.sdk"
    ensures r == Some(NodeImpl) <==> keyword == "yaml"
  {
    if keyword == "yaml" then Some(NodeImpl)
    else if keyword == "aws.sdk" then Some(AwsSdk)
    else None
  }

  /** The back end's own quote style, or the processor's when it has none. */
  function InheritQuote(own: QuoteStyle, processor: QuoteStyle): (r: QuoteStyle)
    ensures r == own || r == processor
    ensures own != Undefined ==> r == own
    ensures r == Undefined <==> own == Undefined && processor == Undefined
  {
    if own == Undefined then processor else own
  }

  /** What the back end receives: the tokens of the line after the keyword. */
  function ArgumentVector(tokens: seq<string>): (r: seq<string>)
    requires tokens != []
    ensures tokens == [tokens[0]] + r
  {
    tokens[1..]
  }

  /**
   * onAnyCmd: the keyword picks the family; the line, with `-i - -o -`
   * appended, is tokenised and its first token dropped; the back end runs
   * with the inherited quote style and, for `yaml`, the context's library.
   */
  function AnyRun(env: Env, command: Option<string>, line: string, st: State, input: Doc): (r: Run)
    ensures r.st == st
  {
    match command
    case None => Run(Failed(NoCommand), st)
    case Some(cmd) =>
      match env.eval(cmd, st.scopes)
      case None => Run(Failed(MacroFailure), st)
      case Some(e) =>
        var keyword := JavaTrim(e);
        match SelectFamily(keyword)
        case None => Run(Failed(UnknownCommand(keyword)), st)
        case Some(family) =>
          match ContextOf(st)
          case None => Run(Failed(NoContext), st)
          case Some(ctx) =>
            match env.tokenize(line + " -i - -o -", st.scopes)
            case None => Run(Failed(ArgumentsFailure), st)
            case Some(tokens) =>
              if tokens == [] then Run(Failed(ArgumentsFailure), st)
              else
                var argv := ArgumentVector(tokens);
                match env.parseArgs(family, argv)
                case None => Run(Failed(BackendFailure), st)
                case Some(own) =>
                  var library := if family == NodeImpl then Some(ctx.library) else None;
                  match env.backend(family, argv, InheritQuote(own, env.quoteType), library, input)
                  case None => Run(Failed(BackendFailure), st)
                  case Some(out) => Run(Done(out), st)
  }

  /** A statement's run continues at `cursor`, with runcount incremented when `counted`. */
  function After(r: Run, cursor: nat, counted: bool): (s: StepResult)
    ensures s.Next? ==> s.pos == cursor && s.st.runcount >= r.st.runcount
  {
    match r.outcome
    case Done(d) => Next(d, if counted then Bump(r.st) else r.st, cursor)
    case _ => Stop(r)
  }

  /**
   * What a statement that neither moves the cursor nor leaves the loop does:
   * the output document (or the failure) and the state, before runcount.
   */
  function Effect(env: Env, s: Statement, line: string, st: State, input: Doc): (r: Run)
    requires !(s.SubBatch? || s.Foreach? || s.End? || s.DebugDump?)
    ensures r.st.runcount == st.runcount
  {
    match s
    case MakeNewRoot(name, _) =>
      (match env.eval(name, st.scopes)
       case None => Run(Failed(MacroFailure), st)
       case Some(n) => Run(Done(SingleEntry(n, "")), st))
    case Properties(key, file) => PropertiesRun(env, key, file, st, input)
    case SaveTo(reference) => SaveToRun(env, Some(reference), st, input)
    case UseAsInput(reference) => UseAsInputRun(env, reference, st)
    case SetProperty(key, value) =>
      (match (env.eval(key, st.scopes), env.eval(value, st.scopes))
       case (Some(k), Some(v)) =>
         Run(Done(EmptyDoc), st.(scopes := st.scopes.(globals := st.scopes.globals[k := v])))
       case _ => Run(Failed(MacroFailure), st))
    case Print(expression) => PrintRun(env, expression, st, input)
    case PrintDash => PrintRun(env, "-", st, input)
    case YamlLibrary(library) =>
      (match ContextOf(st)
       case None => Run(Failed(NoContext), st)
       case Some(ctx) => Run(Done(input), WithContext(st, ctx.(library := library))))
    // The switch copies the line's flag into verbose, but the bottom of the
    // pass copies the same flag again before anything but console output
    // reads it; RunFrom does the latter, so this case leaves the state alone.
    case Verbose(_) => Run(Done(input), st)
    case Sleep(seconds) =>
      if seconds < 0 then Run(Failed(NegativeSleep(seconds)), st) else Run(Done(input), st)
    case Any => AnyRun(env, FirstToken(line), line, st, input)
  }

  /**
   * One pass of processBatch's loop body on line `pos` (0-based; the cursor
   * is then `pos + 1`), before the verbose flag is refreshed.
   */
  function Step(env: Env, fuel: nat, lines: seq<string>, pos: nat, st: State, input: Doc): (r: StepResult)
    requires pos < |lines|
    ensures r.Next? ==> pos < r.pos <= |lines| && r.st.runcount >= st.runcount
    ensures r.Stop? ==> r.run.st.runcount >= st.runcount
    decreases fuel, 0, |lines| - pos, 0
  {
    var cursor := pos + 1;
    var s := Kind(env, lines[pos]);
    if s.SubBatch? then
      match env.eval(s.path, st.scopes)
      case None => Stop(Run(Failed(MacroFailure), st))
      case Some(p) =>
        if fuel == 0 then Stop(Run(Halted(StackExhausted), st))
        else After(GoSpec(env, fuel - 1, st, Some(p), input), cursor, true)
    else if s.Foreach? then
      match env.foreach(lines, cursor, input)
      case None => Stop(Run(Failed(ForeachFailure), st))
      case Some(out) =>
        match MatchingEnd(KindsOf(env.classify, lines), cursor, 0)
        case None => Stop(Run(Failed(Unterminated(cursor)), st))
        case Some(m) => Next(out, Bump(st), m)
    else if s.End? then Stop(Run(Done(input), Bump(st)))
    else if s.DebugDump? then Stop(Run(Halted(ExitStatus(99)), st))
    else After(Effect(env, s, lines[pos], st, input), cursor, !Uncounted(s))
  }

  /** The verbose flag processBatch reads back after a statement: is the current line `verbose on`? */
  function VerboseAt(env: Env, lines: seq<string>, cursor: nat): bool
    requires 1 <= cursor <= |lines|
  {
    env.classify(lines[cursor - 1]) == Verbose(true)
  }

  /**
   * processBatch from line `pos` on: each statement's output is the next
   * one's input, and when the lines run out the last output is returned
   * (`temp`, which is null before any line is read).
   */
  function RunFrom(env: Env, fuel: nat, lines: seq<string>, pos: nat, st: State, input: Doc, temp: Doc): (r: Run)
    requires pos <= |lines|
    ensures r.st.runcount >= st.runcount
    decreases fuel, 0, |lines| - pos, 1
  {
    if pos == |lines| then Run(Done(temp), st)
    else match Step(env, fuel, lines, pos, st, input)
      case Stop(r) => r
      case Next(out, st', pos') =>
        RunFrom(env, fuel, lines, pos', st'.(verbose := VerboseAt(env, lines, pos')), out, out)
  }

  /**
   * How processBatch's loop goes on after a statement that did not leave it.
   * A proof helper that unfolds RunFrom by one pass.
   */
  lemma RunFromNext(env: Env, fuel: nat, lines: seq<string>, pos: nat, st: State, input: Doc, temp: Doc,
                    out: Doc, st': State, pos': nat)
    requires pos < |lines| && Step(env, fuel, lines, pos, st, input) == Next(out, st', pos')
    ensures pos' <= |lines|
    ensures RunFrom(env, fuel, lines, pos, st, input, temp) ==
      RunFrom(env, fuel, lines, pos', st'.(verbose := VerboseAt(env, lines, pos')), out, out)
  {
  }

  /**
   * How processBatch's loop ends on a statement that leaves it.  A proof
   * helper that unfolds RunFrom by one pass.
   */
  lemma RunFromStop(env: Env, fuel: nat, lines: seq<string>, pos: nat, st: State, input: Doc, temp: Doc, r: Run)
    requires pos < |lines| && Step(env, fuel, lines, pos, st, input) == Stop(r)
    ensures RunFrom(env, fuel, lines, pos, st, input, temp) == r
  {
  }

  /**
   * go: a missing name or node, or a file that cannot be opened, gives the
   * empty document; so does every failure while the script runs.  Only an
   * exit or an Error gets through.  `fuel` bounds the depth of `batch` calls.
   */
  function GoSpec(env: Env, fuel: nat, st: State, name: Option<string>, node: Doc): (r: Run)
    ensures !r.outcome.Failed?
    ensures r.st.runcount >= st.runcount
    ensures name.None? || node == Null || name.value !in env.scripts ==> r == Run(Done(EmptyDoc), st)
    decreases fuel, 1, 0, 0
  {
    if name.None? || node == Null || name.value !in env.scripts then Run(Done(EmptyDoc), st)
    else
      var r := RunFrom(env, fuel, env.scripts[name.value], 0, st, node, Null);
      if r.outcome.Failed? then Run(Done(EmptyDoc), r.st) else r
  }
}

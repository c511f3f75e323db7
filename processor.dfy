/**
 * BatchCmdProcessor: the interpreter object.  Its fields are the ones the
 * statements change (verbose, runcount, the property scopes, the
 * MemoryAndContext); each method is proved to do what the functions of
 * `Interpreter` say, so the properties proved about those functions are
 * properties of the processor.
 */
module Processor {
  import opened Wrappers
  import opened Text
  import opened Classifier
  import opened Brackets
  import opened Grammar
  import opened Documents
  import opened Interpreter

  /** How a statement leaves processBatch's loop body: carry on with a document, or return. */
  datatype Flow = Continue(doc: Doc) | Return(outcome: Outcome)

  /** A statement's flow, the state and the cursor after it, as a StepResult. */
  function Resume(flow: Flow, st: State, pos: nat): StepResult {
    match flow
    case Continue(d) => Next(d, st, pos)
    case Return(o) => Stop(Run(o, st))
  }

  /** How processBatch's loop goes on after one pass, given the pass's flow. */
  lemma AfterPass(env: Env, fuel: nat, lines: seq<string>, pos: nat, st: State, input: Doc, temp: Doc,
                  flow: Flow, st': State, cursor: nat)
    requires pos < |lines| && Resume(flow, st', cursor) == Step(env, fuel, lines, pos, st, input)
    ensures flow.Return? ==> Run(flow.outcome, st') == RunFrom(env, fuel, lines, pos, st, input, temp)
    ensures flow.Continue? ==> 1 <= cursor <= |lines|
    ensures flow.Continue? ==>
      RunFrom(env, fuel, lines, cursor, st'.(verbose := VerboseAt(env, lines, cursor)), flow.doc, flow.doc) ==
      RunFrom(env, fuel, lines, pos, st, input, temp)
  {
    if flow.Return? {
      RunFromStop(env, fuel, lines, pos, st, input, temp, Run(flow.outcome, st'));
    } else {
      RunFromNext(env, fuel, lines, pos, st, input, temp, flow.doc, st', cursor);
    }
  }

  /** What one pass does on a foreach line: run the body, then jump past the matching end. */
  lemma ForeachStep(env: Env, fuel: nat, lines: seq<string>, pos: nat, st: State, input: Doc)
    requires pos < |lines| && Kind(env, lines[pos]) == Foreach
    ensures env.foreach(lines, pos + 1, input).None? ==>
      Step(env, fuel, lines, pos, st, input) == Stop(Run(Failed(ForeachFailure), st))
    ensures env.foreach(lines, pos + 1, input).Some? && MatchingEnd(KindsOf(env.classify, lines), pos + 1, 0).None? ==>
      Step(env, fuel, lines, pos, st, input) == Stop(Run(Failed(Unterminated(pos + 1)), st))
    ensures env.foreach(lines, pos + 1, input).Some? && MatchingEnd(KindsOf(env.classify, lines), pos + 1, 0).Some? ==>
      Step(env, fuel, lines, pos, st, input) ==
      Next(env.foreach(lines, pos + 1, input).value, Bump(st), MatchingEnd(KindsOf(env.classify, lines), pos + 1, 0).value)
  {
  }

  /** The grammar recognises lines as the interpreter's environment does. */
  ghost predicate Agrees(env: Env, g: BatchFileGrammar) {
    forall line :: g.classify(line) == env.classify(line)
  }

  lemma SameKinds(env: Env, g: BatchFileGrammar)
    requires Agrees(env, g)
    ensures KindsOf(g.classify, g.lines) == KindsOf(env.classify, g.lines)
  {
  }

  class BatchCmdProcessor {
    const env: Env
    var verbose: bool
    var runcount: nat
    var scopes: Scopes
    var mnc: Option<MemoryAndContext>

    /** The fields statements change, together. */
    function Snapshot(): State
      reads this
    {
      State(verbose, runcount, scopes, mnc)
    }

    /** A processor with empty scopes, no MemoryAndContext and nothing run yet. */
    constructor(env: Env, verbose: bool)
      ensures this.env == env && Snapshot() == State(verbose, 0, Scopes(map[], map[]), None)
    {
      this.env := env;
      this.verbose := verbose;
      runcount := 0;
      scopes := Scopes(map[], map[]);
      mnc := None;
    }

    /** setMemoryAndContext. */
    method SetMemoryAndContext(m: Option<MemoryAndContext>)
      modifies this
      ensures Snapshot() == old(Snapshot()).(mnc := m)
    {
      mnc := m;
    }

    /**
     * go: run the named script on `node` with a fresh grammar; any failure
     * gives the empty document.
     */
    method Go(name: Option<string>, node: Doc, fuel: nat) returns (r: Outcome)
      requires Recognises(env)
      modifies this
      ensures Run(r, Snapshot()) == GoSpec(env, fuel, old(Snapshot()), name, node)
      decreases fuel, 4
    {
      if name.None? || node == Null {
        return Done(EmptyDoc);
      }
      if name.value !in env.scripts {
        return Done(EmptyDoc);
      }
      var g := new BatchFileGrammar(env.lex, env.scripts[name.value]);
      r := ProcessBatch(g, node, fuel);
      if r.Failed? {
        r := Done(EmptyDoc);
      }
    }

    /**
     * processBatch: read the remaining lines one by one, threading the
     * document through their statements.
     */
    method ProcessBatch(g: BatchFileGrammar, input: Doc, fuel: nat) returns (r: Outcome)
      requires g.Valid() && Agrees(env, g) && Recognises(env)
      modifies this, g
      ensures Run(r, Snapshot()) == RunFrom(env, fuel, g.lines, old(g.currentLineNum), old(Snapshot()), input, Null)
      decreases fuel, 3
    {
      var current := input;
      var temp := Null;
      while g.HasNextLine()
        invariant g.Valid()
        invariant RunFrom(env, fuel, g.lines, g.currentLineNum, Snapshot(), current, temp) ==
          RunFrom(env, fuel, g.lines, old(g.currentLineNum), old(Snapshot()), input, Null)
        decreases |g.lines| - g.currentLineNum
      {
        var flow := NextStatement(g, current, temp, fuel);
        if flow.Return? {
          return flow.outcome;
        }
        current := flow.doc;
        temp := flow.doc;
      }
      r := Done(temp);
    }

    /**
     * One pass of processBatch's loop: read the next line, execute its
     * statement, and take the verbose level from the grammar.
     */
    method NextStatement(g: BatchFileGrammar, current: Doc, temp: Doc, fuel: nat) returns (flow: Flow)
      requires g.Valid() && Agrees(env, g) && Recognises(env) && g.HasNextLine()
      modifies this, g
      ensures g.Valid() && old(g.currentLineNum) < g.currentLineNum
      ensures flow.Return? ==>
        Run(flow.outcome, Snapshot()) == RunFrom(env, fuel, g.lines, old(g.currentLineNum), old(Snapshot()), current, temp)
      ensures flow.Continue? ==>
        RunFrom(env, fuel, g.lines, g.currentLineNum, Snapshot(), flow.doc, flow.doc) ==
        RunFrom(env, fuel, g.lines, old(g.currentLineNum), old(Snapshot()), current, temp)
      decreases fuel, 2
    {
      ghost var pos, st := g.currentLineNum, Snapshot();
      var line := g.NextLine();
      flow := ExecuteStatement(g, line, current, fuel);
      AfterPass(env, fuel, g.lines, pos, st, current, temp, flow, Snapshot(), g.currentLineNum);
      if flow.Return? {
        return;
      }
      RefreshVerbose(g);
    }

    /** The bottom of processBatch's loop: verbose is read back from the grammar. */
    method RefreshVerbose(g: BatchFileGrammar)
      requires g.Valid() && Agrees(env, g) && 1 <= g.currentLineNum
      modifies this
      ensures Snapshot() == old(Snapshot()).(verbose := VerboseAt(env, g.lines, g.currentLineNum))
    {
      var on := g.GetBatchVerbose();
      assert g.CurrentStatement() == env.classify(g.lines[g.currentLineNum - 1]);
      verbose := on;
    }

    /** The loop body of processBatch for the line just read. */
    method ExecuteStatement(g: BatchFileGrammar, line: string, input: Doc, fuel: nat) returns (flow: Flow)
      requires g.Valid() && Agrees(env, g) && Recognises(env)
      requires 1 <= g.currentLineNum && line == g.lines[g.currentLineNum - 1]
      modifies this, g
      ensures g.Valid() && old(g.currentLineNum) <= g.currentLineNum
      ensures Resume(flow, Snapshot(), g.currentLineNum) ==
        Step(env, fuel, g.lines, old(g.currentLineNum) - 1, old(Snapshot()), input)
      decreases fuel, 1
    {
      var s := Determine(env, g.CurrentStatement(), line);
      assert g.CurrentStatement() == env.classify(line);
      if s.SubBatch? {
        flow := SubBatchLine(g, s.path, input, fuel);
      } else if s.Foreach? {
        flow := ForeachLine(g, input, fuel);
      } else if s.End? || s.DebugDump? {
        flow := LeaveLoop(g, s, input, fuel);
      } else {
        flow := OtherLine(g, s, line, input, fuel);
      }
    }

    /** A `batch` line: run the named script on the input, one level deeper. */
    method SubBatchLine(g: BatchFileGrammar, path: string, input: Doc, fuel: nat) returns (flow: Flow)
      requires g.Valid() && Recognises(env) && 1 <= g.currentLineNum
      requires Kind(env, g.lines[g.currentLineNum - 1]) == SubBatch(path)
      modifies this
      ensures Resume(flow, Snapshot(), g.currentLineNum) ==
        Step(env, fuel, g.lines, g.currentLineNum - 1, old(Snapshot()), input)
      decreases fuel, 0
    {
      var p := env.eval(path, scopes);
      if p.None? {
        return Return(Failed(MacroFailure));
      }
      if fuel == 0 {
        return Return(Halted(StackExhausted));
      }
      var out := Go(p, input, fuel - 1);
      if !out.Done? {
        return Return(out);
      }
      runcount := runcount + 1;
      return Continue(out.doc);
    }

    /** A `foreach` line: the loop's body runs, then the cursor moves past its matching `end`. */
    method ForeachLine(g: BatchFileGrammar, input: Doc, ghost fuel: nat) returns (flow: Flow)
      requires g.Valid() && Agrees(env, g) && 1 <= g.currentLineNum
      requires Kind(env, g.lines[g.currentLineNum - 1]) == Foreach
      modifies this, g
      ensures g.Valid() && old(g.currentLineNum) <= g.currentLineNum
      ensures Resume(flow, Snapshot(), g.currentLineNum) ==
        Step(env, fuel, g.lines, old(g.currentLineNum) - 1, old(Snapshot()), input)
    {
      ForeachStep(env, fuel, g.lines, g.currentLineNum - 1, Snapshot(), input);
      var out := env.foreach(g.lines, g.currentLineNum, input);
      if out.None? {
        return Return(Failed(ForeachFailure));
      }
      SameKinds(env, g);
      assert g.kinds == KindsOf(env.classify, g.lines);
      var err := SkipInnerForeachLoops(g);
      if err.Some? {
        return Return(Failed(Unterminated(err.value)));
      }
      runcount := runcount + 1;
      return Continue(out.value);
    }

    /** `end` returns the input, counted; `debug --dump` has no case and reaches System.exit(99). */
    method LeaveLoop(g: BatchFileGrammar, s: Statement, input: Doc, ghost fuel: nat) returns (flow: Flow)
      requires g.Valid() && 1 <= g.currentLineNum
      requires s == Kind(env, g.lines[g.currentLineNum - 1]) && (s.End? || s.DebugDump?)
      modifies this
      ensures Resume(flow, Snapshot(), g.currentLineNum) ==
        Step(env, fuel, g.lines, g.currentLineNum - 1, old(Snapshot()), input)
    {
      if s.End? {
        runcount := runcount + 1;
        flow := Return(Done(input));
      } else {
        flow := Return(Halted(ExitStatus(99)));
      }
    }

    /** Every other statement: its effect, then runcount counts it unless it is one of the uncounted kinds. */
    method OtherLine(g: BatchFileGrammar, s: Statement, line: string, input: Doc, ghost fuel: nat) returns (flow: Flow)
      requires g.Valid() && 1 <= g.currentLineNum && line == g.lines[g.currentLineNum - 1]
      requires s == Determine(env, g.CurrentStatement(), line) && s == Kind(env, line)
      requires !(s.SubBatch? || s.Foreach? || s.End? || s.DebugDump?)
      modifies this
      ensures Resume(flow, Snapshot(), g.currentLineNum) ==
        Step(env, fuel, g.lines, g.currentLineNum - 1, old(Snapshot()), input)
    {
      var out := Perform(g, s, line, input);
      if !out.Done? {
        return Return(out);
      }
      if !Uncounted(s) {
        runcount := runcount + 1;
      }
      return Continue(out.doc);
    }

    /** The statements that neither move the cursor nor leave the loop. */
    method Perform(g: BatchFileGrammar, s: Statement, line: string, input: Doc) returns (r: Outcome)
      requires g.Valid() && 1 <= g.currentLineNum && line == g.lines[g.currentLineNum - 1]
      requires s == Determine(env, g.CurrentStatement(), line)
      requires !(s.SubBatch? || s.Foreach? || s.End? || s.DebugDump?)
      modifies this
      ensures Run(r, Snapshot()) == Effect(env, s, line, old(Snapshot()), input)
    {
      match s
      case MakeNewRoot(name, _) =>
        var n := env.eval(name, scopes);
        if n.None? {
          return Failed(MacroFailure);
        }
        return Done(SingleEntry(n.value, ""));
      case Properties(key, file) =>
        r := OnPropertyLineCmd(key, file, input);
      case SaveTo(_) =>
        r := ProcessSaveToLine(g.GetSaveTo(), input);
      case UseAsInput(_) =>
        r := ProcessUseAsInputLine(g.GetUseAsInput().value);
      case SetProperty(key, value) =>
        var k := env.eval(key, scopes);
        var v := env.eval(value, scopes);
        if k.None? || v.None? {
          return Failed(MacroFailure);
        }
        scopes := scopes.(globals := scopes.globals[k.value := v.value]);
        return Done(EmptyDoc);
      case Print(expression) =>
        r := OnPrintCmd(expression, input);
      case PrintDash =>
        r := OnPrintCmd("-", input);
      case YamlLibrary(library) =>
        if mnc.None? || mnc.value.context.None? {
          return Failed(NoContext);
        }
        mnc := Some(MemoryAndContext(Some(mnc.value.context.value.(library := library))));
        return Done(input);
      case Verbose(_) =>
        return Done(input);
      case Sleep(seconds) =>
        if seconds < 0 {
          return Failed(NegativeSleep(seconds));
        }
        return Done(input);
      case Any =>
        r := OnAnyCmd(g.GetCommand(), line, input);
    }

    /**
     * skipInnerForeachLoops: from the `foreach` line, move the cursor to the
     * `end` that matches it; when the lines run out first the error names the
     * line the skip started from.
     */
    method SkipInnerForeachLoops(g: BatchFileGrammar) returns (err: Option<nat>)
      requires g.Valid() && g.currentLineNum >= 1
      modifies g
      ensures g.Valid() && old(g.currentLineNum) <= g.currentLineNum
      ensures err.None? ==> MatchingEnd(g.kinds, old(g.currentLineNum), 0) == Some(g.currentLineNum)
      ensures err.Some? ==> (MatchingEnd(g.kinds, old(g.currentLineNum), 0).None? &&
        err.value == old(g.currentLineNum))
    {
      var bookmark := g.currentLineNum;
      var level := 0;
      while g.HasNextLine()
        invariant g.Valid() && bookmark <= g.currentLineNum && level >= 0
        invariant MatchingEnd(g.kinds, g.currentLineNum, level) == MatchingEnd(g.kinds, bookmark, 0)
        decreases |g.lines| - g.currentLineNum
      {
        ghost var pos, before := g.currentLineNum, level;
        var _ := g.NextLine();
        ghost var k := g.kinds[pos];
        assert g.CurrentStatement() == k;
        if g.IsForEachLine() {
          level := level + 1;
        }
        if g.IsEndLine() {
          level := level - 1;
          if level < 0 {
            assert MatchingEnd(g.kinds, pos, before) == Some(g.currentLineNum);
            return None;
          }
        }
        assert MatchingEnd(g.kinds, pos, before) == MatchingEnd(g.kinds, g.currentLineNum, level);
      }
      return Some(bookmark);
    }

    /** processSaveToLine, given what the grammar's getSaveTo returned. */
    method ProcessSaveToLine(saveTo: Option<string>, input: Doc) returns (r: Outcome)
      modifies this
      ensures Run(r, Snapshot()) == SaveToRun(env, saveTo, old(Snapshot()), input)
    {
      if saveTo.None? {
        return Failed(MissingLabel);
      }
      var name := env.eval(saveTo.value, scopes);
      if name.None? {
        return Failed(MacroFailure);
      }
      if mnc.None? || mnc.value.context.None? {
        return Failed(NoMemory(name.value));
      }
      var ctx := mnc.value.context.value;
      var copy := input;
      mnc := Some(MemoryAndContext(Some(ctx.(memory := ctx.memory[name.value := Document(copy)]))));
      return Done(copy);
    }

    /** processUseAsInputLine, given what the grammar's getUseAsInput returned. */
    method ProcessUseAsInputLine(reference: string) returns (r: Outcome)
      ensures Run(r, Snapshot()) == UseAsInputRun(env, reference, Snapshot())
    {
      var e := env.eval(reference, scopes);
      if e.None? {
        return Failed(MacroFailure);
      }
      var name := env.unquote(e.value);
      if mnc.None? || mnc.value.context.None? {
        return Failed(NoMemory(name));
      }
      var memory := mnc.value.context.value.memory;
      if name !in memory || memory[name] == Document(Null) {
        return Failed(NothingStored(reference));
      }
      match memory[name]
      case Document(d) =>
        return Done(d);
      case Foreign(t) =>
        return Failed(WrongType(reference, t));
    }

    /** onPropertyLineCmd. */
    method OnPropertyLineCmd(key: string, file: string, input: Doc) returns (r: Outcome)
      modifies this
      ensures Run(r, Snapshot()) == PropertiesRun(env, key, file, old(Snapshot()), input)
    {
      var k := env.eval(key, scopes);
      var f := env.eval(file, scopes);
      if k.None? || f.None? {
        return Failed(MacroFailure);
      }
      var props := env.loadProps(f.value);
      if props.None? {
        return Failed(PropertiesFileMissing(f.value));
      }
      scopes := scopes.(files := scopes.files[k.value := props.value]);
      return Done(input);
    }

    /** onPrintCmd, for its effect on the document and on failure. */
    method OnPrintCmd(expression: string, input: Doc) returns (r: Outcome)
      ensures Run(r, Snapshot()) == PrintRun(env, expression, Snapshot(), input)
    {
      if expression == "-" {
        return Done(input);
      }
      var text := env.eval(expression, scopes);
      if text.None? {
        return Failed(MacroFailure);
      }
      if LooksUpMemory(text.value) && mnc.None? {
        return Failed(NoContext);
      }
      return Done(input);
    }

    /** onAnyCmd, given what the grammar's getCommand returned and the current line. */
    method OnAnyCmd(command: Option<string>, line: string, input: Doc) returns (r: Outcome)
      ensures Run(r, Snapshot()) == AnyRun(env, command, line, Snapshot(), input)
    {
      if command.None? {
        return Failed(NoCommand);
      }
      var e := env.eval(command.value, scopes);
      if e.None? {
        return Failed(MacroFailure);
      }
      var keyword := JavaTrim(e.value);
      var family := SelectFamily(keyword);
      if family.None? {
        return Failed(UnknownCommand(keyword));
      }
      if mnc.None? || mnc.value.context.None? {
        return Failed(NoContext);
      }
      var ctx := mnc.value.context.value;
      var tokens := env.tokenize(line + " -i - -o -", scopes);
      if tokens.None? || tokens.value == [] {
        return Failed(ArgumentsFailure);
      }
      var argv := ArgumentVector(tokens.value);
      var own := env.parseArgs(family.value, argv);
      if own.None? {
        return Failed(BackendFailure);
      }
      var quote := InheritQuote(own.value, env.quoteType);
      var library := if family.value == NodeImpl then Some(ctx.library) else None;
      var out := env.backend(family.value, argv, quote, library, input);
      if out.None? {
        return Failed(BackendFailure);
      }
      return Done(out.value);
    }
  }
}

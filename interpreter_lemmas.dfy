/**
 * What processBatch and go promise, stated over the functions of
 * `Interpreter` (and therefore, through the processor's contracts, over
 * BatchCmdProcessor itself).
 */
module InterpreterLemmas {
  import opened Wrappers
  import opened Text
  import opened Classifier
  import opened ClassifierLemmas
  import opened Brackets
  import opened Documents
  import opened Interpreter

  /** `end` returns the document it was given, counts itself, and nothing after it is read. */
  lemma EndReturnsInput(env: Env, fuel: nat, lines: seq<string>, pos: nat, st: State, input: Doc, temp: Doc)
    requires pos < |lines| && Kind(env, lines[pos]) == End
    ensures RunFrom(env, fuel, lines, pos, st, input, temp) == Run(Done(input), Bump(st))
  {
    RunFromStop(env, fuel, lines, pos, st, input, temp, Run(Done(input), Bump(st)));
  }

  /** The same for a line that is `end` in any letter case. */
  lemma EndLineReturnsInput(env: Env, fuel: nat, lines: seq<string>, pos: nat, st: State, input: Doc, temp: Doc)
    requires Recognises(env) && pos < |lines| && EqualsIgnoreCase(lines[pos], "end")
    ensures RunFrom(env, fuel, lines, pos, st, input, temp) == Run(Done(input), Bump(st))
  {
    EndLine(env.lex, lines[pos]);
    EndReturnsInput(env, fuel, lines, pos, st, input, temp);
  }

  /**
   * When the lines run out, processBatch returns the output of the statement
   * that read the last line (or jumped past it), whatever it was given before.
   */
  lemma LastOutputReturned(env: Env, fuel: nat, lines: seq<string>, pos: nat, st: State, input: Doc, temp: Doc)
    requires pos < |lines| && Step(env, fuel, lines, pos, st, input).Next?
    requires Step(env, fuel, lines, pos, st, input).pos == |lines|
    ensures RunFrom(env, fuel, lines, pos, st, input, temp).outcome == Done(Step(env, fuel, lines, pos, st, input).doc)
  {
    var r := Step(env, fuel, lines, pos, st, input);
    RunFromNext(env, fuel, lines, pos, st, input, temp, r.doc, r.st, r.pos);
  }

  /**
   * go on a script it can open: a failure while the script runs becomes the
   * empty document, with the state the script reached; any other outcome,
   * an exit or an Error included, is the script's own.
   */
  lemma GoRunsScript(env: Env, fuel: nat, st: State, name: string, node: Doc)
    requires node != Null && name in env.scripts
    ensures var run := RunFrom(env, fuel, env.scripts[name], 0, st, node, Null);
      (run.outcome.Failed? ==> GoSpec(env, fuel, st, Some(name), node) == Run(Done(EmptyDoc), run.st)) &&
      (!run.outcome.Failed? ==> GoSpec(env, fuel, st, Some(name), node) == run)
  {
  }

  /** A script without lines returns null: no statement replaces the initial null output. */
  lemma EmptyScriptGivesNull(env: Env, fuel: nat, st: State, name: string, node: Doc)
    requires name in env.scripts && env.scripts[name] == [] && node != Null
    ensures GoSpec(env, fuel, st, Some(name), node) == Run(Done(Null), st)
  {
  }

  /**
   * makeNewRoot ignores the document it is given: its output is the one-entry
   * document `name: ""`, whatever the input.
   */
  lemma MakeNewRootIgnoresInput(env: Env, fuel: nat, lines: seq<string>, pos: nat, st: State, a: Doc, b: Doc)
    requires pos < |lines| && Kind(env, lines[pos]).MakeNewRoot?
    ensures Step(env, fuel, lines, pos, st, a) == Step(env, fuel, lines, pos, st, b)
    ensures var n := env.eval(Kind(env, lines[pos]).name, st.scopes);
      n.Some? ==> Step(env, fuel, lines, pos, st, a) == Next(SingleEntry(n.value, ""), Bump(st), pos + 1)
  {
  }

  /**
   * setProperty stores the evaluated value under the evaluated key in the
   * global scope, hands on the empty document, and is not counted.
   */
  lemma SetPropertyWritesGlobals(env: Env, fuel: nat, lines: seq<string>, pos: nat, st: State, input: Doc)
    requires pos < |lines| && Kind(env, lines[pos]).SetProperty?
    requires env.eval(Kind(env, lines[pos]).key, st.scopes).Some?
    requires env.eval(Kind(env, lines[pos]).value, st.scopes).Some?
    ensures var k := env.eval(Kind(env, lines[pos]).key, st.scopes).value;
      var v := env.eval(Kind(env, lines[pos]).value, st.scopes).value;
      var r := Step(env, fuel, lines, pos, st, input);
      r.Next? && r.doc == EmptyDoc && r.pos == pos + 1 && r.st.runcount == st.runcount &&
      r.st.scopes.globals == st.scopes.globals[k := v] && k in r.st.scopes.globals && r.st.scopes.globals[k] == v &&
      r.st.scopes.files == st.scopes.files && r.st.mnc == st.mnc
  {
  }

  /**
   * runcount: a statement that carries on adds one, except useYAMLLibrary,
   * setProperty, verbose and sleep, which add nothing; a `batch` line adds
   * one on top of what its script counted; a statement that fails adds
   * nothing, and `end` adds one as it returns.
   */
  lemma RuncountRule(env: Env, fuel: nat, lines: seq<string>, pos: nat, st: State, input: Doc)
    requires pos < |lines|
    ensures var s := Kind(env, lines[pos]);
      var r := Step(env, fuel, lines, pos, st, input);
      (r.Next? && !s.SubBatch? ==> r.st.runcount == st.runcount + (if Uncounted(s) then 0 else 1)) &&
      (r.Next? && s.SubBatch? ==> r.st.runcount >= st.runcount + 1) &&
      (r.Stop? && s.End? ==> r.run.st.runcount == st.runcount + 1) &&
      (r.Stop? && !s.SubBatch? && !s.End? ==> r.run.st.runcount == st.runcount)
  {
    var s := Kind(env, lines[pos]);
    if !(s.SubBatch? || s.Foreach? || s.End? || s.DebugDump?) {
      var e := Effect(env, s, lines[pos], st, input);
      assert e.st.runcount == st.runcount;
    }
  }

  /**
   * Among the statements the switch handles itself, only saveTo writes the
   * labelled memory: every other statement that neither moves the cursor nor
   * runs a script leaves it as it was.  A back end called for an `Any` line
   * gets the shared MemoryAndContext and may write it; `Env.backend` returns
   * only a document, so such writes are outside this model.
   */
  lemma OnlySaveToWritesMemory(env: Env, s: Statement, line: string, st: State, input: Doc)
    requires !(s.SubBatch? || s.Foreach? || s.End? || s.DebugDump? || s.SaveTo?)
    ensures MemoryOf(Effect(env, s, line, st, input).st) == MemoryOf(st)
  {
  }

  /**
   * saveTo followed by useAsInput of the same label gives back the saved
   * document; a saved null reads as nothing stored.
   */
  lemma SaveThenUse(env: Env, target: string, reference: string, st: State, d: Doc, name: string)
    requires env.eval(target, st.scopes) == Some(name) && ContextOf(st).Some?
    requires env.eval(reference, st.scopes).Some? && env.unquote(env.eval(reference, st.scopes).value) == name
    ensures var saved := SaveToRun(env, Some(target), st, d);
      saved.outcome == Done(d) && saved.st.scopes == st.scopes && saved.st.runcount == st.runcount &&
      UseAsInputRun(env, reference, saved.st) ==
        (if d == Null then Run(Failed(NothingStored(reference)), saved.st) else Run(Done(d), saved.st))
  {
    var saved := SaveToRun(env, Some(target), st, d);
    var ctx := ContextOf(st).value;
    assert ContextOf(saved.st) == Some(ctx.(memory := ctx.memory[name := Document(d)]));
  }

  /** saveTo without memory, or without a label, fails and changes nothing. */
  lemma SaveToErrors(env: Env, saveTo: Option<string>, st: State, input: Doc)
    ensures saveTo.None? ==> SaveToRun(env, saveTo, st, input) == Run(Failed(MissingLabel), st)
    ensures saveTo.Some? && env.eval(saveTo.value, st.scopes).Some? && ContextOf(st).None? ==>
      SaveToRun(env, saveTo, st, input) == Run(Failed(NoMemory(env.eval(saveTo.value, st.scopes).value)), st)
  {
  }

  /**
   * useAsInput fails without memory, on a missing label or a stored null, and
   * on a stored object that is not a document.
   */
  lemma UseAsInputErrors(env: Env, reference: string, st: State, e: string)
    requires env.eval(reference, st.scopes) == Some(e)
    ensures var name := env.unquote(e);
      var r := UseAsInputRun(env, reference, st);
      r.st == st &&
      (ContextOf(st).None? ==> r.outcome == Failed(NoMemory(name))) &&
      (ContextOf(st).Some? && name !in ContextOf(st).value.memory ==> r.outcome == Failed(NothingStored(reference))) &&
      (ContextOf(st).Some? && name in ContextOf(st).value.memory && ContextOf(st).value.memory[name] == Document(Null) ==>
        r.outcome == Failed(NothingStored(reference))) &&
      (ContextOf(st).Some? && name in ContextOf(st).value.memory && ContextOf(st).value.memory[name].Foreign? ==>
        r.outcome == Failed(WrongType(reference, ContextOf(st).value.memory[name].typeName)))
  {
  }

  /**
   * useYAMLLibrary records the library in the context, keeps the labelled
   * memory and hands the input on; without a context it fails and changes
   * nothing.
   */
  lemma YamlLibrarySetsContext(env: Env, library: string, line: string, st: State, input: Doc)
    ensures var r := Effect(env, YamlLibrary(library), line, st, input);
      (ContextOf(st).None? ==> r == Run(Failed(NoContext), st)) &&
      (ContextOf(st).Some? ==>
        r == Run(Done(input), WithContext(st, ContextOf(st).value.(library := library))) &&
        MemoryOf(r.st) == MemoryOf(st) && ContextOf(r.st).value.library == library)
  {
  }

  /** No prefix of ks[from..to] closes more blocks than it opens. */
  predicate Open(ks: seq<Statement>, from: nat, to: nat)
    requires from <= to <= |ks|
  {
    forall k :: from <= k <= to ==> Depth(ks[from..k]) >= 0
  }

  /**
   * A `foreach` line hands on the foreach step's output and moves the cursor
   * to just past its matching `end`: the first `end` at which the nesting
   * counted from the line after the `foreach` drops below zero.  Without
   * such an `end` the statement fails, naming the `foreach` line.
   */
  lemma ForeachSkipsToMatchingEnd(env: Env, fuel: nat, lines: seq<string>, pos: nat, st: State, input: Doc)
    requires pos < |lines| && Kind(env, lines[pos]) == Foreach
    requires env.foreach(lines, pos + 1, input).Some?
    ensures var ks := KindsOf(env.classify, lines);
      var r := Step(env, fuel, lines, pos, st, input);
      (r.Next? ==>
        r.doc == env.foreach(lines, pos + 1, input).value && r.st == Bump(st) && pos + 1 < r.pos &&
        ks[r.pos - 1] == End && Depth(ks[pos + 1..r.pos]) == -1 && Open(ks, pos + 1, r.pos - 1)) &&
      (r.Stop? ==>
        r.run == Run(Failed(Unterminated(pos + 1)), st) && Open(ks, pos + 1, |lines|))
  {
    MatchingEndSpec(KindsOf(env.classify, lines), pos + 1, 0);
  }

  /** onAnyCmd picks the command family by the keyword, and only `yaml` and `aws.sdk` are known. */
  lemma UnknownKeywordFails(env: Env, command: string, line: string, st: State, input: Doc, e: string)
    requires env.eval(command, st.scopes) == Some(e)
    requires JavaTrim(e) != "yaml" && JavaTrim(e) != "aws.sdk"
    ensures AnyRun(env, Some(command), line, st, input) == Run(Failed(UnknownCommand(JavaTrim(e))), st)
  {
  }

  /**
   * What onAnyCmd hands the back end: the tokens of the line after the
   * keyword (with `-i - -o -` appended), the command's own quote style or,
   * when it has none, the processor's, and for `yaml` the context's library.
   * The processor's state is never changed.
   */
  lemma AnyCommandCall(env: Env, command: string, line: string, st: State, input: Doc,
                       e: string, family: Family, tokens: seq<string>, own: QuoteStyle)
    requires env.eval(command, st.scopes) == Some(e) && SelectFamily(JavaTrim(e)) == Some(family)
    requires ContextOf(st).Some?
    requires env.tokenize(line + " -i - -o -", st.scopes) == Some(tokens) && tokens != []
    requires env.parseArgs(family, tokens[1..]) == Some(own)
    ensures var quote := if own != Undefined then own else env.quoteType;
      var library := if JavaTrim(e) == "yaml" then Some(ContextOf(st).value.library) else None;
      var r := AnyRun(env, Some(command), line, st, input);
      r.st == st &&
      (r.outcome.Done? <==> env.backend(family, tokens[1..], quote, library, input).Some?) &&
      (r.outcome.Done? ==> r.outcome.doc == env.backend(family, tokens[1..], quote, library, input).value)
  {
  }

  /**
   * A `batch` line whose script fails hands the empty document to the next
   * statement; the failure goes no further.
   */
  lemma FailingBatchGivesEmpty(env: Env, fuel: nat, lines: seq<string>, pos: nat, st: State, input: Doc, name: string)
    requires pos < |lines| && Kind(env, lines[pos]).SubBatch? && fuel > 0
    requires env.eval(Kind(env, lines[pos]).path, st.scopes) == Some(name) && name in env.scripts && input != Null
    requires RunFrom(env, fuel - 1, env.scripts[name], 0, st, input, Null).outcome.Failed?
    ensures Step(env, fuel, lines, pos, st, input) ==
      Next(EmptyDoc, Bump(RunFrom(env, fuel - 1, env.scripts[name], 0, st, input, Null).st), pos + 1)
  {
  }

  /**
   * A `verbose on` or `verbose off` line hands its input on unchanged, adds nothing to
   * runcount, and the next statement runs with verbose set as the line says:
   * the flag set in the switch is read back from the same line at the
   * bottom of the pass.
   */
  lemma VerboseLineSetsNext(env: Env, fuel: nat, lines: seq<string>, pos: nat, st: State, input: Doc, temp: Doc, on: bool)
    requires pos < |lines| && env.classify(lines[pos]) == Verbose(on)
    ensures RunFrom(env, fuel, lines, pos, st, input, temp) ==
      RunFrom(env, fuel, lines, pos + 1, st.(verbose := on), input, input)
  {
    var r := Step(env, fuel, lines, pos, st, input);
    assert r == Next(input, st, pos + 1);
    assert VerboseAt(env, lines, pos + 1) == on;
    RunFromNext(env, fuel, lines, pos, st, input, temp, input, r.st, pos + 1);
  }

  /** The statements that hand on their input untouched: verbose, `print -`, and a sleep that is not negative. */
  predicate PassesThrough(s: Statement) {
    s.Verbose? || s.PrintDash? || (s.Sleep? && s.seconds >= 0)
  }

  /**
   * A script of such statements returns its input (the document it started
   * with, or the last output when no line is left) and leaves the property
   * scopes and the MemoryAndContext alone.
   */
  lemma {:induction false} PassThroughScript(env: Env, fuel: nat, lines: seq<string>, pos: nat, st: State, input: Doc, temp: Doc)
    requires pos <= |lines|
    requires forall i :: pos <= i < |lines| ==> PassesThrough(Kind(env, lines[i]))
    ensures var r := RunFrom(env, fuel, lines, pos, st, input, temp);
      r.outcome == Done(if pos < |lines| then input else temp) && r.st.scopes == st.scopes && r.st.mnc == st.mnc
    decreases |lines| - pos
  {
    if pos < |lines| {
      var s := Kind(env, lines[pos]);
      assert PassesThrough(s);
      assert Effect(env, s, lines[pos], st, input).outcome == Done(input);
      var r := Step(env, fuel, lines, pos, st, input);
      assert r.Next? && r.doc == input && r.pos == pos + 1 && r.st.scopes == st.scopes && r.st.mnc == st.mnc;
      var st' := r.st.(verbose := VerboseAt(env, lines, pos + 1));
      RunFromNext(env, fuel, lines, pos, st, input, temp, input, r.st, pos + 1);
      PassThroughScript(env, fuel, lines, pos + 1, st', input, input);
    }
  }
}

# The batch language of org.ASUX.yaml, modelled in Dafny

org.ASUX.yaml runs YAML commands from batch scripts. One statement per line
threads a YAML document from each line to the next. Two classes form the core:

- `BatchFileGrammer` is a cursor over a script's lines. Its `identifyLine`
  recognises a line by trying a fixed, ordered list of anchored patterns:
  `useYAMLLibrary`, `makeNewRoot` (with an optional quote flag), `batch`,
  `foreach`, `end`, `saveTo`, `useAsInput`, `verbose on|off`, `print -` and
  `debug --dump`. A line that no pattern matches is left for a command back end
  (`Cmd_Any`). Each recognised line's argument is kept in a per-line field, and
  the getters return it. Every line resets those fields, except the
  makeNewRoot quote style, which carries over. `skip2MatchingEnd` moves the
  cursor to the `end` that closes a `foreach`.
- `BatchCmdProcessor` is the interpreter. `processBatch` reads the lines in a
  loop and switches on the statement kind:
  - most statements turn the current document into the next one;
  - `end` returns early;
  - `batch` runs another script through `go`;
  - `saveTo` and `useAsInput` write and read a labelled memory;
  - any other line goes to the `yaml` or `aws.sdk` back end.

  `go` opens a script and turns every failure into the empty document.

The project is organised as follows:

- `text.dfy`: the whitespace, token and `String.trim` helpers.
- `classifier.dfy` and `classifier_lemmas.dfy`: the line grammar, as the
  total function `Classify`, and what it recognises.
- `brackets.dfy`: the `foreach`/`end` depth count that both skip loops perform.
- `grammar.dfy`: the class `BatchFileGrammar`. It has the grammar's fields,
  `nextLine`, the getters and `skip2MatchingEnd`.
- `documents.dfy`: documents, the labelled memory and the property scopes.
- `interpreter.dfy` and `interpreter_lemmas.dfy`: what `processBatch` and `go`
  compute, as functions, with the properties proved about them.
- `processor.dfy`: the class `BatchCmdProcessor`. Each of its methods is
  proved equal to the function in `Interpreter` that it implements.

Anything the core calls that lies outside it is a parameter. That covers:
macro evaluation, quote removal, property files, the foreach body, argument
tokenising and parsing, the back ends, and the set of scripts that can be
opened. The regular sub-patterns for names, references and library names are
parameters too.

## Model

| member | source | states |
|---|---|---|
| Classifier.Classify | src/main/java/org/ASUX/yaml/BatchFileGrammer.java:220-345 | Every line gets exactly one statement, so recognition never fails. A recognised statement is the answer of the first rule that matches, in source order, and its argument is one the rule's pattern accepts. `Any` means that no rule matched. |
| Classifier.FirstMatch | src/main/java/org/ASUX/yaml/BatchFileGrammer.java:229-337 | The rule chosen matches, and every earlier rule misses. None means that every rule misses. |
| Classifier.Arguments | src/main/java/org/ASUX/yaml/BatchFileGrammer.java:66-75 | Each rule's argument pattern yields a statement of that rule's own kind, with a well-formed argument. |
| Classifier.Rule | src/main/java/org/ASUX/yaml/BatchFileGrammer.java:229-335 | A rule that matches gives a statement of its own kind, in its own place in the priority order, with an argument its pattern accepts. |
| Classifier.KeywordRest | src/main/java/org/ASUX/yaml/BatchFileGrammer.java:68-75 | When `^\s*keyword\s+` matches, the text after it is shorter than the line and does not start with whitespace. |
| Classifier.Longest | src/main/java/org/ASUX/yaml/BatchFileGrammer.java:68-72 | A captured argument is the longest prefix that the group accepts with the rest of the pattern still matching. No capture means that no non-empty prefix fits. |
| Classifier.YamlLibraryArgs | src/main/java/org/ASUX/yaml/BatchFileGrammer.java:68 | The library is the longest prefix the library list accepts with only the line end (whitespace, then at most one final U+0085, U+2028 or U+2029, which is what `\s*$` accepts) after it. There is no match exactly when no prefix fits. |
| Classifier.MakeNewRootArgs | src/main/java/org/ASUX/yaml/BatchFileGrammer.java:69 | The name is the longest prefix the name pattern accepts with only quote flags after it, and the quote style is that of the last flag. There is no match exactly when no prefix fits. |
| Classifier.FlagSuffix | src/main/java/org/ASUX/yaml/BatchFileGrammer.java:69 | The tail after the name is whitespace followed by flags each preceded by exactly one whitespace character, then the line end. It is empty, starts with whitespace, or is one final line terminator. |
| Classifier.FlagStyle | src/main/java/org/ASUX/yaml/BatchFileGrammer.java:252-260 | A token gives a quote style other than UNDEFINED exactly when it is one of the three flags. |
| Classifier.LastFlag | src/main/java/org/ASUX/yaml/BatchFileGrammer.java:245-262 | The style taken from a flag suffix, which is the last repetition's, is never UNDEFINED. |
| Classifier.BatchArgs | src/main/java/org/ASUX/yaml/BatchFileGrammer.java:70 | The script name is the longest prefix the name pattern accepts with only the line end after it. There is no match exactly when no prefix fits. |
| Classifier.SaveToArgs | src/main/java/org/ASUX/yaml/BatchFileGrammer.java:71 | The reference is the longest prefix the reference pattern accepts with only the line end after it. There is no match exactly when no prefix fits. |
| Classifier.UseAsInputArgs | src/main/java/org/ASUX/yaml/BatchFileGrammer.java:72 | The argument is the longest reference followed by the line end when one fits, and otherwise the longest inline value followed by the line end. There is no match exactly when neither fits. |
| Classifier.VerboseArgs | src/main/java/org/ASUX/yaml/BatchFileGrammer.java:73 | `on` followed by the line end gives true, and `off` followed by the line end gives false; both directions hold. |
| Classifier.PrintDashArgs | src/main/java/org/ASUX/yaml/BatchFileGrammer.java:74 | Matches exactly when the argument is `-` followed by the line end. |
| Classifier.DebugDumpArgs | src/main/java/org/ASUX/yaml/BatchFileGrammer.java:75 | Matches exactly when the argument is `--dump` followed by the line end. |
| ClassifierLemmas.ForeachExactly | src/main/java/org/ASUX/yaml/BatchFileGrammer.java:277-281 | A line is `foreach` if and only if the whole line equals "foreach", ignoring case. |
| ClassifierLemmas.EndExactly | src/main/java/org/ASUX/yaml/BatchFileGrammer.java:283-287 | A line is `end` if and only if the whole line equals "end", ignoring case. |
| ClassifierLemmas.ClassifyFirstMatch | src/main/java/org/ASUX/yaml/BatchFileGrammer.java:229-337 | When rule k matches and no earlier rule does, the line is rule k's statement. |
| ClassifierLemmas.KeywordDecides | src/main/java/org/ASUX/yaml/BatchFileGrammer.java:68-75 | Every recognised statement other than foreach and end has its keyword as the line's first token. |
| ClassifierLemmas.UnknownKeywordIsAny | src/main/java/org/ASUX/yaml/BatchFileGrammer.java:337 | A line whose first token is none of the keywords, and which is not foreach or end, is `Any`. |
| ClassifierLemmas.MakeNewRootFlags | src/main/java/org/ASUX/yaml/BatchFileGrammer.java:240-264 | `makeNewRoot name` followed by any number of flags, each after one space, records the name and the last flag's style. Without flags it records no style. |
| ClassifierLemmas.SpacedFlags | src/main/java/org/ASUX/yaml/BatchFileGrammer.java:249-262 | Flags each preceded by one space form a flag suffix whose style is the last flag's. |
| ClassifierLemmas.DoubleSpacedFlagsRejected | src/main/java/org/ASUX/yaml/BatchFileGrammer.java:69 | `makeNewRoot name f1  f2`, with two spaces between the flags, is not recognised by any rule and is left as `Any`. |
| ClassifierLemmas.KeywordLineMiss | src/main/java/org/ASUX/yaml/BatchFileGrammer.java:229-337 | A line that starts with a rule's keyword but whose argument that rule rejects matches no rule at all. |
| ClassifierLemmas.VerboseArgument | src/main/java/org/ASUX/yaml/BatchFileGrammer.java:309-317 | `verbose on` gives batchVerbose true, and `verbose off` gives false, when the line end follows. |
| ClassifierLemmas.PrintDashLine | src/main/java/org/ASUX/yaml/BatchFileGrammer.java:319-326 | `print -` followed by the line end is the print-dash statement. |
| ClassifierLemmas.DebugDumpLine | src/main/java/org/ASUX/yaml/BatchFileGrammer.java:328-335 | `debug --dump` followed by the line end is the debug-dump statement. |
| ClassifierLemmas.PrintDashBeforeSeparator | src/main/java/org/ASUX/yaml/BatchFileGrammer.java:74 | `print -` followed by a final LINE SEPARATOR (U+2028) is the print-dash statement, because `$` matches before a final line terminator. |
| ClassifierLemmas.DebugDumpBeforeNextLine | src/main/java/org/ASUX/yaml/BatchFileGrammer.java:75 | `debug --dump`, a space and a final NEXT LINE (U+0085) is the debug-dump statement. |
| ClassifierLemmas.SaveToLine | src/main/java/org/ASUX/yaml/BatchFileGrammer.java:289-297 | `saveTo ref` records ref. |
| ClassifierLemmas.UseAsInputLine | src/main/java/org/ASUX/yaml/BatchFileGrammer.java:299-307 | `useAsInput ref` records ref. |
| ClassifierLemmas.BatchLine | src/main/java/org/ASUX/yaml/BatchFileGrammer.java:266-275 | `batch name` records the sub-batch file name. |
| ClassifierLemmas.YamlLibraryLine | src/main/java/org/ASUX/yaml/BatchFileGrammer.java:230-238 | `useYAMLLibrary lib` records the library. |
| Brackets.MatchingEnd | src/main/java/org/ASUX/yaml/BatchFileGrammer.java:447-486 | The cursor found lies after the start and within the script. |
| Brackets.MatchingEndSpec | src/main/java/org/ASUX/yaml/BatchFileGrammer.java:447-486 | The match found is an `end` line at which the foreach/end depth, counted from the start line, first drops below zero. No match means the depth never drops below zero before the lines run out. |
| Brackets.MatchingEndAt | src/main/java/org/ASUX/yaml/BatchCmdProcessor.java:376-403 | Conversely, the first `end` at which the depth drops below zero is the match. |
| Brackets.MatchingEndSkipsPlain | src/main/java/org/ASUX/yaml/BatchFileGrammer.java:460-481 | Lines that are neither foreach nor end leave the depth count unchanged. |
| Grammar.BatchFileGrammar.constructor | src/main/java/org/ASUX/yaml/BatchFileGrammer.java:81-101 | The cursor starts before the first line, with the fields at their defaults and the quote style UNDEFINED. |
| Grammar.BatchFileGrammar.ResetFlagsForEachLine | src/main/java/org/ASUX/yaml/BatchFileGrammer.java:121-133 | Every per-line field returns to its default. The quote style is not reset. |
| Grammar.Identify | src/main/java/org/ASUX/yaml/BatchFileGrammer.java:229-335 | A recognised line sets the command type to its kind. Each argument field changes only on a line of its own kind, and batchVerbose only on verbose, foreach and end. A line no rule matches changes nothing. |
| Grammar.NextQuote | src/main/java/org/ASUX/yaml/BatchFileGrammer.java:245-262 | The quote style changes only on a makeNewRoot line with a flag, and then to that flag's style. |
| Grammar.BatchFileGrammar.IdentifyLine | src/main/java/org/ASUX/yaml/BatchFileGrammer.java:220-345 | Only the fields of the recognised kind change. foreach and end switch batchVerbose off. Only a makeNewRoot line that has a flag changes the quote style. |
| Grammar.BatchFileGrammar.NextLine | src/main/java/org/ASUX/yaml/BatchFileGrammer.java:182-187 | The cursor advances by one, the line is returned, and afterwards the fields describe exactly that line. |
| Grammar.BatchFileGrammar.SkipLine | src/main/java/org/ASUX/yaml/BatchFileGrammer.java:462 | The cursor advances by one, and the fields are reset but not identified. |
| Grammar.BatchFileGrammar.GetSaveTo | src/main/java/org/ASUX/yaml/BatchFileGrammer.java:361-366 | Returns the saveTo argument exactly on a saveTo line, and null otherwise. |
| Grammar.BatchFileGrammar.GetUseAsInput | src/main/java/org/ASUX/yaml/BatchFileGrammer.java:371-376 | Returns the useAsInput argument exactly on a useAsInput line, and null otherwise. |
| Grammar.BatchFileGrammar.GetMakeNewRoot | src/main/java/org/ASUX/yaml/BatchFileGrammer.java:381-386 | Returns the new root name exactly on a makeNewRoot line, and null otherwise. |
| Grammar.BatchFileGrammar.GetSubBatchFile | src/main/java/org/ASUX/yaml/BatchFileGrammer.java:391-396 | Returns the script name exactly on a batch line, and null otherwise. |
| Grammar.BatchFileGrammar.GetYamlLibrary | src/main/java/org/ASUX/yaml/BatchFileGrammer.java:402-404 | Returns the named library on a useYAMLLibrary line, and the default library otherwise. |
| Grammar.BatchFileGrammar.GetBatchVerbose | src/main/java/org/ASUX/yaml/BatchFileGrammer.java:409-411 | True exactly on a `verbose on` line. |
| Grammar.BatchFileGrammar.GetQuoteType | src/main/java/org/ASUX/yaml/BatchFileGrammer.java:354-356 | The quote style left by all the lines read so far. |
| Grammar.BatchFileGrammar.GetCmdType | src/main/java/org/ASUX/yaml/BatchFileGrammer.java:168-170 | The command type of the current line. |
| Grammar.BatchFileGrammar.IsForEachLine | src/main/java/org/ASUX/yaml/BatchFileGrammer.java:418-423 | True exactly on a foreach line. |
| Grammar.BatchFileGrammar.IsEndLine | src/main/java/org/ASUX/yaml/BatchFileGrammer.java:429-434 | True exactly on an end line. |
| Grammar.BatchFileGrammar.GetCommand | src/main/java/org/ASUX/yaml/BatchFileGrammer.java:497-521 | Null on a recognised line, before the first line, and on a blank line. Otherwise it is the line's first whitespace-delimited token. |
| Grammar.BatchFileGrammar.Skip2MatchingEnd | src/main/java/org/ASUX/yaml/BatchFileGrammer.java:447-486 | The cursor stops at the matching end. When there is none, the lines are exhausted and the error names the line where the skip started. |
| Grammar.QuoteFromLastSetter | src/main/java/org/ASUX/yaml/BatchFileGrammer.java:245-262 | After a run of lines, the quote style is the flag of the last makeNewRoot line that had one. |
| Grammar.QuoteWithoutSetter | src/main/java/org/ASUX/yaml/BatchFileGrammer.java:91 | When no line had a flag, the quote style is UNDEFINED. |
| Text.FirstToken | src/main/java/org/ASUX/yaml/BatchFileGrammer.java:501-513 | A Scanner on `\s+` yields a first token exactly when the line is not blank, and that token is a word. |
| Text.JavaTrim | src/main/java/org/ASUX/yaml/BatchCmdProcessor.java:528 | `String.trim` never lengthens its input, and leaves no control character or space at either end. |
| Text.JavaTrimIsSlice | src/main/java/org/ASUX/yaml/BatchCmdProcessor.java:528 | `String.trim` returns a contiguous slice of its input, and everything cut off at either end is a control character or a space. |
| Text.TrimEndIs | src/main/java/org/ASUX/yaml/BatchFileGrammer.java:73-75 | A text minus trailing whitespace equals a word exactly when the text is that word followed only by whitespace. |
| Text.TrimLineEndIs | src/main/java/org/ASUX/yaml/BatchFileGrammer.java:73-75 | Dropping one final line terminator and then trailing whitespace leaves a word exactly when the text is that word followed by what `\s*$` accepts. |
| Text.EqualsIgnoreCase | src/main/java/org/ASUX/yaml/BatchFileGrammer.java:277-287 | Equal strings compare equal. Strings that compare equal have the same length, and a lower-case letter meets only itself or its upper-case form. |
| Interpreter.Determine | src/main/java/org/ASUX/yaml/BatchCmdProcessor.java:248 | The grammar's kind wins. Only a line the grammar leaves as Any can become one of the processor's further kinds. |
| Interpreter.SaveToRun | src/main/java/org/ASUX/yaml/BatchCmdProcessor.java:406-425 | saveTo succeeds exactly when the label evaluates and a memory exists. It then stores the input under the label, keeps the library, and hands the input on. A failure changes nothing. |
| Interpreter.UseAsInputRun | src/main/java/org/ASUX/yaml/BatchCmdProcessor.java:432-453 | Reading memory never changes the processor's state. It succeeds exactly when the reference evaluates, a memory exists, and the unquoted label holds a non-null document; that document is then the result. |
| Interpreter.PropertiesRun | src/main/java/org/ASUX/yaml/BatchCmdProcessor.java:460-472 | Only the loaded scopes change: globals, the memory and the runcount are kept, and the input document passes through. |
| Interpreter.LooksUpMemory | src/main/java/org/ASUX/yaml/BatchCmdProcessor.java:480-510 | The memory is looked up unless the trimmed text ends in `\n` and nothing else is left; a bare `\n` is never looked up. |
| Interpreter.PrintRun | src/main/java/org/ASUX/yaml/BatchCmdProcessor.java:475-519 | The state never changes, and a print that succeeds hands on its input. |
| Interpreter.AnyRun | src/main/java/org/ASUX/yaml/BatchCmdProcessor.java:522-631 | A back-end command never changes the processor's own state. |
| Interpreter.SelectFamily | src/main/java/org/ASUX/yaml/BatchCmdProcessor.java:533-558 | A family is chosen exactly for `yaml` and `aws.sdk`, and the YAML back end exactly for `yaml`. |
| Interpreter.InheritQuote | src/main/java/org/ASUX/yaml/BatchCmdProcessor.java:609-610 | The command's own style wins unless it is UNDEFINED, and then the processor's is used. The result is UNDEFINED only when both are. |
| Interpreter.ArgumentVector | src/main/java/org/ASUX/yaml/BatchCmdProcessor.java:566 | The back end gets every token after the first, in order. |
| Interpreter.Effect | src/main/java/org/ASUX/yaml/BatchCmdProcessor.java:256-330 | The statements handled inside the switch leave runcount to the loop. |
| Interpreter.Step | src/main/java/org/ASUX/yaml/BatchCmdProcessor.java:247-334 | One loop pass moves the cursor strictly forward and never decreases runcount. |
| Interpreter.RunFrom | src/main/java/org/ASUX/yaml/BatchCmdProcessor.java:239-342 | runcount never decreases over the rest of a script. |
| Interpreter.GoSpec | src/main/java/org/ASUX/yaml/BatchCmdProcessor.java:177-216 | go never fails. A missing name, a null node or a script that cannot be opened gives the empty document with the state unchanged, and runcount never decreases. |
| InterpreterLemmas.GoRunsScript | src/main/java/org/ASUX/yaml/BatchCmdProcessor.java:188-215 | On a script go can open, a failure while it runs becomes the empty document with the state the script reached. Any other outcome, including an exit or an Error, is the script's own. |
| InterpreterLemmas.EndReturnsInput | src/main/java/org/ASUX/yaml/BatchCmdProcessor.java:280-285 | end returns the document it was given with runcount + 1, and no later line is read. |
| InterpreterLemmas.EndLineReturnsInput | src/main/java/org/ASUX/yaml/BatchCmdProcessor.java:280-285 | The same holds for a line that reads `end` in any letter case. |
| InterpreterLemmas.LastOutputReturned | src/main/java/org/ASUX/yaml/BatchCmdProcessor.java:245-342 | When a statement hands on and no line is left after it, the run returns that statement's output. |
| InterpreterLemmas.EmptyScriptGivesNull | src/main/java/org/ASUX/yaml/BatchCmdProcessor.java:239-342 | A script without lines returns null, because tempOutput starts null and no statement replaces it. |
| InterpreterLemmas.MakeNewRootIgnoresInput | src/main/java/org/ASUX/yaml/BatchCmdProcessor.java:257-261 | makeNewRoot gives the same result for any input, namely `{name: ""}` with runcount + 1. |
| InterpreterLemmas.SetPropertyWritesGlobals | src/main/java/org/ASUX/yaml/BatchCmdProcessor.java:297-302 | setProperty hands on the empty document and stores the value under the key in the global scope. Nothing else changes, and runcount is not incremented. |
| InterpreterLemmas.RuncountRule | src/main/java/org/ASUX/yaml/BatchCmdProcessor.java:256-330 | A statement that carries on adds one to runcount, except useYAMLLibrary, setProperty, verbose and sleep. batch adds one on top of its script's count. end adds one. A failure adds nothing. |
| InterpreterLemmas.OnlySaveToWritesMemory | src/main/java/org/ASUX/yaml/BatchCmdProcessor.java:406-425 | Among the statements the switch handles itself, none but saveTo changes the labelled memory. |
| InterpreterLemmas.SaveThenUse | src/main/java/org/ASUX/yaml/BatchCmdProcessor.java:406-453 | saveTo then useAsInput of the same label gives back the saved document. A saved null reads as nothing stored. |
| InterpreterLemmas.SaveToErrors | src/main/java/org/ASUX/yaml/BatchCmdProcessor.java:410-421 | A missing label or missing memory fails and changes nothing. |
| InterpreterLemmas.UseAsInputErrors | src/main/java/org/ASUX/yaml/BatchCmdProcessor.java:437-452 | useAsInput fails when there is no memory, nothing (or null) under the label, or a non-document under it, each with its own error. |
| InterpreterLemmas.YamlLibrarySetsContext | src/main/java/org/ASUX/yaml/BatchCmdProcessor.java:307-311 | useYAMLLibrary sets the context's library, keeps the labelled memory and hands the input on. Without a context it fails and changes nothing. |
| InterpreterLemmas.ForeachSkipsToMatchingEnd | src/main/java/org/ASUX/yaml/BatchCmdProcessor.java:272-279 | foreach hands on the foreach step's output and continues just after the matching end. Without a matching end it fails and names the foreach line. |
| InterpreterLemmas.UnknownKeywordFails | src/main/java/org/ASUX/yaml/BatchCmdProcessor.java:526-558 | Any keyword other than `yaml` or `aws.sdk` is an unknown command. |
| InterpreterLemmas.AnyCommandCall | src/main/java/org/ASUX/yaml/BatchCmdProcessor.java:529-631 | The back end gets the line's tokens after the keyword, and the command's own quote style, or the processor's when the command has none. For `yaml` it also gets the context's library. The state is unchanged. |
| InterpreterLemmas.FailingBatchGivesEmpty | src/main/java/org/ASUX/yaml/BatchCmdProcessor.java:262-267 | A batch line whose script fails hands the empty document on, and the failure goes no further. |
| InterpreterLemmas.VerboseLineSetsNext | src/main/java/org/ASUX/yaml/BatchCmdProcessor.java:312-334 | A `verbose on` or `verbose off` line hands its input on, adds nothing to runcount, and the next statement runs with verbose as the line says. |
| InterpreterLemmas.PassThroughScript | src/main/java/org/ASUX/yaml/BatchCmdProcessor.java:303-321 | A script of only verbose, `print -` and non-negative sleep returns its input, and leaves the scopes and memory alone. |
| Processor.BatchCmdProcessor.constructor | src/main/java/org/ASUX/yaml/BatchCmdProcessor.java:101-110 | A new processor has runcount 0, empty scopes and no MemoryAndContext. |
| Processor.BatchCmdProcessor.SetMemoryAndContext | src/main/java/org/ASUX/yaml/BatchCmdProcessor.java:118-120 | Replaces the MemoryAndContext only. |
| Processor.BatchCmdProcessor.Go | src/main/java/org/ASUX/yaml/BatchCmdProcessor.java:177-216 | Result and new state are those of GoSpec. |
| Processor.BatchCmdProcessor.ProcessBatch | src/main/java/org/ASUX/yaml/BatchCmdProcessor.java:235-343 | The loop's result and new state are those of RunFrom, from the grammar's cursor. |
| Processor.BatchCmdProcessor.NextStatement | src/main/java/org/ASUX/yaml/BatchCmdProcessor.java:247-334 | One loop pass reads the next line and executes its statement. A statement that returns ends RunFrom. Otherwise RunFrom carries on from the next line with the statement's output and the grammar's verbose level. |
| Processor.BatchCmdProcessor.RefreshVerbose | src/main/java/org/ASUX/yaml/BatchCmdProcessor.java:334 | verbose becomes whether the line just read is `verbose on`, and nothing else changes. |
| Processor.BatchCmdProcessor.ExecuteStatement | src/main/java/org/ASUX/yaml/BatchCmdProcessor.java:256-330 | The switch on the line's kind does what Step says. |
| Processor.BatchCmdProcessor.LeaveLoop | src/main/java/org/ASUX/yaml/BatchCmdProcessor.java:280-285 | end returns its input with runcount + 1. debug --dump reaches the default case and exits with status 99. |
| Processor.BatchCmdProcessor.SubBatchLine | src/main/java/org/ASUX/yaml/BatchCmdProcessor.java:262-267 | A batch line does what Step says. |
| Processor.BatchCmdProcessor.ForeachLine | src/main/java/org/ASUX/yaml/BatchCmdProcessor.java:272-279 | A foreach line does what Step says. |
| Processor.BatchCmdProcessor.OtherLine | src/main/java/org/ASUX/yaml/BatchCmdProcessor.java:256-330 | Every other statement does what Step says. |
| Processor.BatchCmdProcessor.Perform | src/main/java/org/ASUX/yaml/BatchCmdProcessor.java:256-330 | The switch's effect is Effect. |
| Processor.BatchCmdProcessor.SkipInnerForeachLoops | src/main/java/org/ASUX/yaml/BatchCmdProcessor.java:376-403 | The cursor stops at the matching end. Otherwise the error names the starting line. |
| Processor.BatchCmdProcessor.ProcessSaveToLine | src/main/java/org/ASUX/yaml/BatchCmdProcessor.java:406-425 | Result and new state are those of SaveToRun. |
| Processor.BatchCmdProcessor.ProcessUseAsInputLine | src/main/java/org/ASUX/yaml/BatchCmdProcessor.java:432-453 | The result is that of UseAsInputRun. |
| Processor.BatchCmdProcessor.OnPropertyLineCmd | src/main/java/org/ASUX/yaml/BatchCmdProcessor.java:460-472 | Result and new state are those of PropertiesRun. |
| Processor.BatchCmdProcessor.OnPrintCmd | src/main/java/org/ASUX/yaml/BatchCmdProcessor.java:475-519 | The result is that of PrintRun. |
| Processor.BatchCmdProcessor.OnAnyCmd | src/main/java/org/ASUX/yaml/BatchCmdProcessor.java:522-631 | The result is that of AnyRun. |

## Left out

- Regular expressions: REGEXP_NAME, REGEXP_OBJECT_REFERENCE and the list of
  YAML libraries are defined outside the core. They are predicates of a
  `Lexicon`, and a capture is modelled as the longest accepted prefix.
  REGEXP_INLINEVALUE is modelled exactly. So is each pattern's `\s*$` ending
  (`Text.LineEnd`): `$` without MULTILINE also matches before one line
  terminator that ends the line, and U+0085, U+2028 and U+2029 are such
  terminators although `\s` does not match them.
- Outside code that is a parameter of `Env`, never modelled:
  - `Macros.eval`;
  - `StringUtils.removeBeginEndQuotes`;
  - `Properties.load`;
  - `convStr2Array` (opencsv tokenising);
  - the back ends reached by reflection (`CmdInvoker`, `CmdLineArgs.create`);
  - `processFOREACHCmd_Step1`, an abstract method; its cursor moves and side effects are not modelled;
  - `determineCmdType`, which adds the Properties, SetProperty, Print and Sleep kinds through `Env.extension`.
- Not modelled:
  - console output, `System.out` echoing, `isLine2bEchoed`, timing (`startTime`, `endTime`, `showStats`) and `Thread.sleep`;
  - `System.exit(91)` for an invalid pattern, and `System.exit(61)`, which the earlier family check makes unreachable;
  - `nextLineOrNull`, which is modelled as `nextLine`.
- Interpreter.SaveToRun: documents are values, so `deepClone` is the
  identity. processSaveToLine stores the clone and also hands on that same
  object as the current document (BatchCmdProcessor.java:416-418). A later
  statement that changed its input in place would therefore change the saved
  copy too. Statements here build new documents instead of updating their
  input, so that sharing is not modelled.
- The superclass `ScriptFileScanner` is not part of this model.
  - `nextLine` and `skipLine` are assumed to advance one line and reset the per-line fields.
  - `hasNextLine` is assumed to be "lines remain".
- Scopes: `FOREACH_PROPERTIES` and `SYSTEM_ENV` are not modelled. A properties
  file loaded under the key `GLOBALVARIABLES` does not alias the global scope
  that setProperty writes.
- Processor.BatchCmdProcessor.ProcessBatch: `batch` recursion is bounded by a
  `fuel` argument. When the fuel runs out, the run ends the way Java's
  uncaught StackOverflowError does.
- Interpreter.AnyRun: back-end side effects on the shared MemoryAndContext are
  not modelled, and the processor's quote style is a constant.
- Interpreter.Effect: `sleep` and `runcount` use unbounded integers, so `int`
  overflow is not modelled. `getPropertyKV` returning null, and a null print
  expression, are not modelled.
- Version reconciliation with the processor's switch:
  - `Cmd_Batch` is the grammar's `Cmd_SubBatch`;
  - `print -` (`Cmd_PrintDash`) behaves as `print` with expression `-`;
  - `debug --dump`, which has no case in the switch, falls to `System.exit(99)`.
- `getVerbose` is modelled as `getBatchVerbose`. The processor copies it in
  the Verbose case and again at the bottom of every pass. The model keeps only
  the second copy, which overwrites the first before anything but console
  output reads it. So, as the code reads,
  a `verbose on` line keeps the processor verbose for the rest of its own pass
  and through the whole next statement. The next statement's line then resets
  it, unless that line is another `verbose on`. The verbose flag passed to
  `Macros.eval` and to the back ends is not an argument of `Env`, so its
  effect on them is not modelled.
- InterpreterLemmas.OnlySaveToWritesMemory: covers only the statements the
  switch handles itself. A back end gets the shared MemoryAndContext and may
  write to it, but `Env.backend` returns only a document, so such writes are
  not modelled. The same holds for the saveTo lines inside a foreach body,
  which `Env.foreach` runs.
- Classifier.KeywordRest: `\s+` after a keyword is taken to consume all the
  whitespace. Java tries that split first and gives whitespace back only when
  the rest of the pattern then fails. So whenever the model's rule matches,
  Java's does too, with the same capture. They can differ only when a
  capture group accepts text that starts with whitespace. Here only
  useAsInput's inline value does, because its class contains a space. The
  name, reference and library patterns are taken to accept no such text.
- Classifier.UseAsInputArgs: one known difference remains on the trimmed
  lines the grammar reads (BatchFileGrammer.java:225). Take a useAsInput line
  where:
  - the keyword is followed by two or more whitespace characters, with a
    space somewhere after the first;
  - then comes only one final U+0085, U+2028 or U+2029.

  An example is `useAsInput`, two spaces, then U+2028. Java gives the spaces
  back and captures them as the inline value (BatchFileGrammer.java:66, 72).
  The model finds no argument, leaves the line to the later rules, and
  classifies it as `Any`.
- ClassifierLemmas.MakeNewRootFlags and ClassifierLemmas.DoubleSpacedFlagsRejected
  assume a name without whitespace. REGEXP_NAME is not part of this model;
  it is a `Lexicon` predicate. If it accepted a space, as the inline-value
  pattern it is kept in step with does, the greedy name could swallow flags,
  and `Classify` models that through `Longest`.
- Grammar.BatchFileGrammar.GetSaveTo, GetUseAsInput, GetMakeNewRoot and
  GetSubBatchFile do not restate that their argument satisfies the lexicon.
  Classify's contract states it.

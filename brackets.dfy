/**
 * Depth-counted matching of `foreach` ... `end` blocks, as both
 * BatchFileGrammer.skip2MatchingEnd and BatchCmdProcessor.skipInnerForeachLoops
 * perform it: a counter starts at 0, `foreach` adds one, `end` takes one away,
 * and the first `end` that takes the counter below zero is the match.
 *
 * The scan is stated over the statements of the lines (`KindsOf`), so that
 * it does not depend on how each line is recognised.
 */
module Brackets {
  import opened Wrappers
  import opened Classifier

  /** The statement of every line of a script, in order, as `classify` recognises them. */
  function KindsOf(classify: string -> Statement, lines: seq<string>): (ks: seq<Statement>)
    ensures |ks| == |lines|
  {
    seq(|lines|, i requires 0 <= i < |lines| => classify(lines[i]))
  }

  /** What one statement does to the nesting counter. */
  function Delta(s: Statement): int {
    if s == Foreach then 1 else if s == End then -1 else 0
  }

  /** The net nesting of a run of statements: `foreach` lines minus `end` lines. */
  function Depth(ks: seq<Statement>): int {
    if ks == [] then 0 else Delta(ks[0]) + Depth(ks[1..])
  }

  /**
   * The scan both skip loops perform: ks[pos..] are read one by one with the
   * counter at `level`; the result is the cursor (the 1-based number of the
   * line) at the matching `end`, or None when the lines run out first.
   */
  function MatchingEnd(ks: seq<Statement>, pos: nat, level: int): (r: Option<nat>)
    requires pos <= |ks|
    ensures r.Some? ==> pos < r.value <= |ks|
    decreases |ks| - pos
  {
    if pos == |ks| then None
    else
      var next := level + Delta(ks[pos]);
      if ks[pos] == End && next < 0 then Some(pos + 1)
      else MatchingEnd(ks, pos + 1, next)
  }

  /**
   * What the scan finds, stated through Depth: the match is an `end` line at
   * which the nesting of the lines read so far first drops below zero; no
   * match means the nesting never drops below zero up to the last line.
   */
  lemma {:induction false} MatchingEndSpec(ks: seq<Statement>, pos: nat, level: int)
    requires pos <= |ks| && level >= 0
    ensures MatchingEnd(ks, pos, level).Some? ==>
      var m := MatchingEnd(ks, pos, level).value;
      ks[m - 1] == End && level + Depth(ks[pos..m]) == -1 &&
      forall k :: pos <= k < m ==> level + Depth(ks[pos..k]) >= 0
    ensures MatchingEnd(ks, pos, level).None? ==>
      forall k :: pos <= k <= |ks| ==> level + Depth(ks[pos..k]) >= 0
    decreases |ks| - pos
  {
    assert ks[pos..pos] == [];
    if pos < |ks| {
      var next := level + Delta(ks[pos]);
      assert forall k :: pos < k <= |ks| ==> ks[pos..k][1..] == ks[pos + 1..k];
      assert forall k :: pos < k <= |ks| ==> Depth(ks[pos..k]) == Delta(ks[pos]) + Depth(ks[pos + 1..k]);
      if ks[pos] == End && next < 0 {
        assert ks[pos..pos + 1][1..] == [];
      } else {
        MatchingEndSpec(ks, pos + 1, next);
      }
    }
  }

  /**
   * The converse: an `end` at which the nesting first drops below zero is the
   * match the scan finds.
   */
  lemma MatchingEndAt(ks: seq<Statement>, pos: nat, level: int, m: nat)
    requires level >= 0 && pos < m <= |ks|
    requires level + Depth(ks[pos..m]) < 0
    requires forall k :: pos <= k < m ==> level + Depth(ks[pos..k]) >= 0
    ensures MatchingEnd(ks, pos, level) == Some(m)
  {
    MatchingEndSpec(ks, pos, level);
  }

  /** Lines that are neither `foreach` nor `end` leave the scan where it was. */
  lemma {:induction false} MatchingEndSkipsPlain(ks: seq<Statement>, pos: nat, level: int, q: nat)
    requires pos <= q <= |ks|
    requires forall k :: pos <= k < q ==> ks[k] != Foreach && ks[k] != End
    ensures MatchingEnd(ks, pos, level) == MatchingEnd(ks, q, level)
    decreases q - pos
  {
    if pos < q {
      MatchingEndSkipsPlain(ks, pos + 1, level, q);
    }
  }
}

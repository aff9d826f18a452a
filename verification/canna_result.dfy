/**
 `Canna::Result`: a branch-aware authorization decision.

 A result is built in one of two modes. In `Can` mode the caller expects the
 check to succeed and the construction block is the happy path; in `Cannot`
 mode the caller expects a denial and the construction block is the deny
 path. `Else` runs the other path. Mode, success and reason are fixed at
 construction; only `value` is written, by whichever block ran last.
 */
module Canna {
  import opened Ruby

  /** The `type` reader: `:can` or `:cannot`. */
  datatype Mode = Can | Cannot

  /** The instance variables of a result: `@type`, `@success`, `@reason`, `@value`.
      `reason` and `value` read as `nil` when never assigned. */
  datatype Result = Result(mode: Mode, success: bool, reason: Value, value: Value)

  /** The outcome matched what the mode expected: success under `Can`,
      denial under `Cannot`. */
  predicate AsExpected(mode: Mode, success: bool) {
    success <==> mode == Can
  }

  /** The arguments a block of this result is called with: nothing on
      success, the reason on a denial. */
  function BlockArgs(r: Result): Args {
    if r.success then [] else [r.reason]
  }

  /** The condition under which `initialize` calls its block. */
  predicate ConstructionFires(mode: Mode, outcome: Value) {
    (mode == Can && outcome == True) || (mode == Cannot && outcome != True)
  }

  /** The condition under which `else` calls its block. */
  predicate ElseFires(r: Result) {
    (r.mode == Can && !r.success) || (r.mode == Cannot && r.success)
  }

  /** `initialize(type, true_or_reason, &block)`. */
  function Init(mode: Mode, outcome: Value, block: Option<Block>): (r: Result)
    ensures r.mode == mode
    ensures r.success <==> outcome == True
    ensures r.success ==> r.reason == Nil
    ensures !r.success ==> r.reason == outcome
    ensures block.Some? && AsExpected(mode, r.success) ==> r.value == block.value(BlockArgs(r))
    ensures block.None? || !AsExpected(mode, r.success) ==> r.value == Nil
  {
    var success := outcome == True;
    var reason := if success then Nil else outcome;
    match block
    case None => Result(mode, success, reason, Nil)
    case Some(b) =>
      if mode == Can && success then Result(mode, success, reason, b([]))
      else if mode == Cannot && !success then Result(mode, success, reason, b([reason]))
      else Result(mode, success, reason, Nil)
  }

  /** `Result.can(true_or_reason, &block)`. */
  function MakeCan(outcome: Value, block: Option<Block>): (r: Result)
    ensures r.mode == Can
    ensures r.success <==> outcome == True
    ensures outcome == True ==> r.reason == Nil && r.value == (if block.Some? then block.value([]) else Nil)
    ensures outcome != True ==> r.reason == outcome && r.value == Nil
  {
    Init(Can, outcome, block)
  }

  /** `Result.cannot(true_or_reason, &block)`. */
  function MakeCannot(outcome: Value, block: Option<Block>): (r: Result)
    ensures r.mode == Cannot
    ensures r.success <==> outcome == True
    ensures outcome == True ==> r.reason == Nil && r.value == Nil
    ensures outcome != True ==> r.reason == outcome && r.value == (if block.Some? then block.value([outcome]) else Nil)
  {
    Init(Cannot, outcome, block)
  }

  /** `else(&block)`: returns the result with `value` replaced by the
      block's answer exactly when the outcome went against the mode. The
      source updates the object in place and returns `self`. */
  function Else(r: Result, block: Block): (r': Result)
    ensures r'.mode == r.mode && r'.success == r.success && r'.reason == r.reason
    ensures !AsExpected(r.mode, r.success) ==> r'.value == block(BlockArgs(r))
    ensures AsExpected(r.mode, r.success) ==> r' == r
  {
    if r.mode == Can && !r.success then r.(value := block([r.reason]))
    else if r.mode == Cannot && r.success then r.(value := block([]))
    else r
  }

  /** The two firing conditions of the source are complementary on every
      constructed result: exactly one of the construction block and the
      `else` block can run. */
  lemma HandlersExclusive(mode: Mode, outcome: Value, block: Option<Block>)
    ensures ConstructionFires(mode, outcome) <==> !ElseFires(Init(mode, outcome, block))
    ensures ConstructionFires(mode, outcome) <==> AsExpected(mode, outcome == True)
  {
    var r := Init(mode, outcome, block);
    assert r.success <==> outcome == True;
  }

  /** Whatever the outcome, a result built with block `h` and then given an
      `else` block `g` ends up holding the answer of exactly one of them,
      called with nothing on success and with the reason on a denial. */
  lemma ExactlyOneBlockRuns(mode: Mode, outcome: Value, h: Block, g: Block)
    ensures var r := Init(mode, outcome, Some(h));
            var r' := Else(r, g);
            && (ConstructionFires(mode, outcome) ==> r'.value == h(BlockArgs(r)))
            && (!ConstructionFires(mode, outcome) ==> r'.value == g(BlockArgs(r)))
            && (outcome == True ==> BlockArgs(r) == [])
            && (outcome != True ==> BlockArgs(r) == [outcome])
  {
    HandlersExclusive(mode, outcome, Some(h));
  }

  /** `else` may be chained: a second call whose block fires overwrites
      the first answer, and one whose block does not fire returns the result
      unchanged. Mode, success and reason survive any chain. */
  lemma ElseChain(r: Result, g1: Block, g2: Block)
    ensures Else(Else(r, g1), g2).mode == r.mode
    ensures Else(Else(r, g1), g2).success == r.success
    ensures Else(Else(r, g1), g2).reason == r.reason
    ensures ElseFires(r) ==> Else(Else(r, g1), g2).value == g2(BlockArgs(r))
    ensures !ElseFires(r) ==> Else(Else(r, g1), g2) == r
  {
  }
}

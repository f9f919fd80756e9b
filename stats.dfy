/**
 * The JIT's statistics: the bank of named u64 counters (`COUNTERS`) and the
 * per-instruction side-exit counts (`EXIT_OP_COUNT`) of yjit/src/stats.rs,
 * with the primitives that bump, reset and report them.
 *
 * Counters are Rust `u64` fields incremented with `+= 1`; the model wraps at
 * 2^64 as a release build does.
 */
module Stats {
  import opened Utils

  /** One constructor per counter declared with `make_counters!`, in declaration order. */
  datatype Counter =
      ExecInstruction
    | SendKeywords
    | SendKwSplat
    | SendArgsSplat
    | SendBlockArg
    | SendIvarSetMethod
    | SendZsuperMethod
    | SendUndefMethod
    | SendOptimizedMethod
    | SendOptimizedMethodSend
    | SendOptimizedMethodCall
    | SendOptimizedMethodBlockCall
    | SendMissingMethod
    | SendBmethod
    | SendRefinedMethod
    | SendCfuncRubyArrayVarg
    | SendCfuncArgcMismatch
    | SendCfuncToomanyArgs
    | SendCfuncTracing
    | SendCfuncKwargs
    | SendAttrsetKwargs
    | SendIseqTailcall
    | SendIseqArityError
    | SendIseqOnlyKeywords
    | SendIseqKwargsReqAndOptMissing
    | SendIseqKwargsMismatch
    | SendIseqComplexCallee
    | SendNotImplementedMethod
    | SendGetterArity
    | SendSeCfOverflow
    | SendSeProtectedCheckFailed
    | TracedCfuncReturn
    | InvokesuperMeChanged
    | InvokesuperBlock
    | LeaveSeInterrupt
    | LeaveInterpReturn
    | LeaveStartPcNonZero
    | GetivarSeSelfNotHeap
    | GetivarIdxOutOfRange
    | GetivarMegamorphic
    | SetivarSeSelfNotHeap
    | SetivarIdxOutOfRange
    | SetivarValHeapobject
    | SetivarNameNotMapped
    | SetivarNotObject
    | SetivarFrozen
    | OarefArgcNotOne
    | OarefArgNotFixnum
    | OptGetinlinecacheMiss
    | BindingAllocations
    | BindingSet
    | VmInsnsCount
    | CompiledIseqCount
    | CompiledBlockCount
    | CompilationFailure
    | ExitFromBranchStub
    | InvalidationCount
    | InvalidateMethodLookup
    | InvalidateBopRedefined
    | InvalidateRactorSpawn
    | InvalidateConstantStateBump
    | InvalidateConstantIcFill
    | ConstantStateBumps
    | ExpandarraySplat
    | ExpandarrayPostarg
    | ExpandarrayNotArray
    | ExpandarrayRhsTooSmall
    | GbppBlockParamModified
    | GbppBlockHandlerNotIseq

  /** The Ruby values these primitives return. */
  datatype StatsValue =
    | Qnil
    | Qtrue
    | Qfalse
      /** The hash built by the stats dictionary: the two code sizes and `all_stats: true`. */
    | StatsHash(inlineCodeSize: nat, outlinedCodeSize: nat, allStats: bool)

  /** A u64 `+= 1` without overflow checks. */
  function WrappingIncr(v: nat): (r: nat)
    requires v < U64_LIMIT
    ensures r < U64_LIMIT
    ensures r == (v + 1) % U64_LIMIT
  {
    if v == U64_LIMIT - 1 then 0 else v + 1
  }

  /** `v.wrapping_add(n)` on a u64: the sum modulo 2^64. */
  function WrappingAdd(v: nat, n: nat): (r: nat)
    ensures r < U64_LIMIT
    ensures v + n < U64_LIMIT ==> r == v + n
  {
    (v + n) % U64_LIMIT
  }

  /** Stepping a wrapped sum by one more increment is the wrapped sum of one more. */
  lemma WrappingIncrOfSum(v: nat, k: nat)
    requires v < U64_LIMIT
    ensures WrappingIncr(WrappingAdd(v, k)) == WrappingAdd(v, k + 1)
  {
  }

  class Counters {
    /** `COUNTERS`: the current value of every counter. */
    var counts: Counter -> nat
    /** `EXIT_OP_COUNT`: side exits per instruction, `VM_INSTRUCTION_SIZE` slots. */
    const exitOpCount: array<nat>

    ghost predicate Valid()
      reads this, exitOpCount
    {
      && (forall c: Counter :: counts(c) < U64_LIMIT)
      && (forall i :: 0 <= i < exitOpCount.Length ==> exitOpCount[i] < U64_LIMIT)
    }

    /** The statics as the program starts: every counter and every exit slot zero. */
    constructor (vmInstructionSize: nat)
      ensures Valid()
      ensures fresh(exitOpCount) && exitOpCount.Length == vmInstructionSize
      ensures forall c: Counter :: counts(c) == 0
      ensures forall i :: 0 <= i < exitOpCount.Length ==> exitOpCount[i] == 0
    {
      counts := _ => 0;
      exitOpCount := new nat[vmInstructionSize](_ => 0);
    }

    /** `incr_counter!(c)`: counter `c` goes up by one, every other counter stays. */
    method Incr(c: Counter)
      requires Valid()
      modifies this
      ensures Valid()
      ensures counts(c) == (old(counts(c)) + 1) % U64_LIMIT
      ensures forall d :: d != c ==> counts(d) == old(counts(d))
    {
      var before := counts;
      counts := d => if d == c then WrappingIncr(before(d)) else before(d);
    }

    /** `+= n` on a counter, as the C side adds a table's entry count. */
    method Add(c: Counter, n: nat)
      requires Valid()
      modifies this
      ensures Valid()
      ensures counts(c) == WrappingAdd(old(counts(c)), n)
      ensures forall d :: d != c ==> counts(d) == old(counts(d))
    {
      var before := counts;
      counts := d => if d == c then WrappingAdd(before(d), n) else before(d);
    }

    /** `rb_yjit_reset_stats_bang`: zero every exit slot and every counter; answers nil. */
    method ResetStatsBang() returns (r: StatsValue)
      requires Valid()
      modifies this, exitOpCount
      ensures Valid()
      ensures r == Qnil
      ensures forall c: Counter :: counts(c) == 0
      ensures forall i :: 0 <= i < exitOpCount.Length ==> exitOpCount[i] == 0
    {
      forall i | 0 <= i < exitOpCount.Length {
        exitOpCount[i] := 0;
      }
      counts := _ => 0;
      r := Qnil;
    }

    /** `rb_yjit_collect_vm_usage_insn`: one more interpreted instruction. */
    method CollectVmUsageInsn()
      requires Valid()
      modifies this
      ensures Valid()
      ensures counts(VmInsnsCount) == (old(counts(VmInsnsCount)) + 1) % U64_LIMIT
      ensures forall d :: d != VmInsnsCount ==> counts(d) == old(counts(d))
    {
      Incr(VmInsnsCount);
    }

    /** `rb_yjit_collect_binding_alloc`: one more binding allocated. */
    method CollectBindingAlloc()
      requires Valid()
      modifies this
      ensures Valid()
      ensures counts(BindingAllocations) == (old(counts(BindingAllocations)) + 1) % U64_LIMIT
      ensures forall d :: d != BindingAllocations ==> counts(d) == old(counts(d))
    {
      Incr(BindingAllocations);
    }

    /** `rb_yjit_collect_binding_set`: one more local set through a binding. */
    method CollectBindingSet()
      requires Valid()
      modifies this
      ensures Valid()
      ensures counts(BindingSet) == (old(counts(BindingSet)) + 1) % U64_LIMIT
      ensures forall d :: d != BindingSet ==> counts(d) == old(counts(d))
    {
      Incr(BindingSet);
    }
  }

  /**
   * `yjit_count_side_exit_op`: its counting is disabled, so it hands back the
   * exit PC it was given, which the caller must receive unchanged.
   */
  function CountSideExitOp(exitPc: nat): (r: nat)
    ensures r == exitPc
  {
    exitPc
  }

  /** `rb_yjit_stats_enabled_p`: true only in a build with the stats feature and with stats requested. */
  function StatsEnabledP(statsFeature: bool, genStats: bool): (r: StatsValue)
    ensures r == Qtrue || r == Qfalse
    ensures r == Qtrue <==> statsFeature && genStats
  {
    if statsFeature && genStats then Qtrue else Qfalse
  }

  /**
   * `rb_yjit_gen_stats_dict`: nil unless the JIT is on, stats were requested
   * and the build has the stats feature; otherwise the hash of the two code
   * sizes and `all_stats`. The loops meant to add the counters and the
   * exit-op counts have empty bodies, so they add nothing.
   */
  function GenStatsDict(yjitEnabled: bool, genStats: bool, statsFeature: bool,
                        inlineWritePos: nat, outlinedWritePos: nat): (r: StatsValue)
    ensures r == Qnil || r.StatsHash?
    ensures r == Qnil <==> !yjitEnabled || !genStats || !statsFeature
    ensures r.StatsHash? ==> r.inlineCodeSize == inlineWritePos && r.outlinedCodeSize == outlinedWritePos && r.allStats
  {
    if !yjitEnabled then Qnil
    else if !genStats then Qnil
    else if !statsFeature then Qnil
    else StatsHash(inlineWritePos, outlinedWritePos, true)
  }
}

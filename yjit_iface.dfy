/**
 * The C glue of the JIT (yjit_iface.c): installing compiled code on an
 * iseq, the callback run when a callable method entry becomes invalid, the
 * refinement callback, and the start-up guard.
 *
 * `cme_validity_dependency`, a possibly-NULL `st_table` from method entry to
 * a set of blocks, is an optional map. `YJIT_STATS` is a build setting and
 * comes in as a parameter. The counter it guards,
 * `yjit_runtime_counters.invalidate_method_lookup`, belongs to a C struct
 * that is not part of this model; the model stands it in with the
 * `InvalidateMethodLookup` slot of the counter bank, with its u64 wrap.
 */
module YjitIface {
  import opened Wrappers
  import opened Utils
  import opened Stats
  import opened YjitC
  import opened YjitInvariants

  /**
   * `rb_yjit_compile_iseq` given what the Rust entry-point generator
   * returned (`codePtr`, NULL when generation failed): the iseq's `jit_func`
   * becomes the code pointer, or 0 on failure, and the answer says whether
   * code was installed.
   */
  method CompileIseq(iseq: Iseq, codePtr: nat) returns (success: bool)
    modifies iseq
    ensures success <==> codePtr != NULL
    ensures success ==> iseq.jitFunc == codePtr
    ensures !success ==> iseq.jitFunc == 0
    ensures iseq.yjitPayload == old(iseq.yjitPayload)
  {
    success := true;
    if codePtr != NULL {
      iseq.jitFunc := codePtr;
    } else {
      iseq.jitFunc := 0;
      success := false;
    }
  }

  /** The C side's global tables. */
  class IfaceState {
    /** `cme_validity_dependency`: None while the table has not been created. */
    var cmeValidityDependency: Option<map<Cme, set<BlockRef>>>

    constructor ()
      ensures cmeValidityDependency == None
    {
      cmeValidityDependency := None;
    }

    /**
     * `rb_yjit_cme_invalidate`: when the table exists and has `cme`, delete
     * that entry and, with stats on, add its number of blocks to
     * `invalidate_method_lookup` (here the counter bank's slot of that
     * name). The per-block callback `block_set_invalidate_i` does nothing,
     * so no block is invalidated.
     * With no table, or no entry for `cme`, nothing changes.
     */
    method CmeInvalidate(cme: Cme, yjitStats: bool, counters: Counters)
      requires counters.Valid()
      modifies this, counters
      ensures counters.Valid()
      ensures old(cmeValidityDependency).None? ==> cmeValidityDependency == None
      ensures old(cmeValidityDependency).Some? ==>
        && cmeValidityDependency == Some(old(cmeValidityDependency).value - {cme})
        && cme !in cmeValidityDependency.value
      ensures var deleted := old(cmeValidityDependency).Some? && cme in old(cmeValidityDependency).value;
        counters.counts(InvalidateMethodLookup) ==
          if deleted && yjitStats
          then WrappingAdd(old(counters.counts(InvalidateMethodLookup)), |old(cmeValidityDependency).value[cme]|)
          else old(counters.counts(InvalidateMethodLookup))
      ensures forall c :: c != InvalidateMethodLookup ==> counters.counts(c) == old(counters.counts(c))
    {
      if cmeValidityDependency.None? {
        return;
      }
      var table := cmeValidityDependency.value;
      if cme in table {
        var blockSet := table[cme];
        cmeValidityDependency := Some(table - {cme});
        if yjitStats {
          counters.Add(InvalidateMethodLookup, |blockSet|);
        }
        var visited := BlockSetInvalidate(blockSet);
        // `st_free_table(block_set)` follows; memory is not modelled.
      } else {
        assert table - {cme} == table;
      }
    }

    /**
     * `rb_yjit_invalidate_all_method_lookup_assumptions`: `Module#using`
     * needs no invalidation yet, so it leaves every table as it is.
     */
    method InvalidateAllMethodLookupAssumptions()
      modifies this
      ensures cmeValidityDependency == old(cmeValidityDependency)
    {
    }
  }

  /**
   * `st_foreach(block_set, block_set_invalidate_i, 0)`: the callback's body
   * is commented out, so visiting every block has no effect. The C call's
   * result is unused; `visited` only witnesses that every block of the set
   * was visited once.
   */
  method BlockSetInvalidate(blockSet: set<BlockRef>) returns (visited: nat)
    ensures visited == |blockSet|
  {
    visited := 0;
    var rest := blockSet;
    while rest != {}
      invariant rest <= blockSet
      invariant visited + |rest| == |blockSet|
      decreases |rest|
    {
      var block :| block in rest;
      rest := rest - {block};
      visited := visited + 1;
    }
  }

  /** The cme table after the callback has no entry for the invalidated entry, and only that entry went. */
  method CmeInvalidateRemovesOnlyThatEntry(state: IfaceState, cme: Cme, other: Cme, counters: Counters)
    requires counters.Valid() && state.cmeValidityDependency.Some?
    requires other != cme && other in state.cmeValidityDependency.value
    modifies state, counters
    ensures state.cmeValidityDependency.Some?
    ensures cme !in state.cmeValidityDependency.value
    ensures other in state.cmeValidityDependency.value
    ensures state.cmeValidityDependency.value[other] == old(state.cmeValidityDependency.value[other])
  {
    state.CmeInvalidate(cme, true, counters);
  }

  /**
   * `rb_yjit_init`'s guard: the Rust initialisation runs only on a supported
   * platform with the JIT enabled.
   */
  function InitRunsRustInit(platformSupported: bool, jitEnabled: bool): (runs: bool)
    ensures !platformSupported ==> !runs
    ensures !jitEnabled ==> !runs
    ensures platformSupported && jitEnabled ==> runs
  {
    !(!platformSupported || !jitEnabled)
  }
}

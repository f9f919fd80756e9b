/**
 * The assumption tracker of yjit/src/invariants.rs: the global `INVARIANTS`
 * record of which compiled blocks assume that a basic operator is not
 * redefined, that a callable method entry stays valid, and that a method
 * lookup stays stable; and the callbacks that invalidate those blocks when
 * an assumption breaks.
 *
 * Blocks, classes, method ids and method entries are opaque ids. The
 * external `invalidate_block_version` is modelled only by its effect on
 * the ghost multiset `invalidated`, which records every invalidation call.
 */
module YjitInvariants {
  import opened Utils
  import opened Stats

  /** A compiled block (`BlockRef`), known only by identity. */
  type BlockRef = nat
  /** `RedefinitionFlag`: the bit naming the class whose operator is assumed. */
  type RedefinitionFlag = nat
  /** `ruby_basic_operators`: the index of a basic operator. */
  type BasicOperator = nat
  /** A class `VALUE`. */
  type ClassValue = nat
  /** A method name `ID`. */
  type MethodId = nat

  const INTEGER_REDEFINED_OP_FLAG: RedefinitionFlag := 1
  const STRING_REDEFINED_OP_FLAG: RedefinitionFlag := 4
  const BOP_PLUS: BasicOperator := 0

  /**
   * A callable method entry: its address and the name it was called by.
   * The tables key it by pointer; `calledId` is a field of the entry at
   * `addr`, so two entries with the same `addr` always agree on it.
   */
  datatype Cme = Cme(addr: nat, calledId: MethodId)

  datatype MethodLookupDependency = MethodLookupDependency(block: BlockRef, mid: MethodId)

  /** The blocks of a list of lookup dependencies, in order. */
  function DepBlocks(deps: seq<MethodLookupDependency>): (r: seq<BlockRef>)
    ensures |r| == |deps|
    ensures forall i :: 0 <= i < |deps| ==> r[i] == deps[i].block
  {
    seq(|deps|, i requires 0 <= i < |deps| => deps[i].block)
  }

  /** `map.entry(k).or_insert(Vec::new())` read as a value: the list at `k`, or the empty list. */
  function ListAt<K, V>(m: map<K, seq<V>>, k: K): (r: seq<V>)
    ensures k in m ==> r == m[k]
    ensures k !in m ==> r == []
  {
    if k in m then m[k] else []
  }

  /** The inner table of `method_lookup` for a class, or the empty one. */
  function TableAt(m: map<ClassValue, map<MethodId, seq<MethodLookupDependency>>>, klass: ClassValue)
    : (r: map<MethodId, seq<MethodLookupDependency>>)
    ensures klass in m ==> r == m[klass]
    ensures klass !in m ==> r == map[]
  {
    if klass in m then m[klass] else map[]
  }

  class Invariants {
    var basicOperators: map<(RedefinitionFlag, BasicOperator), seq<BlockRef>>
    var cmeValidity: map<Cme, seq<BlockRef>>
    var methodLookup: map<ClassValue, map<MethodId, seq<MethodLookupDependency>>>
    /** Every call of `invalidate_block_version` so far, with multiplicity. */
    ghost var invalidated: multiset<BlockRef>

    /** Every lookup dependency is filed under the method id it records. */
    ghost predicate Valid()
      reads this
    {
      forall klass, mid | klass in methodLookup && mid in methodLookup[klass] ::
        forall i | 0 <= i < |methodLookup[klass][mid]| :: methodLookup[klass][mid][i].mid == mid
    }

    /** `Invariants::init`: all three tables start empty. */
    constructor Init()
      ensures Valid()
      ensures basicOperators == map[] && cmeValidity == map[] && methodLookup == map[]
      ensures invalidated == multiset{}
    {
      basicOperators := map[];
      cmeValidity := map[];
      methodLookup := map[];
      invalidated := multiset{};
    }

    /**
     * `get_bop_assumptions`: the list of blocks assuming `bop` is not
     * redefined on `klass`, inserting an empty list when there is none.
     */
    method GetBopAssumptions(klass: RedefinitionFlag, bop: BasicOperator) returns (blocks: seq<BlockRef>)
      modifies this
      ensures (klass, bop) in basicOperators && blocks == basicOperators[(klass, bop)]
      ensures blocks == ListAt(old(basicOperators), (klass, bop))
      ensures basicOperators == old(basicOperators)[(klass, bop) := blocks]
      ensures cmeValidity == old(cmeValidity) && methodLookup == old(methodLookup)
      ensures invalidated == old(invalidated)
    {
      if (klass, bop) !in basicOperators {
        basicOperators := basicOperators[(klass, bop) := []];
      }
      blocks := basicOperators[(klass, bop)];
    }

    /**
     * `assume_bop_not_redefined`: when the operator is still unredefined
     * (`unredefined`, the value of `BASIC_OP_UNREDEFINED_P`), append the
     * block to the `(klass, bop)` list and answer true; otherwise answer
     * false and change nothing.
     */
    method AssumeBopNotRedefined(block: BlockRef, klass: RedefinitionFlag, bop: BasicOperator, unredefined: bool)
      returns (ok: bool)
      requires Valid()
      modifies this
      ensures Valid()
      ensures ok == unredefined
      ensures ok ==> basicOperators == old(basicOperators)[(klass, bop) := ListAt(old(basicOperators), (klass, bop)) + [block]]
      ensures !ok ==> basicOperators == old(basicOperators)
      ensures cmeValidity == old(cmeValidity) && methodLookup == old(methodLookup)
      ensures invalidated == old(invalidated)
    {
      if unredefined {
        var blocks := GetBopAssumptions(klass, bop);
        basicOperators := basicOperators[(klass, bop) := blocks + [block]];
        return true;
      } else {
        return false;
      }
    }

    /**
     * `assume_method_lookup_stable`: file the block under the method entry
     * and under the receiver class and the entry's called id.
     */
    method AssumeMethodLookupStable(block: BlockRef, receiverKlass: ClassValue, calleeCme: Cme)
      requires Valid()
      modifies this
      ensures Valid()
      ensures cmeValidity == old(cmeValidity)[calleeCme := ListAt(old(cmeValidity), calleeCme) + [block]]
      ensures var inner := TableAt(old(methodLookup), receiverKlass);
        methodLookup == old(methodLookup)[receiverKlass := inner[calleeCme.calledId :=
          ListAt(inner, calleeCme.calledId) + [MethodLookupDependency(block, calleeCme.calledId)]]]
      ensures basicOperators == old(basicOperators)
      ensures invalidated == old(invalidated)
    {
      cmeValidity := cmeValidity[calleeCme := ListAt(cmeValidity, calleeCme) + [block]];
      var mid := calleeCme.calledId;
      var inner := TableAt(methodLookup, receiverKlass);
      var deps := ListAt(inner, mid) + [MethodLookupDependency(block, mid)];
      methodLookup := methodLookup[receiverKlass := inner[mid := deps]];
    }

    /** One round of that loop: `invalidate_block_version(block)` and `incr_counter!(counter)`. */
    method InvalidateOne(block: BlockRef, counter: Counter, counters: Counters)
      requires counters.Valid()
      modifies this, counters
      ensures counters.Valid()
      ensures invalidated == old(invalidated) + multiset{block}
      ensures counters.counts(counter) == WrappingIncr(old(counters.counts(counter)))
      ensures forall c :: c != counter ==> counters.counts(c) == old(counters.counts(c))
      ensures basicOperators == old(basicOperators) && cmeValidity == old(cmeValidity)
      ensures methodLookup == old(methodLookup)
    {
      invalidated := invalidated + multiset{block};
      counters.Incr(counter);
    }

    /**
     * The loop both invalidation callbacks run: call
     * `invalidate_block_version` on each block in order and bump `counter`
     * once per block. No table changes.
     */
    method InvalidateEach(blocks: seq<BlockRef>, counter: Counter, counters: Counters)
      requires counters.Valid()
      modifies this, counters
      ensures counters.Valid()
      ensures invalidated == old(invalidated) + multiset(blocks)
      ensures counters.counts(counter) == WrappingAdd(old(counters.counts(counter)), |blocks|)
      ensures forall c :: c != counter ==> counters.counts(c) == old(counters.counts(c))
      ensures basicOperators == old(basicOperators) && cmeValidity == old(cmeValidity)
      ensures methodLookup == old(methodLookup)
    {
      for i := 0 to |blocks|
        invariant counters.Valid()
        invariant invalidated == old(invalidated) + multiset(blocks[..i])
        invariant counters.counts(counter) == WrappingAdd(old(counters.counts(counter)), i)
        invariant forall c :: c != counter ==> counters.counts(c) == old(counters.counts(c))
        invariant basicOperators == old(basicOperators) && cmeValidity == old(cmeValidity)
        invariant methodLookup == old(methodLookup)
      {
        assert blocks[..i + 1] == blocks[..i] + [blocks[i]];
        WrappingIncrOfSum(old(counters.counts(counter)), i);
        InvalidateOne(blocks[i], counter, counters);
      }
      assert blocks[..|blocks|] == blocks;
    }

    /**
     * `rb_yjit_bop_redefined`: invalidate every block assuming the operator,
     * bumping `invalidate_bop_redefined` once per block. The list itself
     * stays in the table (an empty one is inserted when there was none).
     */
    method BopRedefined(klass: RedefinitionFlag, bop: BasicOperator, counters: Counters)
      requires Valid() && counters.Valid()
      modifies this, counters
      ensures Valid() && counters.Valid()
      ensures var blocks := ListAt(old(basicOperators), (klass, bop));
        && invalidated == old(invalidated) + multiset(blocks)
        && counters.counts(InvalidateBopRedefined) == WrappingAdd(old(counters.counts(InvalidateBopRedefined)), |blocks|)
      ensures forall c :: c != InvalidateBopRedefined ==> counters.counts(c) == old(counters.counts(c))
      ensures basicOperators == old(basicOperators)[(klass, bop) := ListAt(old(basicOperators), (klass, bop))]
      ensures cmeValidity == old(cmeValidity) && methodLookup == old(methodLookup)
    {
      var blocks := GetBopAssumptions(klass, bop);
      InvalidateEach(blocks, InvalidateBopRedefined, counters);
    }

    /** `remove_entry` on the inner table of `klass`: take out the list filed under `mid`. */
    method RemoveLookupEntry(klass: ClassValue, mid: MethodId) returns (deps: seq<MethodLookupDependency>)
      requires Valid() && klass in methodLookup && mid in methodLookup[klass]
      modifies this
      ensures Valid()
      ensures deps == old(methodLookup)[klass][mid]
      ensures forall i :: 0 <= i < |deps| ==> deps[i].mid == mid
      ensures methodLookup == old(methodLookup)[klass := old(methodLookup)[klass] - {mid}]
      ensures basicOperators == old(basicOperators) && cmeValidity == old(cmeValidity)
      ensures invalidated == old(invalidated)
    {
      deps := methodLookup[klass][mid];
      methodLookup := methodLookup[klass := methodLookup[klass] - {mid}];
    }

    /**
     * `rb_yjit_method_lookup_change`: when `klass` has an entry for `mid`,
     * remove that entry and invalidate each of its blocks, bumping
     * `invalidate_method_lookup` once per block. Every other class and
     * method id keeps its list, and an absent class gets no entry.
     */
    method MethodLookupChange(klass: ClassValue, mid: MethodId, counters: Counters)
      requires Valid() && counters.Valid()
      modifies this, counters
      ensures Valid() && counters.Valid()
      ensures klass in old(methodLookup) && mid in old(methodLookup)[klass] ==>
        var deps := old(methodLookup)[klass][mid];
        && methodLookup == old(methodLookup)[klass := old(methodLookup)[klass] - {mid}]
        && (forall i :: 0 <= i < |deps| ==> deps[i].mid == mid)
        && invalidated == old(invalidated) + multiset(DepBlocks(deps))
        && counters.counts(InvalidateMethodLookup) == WrappingAdd(old(counters.counts(InvalidateMethodLookup)), |deps|)
      ensures !(klass in old(methodLookup) && mid in old(methodLookup)[klass]) ==>
        methodLookup == old(methodLookup) && invalidated == old(invalidated) &&
        counters.counts(InvalidateMethodLookup) == old(counters.counts(InvalidateMethodLookup))
      ensures forall c :: c != InvalidateMethodLookup ==> counters.counts(c) == old(counters.counts(c))
      ensures basicOperators == old(basicOperators) && cmeValidity == old(cmeValidity)
    {
      if klass in methodLookup && mid in methodLookup[klass] {
        var deps := RemoveLookupEntry(klass, mid);
        InvalidateEach(DepBlocks(deps), InvalidateMethodLookup, counters);
      }
    }
  }

  /**
   * The unit test `test_get_bop_assumptions`: with one block filed under
   * Integer#+ and one under String#+, the Integer#+ list has length one,
   * so the two keys do not alias.
   */
  method TestGetBopAssumptions(block: BlockRef) returns (len: nat)
    ensures len == 1
  {
    var invariants := new Invariants.Init();
    invariants.basicOperators := invariants.basicOperators[(INTEGER_REDEFINED_OP_FLAG, BOP_PLUS) := [block]];
    invariants.basicOperators := invariants.basicOperators[(STRING_REDEFINED_OP_FLAG, BOP_PLUS) := [block]];
    var blocks := invariants.GetBopAssumptions(INTEGER_REDEFINED_OP_FLAG, BOP_PLUS);
    len := |blocks|;
  }

  /**
   * A block that assumed an operator unredefined is invalidated when that
   * operator is redefined, however many blocks were filed before it.
   */
  method AssumedBlockIsInvalidated(invariants: Invariants, counters: Counters,
                                   block: BlockRef, klass: RedefinitionFlag, bop: BasicOperator)
    requires invariants.Valid() && counters.Valid()
    modifies invariants, counters
    ensures block in invariants.invalidated
  {
    var ok := invariants.AssumeBopNotRedefined(block, klass, bop, true);
    invariants.BopRedefined(klass, bop, counters);
  }
}

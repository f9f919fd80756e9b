# YJIT bookkeeping and object.c class logic, in Dafny

This project models two parts of the Ruby interpreter's sources.

The first part is the bookkeeping of the YJIT just-in-time compiler, without the code generator:

- **The assumption tracker** (`yjit/src/invariants.rs`). It files each compiled block under the assumptions it relies on:
  - that a basic operator of a class is not redefined;
  - that a callable method entry (cme) stays valid;
  - that a method lookup on a class stays stable.
  When an assumption breaks, it invalidates those blocks.
- **The C-side dependency table and callbacks** (`yjit_iface.c`).
- **The iseq accessors and predicates** (`yjit.c`): the set-once payload slot, program-counter indexing, the lead-arguments-only and leaf-builtin checks, the control-frame setters and the page-size query.
- **The option parser** (`yjit/src/options.rs`).
- **The statistics counter bank** (`yjit/src/stats.rs`).
- **The integer widenings** (`yjit/src/utils.rs`).

The second part is the comparison logic of `object.c`:

- the boolean operators of `true`, `false` and `nil`;
- the ancestor search along the superclass chain, and the superclass-array fast path between two ordinary classes;
- the tri-state module comparisons `<=`, `<`, `>=`, `>` and `<=>`;
- `rb_class_real` and `Class#superclass`;
- the `A::B::C` constant-path tokenizer;
- the `to_*` conversion-name table;
- the validation of boolean keyword values.

## How the model is built

Each source file is one module:

| file | module | source |
|---|---|---|
| `wrappers.dfy` | `Wrappers` | `Option` and `Result` |
| `utils.dfy` | `Utils` | `yjit/src/utils.rs` |
| `text.dfy` | `Text` | character search, used by the next two |
| `options.dfy` | `Options` | `yjit/src/options.rs` |
| `stats.dfy` | `Stats` | `yjit/src/stats.rs` |
| `invariants.dfy` | `YjitInvariants` | `yjit/src/invariants.rs` |
| `yjit_c.dfy` | `YjitC` | `yjit.c` |
| `yjit_iface.dfy` | `YjitIface` | `yjit_iface.c` |
| `object_values.dfy` | `ObjectValues` | `object.c`, value-level functions |
| `const_path.dfy` | `ConstPath` | `object.c`, the constant-path tokenizer |
| `object_classes.dfy` | `ObjectClasses` | `object.c`, class-hierarchy functions |

Global state that the source changes in place is a Dafny class whose methods carry `modifies` clauses:

- `INVARIANTS` is `YjitInvariants.Invariants`.
- `OPTIONS` is `Options.GlobalOptions`.
- `COUNTERS` and `EXIT_OP_COUNT` are `Stats.Counters`; the exit-op counts are an `array`.
- `cme_validity_dependency` is `YjitIface.IfaceState`.
- The iseq body fields the JIT writes are `YjitC.Iseq`, and a control frame is `YjitC.ControlFrame`.

Loops in the source are loops here, each proved against a specification function or against an explicit new state:

- the invalidation loops of `rb_yjit_bop_redefined` and `rb_yjit_method_lookup_change`;
- the walk over a removed block set;
- `conv_method_index`;
- `class_search_ancestor`, `rb_class_real` and `rb_class_superclass`;
- the two nested loops of the constant-path tokenizer.

The pure parts are functions, with lemmas relating them:

- the iseq predicates;
- `rb_class_inherited_p` and the comparisons;
- the option-string splitting;
- the widenings.

### Abstractions

Blocks, method ids, classes and cmes are opaque numbers. `invalidate_block_version` is not part of this model. Its only modelled effect is to add the block to the ghost multiset `Invariants.invalidated`, so "every registered block is invalidated" can be stated.

Some values the source reads from the running VM are parameters instead:

- `BASIC_OP_UNREDEFINED_P`;
- what the Rust entry-point generator returned;
- what `sysconf(_SC_PAGESIZE)` returned;
- whether the JIT is enabled, the platform supported, or the stats build feature on;
- the instruction table of `insns.inc`: the opcode of an encoded word, and instruction lengths.

Counters are Rust `u64`s incremented with `+= 1`. In a release build that wraps, so the model wraps modulo 2^64.

`usize` is 64 bits wide wherever the JIT runs. The widenings take the pointer width as a parameter, because `u16::as_usize` and `u8::as_usize` exist on every target.

A `rb_raise` or a fatal `rb_bug` becomes the `Err` case of a `Result` carrying the exception kind.

The class heap is a finite map from addresses to class records. Each record holds:

- the kind (class, module or iclass);
- `super`;
- the singleton flag;
- the method-table address;
- the origin;
- the superclass array.

A ghost rank that drops along each `super` link makes every chain finite.

The superclass array is built in class.c, which is not part of this model. Here its layout is the invariant `WellFormed`: for an ordinary class, the array lists its non-iclass superclasses, nearest first. Under that layout, the index `cl_num - c_num - 1` that object.c reads at line 782 is exactly where `c` sits if it is an ancestor. `FastPathAgrees` proves that the fast path and the chain walk always agree.

Two more facts are part of the invariant: an ordinary class's method table is its own (only iclasses share one with their module), and every origin is in the heap.

## Model

| member | source | states |
|---|---|---|
| `Utils.TryIntoUsize` | yjit/src/utils.rs:54-62 | the checked conversion succeeds exactly when the value fits the target's usize, and then yields the value |
| `Utils.U64AsUsize` | yjit/src/utils.rs:18-23 | on a 64-bit target `u64::as_usize` keeps the value and agrees with the checked conversion |
| `Utils.U32AsUsize` | yjit/src/utils.rs:25-30 | on a 64-bit target `u32::as_usize` keeps the value and agrees with the checked conversion |
| `Utils.U16AsUsize` | yjit/src/utils.rs:32-38 | on every target width `u16::as_usize` keeps the value and agrees with the checked conversion |
| `Utils.U8AsUsize` | yjit/src/utils.rs:40-46 | on every target width `u8::as_usize` keeps the value and agrees with the checked conversion |
| `Utils.MinMaxPreservedAfterCastToUsize` | yjit/src/utils.rs:50-63 | the minimum and maximum of u64 and u32 widen to the same usize as the checked conversion |
| `Options.SplitOnce` | yjit/src/options.rs:59 | no parts when the separator is absent; otherwise the text before the first separator (which contains none) and the text after it, which rejoin to the input |
| `Options.OptionParts` | yjit/src/options.rs:59-61 | the name never contains `=`; name `=` value is the input when it has a `=`, else the name is the whole input and the value is empty |
| `Options.OptionPartsRoundTrip` | yjit/src/options.rs:59-61 | splitting `name=value` for a name without `=` gives back the name and the value |
| `Options.ParseUsize` | yjit/src/options.rs:66-69 | a successful `parse::<usize>()` yields a value below 2^64; the empty string is refused |
| `Options.ParseUsizeRoundTrip` | yjit/src/options.rs:65-84 | every usize value printed in decimal parses back to itself |
| `Options.ParseUsizeAccepts` | yjit/src/options.rs:65-84 | an accepted number string is an optional `+` and a non-empty run of digits that spells the result |
| `Options.GlobalOptions.constructor` | yjit/src/options.rs:29-36 | the options start at exec_mem_size 256, call_threshold 10, max_versions 4 and all flags off |
| `Options.GlobalOptions.ParseOption` | yjit/src/options.rs:50-97 | the three numeric options store the parsed number, or answer false and keep the record on a bad number; the three flags are set only with an empty value; an unknown name answers false and changes nothing; a failure changes nothing; at most one field changes; representable records stay representable |
| `Options.StatsWithValueRejected` | yjit/src/options.rs:86-93 | `stats=1` is refused and leaves the options unchanged |
| `Stats.Counters.constructor` | yjit/src/stats.rs:10-25 | every counter and every exit-op slot starts at zero |
| `Stats.Counters.Incr` | yjit/src/stats.rs:28-36 | exactly the named counter goes up by one (mod 2^64); every other counter keeps its value |
| `Stats.Counters.Add` | yjit_iface.c:169-171 | exactly the named counter goes up by `n` (mod 2^64); every other counter keeps its value |
| `Stats.Counters.ResetStatsBang` | yjit/src/stats.rs:237-246 | every counter and every exit-op slot becomes zero, and the answer is nil |
| `Stats.Counters.CollectVmUsageInsn` | yjit/src/stats.rs:248-253 | only `vm_insns_count` goes up by one |
| `Stats.Counters.CollectBindingAlloc` | yjit/src/stats.rs:255-258 | only `binding_allocations` goes up by one |
| `Stats.Counters.CollectBindingSet` | yjit/src/stats.rs:260-263 | only `binding_set` goes up by one |
| `Stats.CountSideExitOp` | yjit/src/stats.rs:265-272 | the exit PC comes back unchanged |
| `Stats.StatsEnabledP` | yjit/src/stats.rs:143-151 | true exactly when the stats feature is built in and stats were requested, false otherwise |
| `Stats.GenStatsDict` | yjit/src/stats.rs:156-197 | nil exactly when the JIT is off, stats were not requested or the feature is not built in; otherwise the hash of both code sizes with `all_stats` set to true |
| `YjitInvariants.Invariants.Init` | yjit/src/invariants.rs:43-52 | all three tables start empty, and nothing is invalidated yet |
| `YjitInvariants.Invariants.GetBopAssumptions` | yjit/src/invariants.rs:61-63 | returns the existing list for the key, or inserts and returns an empty one; no other key or table changes |
| `YjitInvariants.Invariants.AssumeBopNotRedefined` | yjit/src/invariants.rs:69-77 | when the operator is unredefined, appends the block to exactly the `(klass, bop)` list and answers true; otherwise answers false and changes no table |
| `YjitInvariants.Invariants.AssumeMethodLookupStable` | yjit/src/invariants.rs:86-103 | appends the block to the cme's list and a dependency, recording the called id, under receiver class and called id; the operator table is untouched; the lookup-table invariant is kept |
| `YjitInvariants.Invariants.BopRedefined` | yjit/src/invariants.rs:107-112 | every block of the `(klass, bop)` list is invalidated, once each; `invalidate_bop_redefined` rises by the list's length; the list stays in the table |
| `YjitInvariants.Invariants.InvalidateOne` | yjit/src/invariants.rs:109-110 | one more call of `invalidate_block_version` on the block, and exactly the named counter goes up by one (mod 2^64); no table changes |
| `YjitInvariants.Invariants.InvalidateEach` | yjit/src/invariants.rs:108-111 | every block of the list is invalidated once, in addition to earlier invalidations; the counter rises by the list's length (mod 2^64), no other counter changes and no table changes |
| `YjitInvariants.Invariants.RemoveLookupEntry` | yjit/src/invariants.rs:119-120 | answers the list filed under `mid` for `klass`, every dependency of which records `mid` (the table invariant), and removes exactly that entry, keeping every other list and the invariant |
| `YjitInvariants.Invariants.MethodLookupChange` | yjit/src/invariants.rs:118-127 | when present, removes only the `mid` entry under `klass`, whose dependencies all record `mid`, invalidates each of its blocks and adds its length to `invalidate_method_lookup`; when absent, nothing changes and no entry is created |
| `YjitInvariants.TestGetBopAssumptions` | yjit/src/invariants.rs:133-147 | with one block under Integer#+ and one under String#+, the Integer#+ list has length one |
| `YjitInvariants.AssumedBlockIsInvalidated` | yjit/src/invariants.rs:69-112 | a block that assumed an operator unredefined is invalidated when the operator is redefined |
| `YjitC.Iseq.GetYjitPayload` | yjit.c:223-227 | answers the stored payload |
| `YjitC.Iseq.SetYjitPayload` | yjit.c:230-236 | requires an empty slot, stores the payload and leaves `jit_func` alone |
| `YjitC.PayloadSetThenGet` | yjit.c:223-236 | a payload stored in the empty slot is what a later read returns |
| `YjitC.NeedsLeadArgsOnly` | yjit.c:398-411 | true exactly when the iseq declares no optional, rest, post, keyword or keyword-rest parameter and no `**nil`, and no block parameter unless it is its own local iseq |
| `YjitC.PcAtIdx` | yjit.c:239-247 | the address of the word at the index: it points into the encoded words, and its index is the given one |
| `YjitC.OpcodeAtPc` | yjit.c:249-257 | the opcode of the word the pc addresses |
| `YjitC.OpcodeAtPcOfIdx` | yjit.c:239-257 | reading the opcode at the pc of an index reads the instruction at that index |
| `YjitC.LeafInvokebuiltinDecodes` | yjit.c:414-425 | the leaf check holds exactly when the iseq decodes to `opt_invokebuiltin_delegate_leave` then `leave` and its builtin may be inlined |
| `YjitC.LeafBuiltinFunction` | yjit.c:428-434 | NULL for an iseq that is not a leaf builtin; otherwise the operand word after the opcode |
| `YjitC.ControlFrame.SetCfpPc` | yjit.c:451-455 | the frame's pc changes and no other field does |
| `YjitC.ControlFrame.SetCfpSp` | yjit.c:457-461 | the frame's sp changes and no other field does |
| `YjitC.GetPageSize` | yjit.c:93-109 | the page size is returned exactly when it is in (0, 0x40000000], unchanged by the u32 result; otherwise a fatal error |
| `YjitIface.CompileIseq` | yjit_iface.c:16-37 | true and `jit_func` set to the code when generation produced code; otherwise `jit_func` is 0 and the answer false; the payload is untouched |
| `YjitIface.IfaceState.CmeInvalidate` | yjit_iface.c:154-180 | without a table nothing changes; with one, exactly the cme's entry goes (if present) and, with stats on, `invalidate_method_lookup` rises by its block count; no other counter changes |
| `YjitIface.BlockSetInvalidate` | yjit_iface.c:141-150 | visits every block of the removed set once, with no other effect; the count it answers only witnesses the visit, the C result being unused |
| `YjitIface.CmeInvalidateRemovesOnlyThatEntry` | yjit_iface.c:164-176 | after the callback the cme has no entry, and every other entry keeps its block set |
| `YjitIface.IfaceState.InvalidateAllMethodLookupAssumptions` | yjit_iface.c:183-188 | the dependency table is unchanged |
| `YjitIface.InitRunsRustInit` | yjit_iface.c:427-434 | the Rust initialisation runs exactly when the platform is supported and the JIT enabled |
| `ObjectValues.ObjEqual` | object.c:186-190 | true exactly for identical values, and always a boolean |
| `ObjectValues.ObjNot` | object.c:204-208 | true exactly for nil and false |
| `ObjectValues.ObjNotTwice` | object.c:204-208 | `!!x` is the truth of `x` as a boolean |
| `ObjectValues.TrueAnd` | object.c:1319-1323 | `true & y` (also `false | y`, `false ^ y`) is the truth of `y` |
| `ObjectValues.TrueOr` | object.c:1341-1345 | `true | y` is true |
| `ObjectValues.TrueXor` | object.c:1357-1361 | `true ^ y` is the negated truth of `y` |
| `ObjectValues.FalseAnd` | object.c:1397-1401 | `false & y` is false |
| `ObjectValues.BoolOperatorsFollowTruthTable` | object.c:1397-1426 | for `true`, `false` and `nil` receivers, `&`, `|` and `^` answer the connective on the truth of both operands |
| `ObjectValues.ObjFreezeOpt` | object.c:335-348 | accepts exactly true, false and nil and passes them through; anything else is an ArgumentError |
| `ObjectValues.ImmutableObjClone` | object.c:386-393 | a special constant clones to itself unless `freeze: false` was asked, which is an ArgumentError |
| `ObjectValues.CloneOfSpecialConstant` | object.c:335-393 | `clone(freeze: v)` of a special constant succeeds exactly for `true` and `nil`, returning the object |
| `ObjectValues.BoolExpected` | object.c:3118-3129 | accepts exactly true and false and answers whether it was true; anything else is an ArgumentError |
| `ObjectValues.FreezeOptAcceptsNilBoolExpectedDoesNot` | object.c:3118-3129 | the two keyword checks accept the same values except nil |
| `ObjectValues.ConvMethodNamesDistinct` | object.c:2858-2877 | the 12 table entries are pairwise different |
| `ObjectValues.ConvMethodIndex` | object.c:2879-2895 | an index below 12 exactly for `to_X` with `X` in the table, and then the position of `X`; otherwise 12 |
| `ObjectValues.ConversionMessage` | object.c:2903-2906 | "no implicit conversion of" for an index below 7, "can't convert" otherwise |
| `ObjectValues.ConversionMessageFor` | object.c:2903-2906 | "no implicit conversion of" exactly for the seven implicit conversions `to_int` … `to_io` |
| `ConstPath.SkipSegment` | object.c:2262 | stops at the first `:` from the segment start, or at the end |
| `ConstPath.TakeSegment` | object.c:2262-2271 | a wrong name exactly where the specification refuses the rest of the path; otherwise the segment read is the first of the rest, and the others start after the `::` |
| `ConstPath.TokenizeConstPath` | object.c:2250-2278 | returns the root, the segments and the wrong-name verdict as the position-based specification `ConstPathSpec` defines them (the same loop is at object.c:2423-2451 and object.c:2583-2611) |
| `ConstPath.TokenizeRender` | object.c:2253-2278 | segments free of `:`, joined by `::` with or without a leading `::`, tokenize back to exactly those segments and that root |
| `ConstPath.AcceptedPathIsRendered` | object.c:2253-2278 | every accepted path has non-empty, colon-free segments and is their rendering |
| `ConstPath.WrongNames` | object.c:2253-2276 | the empty path, `A::`, `A:B`, `::` and `A::::B` are wrong names, with the segments read before the refusal |
| `ObjectClasses.Chain` | object.c:837-847 | the superclass chain: only classes in the heap, empty exactly for NULL |
| `ObjectClasses.SearchAncestor` | object.c:837-847 | the answer is NULL or a class of the heap that is `c` or shares its method table |
| `ObjectClasses.SearchAncestorSkips` | object.c:840-845 | every class the walk passes before the answer fails the test, so the answer is the first match on the chain (or NULL after passing all of them) |
| `ObjectClasses.ClassSearchAncestor` | object.c:837-847 | the loop answers what `SearchAncestor` specifies |
| `ObjectClasses.SearchAncestorFinds` | object.c:837-847 | the search finds a class exactly when some class on the chain matches |
| `ObjectClasses.ClassSearchClassAncestor` | object.c:760-787 | for two ordinary classes, true exactly when `c` is on `cl`'s chain, and the same as the chain walk |
| `ObjectClasses.FastPathAgrees` | object.c:772-782 | for two different non-singleton classes, the array-length test and the one-slot lookup are equivalent to `c` being on `cl`'s chain |
| `ObjectClasses.InheritedP` | object.c:1615-1630 | true for the same module or when `arg`'s origin is an ancestor of `mod`; false when instead `mod` is an ancestor of `arg`; otherwise nil; TypeError exactly for an argument that is not a class, module or iclass |
| `ObjectClasses.ModLt` | object.c:1643-1648 | false for the same module, otherwise `mod <= arg` |
| `ObjectClasses.ModGe` | object.c:1663-1671 | TypeError for a non-class-or-module argument, otherwise `arg <= mod` |
| `ObjectClasses.ModGt` | object.c:1684-1689 | false for the same module, otherwise `mod >= arg` |
| `ObjectClasses.ModCmp` | object.c:1703-1719 | 0 exactly for the same module; nil for a non-module; otherwise -1, 1 or nil as `mod <= arg` is true, false or nil |
| `ObjectClasses.LtIsSwappedGt` | object.c:1643-1689 | `a < b` and `b > a` answer the same for any two classes or modules |
| `ObjectClasses.InheritedBetweenClasses` | object.c:1615-1630 | between two ordinary classes, `a <= b` is true when `b` is on `a`'s chain and false when instead `a` is on `b`'s |
| `ObjectClasses.CmpAntisymmetric` | object.c:1703-1719 | for two different ordinary classes, `a <=> b` is -1 exactly when `b <=> a` is 1 |
| `ObjectClasses.FirstReal` | object.c:227-235 | the answer is NULL or a class of the heap that is neither a singleton nor an iclass |
| `ObjectClasses.FirstRealSkips` | object.c:230-233 | every class the walk passes before the answer is a singleton or an iclass, so the answer is the first real class on the chain |
| `ObjectClasses.ClassReal` | object.c:227-235 | the loop answers what `FirstReal` specifies |
| `ObjectClasses.ClassSuperclass` | object.c:1996-2012 | nil for BasicObject; TypeError for any other class without a superclass; otherwise the nearest superclass that is not an iclass, or nil when there is none |
| `ObjectClasses.SuperclassOfOrdinaryClass` | object.c:1996-2012 | an ordinary class's superclass is the first entry of its superclass array, or nil when that is empty |

## Left out

- VM locks and barriers (`RB_VM_LOCK_ENTER`, `rb_vm_barrier`) and every form of concurrency: each operation is modelled as running alone.
- `invalidate_block_version`, block and code generation (`gen_entry_point`, `jit_ensure_block_entry_exit`), and the cme-to-block dependency registration on the C side are not part of this model. Invalidation is recorded only in the ghost multiset.
- `assume_method_lookup_stable` also calls `jit_ensure_block_entry_exit` and `add_cme_dependency` on the block. Both live in the code generator and are left out.
- Memory protection and allocation (`mprotect`, `alloc_exec_mem`, the commented-out mmap allocator), and the `sysconf` call itself: the page size is a parameter.
- GC marking, reference updating and freeing, the constant-cache and ractor hooks, `assume_single_ractor_mode`, `assume_stable_global_constant_state` and `rb_yjit_tracing_invalidate_all`: they have no live behaviour, or are collector interaction.
- `block_set_invalidate_i` has a commented-out body, so `CmeInvalidate` invalidates no block. It is modelled as written. The `st_free_table(block_set)` that follows is memory management and is left out.
- `YjitIface.IfaceState.CmeInvalidate`: the C struct `yjit_runtime_counters` is not part of this model. Its `invalidate_method_lookup` field is treated as the counter bank's `InvalidateMethodLookup` slot, which wraps at 2^64; the C field's own type and overflow behaviour are not modelled.
- `Stats.Counters.Incr`: the overflow panic of a debug build is not modelled. The counters wrap, as `+=` on `u64` does in a release build.
- `Stats.GenStatsDict`: the loops over the counters and the exit-op slots (yjit/src/stats.rs:199-231) have commented-out bodies, so the hash holds only the two code sizes and `all_stats`, as modelled. Only the allocation of the Ruby hash and its keys (`rb_hash_new`, `rb_hash_aset`, `str2sym`) is left out.
- `Options.GlobalOptions.ParseOption`: the C string's UTF-8 decoding (`to_str().unwrap()`, which panics on invalid UTF-8) is not modelled. The option arrives as a string of characters.
- `Utils`: the casts are modelled on unbounded integers with explicit ranges, not on Rust's integer types.
- `YjitIface.InitRunsRustInit`: the guard is stated as written. The file is only compiled when the JIT is enabled on a supported platform, so in a build the guard never returns early.
- The constant-path tokenizer's callers interleave constant lookup, autoload, the encoding check and error messages with the class name. They also raise "wrong constant name" for a segment that is not a constant name (`rb_is_const_name` on each part, `rb_is_const_id` on the interned id, object.c:2288-2301, 2456-2464, 2616). Only the tokenizing is modelled, so a path `ConstPathSpec` accepts may still be refused by Ruby. The constant tables and lookup are not part of this model.
- `rb_mod_const_get` on a `Symbol` name takes a different path and is left out.
- `RUBY_ASSERT`s (both classes are `T_CLASS`, the superclass arrays exist) are modelled as preconditions of `ClassSearchClassAncestor`.
- The superclass array's construction in class.c is not part of this model. Its layout is the heap invariant `WellFormed`.
- `InitVM_Object` (method registration) is not modelled. `SendBoolOperator` states which C function answers each operator.
- The float conversions, `rb_funcall`-based dispatch (clone, dup, inspect, conversions calling user methods) and `rb_any_to_s` formatting are left out.

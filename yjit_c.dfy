/**
 * The C half of the JIT interface (yjit.c): the instruction-sequence
 * accessors and predicates the code generator asks, the set-once payload
 * slot, the control-frame setters and the page-size query.
 *
 * An iseq's encoded instructions are a sequence of machine words starting
 * at address `encodedBase`; a word is `VALUE_SIZE` bytes. The instruction
 * table of insns.inc (which opcode a word encodes, how many words each
 * instruction takes) is not part of this model and comes in as a parameter.
 */
module YjitC {
  import opened Wrappers
  import opened Utils

  /** Bytes per `VALUE` on the 64-bit targets the JIT supports. */
  const VALUE_SIZE: nat := 8

  /** The null pointer. */
  const NULL: nat := 0

  /** Largest page size accepted, 1 GiB. */
  const MAX_PAGE_SIZE: int := 0x4000_0000

  /** The parameter flags of an iseq (`param.flags`). */
  datatype ParamFlags = ParamFlags(
    hasBlock: bool,
    hasOpt: bool,
    hasRest: bool,
    hasPost: bool,
    hasKw: bool,
    hasKwrest: bool,
    acceptsNoKwarg: bool)

  /**
   * What insns.inc says about the instruction set: the opcode an encoded
   * word stands for (`rb_vm_insn_addr2opcode`), the length in words of each
   * instruction (`insn_len`), and the two opcodes the leaf check names.
   */
  datatype InsnInfo = InsnInfo(
    addr2opcode: nat -> nat,
    insnLen: nat -> nat,
    optInvokebuiltinDelegateLeave: nat,
    leave: nat)

  /** Every instruction occupies at least its opcode word. */
  ghost predicate WellFormedInsnInfo(info: InsnInfo) {
    forall op :: info.insnLen(op) >= 1
  }

  /**
   * An iseq: its immutable body parts as constants, and the two body fields
   * the JIT writes (`jit_func`, `yjit_payload`) as variables.
   */
  class Iseq {
    /** The iseq's own address. */
    const addr: nat
    /** `body->local_iseq`: the address of the iseq whose frame owns the locals. */
    const localIseq: nat
    const flags: ParamFlags
    /** `body->iseq_encoded`, word by word; `iseq_size` is its length. */
    const encoded: seq<nat>
    /** Address of `encoded[0]`. */
    const encodedBase: nat
    const builtinInlineP: bool
    /** Whether the `ISEQ_TRANSLATED` flag is set. */
    const translated: bool
    var jitFunc: nat
    var yjitPayload: nat

    constructor (addr: nat, localIseq: nat, flags: ParamFlags, encoded: seq<nat>,
                 encodedBase: nat, builtinInlineP: bool, translated: bool)
      ensures this.addr == addr && this.localIseq == localIseq && this.flags == flags
      ensures this.encoded == encoded && this.encodedBase == encodedBase
      ensures this.builtinInlineP == builtinInlineP && this.translated == translated
      ensures jitFunc == NULL && yjitPayload == NULL
    {
      this.addr := addr;
      this.localIseq := localIseq;
      this.flags := flags;
      this.encoded := encoded;
      this.encodedBase := encodedBase;
      this.builtinInlineP := builtinInlineP;
      this.translated := translated;
      jitFunc := NULL;
      yjitPayload := NULL;
    }

    /** `rb_iseq_get_yjit_payload`: the stored payload, NULL when none was set. */
    method GetYjitPayload() returns (payload: nat)
      ensures payload == yjitPayload
    {
      payload := yjitPayload;
    }

    /** `rb_iseq_set_yjit_payload`: fills the slot, which must still be empty. */
    method SetYjitPayload(payload: nat)
      requires yjitPayload == NULL
      modifies this
      ensures yjitPayload == payload
      ensures jitFunc == old(jitFunc)
    {
      yjitPayload := payload;
    }
  }

  /** The payload slot is set once: what is stored is what a later read returns. */
  method PayloadSetThenGet(iseq: Iseq, payload: nat) returns (read: nat)
    requires iseq.yjitPayload == NULL
    modifies iseq
    ensures read == payload
    ensures payload != NULL ==> iseq.yjitPayload != NULL
  {
    iseq.SetYjitPayload(payload);
    read := iseq.GetYjitPayload();
  }

  // ---------------------------------------------------------------------
  // Parameters

  datatype ParamKind = BlockParam | OptParam | RestParam | PostParam | KwParam | KwrestParam | NoKwargMarker

  /** The parameter kinds an iseq declares besides its leading positional ones. */
  function DeclaredParamKinds(flags: ParamFlags): (kinds: set<ParamKind>)
    ensures flags.hasBlock <==> BlockParam in kinds
    ensures flags.hasOpt <==> OptParam in kinds
  {
    (if flags.hasBlock then {BlockParam} else {})
    + (if flags.hasOpt then {OptParam} else {})
    + (if flags.hasRest then {RestParam} else {})
    + (if flags.hasPost then {PostParam} else {})
    + (if flags.hasKw then {KwParam} else {})
    + (if flags.hasKwrest then {KwrestParam} else {})
    + (if flags.acceptsNoKwarg then {NoKwargMarker} else {})
  }

  /**
   * `rb_iseq_needs_lead_args_only`: the iseq declares no parameter kind that
   * needs setting up besides leading ones, where a block parameter needs no
   * setup when the iseq is its own local iseq.
   */
  function NeedsLeadArgsOnly(iseq: Iseq): (r: bool)
    ensures r <==> DeclaredParamKinds(iseq.flags) <= (if iseq.localIseq == iseq.addr then {BlockParam} else {})
  {
    var takesBlock := iseq.flags.hasBlock;
    && (!takesBlock || iseq.localIseq == iseq.addr)
    && !iseq.flags.hasOpt
    && !iseq.flags.hasRest
    && !iseq.flags.hasPost
    && !iseq.flags.hasKw
    && !iseq.flags.hasKwrest
    && !iseq.flags.acceptsNoKwarg
  }

  // ---------------------------------------------------------------------
  // Program counters

  /** `rb_iseq_pc_at_idx`: the address of `encoded[insnIdx]`. */
  function PcAtIdx(iseq: Iseq, insnIdx: nat): (pc: nat)
    requires insnIdx < |iseq.encoded|
    ensures PointsIntoEncoded(iseq, pc) && PcIndex(iseq, pc) == insnIdx
  {
    iseq.encodedBase + insnIdx * VALUE_SIZE
  }

  /** Whether `pc` is the address of one of the iseq's encoded words. */
  predicate PointsIntoEncoded(iseq: Iseq, pc: nat) {
    iseq.encodedBase <= pc && (pc - iseq.encodedBase) % VALUE_SIZE == 0
    && (pc - iseq.encodedBase) / VALUE_SIZE < |iseq.encoded|
  }

  /** The index of the word `pc` points at. */
  function PcIndex(iseq: Iseq, pc: nat): (idx: nat)
    requires PointsIntoEncoded(iseq, pc)
    ensures idx < |iseq.encoded|
    ensures pc == iseq.encodedBase + idx * VALUE_SIZE
  {
    (pc - iseq.encodedBase) / VALUE_SIZE
  }

  /** `rb_iseq_opcode_at_pc`: the opcode of the word at `pc`, on a translated iseq. */
  function OpcodeAtPc(info: InsnInfo, iseq: Iseq, pc: nat): (op: nat)
    requires iseq.translated
    requires PointsIntoEncoded(iseq, pc)
    ensures op == info.addr2opcode(iseq.encoded[PcIndex(iseq, pc)])
  {
    info.addr2opcode(iseq.encoded[(pc - iseq.encodedBase) / VALUE_SIZE])
  }

  /** Reading the opcode at the pc of an index reads the instruction at that index. */
  lemma OpcodeAtPcOfIdx(info: InsnInfo, iseq: Iseq, insnIdx: nat)
    requires iseq.translated && insnIdx < |iseq.encoded|
    ensures OpcodeAtPc(info, iseq, PcAtIdx(iseq, insnIdx)) == info.addr2opcode(iseq.encoded[insnIdx])
  {
  }

  // ---------------------------------------------------------------------
  // Leaf builtins

  /**
   * The opcodes of the instructions in `encoded` from word `pos` on, decoding
   * one instruction and skipping its length each time; None when the last
   * instruction runs past the end.
   */
  function OpcodesFrom(info: InsnInfo, encoded: seq<nat>, pos: nat): Option<seq<nat>>
    requires WellFormedInsnInfo(info)
    requires pos <= |encoded|
    decreases |encoded| - pos
  {
    if pos == |encoded| then Some([])
    else
      var op := info.addr2opcode(encoded[pos]);
      var next := pos + info.insnLen(op);
      if next > |encoded| then None
      else match OpcodesFrom(info, encoded, next)
        case None => None
        case Some(rest) => Some([op] + rest)
  }

  /**
   * `rb_leaf_invokebuiltin_iseq_p`: the iseq is exactly one
   * `opt_invokebuiltin_delegate_leave` followed by one `leave`, and its
   * builtin may be inlined.
   */
  predicate LeafInvokebuiltinIseqP(info: InsnInfo, iseq: Iseq)
    requires WellFormedInsnInfo(info)
  {
    var invokebuiltinLen := info.insnLen(info.optInvokebuiltinDelegateLeave);
    var leaveLen := info.insnLen(info.leave);
    && |iseq.encoded| == invokebuiltinLen + leaveLen
    && info.addr2opcode(iseq.encoded[0]) == info.optInvokebuiltinDelegateLeave
    && info.addr2opcode(iseq.encoded[invokebuiltinLen]) == info.leave
    && iseq.builtinInlineP
  }

  /** The leaf check holds exactly when the decoded program is `[opt_invokebuiltin_delegate_leave, leave]`. */
  lemma LeafInvokebuiltinDecodes(info: InsnInfo, iseq: Iseq)
    requires WellFormedInsnInfo(info)
    ensures LeafInvokebuiltinIseqP(info, iseq) <==>
      OpcodesFrom(info, iseq.encoded, 0) == Some([info.optInvokebuiltinDelegateLeave, info.leave]) && iseq.builtinInlineP
  {
    var e := iseq.encoded;
    var ib, lv := info.optInvokebuiltinDelegateLeave, info.leave;
    if OpcodesFrom(info, e, 0) == Some([ib, lv]) {
      assert |e| > 0;
      var full := OpcodesFrom(info, e, 0).value;
      var n1 := info.insnLen(info.addr2opcode(e[0]));
      var rest1 := OpcodesFrom(info, e, n1);
      assert rest1.Some? && full == [info.addr2opcode(e[0])] + rest1.value;
      assert full[0] == info.addr2opcode(e[0]) && full[1..] == rest1.value;
      assert n1 < |e|;
      var n2 := n1 + info.insnLen(info.addr2opcode(e[n1]));
      var rest2 := OpcodesFrom(info, e, n2);
      assert rest2.Some? && rest1.value == [info.addr2opcode(e[n1])] + rest2.value;
      assert rest1.value[0] == info.addr2opcode(e[n1]) && rest1.value[1..] == rest2.value;
      assert rest2.value == [];
      assert n2 == |e|;
    }
    if LeafInvokebuiltinIseqP(info, iseq) {
      var n1 := info.insnLen(ib);
      assert n1 < |e| && info.addr2opcode(e[n1]) == lv;
      assert OpcodesFrom(info, e, |e|) == Some([]);
      assert n1 + info.insnLen(lv) == |e|;
      assert OpcodesFrom(info, e, n1) == Some([lv] + []);
      assert [lv] + [] == [lv];
      assert OpcodesFrom(info, e, 0) == Some([ib] + [lv]);
      assert [ib] + [lv] == [ib, lv];
    }
  }

  /**
   * `rb_leaf_builtin_function`: NULL unless the iseq is a leaf builtin, and
   * then the builtin function pointer, the operand in word 1.
   */
  function LeafBuiltinFunction(info: InsnInfo, iseq: Iseq): (bf: nat)
    requires WellFormedInsnInfo(info)
    ensures !LeafInvokebuiltinIseqP(info, iseq) ==> bf == NULL
    ensures LeafInvokebuiltinIseqP(info, iseq) ==> |iseq.encoded| >= 2 && bf == iseq.encoded[1]
  {
    if !LeafInvokebuiltinIseqP(info, iseq) then NULL else iseq.encoded[1]
  }

  // ---------------------------------------------------------------------
  // Control frames

  /** A control frame; the JIT rewrites its `pc` and `sp`. */
  class ControlFrame {
    var pc: nat
    var sp: nat
    var iseq: nat
    var self: nat
    var ep: nat

    constructor (pc: nat, sp: nat, iseq: nat, self: nat, ep: nat)
      ensures this.pc == pc && this.sp == sp && this.iseq == iseq && this.self == self && this.ep == ep
    {
      this.pc := pc;
      this.sp := sp;
      this.iseq := iseq;
      this.self := self;
      this.ep := ep;
    }

    /** `rb_set_cfp_pc`. */
    method SetCfpPc(pc: nat)
      modifies this
      ensures this.pc == pc
      ensures sp == old(sp) && iseq == old(iseq) && self == old(self) && ep == old(ep)
    {
      this.pc := pc;
    }

    /** `rb_set_cfp_sp`. */
    method SetCfpSp(sp: nat)
      modifies this
      ensures this.sp == sp
      ensures pc == old(pc) && iseq == old(iseq) && self == old(self) && ep == old(ep)
    {
      this.sp := sp;
    }
  }

  // ---------------------------------------------------------------------
  // Page size

  /**
   * `rb_yjit_get_page_size` given what `sysconf(_SC_PAGESIZE)` answered: a
   * non-positive or over-1-GiB answer is a fatal `rb_bug`, modelled as an
   * error carrying its message; otherwise the answer, which fits the u32
   * result without truncation.
   */
  function GetPageSize(sysconfPageSize: int): (r: Result<U32, string>)
    ensures r.Ok? <==> 0 < sysconfPageSize <= MAX_PAGE_SIZE
    ensures r.Ok? ==> r.value as int == sysconfPageSize
  {
    if sysconfPageSize <= 0 then Err("yjit: failed to get page size")
    else if sysconfPageSize > MAX_PAGE_SIZE then Err("yjit page size too large")
    else Ok(sysconfPageSize as U32)
  }
}

/**
 * The class-hierarchy queries of object.c: walking the superclass chain for
 * an ancestor, the superclass-array fast path between two ordinary classes,
 * `Module#<=` and its relatives, `rb_class_real` and `Class#superclass`.
 *
 * The heap is a finite map from class addresses to their records; 0 is
 * NULL. A ghost rank that drops along every `super` link keeps the chains
 * finite. The superclass array is built in class.c, which is not part of
 * this model; its layout is an invariant of the heap: for an ordinary class,
 * the array lists its non-iclass superclasses nearest first, so `num` is
 * their count.
 */
module ObjectClasses {
  import opened Wrappers
  import opened ObjectValues

  /** A class address; 0 is NULL. */
  type ClassRef = nat

  /** The builtin type of a class-like object. */
  datatype ClassKind = TClass | TModule | TIClass

  /** What object.c reads of a class: `RCLASS_SUPER`, the singleton flag, the method table, the origin and the superclass array. */
  datatype RClass = RClass(
    kind: ClassKind,
    super: ClassRef,
    singleton: bool,
    mtbl: nat,
    origin: ClassRef,
    superclasses: seq<ClassRef>)

  datatype Heap = Heap(
    classes: map<ClassRef, RClass>,
    /** `rb_cBasicObject`. */
    basicObject: ClassRef,
    ghost rank: map<ClassRef, nat>)

  /** Every `super` link stays in the heap and lowers the rank, so every chain ends in NULL. */
  ghost predicate Acyclic(h: Heap) {
    && 0 !in h.classes
    && (forall c :: c in h.classes ==> c in h.rank)
    && (forall c {:trigger h.classes[c].super} :: c in h.classes ==>
          (h.classes[c].super == 0 || (h.classes[c].super in h.classes && h.rank[h.classes[c].super] < h.rank[c])))
  }

  /** A class reference that is NULL or names a class in the heap. */
  predicate NullOrIn(h: Heap, c: ClassRef) {
    c == 0 || c in h.classes
  }

  /** The superclass chain from `cl`: `cl`, its `super`, and so on up to NULL. */
  function Chain(h: Heap, cl: ClassRef): (chain: seq<ClassRef>)
    requires Acyclic(h) && NullOrIn(h, cl)
    ensures forall i :: 0 <= i < |chain| ==> chain[i] in h.classes
    ensures cl == 0 <==> chain == []
    decreases if cl == 0 then 0 else h.rank[cl] + 1
  {
    if cl == 0 then [] else [cl] + Chain(h, h.classes[cl].super)
  }

  /** The members of the chain from `cl` that are not iclasses, nearest first. */
  function RealChain(h: Heap, cl: ClassRef): (chain: seq<ClassRef>)
    requires Acyclic(h) && NullOrIn(h, cl)
    ensures forall i :: 0 <= i < |chain| ==> chain[i] in h.classes && h.classes[chain[i]].kind != TIClass
    decreases if cl == 0 then 0 else h.rank[cl] + 1
  {
    if cl == 0 then []
    else
      var rest := RealChain(h, h.classes[cl].super);
      if h.classes[cl].kind == TIClass then rest else [cl] + rest
  }

  /**
   * The heap invariants object.c relies on: acyclic chains, origins in the
   * heap, a method table of its own for every class (iclasses share their
   * module's), and the superclass array of every ordinary class listing its
   * non-iclass superclasses nearest first.
   */
  ghost predicate WellFormed(h: Heap) {
    && Acyclic(h)
    && h.basicObject in h.classes
    && (forall c {:trigger h.classes[c].origin} :: c in h.classes ==> h.classes[c].origin in h.classes)
    && (forall x, y {:trigger h.classes[x].mtbl, h.classes[y].mtbl} ::
          x in h.classes && y in h.classes && x != y && h.classes[x].kind == TClass ==>
          h.classes[y].mtbl != h.classes[x].mtbl)
    && (forall c {:trigger h.classes[c].superclasses} ::
          c in h.classes && h.classes[c].kind == TClass && !h.classes[c].singleton ==>
          h.classes[c].superclasses == RealChain(h, h.classes[c].super))
  }

  // ---------------------------------------------------------------------
  // Walking the chain

  /** Whether `x` counts as `c` in an ancestor search: the same class, or one sharing its method table. */
  predicate Matches(h: Heap, x: ClassRef, c: ClassRef)
    requires x in h.classes && c in h.classes
  {
    x == c || h.classes[x].mtbl == h.classes[c].mtbl
  }

  /**
   * `class_search_ancestor` as a function: the first class of the chain from
   * `cl` that matches `c`, or NULL.
   */
  function SearchAncestor(h: Heap, cl: ClassRef, c: ClassRef): (r: ClassRef)
    requires Acyclic(h) && NullOrIn(h, cl) && c in h.classes
    ensures NullOrIn(h, r)
    ensures r != 0 ==> Matches(h, r, c)
    decreases if cl == 0 then 0 else h.rank[cl] + 1
  {
    if cl == 0 then 0
    else if cl == c || h.classes[cl].mtbl == h.classes[c].mtbl then cl
    else SearchAncestor(h, h.classes[cl].super, c)
  }

  /** Walking `super` links from `cl` reaches `r` having passed only classes that do not match `c`. */
  ghost predicate PassesOnlyNonMatches(h: Heap, cl: ClassRef, r: ClassRef, c: ClassRef)
    requires Acyclic(h) && NullOrIn(h, cl) && c in h.classes
    decreases if cl == 0 then 0 else h.rank[cl] + 1
  {
    cl == r || (cl != 0 && !Matches(h, cl, c) && PassesOnlyNonMatches(h, h.classes[cl].super, r, c))
  }

  /** The search stops at the first match: every class it walks past before its result fails to match. */
  lemma {:induction false} SearchAncestorSkips(h: Heap, cl: ClassRef, c: ClassRef)
    requires Acyclic(h) && NullOrIn(h, cl) && c in h.classes
    ensures PassesOnlyNonMatches(h, cl, SearchAncestor(h, cl, c), c)
    decreases if cl == 0 then 0 else h.rank[cl] + 1
  {
    if cl != 0 && !Matches(h, cl, c) {
      SearchAncestorSkips(h, h.classes[cl].super, c);
    }
  }

  /** Whether some class on the chain from `cl` matches `c`. */
  predicate AncestorOf(h: Heap, c: ClassRef, cl: ClassRef)
    requires Acyclic(h) && NullOrIn(h, cl) && c in h.classes
  {
    exists i :: 0 <= i < |Chain(h, cl)| && Matches(h, Chain(h, cl)[i], c)
  }

  /** The search finds something exactly when some class on the chain matches. */
  lemma {:induction false} SearchAncestorFinds(h: Heap, cl: ClassRef, c: ClassRef)
    requires Acyclic(h) && NullOrIn(h, cl) && c in h.classes
    ensures SearchAncestor(h, cl, c) != 0 <==> AncestorOf(h, c, cl)
    decreases if cl == 0 then 0 else h.rank[cl] + 1
  {
    if cl != 0 {
      var s := h.classes[cl].super;
      var t := Chain(h, s);
      assert Chain(h, cl) == [cl] + t;
      if Matches(h, cl, c) {
        assert Chain(h, cl)[0] == cl;
      } else {
        SearchAncestorFinds(h, s, c);
        if AncestorOf(h, c, cl) {
          var i :| 0 <= i < |Chain(h, cl)| && Matches(h, Chain(h, cl)[i], c);
          assert i > 0 && Chain(h, cl)[i] == t[i - 1];
        }
        if AncestorOf(h, c, s) {
          var i :| 0 <= i < |t| && Matches(h, t[i], c);
          assert Chain(h, cl)[i + 1] == t[i];
        }
      }
    }
  }

  /** `class_search_ancestor`: walk `super` links from `cl` until a class matching `c`, or NULL. */
  method ClassSearchAncestor(h: Heap, cl: ClassRef, c: ClassRef) returns (r: ClassRef)
    requires Acyclic(h) && NullOrIn(h, cl) && c in h.classes
    ensures r == SearchAncestor(h, cl, c)
  {
    var cur := cl;
    while cur != 0
      invariant NullOrIn(h, cur)
      invariant SearchAncestor(h, cur, c) == SearchAncestor(h, cl, c)
      decreases if cur == 0 then 0 else h.rank[cur] + 1
    {
      if cur == c || h.classes[cur].mtbl == h.classes[c].mtbl {
        return cur;
      }
      cur := h.classes[cur].super;
    }
    return 0;
  }

  // ---------------------------------------------------------------------
  // The fast path between two ordinary classes

  /** A class that is not an iclass lies on a chain exactly when it lies on the chain's non-iclass part. */
  lemma {:induction false} ChainRealMember(h: Heap, cl: ClassRef, x: ClassRef)
    requires Acyclic(h) && NullOrIn(h, cl) && x in h.classes && h.classes[x].kind != TIClass
    ensures x in Chain(h, cl) <==> x in RealChain(h, cl)
    decreases if cl == 0 then 0 else h.rank[cl] + 1
  {
    if cl != 0 {
      ChainRealMember(h, h.classes[cl].super, x);
    }
  }

  /** After any class of a non-iclass chain comes that class's own non-iclass superclasses. */
  lemma {:induction false} RealChainSuffix(h: Heap, cl: ClassRef, j: nat)
    requires Acyclic(h) && NullOrIn(h, cl) && j < |RealChain(h, cl)|
    ensures RealChain(h, h.classes[RealChain(h, cl)[j]].super) == RealChain(h, cl)[j + 1..]
    decreases if cl == 0 then 0 else h.rank[cl] + 1
  {
    var s := h.classes[cl].super;
    if h.classes[cl].kind == TIClass {
      RealChainSuffix(h, s, j);
    } else if j > 0 {
      RealChainSuffix(h, s, j - 1);
      assert RealChain(h, cl)[j + 1..] == RealChain(h, s)[j..];
    }
  }

  /** An ordinary class's method table is its own, so searching for it is looking for it on the chain. */
  lemma {:induction false} SearchForClass(h: Heap, cl: ClassRef, c: ClassRef)
    requires WellFormed(h) && NullOrIn(h, cl) && c in h.classes && h.classes[c].kind == TClass
    ensures SearchAncestor(h, cl, c) != 0 <==> c in Chain(h, cl)
    decreases if cl == 0 then 0 else h.rank[cl] + 1
  {
    if cl != 0 {
      SearchForClass(h, h.classes[cl].super, c);
    }
  }

  /** `Object#is_a?`'s ancestor test between two classes is a chain membership. */
  predicate IsAClass(h: Heap, cl: ClassRef, c: ClassRef)
    requires Acyclic(h) && cl in h.classes && c in h.classes
  {
    c in Chain(h, cl)
  }

  /**
   * `class_search_class_ancestor`: for two ordinary classes, compare the
   * lengths of their superclass arrays and look at the one slot where `c`
   * would sit; otherwise walk the chain. Either way the answer is whether
   * `c` is on `cl`'s chain, the same as the slow path's.
   */
  function ClassSearchClassAncestor(h: Heap, cl: ClassRef, c: ClassRef): (r: Value)
    requires WellFormed(h) && cl in h.classes && c in h.classes
    requires h.classes[c].kind == TClass && h.classes[cl].kind == TClass
    ensures r == RBool(IsAClass(h, cl, c))
    ensures r == RBool(SearchAncestor(h, cl, c) != 0)
  {
    SearchForClass(h, cl, c);
    if cl == c then True
    else if !h.classes[c].singleton && !h.classes[cl].singleton then
      var cNum := |h.classes[c].superclasses|;
      var clNum := |h.classes[cl].superclasses|;
      var classes := h.classes[cl].superclasses;
      FastPathAgrees(h, cl, c);
      if clNum <= cNum then False
      else RBool(classes[clNum - cNum - 1] == c)
    else RBool(SearchAncestor(h, cl, c) != 0)
  }

  /** Another ordinary class is on an ordinary class's chain exactly when it is in its superclass array. */
  lemma SuperclassArrayMembers(h: Heap, cl: ClassRef, c: ClassRef)
    requires WellFormed(h) && cl in h.classes && c in h.classes && cl != c
    requires h.classes[c].kind == TClass && h.classes[cl].kind == TClass && !h.classes[cl].singleton
    ensures c in Chain(h, cl) <==> c in h.classes[cl].superclasses
  {
    var s := h.classes[cl].super;
    assert h.classes[cl].superclasses == RealChain(h, s);
    assert Chain(h, cl) == [cl] + Chain(h, s);
    ChainRealMember(h, s, c);
  }

  /** A non-singleton class in the superclass array sits as many slots from its end as its own array is long. */
  lemma SuperclassArraySlot(h: Heap, cl: ClassRef, j: nat)
    requires WellFormed(h) && cl in h.classes
    requires h.classes[cl].kind == TClass && !h.classes[cl].singleton
    requires j < |h.classes[cl].superclasses|
    requires var c := h.classes[cl].superclasses[j]; h.classes[c].kind == TClass && !h.classes[c].singleton
    ensures var a := h.classes[cl].superclasses;
      |a| - |h.classes[a[j]].superclasses| - 1 == j
  {
    var a := h.classes[cl].superclasses;
    var s := h.classes[cl].super;
    assert a == RealChain(h, s);
    RealChainSuffix(h, s, j);
    assert h.classes[a[j]].superclasses == RealChain(h, h.classes[a[j]].super);
  }

  /** When `c` can only sit at the slot `|a| - |b| - 1` of `a`, looking at that slot decides whether `c` is in `a`. */
  lemma SlotDecidesMembership(a: seq<ClassRef>, b: seq<ClassRef>, c: ClassRef)
    requires forall j :: 0 <= j < |a| && a[j] == c ==> |a| - |b| - 1 == j
    ensures c in a <==> |a| > |b| && a[|a| - |b| - 1] == c
  {
    if c in a {
      var j :| 0 <= j < |a| && a[j] == c;
    }
  }

  /** The array test gives the chain-membership answer for two different ordinary classes. */
  lemma FastPathAgrees(h: Heap, cl: ClassRef, c: ClassRef)
    requires WellFormed(h) && cl in h.classes && c in h.classes && cl != c
    requires h.classes[c].kind == TClass && h.classes[cl].kind == TClass
    requires !h.classes[c].singleton && !h.classes[cl].singleton
    ensures var cNum := |h.classes[c].superclasses|;
      var clNum := |h.classes[cl].superclasses|;
      (c in Chain(h, cl)) <==> (clNum > cNum && h.classes[cl].superclasses[clNum - cNum - 1] == c)
  {
    var a := h.classes[cl].superclasses;
    var b := h.classes[c].superclasses;
    SuperclassArrayMembers(h, cl, c);
    forall j | 0 <= j < |a| && a[j] == c
      ensures |a| - |b| - 1 == j
    {
      SuperclassArraySlot(h, cl, j);
    }
    SlotDecidesMembership(a, b, c);
  }

  // ---------------------------------------------------------------------
  // Module comparison

  /** `CLASS_OR_MODULE_P`: a class or a module, not an iclass. */
  predicate IsClassOrModule(h: Heap, v: Value) {
    v.Obj? && v.ref in h.classes && h.classes[v.ref].kind != TIClass
  }

  /** A class, a module or an iclass. */
  predicate IsClassLike(h: Heap, v: Value) {
    v.Obj? && v.ref in h.classes
  }

  /**
   * `rb_class_inherited_p` (`mod <= arg`): true for the same module or when
   * `arg`'s origin is an ancestor of `mod`, false when instead `mod` is an
   * ancestor of `arg`, nil when they are unrelated; comparing with anything
   * but a class, module or iclass raises TypeError.
   */
  function InheritedP(h: Heap, mod: ClassRef, arg: Value): (r: Result<Value, Exception>)
    requires WellFormed(h) && mod in h.classes
    ensures r.Err? <==> arg != Obj(mod) && !IsClassLike(h, arg)
    ensures r.Err? ==> r.error.TypeError?
    ensures r == Ok(True) <==> arg == Obj(mod) || (IsClassLike(h, arg) && AncestorOf(h, h.classes[arg.ref].origin, mod))
    ensures r == Ok(False) <==>
      (arg != Obj(mod) && IsClassLike(h, arg)
       && !AncestorOf(h, h.classes[arg.ref].origin, mod) && AncestorOf(h, mod, arg.ref))
    ensures r.Ok? ==> r.value == True || r.value == False || r.value == Nil
  {
    if Obj(mod) == arg then Ok(True)
    else if !IsClassLike(h, arg) then Err(TypeError("compared with non class/module"))
    else
      var origin := h.classes[arg.ref].origin;
      SearchAncestorFinds(h, mod, origin);
      SearchAncestorFinds(h, arg.ref, mod);
      if SearchAncestor(h, mod, origin) != 0 then Ok(True)
      else if SearchAncestor(h, arg.ref, mod) != 0 then Ok(False)
      else Ok(Nil)
  }

  /** `rb_mod_lt` (`mod < arg`): false for the same module, otherwise `mod <= arg`. */
  function ModLt(h: Heap, mod: ClassRef, arg: Value): (r: Result<Value, Exception>)
    requires WellFormed(h) && mod in h.classes
    ensures arg == Obj(mod) ==> r == Ok(False)
    ensures arg != Obj(mod) ==> r == InheritedP(h, mod, arg)
  {
    if Obj(mod) == arg then Ok(False) else InheritedP(h, mod, arg)
  }

  /** `rb_mod_ge` (`mod >= arg`): `arg <= mod`, for a class or module `arg`; anything else raises TypeError. */
  function ModGe(h: Heap, mod: ClassRef, arg: Value): (r: Result<Value, Exception>)
    requires WellFormed(h) && mod in h.classes
    ensures !IsClassOrModule(h, arg) ==> r.Err? && r.error.TypeError?
    ensures IsClassOrModule(h, arg) ==> r == InheritedP(h, arg.ref, Obj(mod)) && r.Ok?
  {
    if !IsClassOrModule(h, arg) then Err(TypeError("compared with non class/module"))
    else InheritedP(h, arg.ref, Obj(mod))
  }

  /** `rb_mod_gt` (`mod > arg`): false for the same module, otherwise `mod >= arg`. */
  function ModGt(h: Heap, mod: ClassRef, arg: Value): (r: Result<Value, Exception>)
    requires WellFormed(h) && mod in h.classes
    ensures arg == Obj(mod) ==> r == Ok(False)
    ensures arg != Obj(mod) ==> r == ModGe(h, mod, arg)
  {
    if Obj(mod) == arg then Ok(False) else ModGe(h, mod, arg)
  }

  /**
   * `rb_mod_cmp` (`mod <=> arg`): 0 for the same module, nil for a
   * non-module or an unrelated one, -1 when `mod <= arg` and 1 when
   * `mod >= arg`.
   */
  function ModCmp(h: Heap, mod: ClassRef, arg: Value): (r: Value)
    requires WellFormed(h) && mod in h.classes
    ensures r == Fixnum(0) <==> arg == Obj(mod)
    ensures arg != Obj(mod) && !IsClassOrModule(h, arg) ==> r == Nil
    ensures arg != Obj(mod) && IsClassOrModule(h, arg) ==>
      && (r == Fixnum(-1) <==> InheritedP(h, mod, arg) == Ok(True))
      && (r == Fixnum(1) <==> InheritedP(h, mod, arg) == Ok(False))
      && (r == Nil <==> InheritedP(h, mod, arg) == Ok(Nil))
  {
    if Obj(mod) == arg then Fixnum(0)
    else if !IsClassOrModule(h, arg) then Nil
    else
      var cmp := InheritedP(h, mod, arg).value;
      if cmp == Nil then Nil
      else if RTest(cmp) then Fixnum(-1)
      else Fixnum(1)
  }

  /** `a < b` and `b > a` give the same answer for any two classes or modules. */
  lemma LtIsSwappedGt(h: Heap, a: ClassRef, b: ClassRef)
    requires WellFormed(h) && IsClassOrModule(h, Obj(a)) && IsClassOrModule(h, Obj(b))
    ensures ModLt(h, a, Obj(b)) == ModGt(h, b, Obj(a))
  {
  }

  /** A class further along a chain has a lower rank than where the chain starts. */
  lemma {:induction false} ChainLowersRank(h: Heap, cl: ClassRef, x: ClassRef)
    requires Acyclic(h) && cl in h.classes && x in Chain(h, cl) && x != cl
    ensures h.rank[x] < h.rank[cl]
    decreases h.rank[cl]
  {
    var s := h.classes[cl].super;
    assert x in Chain(h, s);
    if x != s {
      ChainLowersRank(h, s, x);
    }
  }

  /**
   * Between two different ordinary classes that are their own origins,
   * `a <= b` is true when `b` is on `a`'s chain and false when instead `a`
   * is on `b`'s.
   */
  lemma InheritedBetweenClasses(h: Heap, a: ClassRef, b: ClassRef)
    requires WellFormed(h) && a in h.classes && b in h.classes && a != b
    requires h.classes[a].kind == TClass && h.classes[b].kind == TClass
    requires h.classes[b].origin == b
    ensures InheritedP(h, a, Obj(b)) == Ok(True) <==> b in Chain(h, a)
    ensures InheritedP(h, a, Obj(b)) == Ok(False) <==> b !in Chain(h, a) && a in Chain(h, b)
  {
    SearchAncestorFinds(h, a, b);
    SearchAncestorFinds(h, b, a);
    SearchForClass(h, a, b);
    SearchForClass(h, b, a);
  }

  /**
   * For two different ordinary classes that are their own origins, `<=>`
   * is antisymmetric: `a <=> b` is -1 exactly when `b <=> a` is 1.
   */
  lemma CmpAntisymmetric(h: Heap, a: ClassRef, b: ClassRef)
    requires WellFormed(h) && a in h.classes && b in h.classes && a != b
    requires h.classes[a].kind == TClass && h.classes[b].kind == TClass
    requires h.classes[a].origin == a && h.classes[b].origin == b
    ensures ModCmp(h, a, Obj(b)) == Fixnum(-1) <==> ModCmp(h, b, Obj(a)) == Fixnum(1)
  {
    InheritedBetweenClasses(h, a, b);
    InheritedBetweenClasses(h, b, a);
    if b in Chain(h, a) && a in Chain(h, b) {
      ChainLowersRank(h, a, b);
      ChainLowersRank(h, b, a);
    }
  }

  // ---------------------------------------------------------------------
  // Real class and superclass

  /** Neither a singleton class nor an iclass. */
  predicate IsReal(h: Heap, x: ClassRef)
    requires x in h.classes
  {
    !h.classes[x].singleton && h.classes[x].kind != TIClass
  }

  /** The first class of the chain from `cl` that is neither a singleton nor an iclass, or NULL. */
  function FirstReal(h: Heap, cl: ClassRef): (r: ClassRef)
    requires Acyclic(h) && NullOrIn(h, cl)
    ensures NullOrIn(h, r) && (r != 0 ==> IsReal(h, r))
    decreases if cl == 0 then 0 else h.rank[cl] + 1
  {
    if cl != 0 && (h.classes[cl].singleton || h.classes[cl].kind == TIClass)
    then FirstReal(h, h.classes[cl].super)
    else cl
  }

  /** Walking `super` links from `cl` reaches `r` having passed only singleton classes and iclasses. */
  ghost predicate PassesOnlyUnreal(h: Heap, cl: ClassRef, r: ClassRef)
    requires Acyclic(h) && NullOrIn(h, cl)
    decreases if cl == 0 then 0 else h.rank[cl] + 1
  {
    cl == r || (cl != 0 && !IsReal(h, cl) && PassesOnlyUnreal(h, h.classes[cl].super, r))
  }

  /** `FirstReal` passes over singleton classes and iclasses only. */
  lemma {:induction false} FirstRealSkips(h: Heap, cl: ClassRef)
    requires Acyclic(h) && NullOrIn(h, cl)
    ensures PassesOnlyUnreal(h, cl, FirstReal(h, cl))
    decreases if cl == 0 then 0 else h.rank[cl] + 1
  {
    if cl != 0 && !IsReal(h, cl) {
      FirstRealSkips(h, h.classes[cl].super);
    }
  }

  /** `rb_class_real`: skip singleton classes and iclasses along `super`. */
  method ClassReal(h: Heap, cl: ClassRef) returns (r: ClassRef)
    requires Acyclic(h) && NullOrIn(h, cl)
    ensures r == FirstReal(h, cl)
  {
    r := cl;
    while r != 0 && (h.classes[r].singleton || h.classes[r].kind == TIClass)
      invariant NullOrIn(h, r)
      invariant FirstReal(h, r) == FirstReal(h, cl)
      decreases if r == 0 then 0 else h.rank[r] + 1
    {
      r := h.classes[r].super;
    }
  }

  /**
   * `rb_class_superclass` (`Class#superclass`): nil for `BasicObject`, a
   * TypeError for any other class without a superclass, and otherwise the
   * nearest superclass that is not an iclass, or nil when there is none.
   */
  method ClassSuperclass(h: Heap, klass: ClassRef) returns (r: Result<Value, Exception>)
    requires WellFormed(h) && klass in h.classes
    ensures h.classes[klass].super == 0 && klass == h.basicObject ==> r == Ok(Nil)
    ensures h.classes[klass].super == 0 && klass != h.basicObject ==> r.Err? && r.error.TypeError?
    ensures h.classes[klass].super != 0 ==>
      var supers := RealChain(h, h.classes[klass].super);
      r == Ok(if supers == [] then Nil else Obj(supers[0]))
  {
    var super := h.classes[klass].super;
    if super == 0 {
      if klass == h.basicObject {
        return Ok(Nil);
      }
      return Err(TypeError("uninitialized class"));
    }
    while super != 0 && h.classes[super].kind == TIClass
      invariant NullOrIn(h, super)
      invariant RealChain(h, super) == RealChain(h, h.classes[klass].super)
      decreases if super == 0 then 0 else h.rank[super] + 1
    {
      super := h.classes[super].super;
    }
    if super == 0 {
      return Ok(Nil);
    }
    return Ok(Obj(super));
  }

  /** An ordinary class's superclass is the first entry of its superclass array. */
  method SuperclassOfOrdinaryClass(h: Heap, klass: ClassRef) returns (r: Result<Value, Exception>)
    requires WellFormed(h) && klass in h.classes && h.classes[klass].super != 0
    requires h.classes[klass].kind == TClass && !h.classes[klass].singleton
    ensures h.classes[klass].superclasses == [] ==> r == Ok(Nil)
    ensures h.classes[klass].superclasses != [] ==> r == Ok(Obj(h.classes[klass].superclasses[0]))
  {
    r := ClassSuperclass(h, klass);
  }
}

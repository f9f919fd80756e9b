/**
 * The value-level parts of object.c: identity, negation and the boolean
 * operators of `true` and `false`, the checks on the `freeze:` and other
 * boolean keyword values, and the lookup of a conversion method's name in
 * the `to_*` table.
 */
module ObjectValues {
  import opened Wrappers

  /**
   * A Ruby `VALUE`: the special constants, a Fixnum, or a reference to a
   * heap object (a class, a module or anything else) by address.
   */
  datatype Value = Nil | True | False | Fixnum(n: int) | Obj(ref: nat)

  /** An exception `rb_raise` would throw instead of returning. */
  datatype Exception = ArgumentError(message: string) | TypeError(message: string) | NameError(message: string)

  /** `RTEST`: everything but `nil` and `false` counts as true. */
  predicate RTest(v: Value) {
    v != Nil && v != False
  }

  /** `RBOOL`: the Ruby boolean for a C truth value. */
  function RBool(b: bool): (v: Value)
    ensures v == True || v == False
    ensures RTest(v) == b
  {
    if b then True else False
  }

  /** `rb_obj_equal` (`BasicObject#==`, `equal?`): identity of the two values. */
  function ObjEqual(obj1: Value, obj2: Value): (r: Value)
    ensures r == True || r == False
    ensures r == True <==> obj1 == obj2
  {
    RBool(obj1 == obj2)
  }

  /** `rb_obj_not` (`BasicObject#!`): true exactly for `nil` and `false`. */
  function ObjNot(obj: Value): (r: Value)
    ensures r == True || r == False
    ensures r == True <==> obj == Nil || obj == False
  {
    RBool(!RTest(obj))
  }

  /** `true_and` (`true & obj`), also `false_or` and `false_xor`: the truth of the argument. */
  function TrueAnd(obj: Value, obj2: Value): (r: Value)
    ensures r == True || r == False
    ensures r == True <==> RTest(obj2)
  {
    RBool(RTest(obj2))
  }

  /** `true_or` (`true | obj`): always true. */
  function TrueOr(obj: Value, obj2: Value): (r: Value)
    ensures r == True
  {
    True
  }

  /** `true_xor` (`true ^ obj`): the negation of the argument. */
  function TrueXor(obj: Value, obj2: Value): (r: Value)
    ensures r == True || r == False
    ensures r == True <==> !RTest(obj2)
  {
    ObjNot(obj2)
  }

  /** `false_and` (`false & obj`): always false. */
  function FalseAnd(obj: Value, obj2: Value): (r: Value)
    ensures r == False
  {
    False
  }

  datatype BoolOperator = And | Or | Xor

  /** The receivers whose `&`, `|` and `^` are defined in object.c. */
  predicate IsBoolReceiver(v: Value) {
    v == True || v == False || v == Nil
  }

  /**
   * Which C function answers `recv op arg` for `recv` `true`, `false` or
   * `nil`: `nil` shares `false`'s operators, and `false_or` and `false_xor`
   * are defined as `true_and`.
   */
  function SendBoolOperator(recv: Value, op: BoolOperator, arg: Value): Value
    requires IsBoolReceiver(recv)
  {
    match (recv, op)
    case (True, And) => TrueAnd(recv, arg)
    case (True, Or) => TrueOr(recv, arg)
    case (True, Xor) => TrueXor(recv, arg)
    case (_, And) => FalseAnd(recv, arg)
    case (_, Or) => TrueAnd(recv, arg)
    case (_, Xor) => TrueAnd(recv, arg)
  }

  /** The connective each operator stands for. */
  function Connective(op: BoolOperator, a: bool, b: bool): bool {
    match op
    case And => a && b
    case Or => a || b
    case Xor => a != b
  }

  /**
   * The operators of `true`, `false` and `nil` agree with the logical
   * connective on the truth of both operands, and always answer a boolean.
   */
  lemma BoolOperatorsFollowTruthTable(recv: Value, op: BoolOperator, arg: Value)
    requires IsBoolReceiver(recv)
    ensures SendBoolOperator(recv, op, arg) == RBool(Connective(op, RTest(recv), RTest(arg)))
  {
  }

  /** `!` applied twice gives the truth of the value as a boolean. */
  lemma ObjNotTwice(v: Value)
    ensures ObjNot(ObjNot(v)) == RBool(RTest(v))
  {
  }

  // ---------------------------------------------------------------------
  // Keyword values

  /** `obj_freeze_opt`: the `freeze:` keyword accepts only `true`, `false` and `nil`, and passes it through. */
  function ObjFreezeOpt(freeze: Value): (r: Result<Value, Exception>)
    ensures r.Ok? <==> freeze == True || freeze == False || freeze == Nil
    ensures r.Ok? ==> r.value == freeze
    ensures r.Err? ==> r.error.ArgumentError?
  {
    match freeze
    case False => Ok(freeze)
    case True => Ok(freeze)
    case Nil => Ok(freeze)
    case _ => Err(ArgumentError("unexpected value for freeze"))
  }

  /** `immutable_obj_clone`: a special constant is its own clone, but cannot be unfrozen. */
  function ImmutableObjClone(obj: Value, kwfreeze: Value): (r: Result<Value, Exception>)
    ensures r.Ok? <==> kwfreeze != False
    ensures r.Ok? ==> r.value == obj
    ensures r.Err? ==> r.error.ArgumentError?
  {
    if kwfreeze == False then Err(ArgumentError("can't unfreeze")) else Ok(obj)
  }

  /** `clone(freeze: v)` of a special constant: the keyword is checked first, then the clone refused or returned. */
  lemma CloneOfSpecialConstant(obj: Value, freeze: Value)
    ensures var r := match ObjFreezeOpt(freeze)
                     case Err(e) => Err(e)
                     case Ok(kw) => ImmutableObjClone(obj, kw);
      && (r.Ok? <==> freeze == True || freeze == Nil)
      && (r.Ok? ==> r.value == obj)
      && (r.Err? ==> r.error.ArgumentError?)
  {
  }

  /** `rb_bool_expected`: only `true` and `false` are accepted, and the answer is whether it was `true`. */
  function BoolExpected(obj: Value, flagname: string): (r: Result<bool, Exception>)
    ensures r.Ok? <==> obj == True || obj == False
    ensures r.Ok? ==> (r.value <==> obj == True)
    ensures r.Err? ==> r.error.ArgumentError?
  {
    match obj
    case True => Ok(obj != False)
    case False => Ok(obj != False)
    case _ => Err(ArgumentError("expected true or false as " + flagname))
  }

  /** What `obj_freeze_opt` accepts and `rb_bool_expected` accepts differ only in `nil`. */
  lemma FreezeOptAcceptsNilBoolExpectedDoesNot(obj: Value, flagname: string)
    ensures ObjFreezeOpt(obj).Ok? <==> BoolExpected(obj, flagname).Ok? || obj == Nil
  {
  }

  // ---------------------------------------------------------------------
  // Conversion method names

  /** `conv_method_names`: the suffixes after `to_`, implicit conversions first. */
  const CONV_METHOD_NAMES: seq<string> := ["int", "ary", "str", "sym", "hash", "proc", "io", "a", "s", "i", "f", "r"]

  /** How many entries of the table are implicit conversions. */
  const IMPLICIT_CONVERSIONS: nat := 7

  /** The entries of the table are pairwise different. */
  lemma ConvMethodNamesDistinct()
    ensures forall i, j :: 0 <= i < j < |CONV_METHOD_NAMES| ==> CONV_METHOD_NAMES[i] != CONV_METHOD_NAMES[j]
  {
  }

  /**
   * `conv_method_index`: for `to_X` with `X` in the table, the position of
   * `X`; for any other name, the table's length.
   */
  method ConvMethodIndex(name: string) returns (index: nat)
    ensures index <= |CONV_METHOD_NAMES|
    ensures index < |CONV_METHOD_NAMES| <==>
      |name| >= 3 && name[..3] == "to_" && name[3..] in CONV_METHOD_NAMES
    ensures index < |CONV_METHOD_NAMES| ==> CONV_METHOD_NAMES[index] == name[3..]
  {
    var prefix := "to_";
    if |name| >= |prefix| && name[..|prefix|] == prefix {
      var meth := name[|prefix|..];
      for i := 0 to |CONV_METHOD_NAMES|
        invariant forall j :: 0 <= j < i ==> CONV_METHOD_NAMES[j] != meth
      {
        if |meth| > 0 && CONV_METHOD_NAMES[i][0] == meth[0] && CONV_METHOD_NAMES[i] == meth {
          return i;
        }
      }
    }
    return |CONV_METHOD_NAMES|;
  }

  /** The first words of the error raised when a conversion is missing. */
  function ConversionMessage(index: nat): (msg: string)
    ensures index < IMPLICIT_CONVERSIONS ==> msg == "no implicit conversion of"
    ensures index >= IMPLICIT_CONVERSIONS ==> msg == "can't convert"
  {
    if index < IMPLICIT_CONVERSIONS then "no implicit conversion of" else "can't convert"
  }

  /**
   * A missing `to_int`, `to_ary`, `to_str`, `to_sym`, `to_hash`, `to_proc`
   * or `to_io` is reported as a missing implicit conversion; any other
   * method name as a failed explicit one.
   */
  method ConversionMessageFor(name: string) returns (msg: string)
    ensures msg == "no implicit conversion of" <==>
      |name| >= 3 && name[..3] == "to_" && name[3..] in CONV_METHOD_NAMES[..IMPLICIT_CONVERSIONS]
    ensures msg == "no implicit conversion of" || msg == "can't convert"
  {
    var index := ConvMethodIndex(name);
    ConvMethodNamesDistinct();
    msg := ConversionMessage(index);
    if |name| >= 3 && name[..3] == "to_" && name[3..] in CONV_METHOD_NAMES[..IMPLICIT_CONVERSIONS] {
      var k :| 0 <= k < IMPLICIT_CONVERSIONS && CONV_METHOD_NAMES[k] == name[3..];
      assert index == k;
    }
  }
}

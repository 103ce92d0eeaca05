/**
 * Conditions and features of the toggler: the built-in operator tokens, one
 * condition's evaluation against an effective context (built-in dispatch or a
 * look-up in the custom-operator table), and the meaning of a condition list.
 */
module Conditions {
  import opened Wrappers
  import opened Values

  /** The five built-in operators. */
  datatype Operator = InSet | NotInSet | Equals | LessThan | GreaterThan

  /** The token that names a built-in operator in a condition. */
  function Sign(op: Operator): string {
    match op
    case InSet => "in"
    case NotInSet => "notIn"
    case Equals => "="
    case LessThan => "<"
    case GreaterThan => ">"
  }

  /** The built-in operator a sign names, if it names one. */
  function ParseOperator(sign: string): (r: Option<Operator>)
    ensures r.Some? ==> Sign(r.value) == sign
    ensures r.None? ==> forall op :: Sign(op) != sign
  {
    if sign == "=" then Some(Equals)
    else if sign == "in" then Some(InSet)
    else if sign == "notIn" then Some(NotInSet)
    else if sign == ">" then Some(GreaterThan)
    else if sign == "<" then Some(LessThan)
    else None
  }

  /**
   * A condition `[field, sign]` or `[field, sign, arg]`; `arg` is `None` for
   * the two-element form.
   */
  datatype Condition = Condition(field: string, sign: string, arg: Option<Value>) {

    /** The argument the operator receives: null for a two-element condition. */
    function Arg(): Value {
      arg.GetOr(Null)
    }
  }

  /**
   * A feature definition: a boolean literal, or an object that may carry an
   * `active` flag and may carry a `conditions` list (either, both or neither).
   */
  datatype Feature =
    | Literal(enabled: bool)
    | Definition(active: Option<bool>, conditions: Option<seq<Condition>>)

  /** The one error the engine raises. */
  datatype Error = UnregisteredOperator(sign: string) {

    /** The error's message text. */
    function Message(): string {
      "Operator \"" + sign + "\" is not registered"
    }
  }

  /**
   * A user-registered predicate over (field value, effective context,
   * argument); its body is the caller's and is not modelled.
   */
  type CustomOperator = (Value, Context, Value) -> bool

  /** The custom-operator table: sign to predicate. */
  type OperatorTable = map<string, CustomOperator>

  /** The verdict of a built-in operator on a field value and an argument. */
  predicate BuiltinHolds(op: Operator, value: Value, arg: Value) {
    match op
    case Equals => value == arg
    case InSet => Includes(arg, value)
    case NotInSet => !Includes(arg, value)
    case GreaterThan => Less(arg, value)
    case LessThan => Less(value, arg)
  }

  /**
   * A condition whose sign is not built in: the registered predicate's verdict,
   * or the unregistered-operator error naming the sign.
   */
  function EvaluateCustomOperatorCondition(
    ops: OperatorTable, sign: string, value: Value, context: Context, arg: Value): (r: Result<bool, Error>)
    ensures r.Failure? <==> sign !in ops
    ensures r.Failure? ==> r.error == UnregisteredOperator(sign)
    ensures r.Success? ==> r.value == ops[sign](value, context, arg)
  {
    if sign !in ops then Failure(UnregisteredOperator(sign))
    else Success(ops[sign](value, context, arg))
  }

  /** One condition against an effective context. */
  function EvaluateCondition(ops: OperatorTable, c: Condition, context: Context): (r: Result<bool, Error>)
    ensures c.field !in context ==> r == Success(false)
    ensures r.Failure? ==> ParseOperator(c.sign).None? && c.sign !in ops && r.error == UnregisteredOperator(c.sign)
  {
    if c.field !in context then Success(false)
    else
      var value := context[c.field];
      match ParseOperator(c.sign)
      case Some(op) => Success(BuiltinHolds(op, value, c.Arg()))
      case None => EvaluateCustomOperatorCondition(ops, c.sign, value, context, c.Arg())
  }

  /**
   * The left-to-right conjunction of a list of conditions that stops at the
   * first condition that does not hold: its `false` or its error is the result.
   */
  function AllConditionsHold(ops: OperatorTable, cs: seq<Condition>, context: Context): Result<bool, Error>
  {
    if cs == [] then Success(true)
    else
      match EvaluateCondition(ops, cs[0], context)
      case Failure(e) => Failure(e)
      case Success(holds) => if holds then AllConditionsHold(ops, cs[1..], context) else Success(false)
  }

  /** A feature's condition list: empty means disabled, otherwise the conjunction. */
  function EvaluateConditionList(ops: OperatorTable, cs: seq<Condition>, context: Context): Result<bool, Error>
  {
    if |cs| == 0 then Success(false) else AllConditionsHold(ops, cs, context)
  }

  /** A sign names a built-in operator exactly when it is that operator's token. */
  lemma ParseSignRoundTrip(op: Operator, sign: string)
    ensures ParseOperator(Sign(op)) == Some(op)
    ensures ParseOperator(sign) == Some(op) <==> sign == Sign(op)
  {
  }

  /** The error message names the sign exactly, so two messages are equal only for the same sign. */
  lemma MessageNamesSign(e: Error, e': Error)
    ensures |e.Message()| == |e.sign| + 29
    ensures e.Message()[10..|e.Message()| - 19] == e.sign
    ensures e.Message() == e'.Message() ==> e == e'
  {
  }

  /**
   * With the field present, `in` and `notIn` on the same argument are exact
   * complements; with it absent both are false.
   */
  lemma InNotInComplement(ops: OperatorTable, field: string, arg: Value, context: Context)
    ensures var isIn := EvaluateCondition(ops, Condition(field, "in", Some(arg)), context);
            var notIn := EvaluateCondition(ops, Condition(field, "notIn", Some(arg)), context);
            && isIn.Success? && notIn.Success?
            && (field in context ==> notIn.value == !isIn.value)
            && (field !in context ==> !isIn.value && !notIn.value)
  {
  }

  /**
   * On values of the same scalar kind exactly one of `=`, `<` and `>` holds;
   * `<` and `>` never hold together on any values.
   */
  lemma ComparisonsExclusive(ops: OperatorTable, field: string, arg: Value, context: Context)
    requires field in context
    ensures var eq := EvaluateCondition(ops, Condition(field, "=", Some(arg)), context);
            var lt := EvaluateCondition(ops, Condition(field, "<", Some(arg)), context);
            var gt := EvaluateCondition(ops, Condition(field, ">", Some(arg)), context);
            && eq.Success? && lt.Success? && gt.Success?
            && !(lt.value && gt.value)
            && (Comparable(context[field], arg) ==>
                  (eq.value || lt.value || gt.value) && !(eq.value && lt.value) && !(eq.value && gt.value))
  {
    var value := context[field];
    if Comparable(value, arg) {
      Trichotomy(value, arg);
    }
  }

  /**
   * A present field with a sign that is not built in: the registered predicate
   * decides on (field value, context, argument), and an unregistered sign fails
   * with the error naming it. Registering the sign later makes the same
   * condition succeed: a failed look-up leaves nothing behind.
   */
  lemma CustomOperatorInvoked(ops: OperatorTable, c: Condition, context: Context, p: CustomOperator)
    requires c.field in context
    requires ParseOperator(c.sign).None?
    ensures EvaluateCondition(ops, c, context) ==
              if c.sign in ops then Success(ops[c.sign](context[c.field], context, c.Arg()))
              else Failure(UnregisteredOperator(c.sign))
    ensures EvaluateCondition(ops[c.sign := p], c, context) == Success(p(context[c.field], context, c.Arg()))
  {
  }

  /** Skipping a prefix of conditions that all hold leaves the conjunction unchanged. */
  lemma {:induction false} AllConditionsHoldFrom(ops: OperatorTable, cs: seq<Condition>, context: Context, k: nat)
    requires k <= |cs|
    requires forall j :: 0 <= j < k ==> EvaluateCondition(ops, cs[j], context) == Success(true)
    ensures AllConditionsHold(ops, cs, context) == AllConditionsHold(ops, cs[k..], context)
  {
    if k > 0 {
      AllConditionsHoldFrom(ops, cs[1..], context, k - 1);
      assert cs[1..][k - 1..] == cs[k..];
    }
  }

  /**
   * The conjunction holds exactly when every condition holds; otherwise its
   * result is that of the first condition that does not hold (a `false` or an
   * error), whatever follows it.
   */
  lemma {:induction false} AllConditionsHoldFirstFailure(ops: OperatorTable, cs: seq<Condition>, context: Context)
    ensures AllConditionsHold(ops, cs, context) == Success(true) <==>
              forall i :: 0 <= i < |cs| ==> EvaluateCondition(ops, cs[i], context) == Success(true)
    ensures AllConditionsHold(ops, cs, context) != Success(true) ==>
              exists k :: 0 <= k < |cs|
                && (forall j :: 0 <= j < k ==> EvaluateCondition(ops, cs[j], context) == Success(true))
                && AllConditionsHold(ops, cs, context) == EvaluateCondition(ops, cs[k], context)
  {
    if cs != [] {
      AllConditionsHoldFirstFailure(ops, cs[1..], context);
      if EvaluateCondition(ops, cs[0], context) == Success(true) {
        if AllConditionsHold(ops, cs, context) != Success(true) {
          var k :| 0 <= k < |cs[1..]|
                && (forall j :: 0 <= j < k ==> EvaluateCondition(ops, cs[1..][j], context) == Success(true))
                && AllConditionsHold(ops, cs[1..], context) == EvaluateCondition(ops, cs[1..][k], context);
          assert cs[k + 1] == cs[1..][k];
          assert forall j :: 0 <= j < k + 1 ==> EvaluateCondition(ops, cs[j], context) == Success(true) by {
            forall j | 0 <= j < k + 1
              ensures EvaluateCondition(ops, cs[j], context) == Success(true)
            {
              if j > 0 {
                assert cs[j] == cs[1..][j - 1];
              }
            }
          }
        }
        forall i | 0 < i < |cs|
          ensures cs[i] == cs[1..][i - 1]
        {
        }
      }
    }
  }

  /**
   * A condition list gives `false` when empty; otherwise `true` exactly when
   * every condition holds; it raises only an error one of its conditions raises.
   */
  lemma ConditionListSemantics(ops: OperatorTable, cs: seq<Condition>, context: Context)
    ensures |cs| == 0 ==> EvaluateConditionList(ops, cs, context) == Success(false)
    ensures EvaluateConditionList(ops, cs, context) == Success(true) <==>
              |cs| > 0 && forall i :: 0 <= i < |cs| ==> EvaluateCondition(ops, cs[i], context) == Success(true)
    ensures EvaluateConditionList(ops, cs, context).Failure? ==>
              exists k :: 0 <= k < |cs| && EvaluateCondition(ops, cs[k], context) == EvaluateConditionList(ops, cs, context)
  {
    AllConditionsHoldFirstFailure(ops, cs, context);
  }

  /**
   * Evaluation stops at the first `false`: once a condition gives `false` after
   * conditions that all hold, no later condition is evaluated, so nothing that
   * follows (an unregistered operator included) can change the result or raise.
   */
  lemma ShortCircuit(ops: OperatorTable, cs: seq<Condition>, rest: seq<Condition>, context: Context, k: nat)
    requires k < |cs|
    requires forall j :: 0 <= j < k ==> EvaluateCondition(ops, cs[j], context) == Success(true)
    requires EvaluateCondition(ops, cs[k], context) == Success(false)
    ensures EvaluateConditionList(ops, cs[..k + 1] + rest, context) == Success(false)
  {
    var all := cs[..k + 1] + rest;
    assert forall j :: 0 <= j < k ==> all[j] == cs[j];
    AllConditionsHoldFrom(ops, all, context, k);
    assert all[k..][0] == cs[k];
  }
}

/**
 * The toggler registry: the global context, the feature table and the
 * custom-operator table, with the decision entry point `Enabled` and the two
 * registration calls that update the tables in place.
 */
module Registry {
  import opened Wrappers
  import opened Values
  import opened Conditions

  /** A feature table: feature name to definition. */
  type FeatureTable = map<string, Feature>

  /** The construction configuration; either part may be absent. */
  datatype Config = Config(globals: Option<Context>, features: Option<FeatureTable>)

  /**
   * Whether feature `name` is enabled for call-site `data`: an unknown name is
   * disabled; a literal is its own answer; an object's `active` flag wins over
   * its `conditions`, which are evaluated on the globals overlaid with `data`;
   * an object with neither is disabled.
   */
  function FeatureEnabled(
    globals: Context, features: FeatureTable, ops: OperatorTable, name: string, data: Context): Result<bool, Error>
  {
    var context := Overlay(globals, data);
    if name !in features then Success(false)
    else
      match features[name]
      case Literal(b) => Success(b)
      case Definition(active, conditions) =>
        if active.Some? then Success(active.value)
        else if conditions.Some? then EvaluateConditionList(ops, conditions.value, context)
        else Success(false)
  }

  class Toggler {
    var globals: Context
    const features: FeatureTable
    var customOperators: OperatorTable

    /** A registry over the configured globals and features (each empty when absent), with no custom operators. */
    constructor (config: Option<Config>)
      ensures config.Some? ==> globals == config.value.globals.GetOr(map[])
      ensures config.Some? ==> features == config.value.features.GetOr(map[])
      ensures config.None? ==> globals == map[] && features == map[]
      ensures customOperators == map[]
    {
      customOperators := map[];
      match config
      case Some(c) =>
        globals := c.globals.GetOr(map[]);
        features := c.features.GetOr(map[]);
      case None =>
        globals := map[];
        features := map[];
    }

    /** Sets one global, leaving every other global and the operator table as they were; returns this registry. */
    method AddGlobal(property: string, value: Value) returns (self: Toggler)
      modifies this
      ensures self == this
      ensures globals == old(globals)[property := value]
      ensures customOperators == old(customOperators)
    {
      globals := globals[property := value];
      self := this;
    }

    /** Registers (or replaces) the predicate for one sign, leaving every other sign and the globals as they were. */
    method RegisterOperator(sign: string, operator: CustomOperator)
      modifies this
      ensures customOperators == old(customOperators)[sign := operator]
      ensures globals == old(globals)
    {
      customOperators := customOperators[sign := operator];
    }

    /** The decision for one feature on the current state; the state itself is not changed. */
    method Enabled(feature: string, data: Context) returns (r: Result<bool, Error>)
      ensures r == FeatureEnabled(globals, features, customOperators, feature, data)
    {
      var context := Overlay(globals, data);
      if feature !in features {
        return Success(false);
      }
      match features[feature]
      case Literal(b) =>
        r := Success(b);
      case Definition(active, conditions) =>
        if active.Some? {
          r := Success(active.value);
        } else if conditions.Some? {
          r := EvaluateConditions(conditions.value, context);
        } else {
          r := Success(false);
        }
    }

    /** A condition list, evaluated in order and left at the first condition that does not hold. */
    method EvaluateConditions(conditions: seq<Condition>, context: Context) returns (r: Result<bool, Error>)
      ensures r == EvaluateConditionList(customOperators, conditions, context)
    {
      if |conditions| == 0 {
        return Success(false);
      }
      for i := 0 to |conditions|
        invariant forall j :: 0 <= j < i ==> EvaluateCondition(customOperators, conditions[j], context) == Success(true)
      {
        var outcome := EvaluateCondition(customOperators, conditions[i], context);
        AllConditionsHoldFrom(customOperators, conditions, context, i);
        assert conditions[i..][0] == conditions[i];
        match outcome
        case Failure(_) =>
          return outcome;
        case Success(holds) =>
          if !holds {
            return Success(false);
          }
      }
      AllConditionsHoldFrom(customOperators, conditions, context, |conditions|);
      return Success(true);
    }
  }

  /** A name that is not in the feature table is disabled for every context and never raises. */
  lemma UnknownFeatureDisabled(globals: Context, features: FeatureTable, ops: OperatorTable, name: string, data: Context)
    requires name !in features
    ensures FeatureEnabled(globals, features, ops, name, data) == Success(false)
  {
  }

  /** A boolean-literal feature gives its literal, whatever the globals, the call data and the operators. */
  lemma LiteralIgnoresContext(globals: Context, features: FeatureTable, ops: OperatorTable, name: string, data: Context)
    requires name in features && features[name].Literal?
    ensures FeatureEnabled(globals, features, ops, name, data) == Success(features[name].enabled)
  {
  }

  /**
   * An object with `active` gives that flag even when it also has conditions
   * (which are then never evaluated); an object with neither key is disabled.
   */
  lemma ActiveOverridesConditions(globals: Context, features: FeatureTable, ops: OperatorTable, name: string, data: Context)
    requires name in features && features[name].Definition?
    ensures features[name].active.Some? ==>
              FeatureEnabled(globals, features, ops, name, data) == Success(features[name].active.value)
    ensures features[name].active.None? && features[name].conditions.None? ==>
              FeatureEnabled(globals, features, ops, name, data) == Success(false)
  {
  }

  /**
   * A condition-list feature is enabled exactly when its list is non-empty and
   * every condition holds on the globals overlaid with the call data.
   */
  lemma ConditionFeatureSemantics(globals: Context, features: FeatureTable, ops: OperatorTable, name: string, data: Context)
    requires name in features && features[name].Definition?
    requires features[name].active.None? && features[name].conditions.Some?
    ensures var cs := features[name].conditions.value;
            FeatureEnabled(globals, features, ops, name, data) == Success(true) <==>
              |cs| > 0 && forall i :: 0 <= i < |cs| ==> EvaluateCondition(ops, cs[i], Overlay(globals, data)) == Success(true)
  {
    ConditionListSemantics(ops, features[name].conditions.value, Overlay(globals, data));
  }

  /**
   * The only error a decision raises is the unregistered-operator error, for
   * a sign that one of the feature's conditions uses, that is not built in and
   * that the operator table lacks.
   */
  lemma EnabledRaisesOnlyUnregistered(globals: Context, features: FeatureTable, ops: OperatorTable, name: string, data: Context)
    requires FeatureEnabled(globals, features, ops, name, data).Failure?
    ensures name in features && features[name].Definition? && features[name].conditions.Some?
    ensures var e := FeatureEnabled(globals, features, ops, name, data).error;
            && ParseOperator(e.sign).None? && e.sign !in ops
            && exists c :: c in features[name].conditions.value && c.sign == e.sign
  {
    var cs := features[name].conditions.value;
    var context := Overlay(globals, data);
    ConditionListSemantics(ops, cs, context);
    var k :| 0 <= k < |cs| && EvaluateCondition(ops, cs[k], context) == EvaluateConditionList(ops, cs, context);
    assert cs[k] in cs;
  }

  /** The globals of the toggler's own test suite. */
  function TestGlobals(): Context {
    map["environment" := Str("test"), "version" := Int(15)]
  }

  /** The feature table of the toggler's own test suite. */
  function TestFeatures(): FeatureTable {
    map[
      "feature1" := Definition(None, Some([
        Condition("environment", "in", Some(List([Str("test"), Str("staging")]))),
        Condition("userId", ">", Some(Int(140)))])),
      "feature2" := Definition(None, Some([Condition("environment", "=", Some(Str("test")))])),
      "feature3" := Definition(None, Some([Condition("environment", "notIn", Some(List([Str("test"), Str("staging")])))])),
      "feature4" := Definition(Some(true), None),
      "feature5" := Definition(None, Some([Condition("environment", "unknown", Some(Str("test")))])),
      "feature6" := Definition(None, Some([Condition("userId", "custom", None)])),
      "feature7" := Literal(true)]
  }

  /** The test suite's first feature: an `in` condition on a global and a `>` condition on call data. */
  method TestFeature1() {
    var toggler := new Toggler(Some(Config(Some(TestGlobals()), Some(TestFeatures()))));
    var r := toggler.Enabled("feature1", map["userId" := Int(150)]);
    assert r == Success(true);
    r := toggler.Enabled("feature1", map["userId" := Int(130)]);
    assert r == Success(false);
    r := toggler.Enabled("feature1", map["userId" := Int(150), "environment" := Str("production")]);
    assert r == Success(false);
  }

  /** The test suite's `=` and `notIn` features, where call data overrides a global. */
  method TestFeatures2And3() {
    var toggler := new Toggler(Some(Config(Some(TestGlobals()), Some(TestFeatures()))));
    var r := toggler.Enabled("feature2", map["environment" := Str("test")]);
    assert r == Success(true);
    r := toggler.Enabled("feature2", map["environment" := Str("production")]);
    assert r == Success(false);
    r := toggler.Enabled("feature3", map["environment" := Str("test")]);
    assert r == Success(false);
    r := toggler.Enabled("feature3", map["environment" := Str("production")]);
    assert r == Success(true);
  }

  /** The test suite's `active` and literal features, and its unregistered built-in-looking sign. */
  method TestFeatures4To7() {
    var toggler := new Toggler(Some(Config(Some(TestGlobals()), Some(TestFeatures()))));
    var r := toggler.Enabled("feature4", map[]);
    assert r == Success(true);
    r := toggler.Enabled("feature7", map[]);
    assert r == Success(true);
    r := toggler.Enabled("feature5", map[]);
    assert r == Failure(UnregisteredOperator("unknown"));
    assert r.error.Message() == "Operator \"unknown\" is not registered";
  }

  /** The test suite's custom operator: it fails while unregistered and decides once registered. */
  method TestCustomOperator() {
    var toggler := new Toggler(Some(Config(Some(TestGlobals()), Some(TestFeatures()))));
    var r := toggler.Enabled("feature6", map["userId" := Int(200)]);
    assert r == Failure(UnregisteredOperator("custom"));
    var custom: CustomOperator := (value, context, arg) =>
      value == Int(200) && "version" in context && context["version"] == Int(15);
    toggler.RegisterOperator("custom", custom);
    var context := Overlay(TestGlobals(), map["userId" := Int(200)]);
    assert context["userId"] == Int(200) && context["version"] == Int(15);
    assert custom(Int(200), context, Null);
    var conditions := [Condition("userId", "custom", None)];
    assert toggler.globals == TestGlobals() && toggler.features["feature6"] == Definition(None, Some(conditions));
    assert EvaluateCondition(toggler.customOperators, conditions[0], context) == Success(true);
    assert AllConditionsHold(toggler.customOperators, conditions[1..], context) == Success(true);
    r := toggler.Enabled("feature6", map["userId" := Int(200)]);
    assert r == Success(true);
  }
}

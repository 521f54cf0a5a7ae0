/**
  One exercise of the tutorial (src/exercise.ts): its paths and texts, its
  completion timestamp, and the seven configuration properties read from
  `exercise.json`, which are validated against the type of their field by a
  runtime classifier of JavaScript values before they are stored.
*/
module ExerciseModel {
  import opened Wrappers
  import Utils

  /** A JavaScript value as `JSON.parse` produces it (numbers restricted to integers). */
  datatype JsValue = Undefined | Null | Bool(b: bool) | Num(n: int) | Str(s: string) | Arr(items: seq<JsValue>) | Obj

  /** JavaScript truthiness: `undefined`, `null`, `false`, `0` and `""` are falsy. */
  predicate Truthy(v: JsValue) {
    match v
    case Undefined => false
    case Null => false
    case Bool(b) => b
    case Num(n) => n != 0
    case Str(s) => s != ""
    case Arr(_) => true
    case Obj => true
  }

  /** The `typeof` operator. */
  function TypeOf(v: JsValue): string {
    match v
    case Undefined => "undefined"
    case Null => "object"
    case Bool(_) => "boolean"
    case Num(_) => "number"
    case Str(_) => "string"
    case Arr(_) => "object"
    case Obj => "object"
  }

  /**
    The type name the configuration check computes: `typeof` for a
    non-array, "string[]" for an empty array, and the `typeof` of the first
    element followed by "[]" for a non-empty one.
  */
  function ActualType(v: JsValue): (t: string)
    ensures v.Arr? <==> |t| >= 2 && t[|t| - 2..] == "[]"
  {
    if v.Arr? then
      if |v.items| > 0 then TypeOf(v.items[0]) + "[]" else "string[]"
    else TypeOf(v)
  }

  /** Only the first element of an array decides its classification. */
  lemma ClassifiesFirstElementOnly(x: JsValue, rest1: seq<JsValue>, rest2: seq<JsValue>)
    ensures ActualType(Arr([x] + rest1)) == ActualType(Arr([x] + rest2))
    ensures ActualType(Arr([x] + rest1)) == TypeOf(x) + "[]"
  {
  }

  /** The seven configuration properties of `exercise.json`. */
  datatype ConfigProperty =
    Order | ExpectedToTerminate | ExpectedOutput | AllowAdditionalOutput | AllowErrorPrintouts | KillAfter | Interactive

  /** The key of a property in `exercise.json` and on the exercise object. */
  function PropertyName(p: ConfigProperty): string {
    match p
    case Order => "order"
    case ExpectedToTerminate => "expectedToTerminate"
    case ExpectedOutput => "expectedOutput"
    case AllowAdditionalOutput => "allowAdditionalOutput"
    case AllowErrorPrintouts => "allowErrorPrintouts"
    case KillAfter => "killAfter"
    case Interactive => "interactive"
  }

  /** The type the catalog loader demands for each property. */
  function DeclaredType(p: ConfigProperty): string {
    match p
    case Order => "number"
    case ExpectedToTerminate => "boolean"
    case ExpectedOutput => "string[]"
    case AllowAdditionalOutput => "boolean"
    case AllowErrorPrintouts => "boolean"
    case KillAfter => "number"
    case Interactive => "boolean"
  }

  /** The order in which the catalog loader checks and sets the properties. */
  const LoadOrder: seq<ConfigProperty> :=
    [Order, ExpectedToTerminate, ExpectedOutput, AllowAdditionalOutput, AllowErrorPrintouts, KillAfter, Interactive]

  /** The position of a property in the declaration order. */
  function Rank(p: ConfigProperty): nat {
    match p
    case Order => 0
    case ExpectedToTerminate => 1
    case ExpectedOutput => 2
    case AllowAdditionalOutput => 3
    case AllowErrorPrintouts => 4
    case KillAfter => 5
    case Interactive => 6
  }

  /** The seven properties are checked in a list without repetition. */
  lemma LoadOrderDistinct()
    ensures forall i, j :: 0 <= i < j < |LoadOrder| ==> LoadOrder[i] != LoadOrder[j]
  {
    assert forall i :: 0 <= i < |LoadOrder| ==> Rank(LoadOrder[i]) == i;
  }

  /** The configurable fields of an exercise. `expectedOutput` is unset (None) until configured. */
  datatype ExerciseConfig = ExerciseConfig(
    order: int,
    expectedOutput: Option<seq<JsValue>>,
    allowAdditionalOutput: bool,
    allowErrorPrintouts: bool,
    expectedToTerminate: bool,
    killAfter: int,
    interactive: bool)

  /** The field initialisers of the exercise class. */
  const DefaultConfig := ExerciseConfig(0, None, true, false, false, 5, false)

  /** The exception thrown for a property of the wrong type. */
  datatype TypeError = TypeError(property: string, actualType: string, expectedType: string)

  /** `config[key]` on a parsed JSON object: a missing key reads as `undefined`. */
  function Lookup(json: map<string, JsValue>, key: string): JsValue {
    if key in json then json[key] else Undefined
  }

  /** `exercise[p]` as a JavaScript value. */
  function Get(c: ExerciseConfig, p: ConfigProperty): JsValue {
    match p
    case Order => Num(c.order)
    case ExpectedToTerminate => Bool(c.expectedToTerminate)
    case ExpectedOutput => if c.expectedOutput.Some? then Arr(c.expectedOutput.value) else Undefined
    case AllowAdditionalOutput => Bool(c.allowAdditionalOutput)
    case AllowErrorPrintouts => Bool(c.allowErrorPrintouts)
    case KillAfter => Num(c.killAfter)
    case Interactive => Bool(c.interactive)
  }

  /** `exercise[p] = v` for a value already classified as the field's type. */
  function Store(c: ExerciseConfig, p: ConfigProperty, v: JsValue): ExerciseConfig
    requires ActualType(v) == DeclaredType(p)
  {
    match p
    case Order => c.(order := v.n)
    case ExpectedToTerminate => c.(expectedToTerminate := v.b)
    case ExpectedOutput => c.(expectedOutput := Some(v.items))
    case AllowAdditionalOutput => c.(allowAdditionalOutput := v.b)
    case AllowErrorPrintouts => c.(allowErrorPrintouts := v.b)
    case KillAfter => c.(killAfter := v.n)
    case Interactive => c.(interactive := v.b)
  }

  /** A value of a property's declared type has the shape of that property's field. */
  lemma DeclaredTypeShape(v: JsValue, p: ConfigProperty)
    requires ActualType(v) == DeclaredType(p)
    ensures p == Order || p == KillAfter ==> v.Num?
    ensures p == ExpectedOutput ==> v.Arr?
    ensures p == ExpectedToTerminate || p == AllowAdditionalOutput || p == AllowErrorPrintouts || p == Interactive ==> v.Bool?
  {
    var t := ActualType(v);
    if p != ExpectedOutput {
      assert t[|t| - 2..] != "[]";
      assert t == TypeOf(v);
    }
  }

  /** Storing a value changes the named field to it and no other. */
  lemma StoreGet(c: ExerciseConfig, p: ConfigProperty, v: JsValue)
    requires ActualType(v) == DeclaredType(p)
    ensures Get(Store(c, p, v), p) == v
    ensures forall q :: q != p ==> Get(Store(c, p, v), q) == Get(c, q)
  {
    DeclaredTypeShape(v, p);
  }

  /**
    `checkAndSetConfigProperty` on the configurable fields: a falsy value
    leaves them as they are, a value of another type is refused with a
    TypeError and changes nothing, and otherwise exactly the named field
    takes the value.
  */
  function SetConfigProperty(c: ExerciseConfig, json: map<string, JsValue>, p: ConfigProperty): (r: Result<ExerciseConfig, TypeError>)
    ensures var v := Lookup(json, PropertyName(p));
            r.Err? <==> Truthy(v) && ActualType(v) != DeclaredType(p)
    ensures var v := Lookup(json, PropertyName(p));
            r.Err? ==> r.error == TypeError(PropertyName(p), ActualType(v), DeclaredType(p))
    ensures var v := Lookup(json, PropertyName(p));
            r.Ok? ==> Get(r.value, p) == (if Truthy(v) then v else Get(c, p))
    ensures r.Ok? ==> forall q :: q != p ==> Get(r.value, q) == Get(c, q)
  {
    var v := Lookup(json, PropertyName(p));
    if !Truthy(v) then Ok(c)
    else if ActualType(v) != DeclaredType(p) then Err(TypeError(PropertyName(p), ActualType(v), DeclaredType(p)))
    else StoreGet(c, p, v); Ok(Store(c, p, v))
  }

  /** A falsy value never overrides a field: `"allowAdditionalOutput": false` leaves the default `true`. */
  lemma FalsyValueIgnored(c: ExerciseConfig, json: map<string, JsValue>, p: ConfigProperty)
    requires !Truthy(Lookup(json, PropertyName(p)))
    ensures SetConfigProperty(c, json, p) == Ok(c)
  {
  }

  /** The properties `ps` checked and set one after another; the first TypeError stops the rest. */
  function ApplyConfig(c: ExerciseConfig, json: map<string, JsValue>, ps: seq<ConfigProperty>): Result<ExerciseConfig, TypeError>
    decreases |ps|
  {
    if ps == [] then Ok(c)
    else
      match SetConfigProperty(c, json, ps[0])
      case Err(e) => Err(e)
      case Ok(c1) => ApplyConfig(c1, json, ps[1..])
  }

  /** The value a property ends up with after the properties `ps` are applied to `c`. */
  function Applied(c: ExerciseConfig, json: map<string, JsValue>, ps: seq<ConfigProperty>, q: ConfigProperty): JsValue {
    var v := Lookup(json, PropertyName(q));
    if q in ps && Truthy(v) then v else Get(c, q)
  }

  /** True when some property in `ps` holds a truthy value of the wrong type. */
  predicate SomeMismatch(json: map<string, JsValue>, ps: seq<ConfigProperty>) {
    exists k :: 0 <= k < |ps| && Truthy(Lookup(json, PropertyName(ps[k])))
                && ActualType(Lookup(json, PropertyName(ps[k]))) != DeclaredType(ps[k])
  }

  /**
    Applying a list of distinct properties fails exactly when one of them
    holds a truthy value of the wrong type; when it succeeds, each listed
    property holds its truthy JSON value and every other field keeps its value.
  */
  lemma {:induction false} ApplyConfigMeaning(c: ExerciseConfig, json: map<string, JsValue>, ps: seq<ConfigProperty>)
    requires forall i, j :: 0 <= i < j < |ps| ==> ps[i] != ps[j]
    ensures ApplyConfig(c, json, ps).Err? <==> SomeMismatch(json, ps)
    ensures ApplyConfig(c, json, ps).Ok? ==>
              forall q :: Get(ApplyConfig(c, json, ps).value, q) == Applied(c, json, ps, q)
    decreases |ps|
  {
    if ps != [] {
      var p := ps[0];
      var v := Lookup(json, PropertyName(p));
      match SetConfigProperty(c, json, p)
      case Err(e) =>
        assert SomeMismatch(json, ps) by {
          assert Truthy(Lookup(json, PropertyName(ps[0]))) && ActualType(Lookup(json, PropertyName(ps[0]))) != DeclaredType(ps[0]);
        }
      case Ok(c1) =>
        ApplyConfigMeaning(c1, json, ps[1..]);
        assert SomeMismatch(json, ps) <==> SomeMismatch(json, ps[1..]) by {
          if SomeMismatch(json, ps) {
            var k :| 0 <= k < |ps| && Truthy(Lookup(json, PropertyName(ps[k])))
                     && ActualType(Lookup(json, PropertyName(ps[k]))) != DeclaredType(ps[k]);
            assert k != 0;
            assert ps[1..][k - 1] == ps[k];
          }
          if SomeMismatch(json, ps[1..]) {
            var k :| 0 <= k < |ps[1..]| && Truthy(Lookup(json, PropertyName(ps[1..][k])))
                     && ActualType(Lookup(json, PropertyName(ps[1..][k]))) != DeclaredType(ps[1..][k]);
            assert ps[k + 1] == ps[1..][k];
          }
        }
        if ApplyConfig(c, json, ps).Ok? {
          var r := ApplyConfig(c, json, ps).value;
          forall q ensures Get(r, q) == Applied(c, json, ps, q) {
            assert q in ps <==> q == p || q in ps[1..];
            if q == p {
              assert p !in ps[1..] by {
                forall k | 0 <= k < |ps[1..]| ensures ps[1..][k] != p { assert ps[1..][k] == ps[k + 1]; }
              }
            }
          }
        }
    }
  }

  /**
    After the loader's seven properties are applied to the defaults,
    `allowAdditionalOutput` is still true: `false` is falsy and ignored, and
    any other value either is `true` or is refused.
  */
  lemma AdditionalOutputAlwaysAllowed(json: map<string, JsValue>)
    requires ApplyConfig(DefaultConfig, json, LoadOrder).Ok?
    ensures ApplyConfig(DefaultConfig, json, LoadOrder).value.allowAdditionalOutput
  {
    LoadOrderDistinct();
    ApplyConfigMeaning(DefaultConfig, json, LoadOrder);
    var r := ApplyConfig(DefaultConfig, json, LoadOrder).value;
    assert Get(r, AllowAdditionalOutput) == Applied(DefaultConfig, json, LoadOrder, AllowAdditionalOutput);
    var v := Lookup(json, "allowAdditionalOutput");
    if Truthy(v) {
      assert !SomeMismatch(json, LoadOrder);
      assert LoadOrder[3] == AllowAdditionalOutput;
      assert ActualType(v) == "boolean";
    }
  }

  /** The fields of an exercise other than its name and configuration. */
  datatype ExerciseDetails = ExerciseDetails(
    dataFolder: string,
    folder: Option<string>,
    solutionFolder: Option<string>,
    descriptionHTML: Option<string>,
    hintHTML: Option<string>,
    tcFile: Option<string>,
    completed: string)

  /** An exercise: one learning unit with its description, folders, completion state and configuration. */
  class Exercise {
    const name: string
    var dataFolder: string
    var folder: Option<string>
    var solutionFolder: Option<string>
    var descriptionHTML: Option<string>
    var hintHTML: Option<string>
    var tcFile: Option<string>
    var completed: string
    var order: int
    var expectedOutput: Option<seq<JsValue>>
    var allowAdditionalOutput: bool
    var allowErrorPrintouts: bool
    var expectedToTerminate: bool
    var killAfter: int
    var interactive: bool

    /** The configurable fields. */
    function Config(): ExerciseConfig
      reads this
    {
      ExerciseConfig(order, expectedOutput, allowAdditionalOutput, allowErrorPrintouts, expectedToTerminate, killAfter, interactive)
    }

    /** The remaining fields. */
    function Details(): ExerciseDetails
      reads this
    {
      ExerciseDetails(dataFolder, folder, solutionFolder, descriptionHTML, hintHTML, tcFile, completed)
    }

    /** A new exercise: not completed, no hint, every configurable field at its initialiser. */
    constructor (name: string, path: string)
      ensures this.name == name
      ensures Details() == ExerciseDetails(path, None, None, None, None, None, "")
      ensures Config() == DefaultConfig
    {
      this.name := name;
      dataFolder := path;
      folder, solutionFolder, descriptionHTML, hintHTML, tcFile := None, None, None, None, None;
      completed := "";
      order, expectedOutput := 0, None;
      allowAdditionalOutput, allowErrorPrintouts, expectedToTerminate := true, false, false;
      killAfter, interactive := 5, false;
    }

    /**
      `checkAndSetConfigProperty(config, property, expectedType)` with the
      expected type of the property's field: returns the TypeError it would
      throw, if any.
    */
    method CheckAndSetConfigProperty(config: map<string, JsValue>, property: ConfigProperty) returns (error: Option<TypeError>)
      modifies this
      ensures Details() == old(Details())
      ensures match SetConfigProperty(old(Config()), config, property)
              case Ok(c) => error == None && Config() == c
              case Err(e) => error == Some(e) && Config() == old(Config())
    {
      error := None;
      var value := Lookup(config, PropertyName(property));
      if Truthy(value) {
        var actualType := TypeOf(value);
        if actualType == "object" && value.Arr? {
          actualType := "string[]";
          if |value.items| > 0 {
            actualType := TypeOf(value.items[0]) + "[]";
          }
        }
        assert actualType == ActualType(value);
        var expectedType := DeclaredType(property);
        if actualType != expectedType {
          error := Some(TypeError(PropertyName(property), actualType, expectedType));
        } else {
          Assign(property, value);
        }
      }
    }

    /** `this[property] = value` for a value of the property's declared type. */
    method Assign(property: ConfigProperty, value: JsValue)
      requires ActualType(value) == DeclaredType(property)
      modifies this
      ensures Config() == Store(old(Config()), property, value) && Details() == old(Details())
    {
      DeclaredTypeShape(value, property);
      match property {
        case Order => order := value.n;
        case ExpectedToTerminate => expectedToTerminate := value.b;
        case ExpectedOutput => expectedOutput := Some(value.items);
        case AllowAdditionalOutput => allowAdditionalOutput := value.b;
        case AllowErrorPrintouts => allowErrorPrintouts := value.b;
        case KillAfter => killAfter := value.n;
        case Interactive => interactive := value.b;
      }
    }

    /**
      `complete()`: the timestamp is recorded before the `.completed` file is
      written, so it stays even when the write fails; the result says whether
      the write succeeded.
    */
    method Complete(date: string, time: string, writeSucceeds: bool) returns (ok: bool)
      modifies this
      ensures ok == writeSucceeds
      ensures completed == Utils.Timestamp(date, time) && completed != ""
      ensures Config() == old(Config())
      ensures Details() == old(Details()).(completed := completed)
    {
      completed := Utils.Timestamp(date, time);
      if !writeSucceeds {
        return false;
      }
      return true;
    }

    /**
      `reopen()`: like `complete()` it records a fresh timestamp (not the
      empty string), then reports whether the `.completed` file was removed.
    */
    method Reopen(date: string, time: string, unlinkSucceeds: bool) returns (ok: bool)
      modifies this
      ensures ok == unlinkSucceeds
      ensures completed == Utils.Timestamp(date, time) && completed != ""
      ensures Config() == old(Config())
      ensures Details() == old(Details()).(completed := completed)
    {
      completed := Utils.Timestamp(date, time);
      if !unlinkSucceeds {
        return false;
      }
      return true;
    }
  }
}

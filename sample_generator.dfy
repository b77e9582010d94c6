/**
 * sample_generator.py: the builder that declares a sample class (its fields, their
 * types, which fields belong to the dataset, extra methods) and the per-instance
 * state and methods of the samples such a class creates.
 */
module Generator {
  import opened Outcomes
  import opened Exceptions
  import opened Samples
  import Os

  /** The field every sample class has; the constructor's argument sets it. */
  const IS_POSITIVE := "is_positive"

  /** The Python type a field is declared with; NdArrayType stands for numpy.ndarray. */
  datatype TypeTag = NoneType | BoolType | NdArrayType | ClassType(name: string)

  /** A field's value; the content of arrays and other objects is abstract. */
  datatype Value = NoneValue | BoolValue(b: bool) | ArrayValue(token: nat) | ObjectValue(cls: string, token: nat)

  /** type(value) */
  function TypeOf(v: Value): TypeTag {
    match v
    case NoneValue => NoneType
    case BoolValue(_) => BoolType
    case ArrayValue(_) => NdArrayType
    case ObjectValue(c, _) => ClassType(c)
  }

  /**
   * A configured DataPipeline: the data it elaborates (the elaborated field's value when
   * it was created) and the end function `assign`, which writes into `final` and closes
   * the slots of both fields. Its operations are not part of this model.
   */
  datatype Pipeline = Pipeline(data: Value, elaborated: string, final: string)

  /** An entry of the custom-method table: a predefined pipeline, or a user function. */
  datatype CustomMethod = PipelineMethod(elaborated: string, final: string) | UserFunction

  /** The fields declared with numpy.ndarray type: the fields that have a pipeline slot. */
  function NdArrayFields(names: set<string>, types: map<string, TypeTag>): set<string> {
    set f | f in names && f in types && types[f] == NdArrayType
  }

  /** Dataset fields are declared fields, distinct, in declaration order, never is_positive. */
  predicate DatasetFieldsOk(ds: seq<string>, names: set<string>) {
    && (forall i :: 0 <= i < |ds| ==> ds[i] in names && ds[i] != IS_POSITIVE)
    && (forall i, j :: 0 <= i < j < |ds| ==> ds[i] != ds[j])
  }

  class SampleGenerator {
    const name: string
    var fieldsName: set<string>
    var fieldsType: map<string, TypeTag>
    /** The keys of _fields_dataset, in insertion order; the save and load callbacks are abstract. */
    var datasetFields: seq<string>
    var customMethods: map<string, CustomMethod>

    ghost predicate Valid()
      reads this
    {
      && fieldsType.Keys == fieldsName
      && IS_POSITIVE in fieldsName && fieldsType[IS_POSITIVE] == BoolType
      && DatasetFieldsOk(datasetFields, fieldsName)
      && forall m :: m in customMethods && customMethods[m].PipelineMethod? ==>
           customMethods[m].elaborated in NdArrayFields(fieldsName, fieldsType)
           && customMethods[m].final in NdArrayFields(fieldsName, fieldsType)
    }

    /** A fresh generator knows only is_positive, a bool, and has no dataset fields and no custom methods. */
    constructor (name: string)
      ensures Valid() && this.name == name
      ensures fieldsName == {IS_POSITIVE} && fieldsType == map[IS_POSITIVE := BoolType]
      ensures datasetFields == [] && customMethods == map[]
    {
      this.name := name;
      fieldsName := {IS_POSITIVE};
      fieldsType := map[IS_POSITIVE := BoolType];
      datasetFields := [];
      customMethods := map[];
    }

    /** add_field: declares a plain field, unless a field of that name exists. */
    method AddField(fieldName: string, fieldType: TypeTag) returns (r: Outcome<Error>)
      requires Valid()
      modifies this
      ensures Valid()
      ensures r.Fail? <==> fieldName in old(fieldsName)
      ensures r.Fail? ==> r.error == FieldNameAlreadyExists(fieldName)
                          && fieldsName == old(fieldsName) && fieldsType == old(fieldsType)
      ensures r.Pass? ==> fieldsName == old(fieldsName) + {fieldName}
                          && fieldsType == old(fieldsType)[fieldName := fieldType]
      ensures datasetFields == old(datasetFields) && customMethods == old(customMethods)
    {
      if fieldName in fieldsName {
        return Fail(FieldNameAlreadyExists(fieldName));
      }
      fieldsName := fieldsName + {fieldName};
      fieldsType := fieldsType[fieldName := fieldType];
      return Pass;
    }

    /** add_dataset_field: add_field, and on success the field joins the dataset fields. */
    method AddDatasetField(fieldName: string, fieldType: TypeTag) returns (r: Outcome<Error>)
      requires Valid()
      modifies this
      ensures Valid()
      ensures r.Fail? <==> fieldName in old(fieldsName)
      ensures r.Fail? ==> r.error == FieldNameAlreadyExists(fieldName)
                          && fieldsName == old(fieldsName) && fieldsType == old(fieldsType)
                          && datasetFields == old(datasetFields)
      ensures r.Pass? ==> fieldsName == old(fieldsName) + {fieldName}
                          && fieldsType == old(fieldsType)[fieldName := fieldType]
                          && datasetFields == old(datasetFields) + [fieldName]
      ensures customMethods == old(customMethods)
    {
      r := AddField(fieldName, fieldType);
      if r.Pass? {
        datasetFields := datasetFields + [fieldName];
      }
    }

    /**
     * add_custom_pipeline: registers a method that starts a predefined pipeline from
     * elaboratedField into finalField. Checked in this order: both fields exist, both
     * are ndarrays, the method name is new.
     */
    method AddCustomPipeline(methodName: string, elaboratedField: string, finalField: string)
      returns (r: Outcome<Error>)
      requires Valid()
      modifies this`customMethods
      ensures Valid()
      ensures elaboratedField !in fieldsName ==> r == Fail(FieldDoesNotExist(elaboratedField))
      ensures elaboratedField in fieldsName && finalField !in fieldsName ==>
                r == Fail(FieldDoesNotExist(finalField))
      ensures elaboratedField in fieldsName && finalField in fieldsName ==>
                && (fieldsType[elaboratedField] != NdArrayType ==>
                      r == Fail(FieldHasIncorrectType(elaboratedField)))
                && (fieldsType[elaboratedField] == NdArrayType && fieldsType[finalField] != NdArrayType ==>
                      r == Fail(FieldHasIncorrectType(finalField)))
                && (fieldsType[elaboratedField] == NdArrayType && fieldsType[finalField] == NdArrayType ==>
                      if methodName in old(customMethods) then r == Fail(MethodAlreadyExists(methodName))
                      else r == Pass)
      ensures r.Fail? ==> customMethods == old(customMethods)
      ensures r.Pass? ==> customMethods == old(customMethods)[methodName := PipelineMethod(elaboratedField, finalField)]
    {
      if elaboratedField !in fieldsName {
        return Fail(FieldDoesNotExist(elaboratedField));
      }
      if finalField !in fieldsName {
        return Fail(FieldDoesNotExist(finalField));
      }
      if fieldsType[elaboratedField] != NdArrayType {
        return Fail(FieldHasIncorrectType(elaboratedField));
      }
      if fieldsType[finalField] != NdArrayType {
        return Fail(FieldHasIncorrectType(finalField));
      }
      if methodName in customMethods {
        return Fail(MethodAlreadyExists(methodName));
      }
      customMethods := customMethods[methodName := PipelineMethod(elaboratedField, finalField)];
      return Pass;
    }

    /** add_custom_method: registers a user function under a new method name. */
    method AddCustomMethod(methodName: string) returns (r: Outcome<Error>)
      requires Valid()
      modifies this`customMethods
      ensures Valid()
      ensures r.Fail? <==> methodName in old(customMethods)
      ensures r.Fail? ==> r.error == MethodAlreadyExists(methodName) && customMethods == old(customMethods)
      ensures r.Pass? ==> customMethods == old(customMethods)[methodName := UserFunction]
    {
      if methodName in customMethods {
        return Fail(MethodAlreadyExists(methodName));
      }
      customMethods := customMethods[methodName := UserFunction];
      return Pass;
    }

    /** generate_sample_class: a new class, distinct from every class generated before. */
    method GenerateSampleClass() returns (c: SampleClass)
      ensures fresh(c) && c.generator == this
    {
      c := new SampleClass(this);
    }
  }

  /**
   * A generated sample class. Only its identity (isinstance) and its generator matter
   * here: its constructor copies the generator's state at the time a sample is made.
   */
  class SampleClass {
    const generator: SampleGenerator

    constructor (generator: SampleGenerator)
      ensures this.generator == generator
    {
      this.generator := generator;
    }
  }

  /** An instance of a generated sample class. */
  class GeneratedSample {
    const cls: SampleClass
    const fieldsName: set<string>
    const fieldsType: map<string, TypeTag>
    const datasetFields: seq<string>
    var fieldsValue: map<string, Value>
    var pipelines: map<string, Option<Pipeline>>
    var held: HeldLocks

    ghost predicate Valid()
      reads this
    {
      && fieldsType.Keys == fieldsName
      && fieldsValue.Keys == fieldsName
      && IS_POSITIVE in fieldsName && fieldsType[IS_POSITIVE] == BoolType
      && fieldsValue[IS_POSITIVE].BoolValue?
      && pipelines.Keys == NdArrayFields(fieldsName, fieldsType)
      && DatasetFieldsOk(datasetFields, fieldsName)
    }

    /** The field has a pipeline slot and a pipeline is active on it. */
    predicate ActivePipeline(field: string)
      reads this
    {
      field in pipelines && pipelines[field].Some?
    }

    /** The value of is_positive, which every sample holds as a bool. */
    function IsPositive(): (r: bool)
      reads this
      requires Valid()
      ensures fieldsValue[IS_POSITIVE] == BoolValue(r)
    {
      fieldsValue[IS_POSITIVE].b
    }

    /**
     * The generated __init__: copies the generator's current fields, types and dataset
     * fields; every value is None except is_positive; the ndarray fields, and only
     * they, get an empty pipeline slot; no lock is held.
     */
    constructor (cls: SampleClass, isPositive: bool)
      requires cls.generator.Valid()
      ensures Valid() && this.cls == cls
      ensures fieldsName == cls.generator.fieldsName && fieldsType == cls.generator.fieldsType
      ensures datasetFields == cls.generator.datasetFields
      ensures fieldsValue.Keys == fieldsName && fieldsValue[IS_POSITIVE] == BoolValue(isPositive)
      ensures forall f :: f in fieldsName && f != IS_POSITIVE ==> fieldsValue[f] == NoneValue
      ensures pipelines.Keys == NdArrayFields(fieldsName, fieldsType)
      ensures forall f :: f in pipelines ==> pipelines[f] == None
      ensures held == multiset{}
      ensures IsPositive() == isPositive
    {
      this.cls := cls;
      fieldsName := cls.generator.fieldsName;
      fieldsType := cls.generator.fieldsType;
      datasetFields := cls.generator.datasetFields;
      new;
      fieldsValue := map f | f in fieldsName :: if f == IS_POSITIVE then BoolValue(isPositive) else NoneValue;
      pipelines := map f | f in NdArrayFields(fieldsName, fieldsType) :: None;
      held := multiset{};
    }

    /** get_<field>: synchronized on the field, refused while its pipeline is active. */
    method Get(field: string) returns (r: Result<Value, Error>)
      requires Valid() && field in fieldsName
      modifies this`held
      ensures held == old(held)
      ensures ActivePipeline(field) ==> r == Failure(AnotherActivePipeline(field))
      ensures !ActivePipeline(field) ==> r == Success(fieldsValue[field])
    {
      var fields := {field};
      held := Acquire(held, fields);
      var guard := CheckPipelines(pipelines, fields, true);
      if guard.Pass? {
        r := Success(fieldsValue[field]);
      } else {
        r := Failure(guard.error);
      }
      held := Release(held, fields);
      ReleaseUndoesAcquire(old(held), fields);
    }

    /**
     * set_<field>: synchronized on the field and refused while its pipeline is active;
     * then a value whose type is not the declared type is refused; otherwise only
     * that field's value changes.
     */
    method Set(field: string, value: Value) returns (r: Outcome<Error>)
      requires Valid() && field in fieldsName
      modifies this`held, this`fieldsValue
      ensures Valid() && held == old(held)
      ensures old(ActivePipeline(field)) ==>
                r == Fail(AnotherActivePipeline(field)) && fieldsValue == old(fieldsValue)
      ensures !old(ActivePipeline(field)) && TypeOf(value) != fieldsType[field] ==>
                r == Fail(FieldHasIncorrectType(field)) && fieldsValue == old(fieldsValue)
      ensures !old(ActivePipeline(field)) && TypeOf(value) == fieldsType[field] ==>
                r == Pass && fieldsValue == old(fieldsValue)[field := value]
    {
      var fields := {field};
      held := Acquire(held, fields);
      var guard := CheckPipelines(pipelines, fields, true);
      if guard.Fail? {
        r := guard;
      } else if fieldsType[field] != TypeOf(value) {
        r := Fail(FieldHasIncorrectType(field));
      } else {
        fieldsValue := fieldsValue[field := value];
        r := Pass;
      }
      held := Release(held, fields);
      ReleaseUndoesAcquire(old(held), fields);
    }

    /**
     * create_pipeline_for_<field> and the custom pipeline methods: synchronized on both
     * fields and refused while either has an active pipeline; otherwise a pipeline over
     * the elaborated field's value becomes active on both fields.
     */
    method CreatePipeline(elaborated: string, final: string) returns (r: Result<Pipeline, Error>)
      requires Valid() && elaborated in pipelines && final in pipelines
      modifies this`held, this`pipelines
      ensures Valid() && held == old(held)
      ensures old(ActivePipeline(elaborated) || ActivePipeline(final)) ==>
                && r.Failure? && r.error.AnotherActivePipeline?
                && r.error.field in {elaborated, final} && old(ActivePipeline(r.error.field))
                && pipelines == old(pipelines)
      ensures !old(ActivePipeline(elaborated) || ActivePipeline(final)) ==>
                && r == Success(Pipeline(fieldsValue[elaborated], elaborated, final))
                && pipelines == old(pipelines)[elaborated := Some(r.value)][final := Some(r.value)]
    {
      var fields := {elaborated, final};
      held := Acquire(held, fields);
      var guard := CheckPipelines(pipelines, fields, true);
      if guard.Fail? {
        r := Failure(guard.error);
      } else {
        var pipeline := Pipeline(fieldsValue[elaborated], elaborated, final);
        pipelines := pipelines[elaborated := Some(pipeline)][final := Some(pipeline)];
        r := Success(pipeline);
      }
      held := Release(held, fields);
      ReleaseUndoesAcquire(old(held), fields);
    }

    /**
     * The pipeline's end function `assign`: with the locks of both fields, writes the
     * result into the final field and closes both pipeline slots; returns the data.
     */
    method Assign(pipeline: Pipeline, data: Value) returns (r: Value)
      requires Valid() && pipeline.elaborated in pipelines && pipeline.final in pipelines
      modifies this`held, this`fieldsValue, this`pipelines
      ensures Valid() && held == old(held) && r == data
      ensures fieldsValue == old(fieldsValue)[pipeline.final := data]
      ensures pipelines == old(pipelines)[pipeline.elaborated := None][pipeline.final := None]
    {
      var fields := {pipeline.elaborated, pipeline.final};
      held := Acquire(held, fields);
      fieldsValue := fieldsValue[pipeline.final := data];
      pipelines := pipelines[pipeline.elaborated := None][pipeline.final := None];
      held := Release(held, fields);
      ReleaseUndoesAcquire(old(held), fields);
      return data;
    }

    /** get_pipeline_<field>: synchronized without the pipeline check, so it always answers. */
    method GetPipeline(field: string) returns (r: Option<Pipeline>)
      requires Valid() && field in pipelines
      modifies this`held
      ensures held == old(held) && r == pipelines[field]
    {
      var fields := {field};
      held := Acquire(held, fields);
      var guard := CheckPipelines(pipelines, fields, false);
      r := pipelines[field];
      held := Release(held, fields);
      ReleaseUndoesAcquire(old(held), fields);
    }

    /**
     * save_field: refuses an unknown field, then a field outside the dataset; then,
     * synchronized on the field and refused while its pipeline is active, the field's
     * save callback writes a file at path.
     */
    method SaveField(field: string, path: Os.Path, fs: Os.FileSystem) returns (r: Outcome<Error>)
      requires Valid()
      modifies this`held, fs`files
      ensures held == old(held)
      ensures field !in fieldsName ==> r == Fail(FieldDoesNotExist(field))
      ensures field in fieldsName && field !in datasetFields ==> r == Fail(FieldIsNotDatasetPart(field))
      ensures field in datasetFields && ActivePipeline(field) ==> r == Fail(AnotherActivePipeline(field))
      ensures field in datasetFields && !ActivePipeline(field) ==> r == Pass
      ensures fs.files == if r.Pass? then old(fs.files) + {path} else old(fs.files)
    {
      if field !in fieldsName {
        return Fail(FieldDoesNotExist(field));
      }
      if field !in datasetFields {
        return Fail(FieldIsNotDatasetPart(field));
      }
      var fields := {field};
      held := Acquire(held, fields);
      r := CheckPipelines(pipelines, fields, true);
      if r.Pass? {
        fs.WriteFile(path);
      }
      held := Release(held, fields);
      ReleaseUndoesAcquire(old(held), fields);
    }

    /**
     * load_field: the same checks as save_field; then the value the field's load
     * callback read (given here as `loaded`) becomes the field's value.
     */
    method LoadField(field: string, loaded: Value) returns (r: Outcome<Error>)
      requires Valid()
      modifies this`held, this`fieldsValue
      ensures Valid() && held == old(held)
      ensures field !in fieldsName ==> r == Fail(FieldDoesNotExist(field))
      ensures field in fieldsName && field !in datasetFields ==> r == Fail(FieldIsNotDatasetPart(field))
      ensures field in datasetFields && ActivePipeline(field) ==> r == Fail(AnotherActivePipeline(field))
      ensures field in datasetFields && !ActivePipeline(field) ==> r == Pass
      ensures fieldsValue == if r.Pass? then old(fieldsValue)[field := loaded] else old(fieldsValue)
    {
      if field !in fieldsName {
        return Fail(FieldDoesNotExist(field));
      }
      if field !in datasetFields {
        return Fail(FieldIsNotDatasetPart(field));
      }
      var fields := {field};
      held := Acquire(held, fields);
      r := CheckPipelines(pipelines, fields, true);
      if r.Pass? {
        fieldsValue := fieldsValue[field := loaded];
      }
      held := Release(held, fields);
      ReleaseUndoesAcquire(old(held), fields);
    }
  }
}

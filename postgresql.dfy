/**
 * The PostgreSQL adapter: native JSONB and ARRAY columns, arrays kept as
 * sorted lists, timestamp lists written as `UNNEST(ARRAY[...])`, and
 * model-group ids resolved by the `get_model_group_id` stored procedure.
 */
module PostgreSQLAdapter {
  import opened Wrappers
  import opened Strings
  import opened Sorting
  import opened Values
  import opened SqlText
  import opened SchemaTypes

  function JsonColumnType(): ColumnType
  {
    JSONB
  }

  function ArrayColumnType(itemType: ColumnType): ColumnType
  {
    ARRAY(itemType)
  }

  /** `json.dumps(data, default=str)` */
  function StoreJsonData(c: Codec, data: Dict): string
  {
    c.dumps(Object(data))
  }

  datatype JsonError = JSONDecodeError

  /**
   * A dict comes back as it is, a string is parsed (a parse error is not
   * caught), anything else reads as the empty dict.
   */
  function RetrieveJsonData(c: Codec, jsonData: Value): (r: Result<Value, JsonError>)
    ensures jsonData.Object? ==> r == Success(jsonData)
    ensures jsonData.Str? ==> (r.Failure? <==> c.loads(jsonData.s).None?)
    ensures jsonData.Str? && r.Success? ==> c.loads(jsonData.s) == Some(r.value)
    ensures !jsonData.Object? && !jsonData.Str? ==> r == Success(Object(map[]))
  {
    match jsonData
    case Object(_) => Success(jsonData)
    case Str(s) =>
      (match c.loads(s)
       case Some(v) => Success(v)
       case None => Failure(JSONDecodeError))
    case _ => Success(Object(map[]))
  }

  /** Stored JSON reads back as the dict that was stored. */
  lemma JsonRoundTrip(c: Codec, data: Dict)
    requires Lawful(c)
    ensures RetrieveJsonData(c, Str(StoreJsonData(c, data))) == Success(Object(data))
  {
    assert c.loads(c.dumps(Object(data))) == Some(Object(data));
  }

  /** A missing list (`None`) reads as the empty list. */
  function Items(arrayData: Option<seq<string>>): seq<string>
  {
    if arrayData.None? then [] else arrayData.value
  }

  /** `sorted(array_data) if array_data else []` */
  function SerializeArray(arrayData: Option<seq<string>>): (r: seq<string>)
    ensures Sorted(r)
    ensures multiset(r) == multiset(Items(arrayData))
  {
    if |Items(arrayData)| == 0 then [] else Sort(Items(arrayData))
  }

  /** `list(array_data) if array_data else []`: a copy of the stored list. */
  function DeserializeArray(arrayData: Option<seq<string>>): (r: seq<string>)
    ensures arrayData.None? ==> r == []
    ensures arrayData.Some? ==> r == arrayData.value
  {
    if |Items(arrayData)| == 0 then [] else Items(arrayData)
  }

  /** Writing then reading an array gives its sorted copy, duplicates kept. */
  lemma ArrayRoundTrip(xs: seq<string>)
    ensures DeserializeArray(Some(SerializeArray(Some(xs)))) == Sort(xs)
  {
    SortedLength(xs);
  }

  /** Reordering the input does not change what is written. */
  lemma SerializeArrayIgnoresOrder(xs: seq<string>, ys: seq<string>)
    requires multiset(xs) == multiset(ys)
    ensures SerializeArray(Some(xs)) == SerializeArray(Some(ys))
  {
    SortPermutationInvariant(xs, ys);
  }

  /**
   * A string whose Python `repr` is the string between single quotes:
   * printable ASCII without a single quote or a backslash.
   */
  predicate PlainLiteral(s: string)
  {
    forall k :: 0 <= k < |s| ==> ' ' <= s[k] <= '~' && s[k] != '\'' && s[k] != '\\'
  }

  /** Python's `str(xs)` for a list of plain strings: `['a', 'b']`. */
  function PyListRepr(xs: seq<string>): string
    requires forall k :: 0 <= k < |xs| ==> PlainLiteral(xs[k])
  {
    "[" + QuotedList(xs) + "]"
  }

  const EmptyTimestampQuery := "(SELECT NULL WHERE FALSE)"
  const UnnestPrefix := "(SELECT (UNNEST (ARRAY"
  const UnnestSuffix := "::timestamp[])))"

  /** The timestamps an IN-clause fragment of this dialect stands for. */
  function TimestampMembers(fragment: string): Option<seq<string>>
  {
    if fragment == EmptyTimestampQuery then Some([])
    else if |fragment| >= |UnnestPrefix| + |UnnestSuffix|
         && fragment[..|UnnestPrefix|] == UnnestPrefix
         && fragment[|fragment| - |UnnestSuffix|..] == UnnestSuffix
    then ParsePyList(fragment[|UnnestPrefix|..|fragment| - |UnnestSuffix|])
    else None
  }

  /** Reads a Python list display of quoted strings, `['a', 'b']`. */
  function ParsePyList(s: string): Option<seq<string>>
  {
    if |s| >= 2 && s[0] == '[' && s[|s| - 1] == ']' then ParseQuotedList(s[1..|s| - 1]) else None
  }

  /** Reading an UNNEST fragment reads the quoted list inside it. */
  lemma UnnestMembers(body: string)
    ensures TimestampMembers(UnnestPrefix + body + UnnestSuffix) == ParsePyList(body)
  {
    var r := UnnestPrefix + body + UnnestSuffix;
    assert |r| != |EmptyTimestampQuery|;
    assert r[..|UnnestPrefix|] == UnnestPrefix;
    assert r[|UnnestPrefix|..|r| - |UnnestSuffix|] == body;
    assert r[|r| - |UnnestSuffix|..] == UnnestSuffix;
  }

  /** The IN-clause fragment lists exactly the given timestamps, in order. */
  function FormatTimestampArrayQuery(timestampStrings: seq<string>): (r: string)
    requires forall k :: 0 <= k < |timestampStrings| ==> PlainLiteral(timestampStrings[k])
    ensures |timestampStrings| == 0 ==> r == EmptyTimestampQuery
    ensures TimestampMembers(r) == Some(timestampStrings)
  {
    if |timestampStrings| == 0 then EmptyTimestampQuery
    else
      var r := "(SELECT (UNNEST (ARRAY" + PyListRepr(timestampStrings) + "::timestamp[])))";
      assert NoQuote(timestampStrings) by {
        forall k | 0 <= k < |timestampStrings| ensures '\'' !in timestampStrings[k] {
          assert PlainLiteral(timestampStrings[k]);
        }
      }
      ParseQuotedListInverse(timestampStrings);
      var list := PyListRepr(timestampStrings);
      assert list[1..|list| - 1] == QuotedList(timestampStrings);
      UnnestMembers(list);
      r
  }

  /** The statements that create the Triage schemas, one per schema, in order. */
  function CreateSchemas(): (r: seq<string>)
    ensures |r| == |TriageSchemas|
    ensures forall i :: 0 <= i < |r| ==> r[i] == "CREATE SCHEMA IF NOT EXISTS " + TriageSchemas[i]
  {
    [
      "CREATE SCHEMA IF NOT EXISTS triage_metadata",
      "CREATE SCHEMA IF NOT EXISTS test_results",
      "CREATE SCHEMA IF NOT EXISTS train_results",
      "CREATE SCHEMA IF NOT EXISTS triage_production"
    ]
  }

  /** The parameter names of this adapter's `get_model_group_id`. */
  const ModelGroupIdParameters: seq<string> := ["model_type", "hyperparameters", "feature_list", "model_config"]

  /** The arguments handed to the `get_model_group_id` stored procedure. */
  datatype ProcedureArgs = ProcedureArgs(
    modelType: string, hyperparameters: string, featureList: seq<string>, modelConfig: string)

  /** Builds the procedure arguments; the feature list goes in sorted. */
  function ModelGroupProcedureArgs(
    c: Codec, modelType: string, hyperparameters: Dict, featureList: seq<string>, modelConfig: Dict
  ): (a: ProcedureArgs)
    ensures Sorted(a.featureList) && multiset(a.featureList) == multiset(featureList)
    ensures a.hyperparameters == c.dumps(Object(hyperparameters)) && a.modelConfig == c.dumps(Object(modelConfig))
    ensures a.modelType == modelType
  {
    ProcedureArgs(modelType, c.dumps(Object(hyperparameters)), Sort(featureList), c.dumps(Object(modelConfig)))
  }

  /**
   * `get_model_group_id`: the stored procedure `proc`, outside this model,
   * answers the scalar of its single-row result (`None` for a NULL).
   */
  function GetModelGroupId(
    proc: ProcedureArgs -> Option<int>, c: Codec,
    modelType: string, hyperparameters: Dict, featureList: seq<string>, modelConfig: Dict
  ): (r: Option<int>)
    ensures r == proc(ProcedureArgs(modelType, StoreJsonData(c, hyperparameters),
                                    SerializeArray(Some(featureList)), StoreJsonData(c, modelConfig)))
  {
    proc(ModelGroupProcedureArgs(c, modelType, hyperparameters, featureList, modelConfig))
  }

  /** The order of the feature list never changes the id the procedure is asked for. */
  lemma GetModelGroupIdIgnoresFeatureOrder(
    proc: ProcedureArgs -> Option<int>, c: Codec,
    modelType: string, hyperparameters: Dict, features1: seq<string>, features2: seq<string>, modelConfig: Dict)
    requires multiset(features1) == multiset(features2)
    ensures ModelGroupProcedureArgs(c, modelType, hyperparameters, features1, modelConfig)
         == ModelGroupProcedureArgs(c, modelType, hyperparameters, features2, modelConfig)
    ensures GetModelGroupId(proc, c, modelType, hyperparameters, features1, modelConfig)
         == GetModelGroupId(proc, c, modelType, hyperparameters, features2, modelConfig)
  {
    SortPermutationInvariant(features1, features2);
  }
}

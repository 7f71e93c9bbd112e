/**
 * Model grouping: the arguments that identify a model group, built from a
 * classifier's class path and hyperparameters and the training matrix's
 * metadata, under either the default grouping keys or a configured set.
 */
module ModelGrouping {
  import opened Wrappers
  import opened Values
  import opened DatabaseAdapter
  import PG = PostgreSQLAdapter
  import Ora = OracleAdapter

  /** The metadata keys that define a group when none are configured. */
  const DefaultKeys: seq<string> := [
    "label_timespan",
    "label_name",
    "as_of_date_frequency",
    "max_training_history",
    "state",
    "cohort_name",
    "feature_groups"
  ]

  /** The custom keys that fill a group field of their own rather than `model_config`. */
  const FieldKeys: set<string> := {"class_path", "parameters", "feature_names"}

  /** The four fields handed to the adapter's `get_model_group_id`. */
  datatype GroupArgs = GroupArgs(classPath: string, parameters: Dict, featureNames: Value, modelConfig: Dict)

  /** The first name of `ks` not in `present`, if any: a missing key or an undeclared keyword. */
  function FirstMissing(ks: seq<string>, present: set<string>): (r: Option<string>)
    ensures r.None? <==> forall j :: 0 <= j < |ks| ==> ks[j] in present
    ensures r.Some? ==>
      exists j :: (0 <= j < |ks| && ks[j] == r.value && r.value !in present && forall i :: 0 <= i < j ==> ks[i] in present)
  {
    if |ks| == 0 then None
    else if ks[0] !in present then Some(ks[0])
    else
      var r := FirstMissing(ks[1..], present);
      assert forall j :: 1 <= j < |ks| ==> ks[j] == ks[1..][j - 1];
      r
  }

  /** What a list of feature names must be for the adapters: a list of strings. */
  function StringList(v: Value): (r: Option<seq<string>>)
    ensures r.Some? ==>
      (v.List? && |r.value| == |v.items| && forall k :: 0 <= k < |r.value| ==> v.items[k] == Str(r.value[k]))
  {
    if !v.List? then None
    else if forall k :: 0 <= k < |v.items| ==> v.items[k].Str? then Some(seq(|v.items|, k requires 0 <= k < |v.items| => v.items[k].s))
    else None
  }

  /**
   * Why no group id comes back: a metadata key is missing, the feature names
   * are not strings, or the adapter rejects a keyword of the call (a TypeError).
   */
  datatype GroupingError = MissingKey(error: KeyError) | FeatureNamesNotStrings | UnexpectedArgument(keyword: string)

  /** The keywords `get_model_group_id` passes to the adapter, in call order. */
  const CallKeywords: seq<string> := ["class_path", "parameters", "feature_names", "model_config"]

  /** Neither adapter declares `class_path`, the first keyword the grouper passes. */
  lemma AdaptersRejectCallKeywords(a: Adapter)
    ensures FirstMissing(CallKeywords, set k | k in ModelGroupIdParameters(a)) == Some("class_path")
  {
    assert "class_path" !in ModelGroupIdParameters(a);
  }

  /** A grouper holds its custom keys as a set: order and repeats are forgotten. */
  datatype ModelGrouper = ModelGrouper(modelGroupKeys: set<string>)
  {
    /** The metadata keys this grouper reads. */
    function Lookups(): (s: set<string>)
      ensures |modelGroupKeys| > 0 ==> s == modelGroupKeys - {"class_path", "parameters"}
      ensures |modelGroupKeys| == 0 ==> s == (set k | k in DefaultKeys) + {"feature_names"}
    {
      if |modelGroupKeys| > 0 then modelGroupKeys - {"class_path", "parameters"}
      else (set k | k in DefaultKeys) + {"feature_names"}
    }

    /**
     * The arguments when every key it reads is present: named fields are
     * copied, unnamed ones take their empty placeholder, and `model_config`
     * holds the remaining custom keys (or the default keys) with their
     * metadata values.
     */
    function ExpectedArgs(classPath: string, parameters: Dict, metadata: Dict): (g: GroupArgs)
      requires Lookups() <= metadata.Keys
    {
      if |modelGroupKeys| > 0 then
        GroupArgs(
          if "class_path" in modelGroupKeys then classPath else "",
          if "parameters" in modelGroupKeys then parameters else map[],
          if "feature_names" in modelGroupKeys then metadata["feature_names"] else List([]),
          map k | k in modelGroupKeys - FieldKeys :: metadata[k])
      else
        GroupArgs(classPath, parameters, metadata["feature_names"], map k | k in DefaultKeys :: metadata[k])
    }

    /**
     * `_final_model_group_args`: a KeyError for a key it reads that the
     * metadata lacks (default keys in order, then feature_names), otherwise
     * the expected arguments.
     */
    method FinalModelGroupArgs(classPath: string, parameters: Dict, metadata: Dict)
      returns (r: Result<GroupArgs, KeyError>)
      ensures r.Success? <==> Lookups() <= metadata.Keys
      ensures r.Success? ==> r.value == ExpectedArgs(classPath, parameters, metadata)
      ensures r.Failure? ==> r.error.key in Lookups() && r.error.key !in metadata
      ensures r.Failure? && "feature_names" in modelGroupKeys && "feature_names" !in metadata ==>
        r.error == KeyError("feature_names")
      ensures r.Failure? && |modelGroupKeys| == 0 ==>
        Some(r.error.key) == FirstMissing(DefaultKeys + ["feature_names"], metadata.Keys)
    {
      if |modelGroupKeys| > 0 {
        var keys := modelGroupKeys;
        var finalClassPath := "";
        if "class_path" in keys {
          finalClassPath := classPath;
          keys := keys - {"class_path"};
        }
        var finalParameters: Dict := map[];
        if "parameters" in keys {
          finalParameters := parameters;
          keys := keys - {"parameters"};
        }
        var featureNames := List([]);
        if "feature_names" in keys {
          if "feature_names" !in metadata {
            return Failure(KeyError("feature_names"));
          }
          featureNames := metadata["feature_names"];
          keys := keys - {"feature_names"};
        }
        assert keys == modelGroupKeys - FieldKeys;
        var modelConfig := CustomModelConfig(keys, metadata);
        if modelConfig.Failure? {
          return Failure(modelConfig.error);
        }
        r := Success(GroupArgs(finalClassPath, finalParameters, featureNames, modelConfig.value));
      } else {
        var modelConfig := DefaultModelConfig(metadata);
        if modelConfig.Failure? {
          return Failure(modelConfig.error);
        }
        if "feature_names" !in metadata {
          MissingDefaultIsFirst(metadata, |DefaultKeys|);
          return Failure(KeyError("feature_names"));
        }
        r := Success(GroupArgs(classPath, parameters, metadata["feature_names"], modelConfig.value));
      }
    }

    /**
     * `get_model_group_id` as written: once the arguments are built, the call
     * passes them under keywords no adapter declares, so it always fails and
     * the adapter's tables are never touched.
     */
    method GetModelGroupIdAsWritten(classPath: string, parameters: Dict, metadata: Dict, a: Adapter)
      returns (r: Result<Option<int>, GroupingError>)
      ensures r.Failure?
      ensures !(Lookups() <= metadata.Keys) ==> r.error.MissingKey? && r.error.error.key in Lookups() - metadata.Keys
      ensures Lookups() <= metadata.Keys ==> r == Failure(UnexpectedArgument("class_path"))
    {
      var args := FinalModelGroupArgs(classPath, parameters, metadata);
      if args.Failure? {
        return Failure(MissingKey(args.error));
      }
      var unexpected := FirstMissing(CallKeywords, set k | k in ModelGroupIdParameters(a));
      AdaptersRejectCallKeywords(a);
      r := Failure(UnexpectedArgument(unexpected.value));
    }

    /**
     * `get_model_group_id` as intended: the four computed fields go, in
     * order, to the adapter's (model_type, hyperparameters, feature_list,
     * model_config) get-or-create; on Oracle the id is the one stored for the
     * group's key.
     */
    method GetModelGroupId(
      classPath: string, parameters: Dict, metadata: Dict,
      a: Adapter, groups: Ora.ModelGroupsTable, proc: PG.ProcedureArgs -> Option<int>, c: Codec
    ) returns (r: Result<Option<int>, GroupingError>)
      requires groups.Valid()
      modifies groups
      ensures groups.Valid()
      ensures r.Failure? ==> groups.State() == old(groups.State())
      ensures r.Success? <==>
        (Lookups() <= metadata.Keys && StringList(ExpectedArgs(classPath, parameters, metadata).featureNames).Some?)
      ensures r.Success? ==>
        var g := ExpectedArgs(classPath, parameters, metadata);
        var features := StringList(g.featureNames).value;
        (a.PostgreSQL? ==> r.value == PG.GetModelGroupId(proc, c, g.classPath, g.parameters, features, g.modelConfig))
        && (a.Oracle? ==>
              var key := Ora.ModelGroupKey(c, g.classPath, g.parameters, features, g.modelConfig);
              key in groups.ids && r.value == Some(groups.ids[key])
              && (key in old(groups.ids) ==> groups.ids[key] == old(groups.ids)[key]))
      ensures r.Success? ==>
        var g := ExpectedArgs(classPath, parameters, metadata);
        var features := StringList(g.featureNames).value;
        (a.PostgreSQL? ==> groups.State() == old(groups.State()))
        && (a.Oracle? ==>
              groups.State() == Ora.Resolve(old(groups.State()), Ora.ModelGroupKey(c, g.classPath, g.parameters, features, g.modelConfig)).0)
    {
      var args := FinalModelGroupArgs(classPath, parameters, metadata);
      if args.Failure? {
        return Failure(MissingKey(args.error));
      }
      var g := args.value;
      var features := StringList(g.featureNames);
      if features.None? {
        return Failure(FeatureNamesNotStrings);
      }
      var id := DatabaseAdapter.GetModelGroupId(a, groups, proc, c, g.classPath, g.parameters, features.value, g.modelConfig);
      if a.Oracle? {
        Ora.ResolveValid(old(groups.State()), Ora.ModelGroupKey(c, g.classPath, g.parameters, features.value, g.modelConfig));
      }
      r := Success(id);
    }
  }

  /** The custom-key loop: each remaining key with its metadata value, in any order. */
  method CustomModelConfig(keys: set<string>, metadata: Dict) returns (r: Result<Dict, KeyError>)
    ensures r.Success? <==> keys <= metadata.Keys
    ensures r.Success? ==> r.value == map k | k in keys :: metadata[k]
    ensures r.Failure? ==> r.error.key in keys && r.error.key !in metadata
  {
    var modelConfig: Dict := map[];
    var remaining := keys;
    while remaining != {}
      invariant remaining <= keys
      invariant modelConfig.Keys == keys - remaining
      invariant forall k :: k in modelConfig ==> k in metadata && modelConfig[k] == metadata[k]
      decreases remaining
    {
      var k :| k in remaining;
      if k !in metadata {
        return Failure(KeyError(k));
      }
      modelConfig := modelConfig[k := metadata[k]];
      remaining := remaining - {k};
    }
    r := Success(modelConfig);
  }

  /** The default-key loop: the default keys in order, stopping at the first one missing. */
  method DefaultModelConfig(metadata: Dict) returns (r: Result<Dict, KeyError>)
    ensures r.Success? <==> forall j :: 0 <= j < |DefaultKeys| ==> DefaultKeys[j] in metadata
    ensures r.Success? ==> r.value == map k | k in DefaultKeys :: metadata[k]
    ensures r.Failure? ==> Some(r.error.key) == FirstMissing(DefaultKeys + ["feature_names"], metadata.Keys)
  {
    var modelConfig: Dict := map[];
    for i := 0 to |DefaultKeys|
      invariant modelConfig.Keys == set j | 0 <= j < i :: DefaultKeys[j]
      invariant forall k :: k in modelConfig ==> k in metadata && modelConfig[k] == metadata[k]
      invariant forall j :: 0 <= j < i ==> DefaultKeys[j] in metadata
    {
      if DefaultKeys[i] !in metadata {
        MissingDefaultIsFirst(metadata, i);
        return Failure(KeyError(DefaultKeys[i]));
      }
      modelConfig := modelConfig[DefaultKeys[i] := metadata[DefaultKeys[i]]];
    }
    r := Success(modelConfig);
  }

  /** In the default loop, the first key found missing is the first missing one overall. */
  lemma MissingDefaultIsFirst(metadata: Dict, i: nat)
    requires i <= |DefaultKeys|
    requires forall j :: 0 <= j < i ==> DefaultKeys[j] in metadata
    ensures i < |DefaultKeys| && DefaultKeys[i] !in metadata ==>
      FirstMissing(DefaultKeys + ["feature_names"], metadata.Keys) == Some(DefaultKeys[i])
    ensures i == |DefaultKeys| && "feature_names" !in metadata ==>
      FirstMissing(DefaultKeys + ["feature_names"], metadata.Keys) == Some("feature_names")
  {
    FirstMissingSkips(DefaultKeys + ["feature_names"], metadata.Keys, i);
  }

  lemma {:induction false} FirstMissingSkips(ks: seq<string>, m: set<string>, i: nat)
    requires i <= |ks|
    requires forall j :: 0 <= j < i ==> ks[j] in m
    ensures i < |ks| && ks[i] !in m ==> FirstMissing(ks, m) == Some(ks[i])
  {
    if i > 0 && |ks| > 0 {
      assert ks[0] in m;
      FirstMissingSkips(ks[1..], m, i - 1);
    }
  }

  /** A grouper built from a list of keys; repeats and order do not matter. */
  function NewModelGrouper(modelGroupKeys: seq<string>): (g: ModelGrouper)
    ensures forall k :: k in g.modelGroupKeys <==> k in modelGroupKeys
  {
    ModelGrouper(set k | k in modelGroupKeys)
  }

  /** Lists of keys with the same members make the same grouper. */
  lemma NewModelGrouperIgnoresOrder(keys1: seq<string>, keys2: seq<string>)
    requires forall k :: k in keys1 <==> k in keys2
    ensures NewModelGrouper(keys1) == NewModelGrouper(keys2)
  {
    assert NewModelGrouper(keys1).modelGroupKeys == NewModelGrouper(keys2).modelGroupKeys;
  }

  /** Metadata outside the keys a grouper reads never affects its group. */
  lemma ExpectedArgsReadsOnlyLookups(g: ModelGrouper, classPath: string, parameters: Dict, m1: Dict, m2: Dict)
    requires g.Lookups() <= m1.Keys && g.Lookups() <= m2.Keys
    requires forall k :: k in g.Lookups() ==> m1[k] == m2[k]
    ensures g.ExpectedArgs(classPath, parameters, m1) == g.ExpectedArgs(classPath, parameters, m2)
  {
    if |g.modelGroupKeys| > 0 {
      assert (map k | k in g.modelGroupKeys - FieldKeys :: m1[k]) == (map k | k in g.modelGroupKeys - FieldKeys :: m2[k]);
    } else {
      assert (map k | k in DefaultKeys :: m1[k]) == (map k | k in DefaultKeys :: m2[k]);
    }
  }

  /** Metadata that differs on a `model_config` key gives a different group. */
  lemma ExpectedArgsSeparatesConfig(
    g: ModelGrouper, classPath: string, parameters: Dict, m1: Dict, m2: Dict, k: string)
    requires g.Lookups() <= m1.Keys && g.Lookups() <= m2.Keys
    requires k in g.Lookups() && k != "feature_names"
    requires m1[k] != m2[k]
    ensures g.ExpectedArgs(classPath, parameters, m1).modelConfig != g.ExpectedArgs(classPath, parameters, m2).modelConfig
  {
    var c1 := g.ExpectedArgs(classPath, parameters, m1).modelConfig;
    var c2 := g.ExpectedArgs(classPath, parameters, m2).modelConfig;
    assert k in c1 && c1[k] == m1[k];
    assert k in c2 && c2[k] == m2[k];
  }

  /**
   * With custom keys, a field is copied only when its key is named and takes
   * its empty placeholder otherwise; with the default keys all three pass through.
   */
  lemma ExpectedArgsFields(g: ModelGrouper, classPath: string, parameters: Dict, metadata: Dict)
    requires g.Lookups() <= metadata.Keys
    ensures var args := g.ExpectedArgs(classPath, parameters, metadata);
      |g.modelGroupKeys| > 0 ==>
        (args.classPath == if "class_path" in g.modelGroupKeys then classPath else "")
        && (args.parameters == if "parameters" in g.modelGroupKeys then parameters else map[])
        && (args.featureNames == if "feature_names" in g.modelGroupKeys then metadata["feature_names"] else List([]))
    ensures var args := g.ExpectedArgs(classPath, parameters, metadata);
      |g.modelGroupKeys| == 0 ==>
        args.classPath == classPath && args.parameters == parameters && args.featureNames == metadata["feature_names"]
  {
  }

  /** The `model_config` keys: the custom keys minus the field keys, or exactly the default keys. */
  lemma ModelConfigKeys(g: ModelGrouper, classPath: string, parameters: Dict, metadata: Dict)
    requires g.Lookups() <= metadata.Keys
    ensures |g.modelGroupKeys| > 0 ==>
      g.ExpectedArgs(classPath, parameters, metadata).modelConfig.Keys == g.modelGroupKeys - FieldKeys
    ensures |g.modelGroupKeys| == 0 ==>
      g.ExpectedArgs(classPath, parameters, metadata).modelConfig.Keys == set k | k in DefaultKeys
  {
  }
}

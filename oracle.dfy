/**
 * The Oracle adapter: JSON and arrays both stored as text (CLOB), arrays as
 * sorted comma-joined strings, timestamp lists as a parenthesised literal
 * list, and model groups resolved by a read-then-insert on
 * `triage_metadata.model_groups` numbered from `model_groups_seq`.
 */
module OracleAdapter {
  import opened Wrappers
  import opened Strings
  import opened Sorting
  import opened Values
  import opened SqlText
  import opened SchemaTypes

  function JsonColumnType(): ColumnType
  {
    Text
  }

  /** Arrays are comma-joined text, whatever the item type. */
  function ArrayColumnType(itemType: ColumnType): ColumnType
  {
    Text
  }

  /** `json.dumps(data, default=str)` */
  function StoreJsonData(c: Codec, data: Dict): string
  {
    c.dumps(Object(data))
  }

  /**
   * A dict comes back as it is, a string is parsed, and a string that does not
   * parse or a value of any other kind reads as the empty dict: never an error.
   */
  function RetrieveJsonData(c: Codec, jsonData: Value): (r: Value)
    ensures jsonData.Object? ==> r == jsonData
    ensures jsonData.Str? && c.loads(jsonData.s).Some? ==> r == c.loads(jsonData.s).value
    ensures jsonData.Str? && c.loads(jsonData.s).None? ==> r == Object(map[])
    ensures !jsonData.Object? && !jsonData.Str? ==> r == Object(map[])
  {
    match jsonData
    case Object(_) => jsonData
    case Str(s) =>
      (match c.loads(s)
       case Some(v) => v
       case None => Object(map[]))
    case _ => Object(map[])
  }

  /** Stored JSON reads back as the dict that was stored. */
  lemma JsonRoundTrip(c: Codec, data: Dict)
    requires Lawful(c)
    ensures RetrieveJsonData(c, Str(StoreJsonData(c, data))) == Object(data)
  {
    assert c.loads(c.dumps(Object(data))) == Some(Object(data));
  }

  /** A missing list (`None`) reads as the empty list. */
  function Items(arrayData: Option<seq<string>>): seq<string>
  {
    if arrayData.None? then [] else arrayData.value
  }

  /**
   * `"" if not array_data else ",".join(sorted(array_data))`: the text is
   * empty exactly for a missing or empty list and for `[""]`.
   */
  function SerializeArray(arrayData: Option<seq<string>>): (r: string)
    ensures r == "" <==> |Items(arrayData)| == 0 || Items(arrayData) == [""]
  {
    var xs := Items(arrayData);
    if |xs| == 0 then ""
    else
      assert Join(",", Sort(xs)) == "" <==> xs == [""] by {
        SortedLength(xs);
        if xs != [""] {
          SortNotSingleEmpty(xs);
          JoinNonEmpty(Sort(xs));
        } else {
          assert Sort(xs) == [""];
        }
      }
      Join(",", Sort(xs))
  }

  /** Each piece whitespace-stripped. */
  function StripAll(parts: seq<string>): (r: seq<string>)
    ensures |r| == |parts|
    ensures forall k :: 0 <= k < |r| ==> r[k] == Strip(parts[k])
  {
    if |parts| == 0 then [] else [Strip(parts[0])] + StripAll(parts[1..])
  }

  /**
   * `[] if not array_data else [item.strip() for item in array_data.split(",")]`:
   * the items hold no comma and no surrounding whitespace.
   */
  function DeserializeArray(arrayData: Option<string>): (r: seq<string>)
    ensures arrayData.None? || arrayData == Some("") ==> r == []
    ensures forall k :: 0 <= k < |r| ==> ',' !in r[k] && Unpadded(r[k])
  {
    if arrayData.None? || arrayData.value == "" then []
    else
      var parts := SplitOn(arrayData.value, ',');
      StripAllEncodable(parts);
      StripAll(parts)
  }

  /** Stripped comma-free pieces are encodable items. */
  lemma StripAllEncodable(parts: seq<string>)
    requires forall k :: 0 <= k < |parts| ==> ',' !in parts[k]
    ensures forall k :: 0 <= k < |StripAll(parts)| ==> ',' !in StripAll(parts)[k] && Unpadded(StripAll(parts)[k])
  {
    forall k | 0 <= k < |parts| ensures ',' !in Strip(parts[k]) && Unpadded(Strip(parts[k])) {
      StripUnpadded(parts[k]);
      StripKeepsOut(parts[k], ',');
    }
  }

  /** Stripping only removes characters. */
  lemma StripKeepsOut(s: string, c: char)
    requires c !in s
    ensures c !in Strip(s)
  {
  }

  /** Items fit the comma encoding: no comma inside, no whitespace at either end. */
  predicate Encodable(xs: seq<string>)
  {
    forall k :: 0 <= k < |xs| ==> ',' !in xs[k] && Unpadded(xs[k])
  }

  /** Sorting keeps each item, so it keeps encodability. */
  lemma SortEncodable(xs: seq<string>)
    requires Encodable(xs)
    ensures Encodable(Sort(xs))
  {
    var s := Sort(xs);
    forall k | 0 <= k < |s| ensures ',' !in s[k] && Unpadded(s[k]) {
      assert s[k] in multiset(xs);
      var j :| 0 <= j < |xs| && xs[j] == s[k];
    }
  }

  /** A non-empty list other than `[""]` joins to non-empty text. */
  lemma JoinNonEmpty(xs: seq<string>)
    requires |xs| > 0 && xs != [""]
    ensures Join(",", xs) != ""
  {
    if |xs| == 1 {
      assert Join(",", xs) == xs[0];
    } else {
      assert |Join(",", xs)| >= |xs[0]| + 1;
    }
  }

  /** Only `[""]` sorts to `[""]`. */
  lemma SortNotSingleEmpty(xs: seq<string>)
    requires |xs| > 0 && xs != [""]
    ensures Sort(xs) != [""]
  {
  }

  /** Stripping leaves unpadded items alone. */
  lemma StripAllEncodableIdentity(xs: seq<string>)
    requires Encodable(xs)
    ensures StripAll(xs) == xs
  {
    forall k | 0 <= k < |xs| ensures StripAll(xs)[k] == xs[k] {
      StripUnpadded(xs[k]);
    }
  }

  /**
   * Writing then reading an array gives its sorted copy, for items without a
   * comma or surrounding whitespace; the one-item list `[""]` reads back as `[]`.
   */
  lemma ArrayRoundTrip(xs: seq<string>)
    requires Encodable(xs)
    requires xs != [""]
    ensures DeserializeArray(Some(SerializeArray(Some(xs)))) == Sort(xs)
  {
    if |xs| > 0 {
      var s := Sort(xs);
      SortedLength(xs);
      SortEncodable(xs);
      SortNotSingleEmpty(xs);
      JoinNonEmpty(s);
      SplitJoin(s, ',');
      StripAllEncodableIdentity(s);
    }
  }

  /** The single-empty-string list does not survive the encoding. */
  lemma EmptyItemLost()
    ensures DeserializeArray(Some(SerializeArray(Some([""])))) == []
  {
    assert Sort([""]) == [""];
  }

  /** Reordering the input does not change what is written. */
  lemma SerializeArrayIgnoresOrder(xs: seq<string>, ys: seq<string>)
    requires multiset(xs) == multiset(ys)
    ensures SerializeArray(Some(xs)) == SerializeArray(Some(ys))
  {
    SortPermutationInvariant(xs, ys);
    assert |xs| == |multiset(xs)| == |multiset(ys)| == |ys|;
  }

  const EmptyTimestampQuery := "(SELECT NULL FROM DUAL WHERE 1=0)"

  /** The timestamps an IN-clause fragment of this dialect stands for. */
  function TimestampMembers(fragment: string): Option<seq<string>>
  {
    if fragment == EmptyTimestampQuery then Some([])
    else if |fragment| >= 2 && fragment[0] == '(' && fragment[|fragment| - 1] == ')'
    then ParseQuotedList(fragment[1..|fragment| - 1])
    else None
  }

  /**
   * `"(" + ", ".join(f"'{ts}'" for ts in timestamp_strings) + ")"`; when no
   * timestamp holds a quote, the fragment lists exactly the given timestamps.
   */
  function FormatTimestampArrayQuery(timestampStrings: seq<string>): (r: string)
    ensures |timestampStrings| == 0 ==> r == EmptyTimestampQuery
    ensures NoQuote(timestampStrings) ==> TimestampMembers(r) == Some(timestampStrings)
  {
    if |timestampStrings| == 0 then EmptyTimestampQuery
    else
      var body := QuotedList(timestampStrings);
      var r := "(" + body + ")";
      assert r[1..|r| - 1] == body;
      assert r != EmptyTimestampQuery by {
        assert QuoteAll(timestampStrings)[0][0] == '\'';
        JoinStartsWithFirst(QuoteAll(timestampStrings));
        assert r[1] == '\'' != EmptyTimestampQuery[1];
      }
      QuotedListInverseWhenNoQuote(timestampStrings);
      r
  }

  lemma QuotedListInverseWhenNoQuote(xs: seq<string>)
    ensures NoQuote(xs) ==> ParseQuotedList(QuotedList(xs)) == Some(xs)
  {
    if NoQuote(xs) {
      ParseQuotedListInverse(xs);
    }
  }

  lemma JoinStartsWithFirst(xs: seq<string>)
    requires |xs| > 0 && |xs[0]| > 0
    ensures |Join(", ", xs)| > 0 && Join(", ", xs)[0] == xs[0][0]
  {
  }

  /** The login user standing in for one Triage schema. */
  function CreateUser(schema: string): string
  {
    "CREATE USER " + schema + " IDENTIFIED BY password123"
  }

  function GrantSession(schema: string): string
  {
    "GRANT CREATE SESSION TO " + schema
  }

  /** One user and one session grant per Triage schema, users first. */
  function CreateSchemas(): (r: seq<string>)
    ensures |r| == 2 * |TriageSchemas|
    ensures forall i :: 0 <= i < |TriageSchemas| ==> r[i] == CreateUser(TriageSchemas[i])
    ensures forall i :: 0 <= i < |TriageSchemas| ==> r[|TriageSchemas| + i] == GrantSession(TriageSchemas[i])
  {
    [
      CreateUser("triage_metadata"),
      CreateUser("test_results"),
      CreateUser("train_results"),
      CreateUser("triage_production"),
      GrantSession("triage_metadata"),
      GrantSession("test_results"),
      GrantSession("train_results"),
      GrantSession("triage_production")
    ]
  }

  /** The parameter names of this adapter's `get_model_group_id`. */
  const ModelGroupIdParameters: seq<string> := ["model_type", "hyperparameters", "feature_list", "model_config"]

  /** The columns a `model_groups` row is looked up by. */
  datatype GroupKey = GroupKey(modelType: string, hyperparameters: string, featureList: string, modelConfig: string)

  /**
   * (model_type, hyperparameters JSON, sorted comma-joined features, config
   * JSON): each column holds exactly what this adapter's JSON and array
   * codecs store for the value.
   */
  function ModelGroupKey(
    c: Codec, modelType: string, hyperparameters: Dict, featureList: seq<string>, modelConfig: Dict
  ): (k: GroupKey)
    ensures k.modelType == modelType
    ensures k.hyperparameters == StoreJsonData(c, hyperparameters) && k.modelConfig == StoreJsonData(c, modelConfig)
    ensures k.featureList == SerializeArray(Some(featureList))
  {
    GroupKey(modelType, StoreJsonData(c, hyperparameters), Join(",", Sort(featureList)), StoreJsonData(c, modelConfig))
  }

  /** The order of the feature list never changes the key. */
  lemma ModelGroupKeyIgnoresFeatureOrder(
    c: Codec, modelType: string, hyperparameters: Dict,
    features1: seq<string>, features2: seq<string>, modelConfig: Dict)
    requires multiset(features1) == multiset(features2)
    ensures ModelGroupKey(c, modelType, hyperparameters, features1, modelConfig)
         == ModelGroupKey(c, modelType, hyperparameters, features2, modelConfig)
  {
    SortPermutationInvariant(features1, features2);
  }

  /** Keys differ whenever the class path, hyperparameters or config differ (lawful JSON). */
  lemma ModelGroupKeyDistinguishes(
    c: Codec, modelType1: string, hyperparameters1: Dict, features1: seq<string>, modelConfig1: Dict,
    modelType2: string, hyperparameters2: Dict, features2: seq<string>, modelConfig2: Dict)
    requires Lawful(c)
    requires modelType1 != modelType2 || hyperparameters1 != hyperparameters2 || modelConfig1 != modelConfig2
    ensures ModelGroupKey(c, modelType1, hyperparameters1, features1, modelConfig1)
         != ModelGroupKey(c, modelType2, hyperparameters2, features2, modelConfig2)
  {
    if c.dumps(Object(hyperparameters1)) == c.dumps(Object(hyperparameters2)) {
      LawfulDumpsInjective(c, Object(hyperparameters1), Object(hyperparameters2));
    }
    if c.dumps(Object(modelConfig1)) == c.dumps(Object(modelConfig2)) {
      LawfulDumpsInjective(c, Object(modelConfig1), Object(modelConfig2));
    }
  }

  /** Two feature lists that join to the same text share a key. */
  lemma CommaInFeatureNameCollides(c: Codec, modelType: string, hyperparameters: Dict, modelConfig: Dict)
    ensures ModelGroupKey(c, modelType, hyperparameters, ["a,b"], modelConfig)
         == ModelGroupKey(c, modelType, hyperparameters, ["a", "b"], modelConfig)
  {
    assert Sort(["a", "b"]) == ["a", "b"] by {
      assert LessEq("a", "b");
      SortSorted(["a", "b"]);
    }
  }

  /**
   * Feature lists with different items get different keys whenever no item
   * holds a comma, except for `[]` against `[""]`, which both join to "".
   */
  lemma ModelGroupKeySeparatesFeatures(
    c: Codec, modelType: string, hyperparameters: Dict,
    features1: seq<string>, features2: seq<string>, modelConfig: Dict)
    requires forall k :: 0 <= k < |features1| ==> ',' !in features1[k]
    requires forall k :: 0 <= k < |features2| ==> ',' !in features2[k]
    requires !(|features1| == 0 && features2 == [""]) && !(features1 == [""] && |features2| == 0)
    requires multiset(features1) != multiset(features2)
    ensures ModelGroupKey(c, modelType, hyperparameters, features1, modelConfig)
         != ModelGroupKey(c, modelType, hyperparameters, features2, modelConfig)
  {
    var s1, s2 := Sort(features1), Sort(features2);
    SortedLength(features1);
    SortedLength(features2);
    if |features1| == 0 {
      SortNotSingleEmpty(features2);
      JoinNonEmpty(s2);
    } else if |features2| == 0 {
      SortNotSingleEmpty(features1);
      JoinNonEmpty(s1);
    } else {
      SortKeepsCommaOut(features1);
      SortKeepsCommaOut(features2);
      SplitJoin(s1, ',');
      SplitJoin(s2, ',');
    }
  }

  /** Sorting keeps every item, so comma-free items stay comma-free. */
  lemma SortKeepsCommaOut(xs: seq<string>)
    requires forall k :: 0 <= k < |xs| ==> ',' !in xs[k]
    ensures forall k :: 0 <= k < |Sort(xs)| ==> ',' !in Sort(xs)[k]
  {
    var s := Sort(xs);
    forall k | 0 <= k < |s| ensures ',' !in s[k] {
      assert s[k] in multiset(xs);
      var j :| 0 <= j < |xs| && xs[j] == s[k];
    }
  }

  /** The `model_groups` rows (key to id) and the last value drawn from the sequence. */
  datatype GroupsState = GroupsState(ids: map<GroupKey, int>, lastId: int)

  /** Ids are positive, drawn from the sequence, and never shared by two keys. */
  ghost predicate ValidGroups(s: GroupsState)
  {
    && s.lastId >= 0
    && (forall k :: k in s.ids ==> 0 < s.ids[k] <= s.lastId)
    && (forall k1, k2 :: k1 in s.ids && k2 in s.ids && k1 != k2 ==> s.ids[k1] != s.ids[k2])
  }

  /** Get-or-create: the stored id of a known key, else a fresh row numbered by the sequence. */
  function Resolve(s: GroupsState, key: GroupKey): (r: (GroupsState, int))
    ensures key in s.ids ==> r == (s, s.ids[key])
    ensures key !in s.ids ==> r.1 == s.lastId + 1 && r.0 == GroupsState(s.ids[key := r.1], r.1)
  {
    if key in s.ids then (s, s.ids[key])
    else (GroupsState(s.ids[key := s.lastId + 1], s.lastId + 1), s.lastId + 1)
  }

  /** Resolving keeps ids unique; the key ends up stored under the id returned. */
  lemma ResolveValid(s: GroupsState, key: GroupKey)
    requires ValidGroups(s)
    ensures ValidGroups(Resolve(s, key).0)
    ensures key in Resolve(s, key).0.ids && Resolve(s, key).0.ids[key] == Resolve(s, key).1
    ensures forall k :: k in s.ids ==> k in Resolve(s, key).0.ids && Resolve(s, key).0.ids[k] == s.ids[k]
  {
  }

  /** A second call with the same key returns the same id and changes nothing. */
  lemma ResolveIdempotent(s: GroupsState, key: GroupKey)
    ensures Resolve(Resolve(s, key).0, key) == (Resolve(s, key).0, Resolve(s, key).1)
  {
  }

  /**
   * A key resolved again after another key has been resolved gets the id it
   * got the first time: the same group always has the same id.
   */
  lemma ResolveStableAcrossCalls(s: GroupsState, key: GroupKey, other: GroupKey)
    requires ValidGroups(s)
    ensures var s1 := Resolve(s, key).0;
            Resolve(Resolve(s1, other).0, key).1 == Resolve(s, key).1
  {
    ResolveValid(s, key);
    ResolveValid(Resolve(s, key).0, other);
  }

  /** Distinct keys never share an id. */
  lemma ResolveDistinct(s: GroupsState, key1: GroupKey, key2: GroupKey)
    requires ValidGroups(s)
    requires key1 != key2
    ensures Resolve(Resolve(s, key1).0, key2).1 != Resolve(s, key1).1
  {
    ResolveValid(s, key1);
    ResolveValid(Resolve(s, key1).0, key2);
  }

  /** The `model_groups` table with its id sequence. */
  class ModelGroupsTable {
    var ids: map<GroupKey, int>
    var lastId: int

    ghost function State(): GroupsState
      reads this
    {
      GroupsState(ids, lastId)
    }

    ghost predicate Valid()
      reads this
    {
      ValidGroups(State())
    }

    constructor ()
      ensures Valid() && ids == map[] && lastId == 0
    {
      ids := map[];
      lastId := 0;
    }

    /**
     * `get_model_group_id`: look the key up; when absent, insert a row and
     * read back the id the sequence gave it.
     */
    method GetModelGroupId(
      c: Codec, modelType: string, hyperparameters: Dict, featureList: seq<string>, modelConfig: Dict
    ) returns (id: int)
      requires Valid()
      modifies this
      ensures Valid()
      ensures (State(), id) == Resolve(old(State()), ModelGroupKey(c, modelType, hyperparameters, featureList, modelConfig))
      ensures ModelGroupKey(c, modelType, hyperparameters, featureList, modelConfig) in old(ids) ==>
        id == old(ids)[ModelGroupKey(c, modelType, hyperparameters, featureList, modelConfig)] && State() == old(State())
    {
      var key := ModelGroupKey(c, modelType, hyperparameters, featureList, modelConfig);
      if key in ids {
        id := ids[key];
        return;
      }
      lastId := lastId + 1;
      ids := ids[key := lastId];
      id := lastId;
      ResolveValid(old(State()), key);
    }
  }
}

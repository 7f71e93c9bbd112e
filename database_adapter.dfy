/**
 * `DatabaseAdapter`: the operations Triage asks of a warehouse backend,
 * dispatched to the PostgreSQL or the Oracle implementation. The check
 * queries, whose SQL text each backend writes for itself, are given by what
 * they return when run against the abstract tables.
 */
module DatabaseAdapter {
  import opened Wrappers
  import opened Values
  import opened Tables
  import opened Sorting
  import opened SqlText
  import opened SchemaTypes
  import PG = PostgreSQLAdapter
  import Ora = OracleAdapter

  datatype Adapter = PostgreSQL | Oracle

  /** JSONB on PostgreSQL, text on Oracle. */
  function JsonColumnType(a: Adapter): (t: ColumnType)
    ensures t == JSONB <==> a.PostgreSQL?
    ensures t == Text <==> a.Oracle?
  {
    match a
    case PostgreSQL => PG.JsonColumnType()
    case Oracle => Ora.JsonColumnType()
  }

  /** A native array of the item type on PostgreSQL, text on Oracle. */
  function ArrayColumnType(a: Adapter, itemType: ColumnType): (t: ColumnType)
    ensures a.PostgreSQL? ==> t == ARRAY(itemType)
    ensures a.Oracle? ==> t == Text
  {
    match a
    case PostgreSQL => PG.ArrayColumnType(itemType)
    case Oracle => Ora.ArrayColumnType(itemType)
  }

  function StoreJsonData(a: Adapter, c: Codec, data: Dict): string
  {
    match a
    case PostgreSQL => PG.StoreJsonData(c, data)
    case Oracle => Ora.StoreJsonData(c, data)
  }

  /** Reading stored JSON; only PostgreSQL lets a parse error escape. */
  function RetrieveJsonData(a: Adapter, c: Codec, jsonData: Value): (r: Result<Value, PG.JsonError>)
    ensures jsonData.Object? ==> r == Success(jsonData)
    ensures a.Oracle? ==> r.Success?
    ensures r.Failure? <==> a.PostgreSQL? && jsonData.Str? && c.loads(jsonData.s).None?
  {
    match a
    case PostgreSQL => PG.RetrieveJsonData(c, jsonData)
    case Oracle => Success(Ora.RetrieveJsonData(c, jsonData))
  }

  /** On either backend, stored JSON reads back as the dict that was stored. */
  lemma JsonRoundTrip(a: Adapter, c: Codec, data: Dict)
    requires Lawful(c)
    ensures RetrieveJsonData(a, c, Str(StoreJsonData(a, c, data))) == Success(Object(data))
  {
    match a
    case PostgreSQL => PG.JsonRoundTrip(c, data);
    case Oracle => Ora.JsonRoundTrip(c, data);
  }

  /** What a backend stores in an array column. */
  datatype ArrayRepr = NullArray | NativeArray(items: seq<string>) | CommaText(text: string)

  /** A sorted native array on PostgreSQL, sorted comma-joined text on Oracle. */
  function SerializeArray(a: Adapter, arrayData: Option<seq<string>>): (r: ArrayRepr)
    ensures a.PostgreSQL? ==>
      (r.NativeArray? && Sorted(r.items) && multiset(r.items) == multiset(PG.Items(arrayData)))
    ensures a.Oracle? ==> r.CommaText? && (r.text == "" <==> |Ora.Items(arrayData)| == 0 || Sort(Ora.Items(arrayData)) == [""])
  {
    match a
    case PostgreSQL => NativeArray(PG.SerializeArray(arrayData))
    case Oracle =>
      var xs := Ora.Items(arrayData);
      JoinEmptyIff(Sort(xs));
      SortedLength(xs);
      CommaText(Ora.SerializeArray(arrayData))
  }

  /** The comma join is empty exactly for `[]` and `[""]`. */
  lemma JoinEmptyIff(xs: seq<string>)
    ensures Strings.Join(",", xs) == "" <==> xs == [] || xs == [""]
  {
    if |xs| > 0 && xs != [""] {
      Ora.JoinNonEmpty(xs);
    }
  }

  /** A stored value a backend can read: NULL, or the backend's own kind. */
  predicate Readable(a: Adapter, r: ArrayRepr)
  {
    r.NullArray? || (a.PostgreSQL? && r.NativeArray?) || (a.Oracle? && r.CommaText?)
  }

  function DeserializeArray(a: Adapter, r: ArrayRepr): (xs: seq<string>)
    requires Readable(a, r)
    ensures r.NullArray? ==> xs == []
  {
    match r
    case NullArray => []
    case NativeArray(items) => PG.DeserializeArray(Some(items))
    case CommaText(text) => Ora.DeserializeArray(Some(text))
  }

  /**
   * On either backend, writing then reading an array gives its sorted copy;
   * on Oracle the items must survive the comma encoding.
   */
  lemma ArrayRoundTrip(a: Adapter, xs: seq<string>)
    requires a.Oracle? ==> Ora.Encodable(xs) && xs != [""]
    ensures Readable(a, SerializeArray(a, Some(xs)))
    ensures DeserializeArray(a, SerializeArray(a, Some(xs))) == Sort(xs)
  {
    match a
    case PostgreSQL => PG.ArrayRoundTrip(xs);
    case Oracle => Ora.ArrayRoundTrip(xs);
  }

  /** On either backend, what is written does not depend on the order of the input. */
  lemma SerializeArrayIgnoresOrder(a: Adapter, xs: seq<string>, ys: seq<string>)
    requires multiset(xs) == multiset(ys)
    ensures SerializeArray(a, Some(xs)) == SerializeArray(a, Some(ys))
  {
    match a
    case PostgreSQL => PG.SerializeArrayIgnoresOrder(xs, ys);
    case Oracle => Ora.SerializeArrayIgnoresOrder(xs, ys);
  }

  /** The timestamps an IN-clause fragment of the backend's dialect stands for. */
  function InClauseMembers(a: Adapter, fragment: string): Option<seq<string>>
  {
    match a
    case PostgreSQL => PG.TimestampMembers(fragment)
    case Oracle => Ora.TimestampMembers(fragment)
  }

  /**
   * The fragment standing for the timestamps: on PostgreSQL (plain literals)
   * its members are exactly the timestamps, in order; Oracle does no
   * escaping, so its members are recovered only for quote-free timestamps.
   */
  function FormatTimestampArrayQuery(a: Adapter, timestampStrings: seq<string>): (r: string)
    requires a.PostgreSQL? ==> forall k :: 0 <= k < |timestampStrings| ==> PG.PlainLiteral(timestampStrings[k])
    ensures a.PostgreSQL? ==> InClauseMembers(a, r) == Some(timestampStrings)
    ensures a.Oracle? && NoQuote(timestampStrings) ==> InClauseMembers(a, r) == Some(timestampStrings)
    ensures |timestampStrings| == 0 ==> r == (if a.PostgreSQL? then PG.EmptyTimestampQuery else Ora.EmptyTimestampQuery)
  {
    match a
    case PostgreSQL => PG.FormatTimestampArrayQuery(timestampStrings)
    case Oracle => Ora.FormatTimestampArrayQuery(timestampStrings)
  }

  /**
   * Statements that give each Triage schema its namespace, in schema order:
   * one CREATE SCHEMA each on PostgreSQL; on Oracle one CREATE USER each,
   * followed by one session grant each.
   */
  function CreateSchemas(a: Adapter): (r: seq<string>)
    ensures a.PostgreSQL? ==> |r| == |TriageSchemas|
    ensures a.PostgreSQL? ==> forall i :: 0 <= i < |TriageSchemas| ==>
      r[i] == "CREATE SCHEMA IF NOT EXISTS " + TriageSchemas[i]
    ensures a.Oracle? ==> |r| == 2 * |TriageSchemas|
    ensures a.Oracle? ==> forall i :: 0 <= i < |TriageSchemas| ==> r[i] == Ora.CreateUser(TriageSchemas[i])
    ensures a.Oracle? ==> forall i :: 0 <= i < |TriageSchemas| ==>
      r[|TriageSchemas| + i] == Ora.GrantSession(TriageSchemas[i])
  {
    match a
    case PostgreSQL => PG.CreateSchemas()
    case Oracle => Ora.CreateSchemas()
  }

  /** The parameter names each adapter declares for `get_model_group_id`. */
  function ModelGroupIdParameters(a: Adapter): seq<string>
  {
    match a
    case PostgreSQL => PG.ModelGroupIdParameters
    case Oracle => Ora.ModelGroupIdParameters
  }

  /**
   * `get_model_group_id`, get-or-create. PostgreSQL asks the stored procedure
   * `proc`; Oracle reads and, when the key is new, inserts into `groups`.
   */
  method GetModelGroupId(
    a: Adapter, groups: Ora.ModelGroupsTable, proc: PG.ProcedureArgs -> Option<int>, c: Codec,
    classPath: string, parameters: Dict, featureNames: seq<string>, modelConfig: Dict
  ) returns (id: Option<int>)
    requires groups.Valid()
    modifies groups
    ensures groups.Valid()
    ensures a.PostgreSQL? ==>
      (id == PG.GetModelGroupId(proc, c, classPath, parameters, featureNames, modelConfig)
       && groups.State() == old(groups.State()))
    ensures a.Oracle? ==>
      var key := Ora.ModelGroupKey(c, classPath, parameters, featureNames, modelConfig);
      (groups.State(), id) == (Ora.Resolve(old(groups.State()), key).0, Some(Ora.Resolve(old(groups.State()), key).1))
  {
    match a
    case PostgreSQL =>
      id := PG.GetModelGroupId(proc, c, classPath, parameters, featureNames, modelConfig);
    case Oracle =>
      var n := groups.GetModelGroupId(c, classPath, parameters, featureNames, modelConfig);
      id := Some(n);
  }

  /**
   * What `get_entity_date_check_query` returns when run: one row holding 1
   * when the table has a row for the date (`LIMIT 1`), no row otherwise.
   */
  function EntityDateCheck(rows: seq<EntityDateRow>, asOfDate: Date): (r: seq<int>)
    ensures r == [] || r == [1]
    ensures r == [1] <==> HasDate(rows, asOfDate)
  {
    if |rows| == 0 then []
    else if rows[0].asOfDate == asOfDate then [1]
    else
      var r := EntityDateCheck(rows[1..], asOfDate);
      assert HasDate(rows, asOfDate) <==> HasDate(rows[1..], asOfDate) by {
        if HasDate(rows, asOfDate) {
          var i :| 0 <= i < |rows| && rows[i].asOfDate == asOfDate;
          assert rows[1..][i - 1].asOfDate == asOfDate;
        }
        if HasDate(rows[1..], asOfDate) {
          var i :| 0 <= i < |rows[1..]| && rows[1..][i].asOfDate == asOfDate;
          assert rows[i + 1].asOfDate == asOfDate;
        }
      }
      r
  }

  /** What `get_protected_groups_check_query` returns: 1 when (date, hash) has a row. */
  function ProtectedGroupsCheck(rows: seq<ProtectedGroupRow>, asOfDate: Date, cohortHash: string): (r: seq<int>)
    ensures r == [] || r == [1]
    ensures r == [1] <==> HasGroupRow(rows, asOfDate, cohortHash)
  {
    if |rows| == 0 then []
    else if rows[0].asOfDate == asOfDate && rows[0].cohortHash == cohortHash then [1]
    else
      var r := ProtectedGroupsCheck(rows[1..], asOfDate, cohortHash);
      assert HasGroupRow(rows, asOfDate, cohortHash) <==> HasGroupRow(rows[1..], asOfDate, cohortHash) by {
        if HasGroupRow(rows, asOfDate, cohortHash) {
          var i :| 0 <= i < |rows| && rows[i].asOfDate == asOfDate && rows[i].cohortHash == cohortHash;
          assert rows[1..][i - 1].asOfDate == asOfDate;
        }
        if HasGroupRow(rows[1..], asOfDate, cohortHash) {
          var i :| 0 <= i < |rows[1..]| && rows[1..][i].asOfDate == asOfDate && rows[1..][i].cohortHash == cohortHash;
          assert rows[i + 1].asOfDate == asOfDate;
        }
      }
      r
  }

  /**
   * What `get_existing_labels_check_query` returns: 1 when labels for the
   * date, timespan and label name exist, an empty result otherwise.
   */
  function ExistingLabelsCheck(rows: seq<LabelRow>, asOfDate: Date, labelTimespan: string, labelName: string): (r: seq<int>)
    ensures r == [] || r == [1]
    ensures r == [1] <==> HasLabel(rows, asOfDate, labelTimespan, labelName)
  {
    if |rows| == 0 then []
    else if rows[0].asOfDate == asOfDate && rows[0].labelTimespan == labelTimespan && rows[0].labelName == labelName
    then [1]
    else
      var r := ExistingLabelsCheck(rows[1..], asOfDate, labelTimespan, labelName);
      assert HasLabel(rows, asOfDate, labelTimespan, labelName)
         <==> HasLabel(rows[1..], asOfDate, labelTimespan, labelName) by {
        if HasLabel(rows, asOfDate, labelTimespan, labelName) {
          var i :| 0 <= i < |rows| && rows[i].asOfDate == asOfDate
            && rows[i].labelTimespan == labelTimespan && rows[i].labelName == labelName;
          assert rows[1..][i - 1].asOfDate == asOfDate;
        }
        if HasLabel(rows[1..], asOfDate, labelTimespan, labelName) {
          var i :| 0 <= i < |rows[1..]| && rows[1..][i].asOfDate == asOfDate
            && rows[1..][i].labelTimespan == labelTimespan && rows[1..][i].labelName == labelName;
          assert rows[i + 1].asOfDate == asOfDate;
        }
      }
      r
  }
}

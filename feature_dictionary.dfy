/**
 * The feature dictionary: for every imputed aggregation table among the
 * feature tables, the names of its feature columns (all columns except the
 * table's index columns), read from the database catalog.
 */
module FeatureDictionaries {
  import opened Wrappers
  import opened Strings
  import opened Values
  import DatabaseAdapter

  const ImputedMarker := "aggregation_imputed"

  /** `_tables_to_include`: the names containing "aggregation_imputed", in input order. */
  function TablesToInclude(featureTableNames: seq<string>): (r: seq<string>)
    ensures forall t :: t in r <==> t in featureTableNames && Contains(t, ImputedMarker)
    ensures forall t :: Contains(t, ImputedMarker) ==> multiset(r)[t] == multiset(featureTableNames)[t]
    ensures forall t :: !Contains(t, ImputedMarker) ==> multiset(r)[t] == 0
  {
    if |featureTableNames| == 0 then []
    else
      var rest := TablesToInclude(featureTableNames[1..]);
      assert featureTableNames == [featureTableNames[0]] + featureTableNames[1..];
      if Contains(featureTableNames[0], ImputedMarker) then [featureTableNames[0]] + rest else rest
  }

  /** Filtering a concatenation filters each part, keeping their order. */
  lemma {:induction false} TablesToIncludeConcat(a: seq<string>, b: seq<string>)
    ensures TablesToInclude(a + b) == TablesToInclude(a) + TablesToInclude(b)
  {
    if |a| == 0 {
      assert a + b == b;
    } else {
      assert (a + b)[0] == a[0];
      assert (a + b)[1..] == a[1..] + b;
      TablesToIncludeConcat(a[1..], b);
      if Contains(a[0], ImputedMarker) {
        assert [a[0]] + (TablesToInclude(a[1..]) + TablesToInclude(b))
            == ([a[0]] + TablesToInclude(a[1..])) + TablesToInclude(b);
      }
    }
  }

  /** Filtering twice is filtering once. */
  lemma {:induction false} TablesToIncludeIdempotent(names: seq<string>)
    ensures TablesToInclude(TablesToInclude(names)) == TablesToInclude(names)
  {
    if |names| > 0 {
      TablesToIncludeIdempotent(names[1..]);
    }
  }

  /**
   * The column-name query for one table: the adapter's
   * `get_table_columns_query` when an adapter is configured, otherwise the
   * `information_schema.columns` query.
   */
  datatype FeatureNamesQuery =
    | TableColumnsQuery(adapter: DatabaseAdapter.Adapter, tableName: string, schemaName: string, excludeColumns: seq<string>)
    | InformationSchemaQuery(tableName: string, schemaName: string, excludeColumns: seq<string>)

  /** The catalog: the columns of (schema, table), in catalog order. */
  type Catalog = (string, string) -> seq<string>

  /** `_build_feature_names_query` */
  function BuildFeatureNamesQuery(adapter: Option<DatabaseAdapter.Adapter>, featuresSchemaName: string,
                                  tableName: string, indexColumns: seq<string>): (q: FeatureNamesQuery)
    ensures q.tableName == tableName && q.schemaName == featuresSchemaName && q.excludeColumns == indexColumns
    ensures q.TableColumnsQuery? <==> adapter.Some?
    ensures adapter.Some? ==> q.adapter == adapter.value
  {
    match adapter
    case Some(a) => TableColumnsQuery(a, tableName, featuresSchemaName, indexColumns)
    case None => InformationSchemaQuery(tableName, featuresSchemaName, indexColumns)
  }

  /** The columns of `columns` not listed in `excluded`, in order. */
  function ColumnsExcept(columns: seq<string>, excluded: seq<string>): (r: seq<string>)
    ensures forall c :: c in r <==> c in columns && c !in excluded
    ensures |r| <= |columns|
  {
    if |columns| == 0 then []
    else
      var rest := ColumnsExcept(columns[1..], excluded);
      assert forall c :: c in columns <==> c == columns[0] || c in columns[1..];
      if columns[0] in excluded then rest else [columns[0]] + rest
  }

  /**
   * What a column-name query returns. Neither adapter implements
   * `get_table_columns_query`, so the adapter form is given the meaning of
   * the `information_schema` query it stands in for: both name the same columns.
   */
  function RunFeatureNamesQuery(q: FeatureNamesQuery, catalog: Catalog): (names: seq<string>)
    ensures forall c :: c in names <==> c in catalog(q.schemaName, q.tableName) && c !in q.excludeColumns
  {
    ColumnsExcept(catalog(q.schemaName, q.tableName), q.excludeColumns)
  }

  /**
   * With or without an adapter, a table's feature names are the same; this
   * holds by the meaning given to the adapter's query above.
   */
  lemma FeatureNamesIndependentOfAdapter(
    a1: Option<DatabaseAdapter.Adapter>, a2: Option<DatabaseAdapter.Adapter>, featuresSchemaName: string,
    tableName: string, indexColumns: seq<string>, catalog: Catalog)
    ensures RunFeatureNamesQuery(BuildFeatureNamesQuery(a1, featuresSchemaName, tableName, indexColumns), catalog)
         == RunFeatureNamesQuery(BuildFeatureNamesQuery(a2, featuresSchemaName, tableName, indexColumns), catalog)
  {
  }

  /** `FeatureDictionaryCreator` */
  class FeatureDictionaryCreator {
    const featuresSchemaName: string
    const adapter: Option<DatabaseAdapter.Adapter>

    constructor (featuresSchemaName: string, adapter: Option<DatabaseAdapter.Adapter>)
      ensures this.featuresSchemaName == featuresSchemaName && this.adapter == adapter
    {
      this.featuresSchemaName := featuresSchemaName;
      this.adapter := adapter;
    }

    /** The entry for one included table: the feature names its column query returns. */
    function Entry(tableName: string, indexColumnLookup: map<string, seq<string>>, catalog: Catalog): seq<string>
      requires tableName in indexColumnLookup
    {
      RunFeatureNamesQuery(BuildFeatureNamesQuery(adapter, featuresSchemaName, tableName, indexColumnLookup[tableName]), catalog)
    }

    /**
     * `feature_dictionary`: one entry per included table, holding its feature
     * column names; an included table missing from `indexColumnLookup` is a
     * KeyError. `queries` are the column queries run, one per included table
     * reached, in order.
     */
    method FeatureDictionary(featureTableNames: seq<string>, indexColumnLookup: map<string, seq<string>>, catalog: Catalog)
      returns (r: Result<map<string, seq<string>>, KeyError>, queries: seq<FeatureNamesQuery>)
      ensures r.Success? <==> forall t :: t in TablesToInclude(featureTableNames) ==> t in indexColumnLookup
      ensures r.Success? ==> forall t :: t in r.value <==> t in TablesToInclude(featureTableNames)
      ensures r.Success? ==> forall t :: t in r.value ==>
        t in indexColumnLookup && r.value[t] == Entry(t, indexColumnLookup, catalog)
      ensures r.Failure? ==> r.error.key in TablesToInclude(featureTableNames) && r.error.key !in indexColumnLookup
      ensures r.Failure? ==>
        (|queries| < |TablesToInclude(featureTableNames)|
         && r.error.key == TablesToInclude(featureTableNames)[|queries|]
         && forall k :: 0 <= k < |queries| ==> TablesToInclude(featureTableNames)[k] in indexColumnLookup)
      ensures r.Success? ==> |queries| == |TablesToInclude(featureTableNames)|
      ensures |queries| <= |TablesToInclude(featureTableNames)|
      ensures forall k :: 0 <= k < |queries| ==> queries[k].tableName == TablesToInclude(featureTableNames)[k]
    {
      r, queries := EntriesFor(TablesToInclude(featureTableNames), indexColumnLookup, catalog);
    }

    /** The loop of `feature_dictionary` over the included tables, in order. */
    method EntriesFor(tables: seq<string>, indexColumnLookup: map<string, seq<string>>, catalog: Catalog)
      returns (r: Result<map<string, seq<string>>, KeyError>, queries: seq<FeatureNamesQuery>)
      ensures r.Success? <==> forall t :: t in tables ==> t in indexColumnLookup
      ensures r.Success? ==> forall t :: t in r.value <==> t in tables
      ensures r.Success? ==> forall t :: t in r.value ==>
        t in indexColumnLookup && r.value[t] == Entry(t, indexColumnLookup, catalog)
      ensures r.Failure? ==> r.error.key in tables && r.error.key !in indexColumnLookup
      ensures r.Failure? ==>
        (|queries| < |tables| && r.error.key == tables[|queries|]
         && forall k :: 0 <= k < |queries| ==> tables[k] in indexColumnLookup)
      ensures r.Success? ==> |queries| == |tables|
      ensures |queries| <= |tables|
      ensures forall k :: 0 <= k < |queries| ==> queries[k].tableName == tables[k]
    {
      var dictionary: map<string, seq<string>> := map[];
      queries := [];
      for i := 0 to |tables|
        invariant forall t :: t in dictionary <==> t in tables[..i]
        invariant forall t :: t in dictionary ==> t in indexColumnLookup && dictionary[t] == Entry(t, indexColumnLookup, catalog)
        invariant forall j :: 0 <= j < i ==> tables[j] in indexColumnLookup
        invariant |queries| == i && forall k :: 0 <= k < i ==> queries[k].tableName == tables[k]
        invariant forall k :: 0 <= k < |queries| ==> tables[k] in indexColumnLookup
      {
        var tableName := tables[i];
        assert tables[..i + 1] == tables[..i] + [tableName];
        if tableName !in indexColumnLookup {
          return Failure(KeyError(tableName)), queries;
        }
        var query := BuildFeatureNamesQuery(adapter, featuresSchemaName, tableName, indexColumnLookup[tableName]);
        queries := queries + [query];
        dictionary := dictionary[tableName := RunFeatureNamesQuery(query, catalog)];
      }
      assert tables[..|tables|] == tables;
      r := Success(dictionary);
    }
  }
}

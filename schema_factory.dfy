/**
 * The schema factory: column types chosen by the installed adapter, the
 * process-wide factory slot (`_schema_factory`, unset until configured), and
 * the adapter detection chain (URL keyword, then installed drivers, then
 * PostgreSQL).
 */
module SchemaFactories {
  import opened Wrappers
  import opened Strings
  import opened Values
  import opened SchemaTypes
  import opened DatabaseAdapter

  /** A SQLAlchemy `Column`: its type and the keyword arguments passed through. */
  datatype Column = Column(columnType: ColumnType, options: Dict)

  /** Builds columns whose types fit the adapter it holds. */
  datatype SchemaFactory = SchemaFactory(adapter: Adapter)
  {
    function JsonColumn(options: Dict): (c: Column)
      ensures c.columnType == JSONB <==> adapter.PostgreSQL?
      ensures c.columnType == Text <==> adapter.Oracle?
      ensures c.options == options
    {
      Column(JsonColumnType(adapter), options)
    }

    function ArrayColumn(itemType: ColumnType, options: Dict): (c: Column)
      ensures c.columnType == (if adapter.PostgreSQL? then ARRAY(itemType) else Text)
      ensures c.options == options
    {
      Column(ArrayColumnType(adapter, itemType), options)
    }
  }

  /** Which database drivers can be imported (`psycopg2`, `oracledb`). */
  datatype Drivers = Drivers(psycopg2: bool, oracledb: bool)

  /** The URL is given and contains `marker`. */
  predicate Names(dbUrl: Option<string>, marker: string)
  {
    dbUrl.Some? && Contains(dbUrl.value, marker)
  }

  /**
   * `_auto_detect_adapter`: a URL naming postgresql or postgres picks
   * PostgreSQL, one naming oracle picks Oracle; otherwise the first importable
   * driver decides, psycopg2 before oracledb, and PostgreSQL is the default.
   */
  function AutoDetectAdapter(dbUrl: Option<string>, drivers: Drivers): (a: Adapter)
    ensures Names(dbUrl, "postgres") ==> a == PostgreSQL
    ensures a == Oracle <==>
      (!Names(dbUrl, "postgres") && Names(dbUrl, "oracle"))
      || (!Names(dbUrl, "postgres") && !Names(dbUrl, "oracle") && !drivers.psycopg2 && drivers.oracledb)
  {
    PostgresqlNamesPostgres(dbUrl);
    if dbUrl.Some? && |dbUrl.value| > 0 && (Contains(dbUrl.value, "postgresql") || Contains(dbUrl.value, "postgres"))
    then PostgreSQL
    else if dbUrl.Some? && |dbUrl.value| > 0 && Contains(dbUrl.value, "oracle") then Oracle
    else if drivers.psycopg2 then PostgreSQL
    else if drivers.oracledb then Oracle
    else PostgreSQL
  }

  /** A URL containing "postgresql" contains "postgres". */
  lemma PostgresqlNamesPostgres(dbUrl: Option<string>)
    ensures Names(dbUrl, "postgresql") ==> Names(dbUrl, "postgres")
  {
    if Names(dbUrl, "postgresql") {
      ContainsPrefixOfMarker(dbUrl.value, "postgresql", "postgres");
    }
  }

  /** A URL naming both backends picks PostgreSQL: its test comes first. */
  lemma BothNamedPicksPostgreSQL(url: string, drivers: Drivers)
    requires Contains(url, "postgresql") && Contains(url, "oracle")
    ensures AutoDetectAdapter(Some(url), drivers) == PostgreSQL
  {
    PostgresqlNamesPostgres(Some(url));
  }

  /** Without a URL, or with one naming neither backend, only the drivers matter. */
  lemma DriversDecideWithoutKeyword(dbUrl: Option<string>, drivers: Drivers)
    requires !Names(dbUrl, "postgres") && !Names(dbUrl, "oracle")
    ensures AutoDetectAdapter(dbUrl, drivers) == AutoDetectAdapter(None, drivers)
  {
  }

  /** Python's `ImportError` for a name its package does not define. */
  datatype ImportError = ImportError(name: string)

  /**
   * The names `triage.component.database` defines once imported: what its
   * `__init__` binds and the submodules it loads.
   */
  const PackageNames: set<string> := {
    "base", "postgresql", "oracle", "schema_factory",
    "DatabaseAdapter", "PostgreSQLAdapter", "OracleAdapter",
    "set_schema_factory", "get_schema_factory", "json_column", "array_column"
  }

  /**
   * `_auto_detect_adapter` inside a package defining `package`: the import of
   * the two adapter getters comes first and fails at the first name missing;
   * once both exist, detection proceeds as `AutoDetectAdapter`.
   */
  function DetectAdapter(package: set<string>, dbUrl: Option<string>, drivers: Drivers): (r: Result<Adapter, ImportError>)
    ensures r.Success? <==> "get_postgresql_adapter" in package && "get_oracle_adapter" in package
    ensures r.Success? ==> r.value == AutoDetectAdapter(dbUrl, drivers)
    ensures r.Failure? && "get_postgresql_adapter" !in package ==> r.error == ImportError("get_postgresql_adapter")
    ensures r.Failure? && "get_postgresql_adapter" in package ==> r.error == ImportError("get_oracle_adapter")
  {
    if "get_postgresql_adapter" !in package then Failure(ImportError("get_postgresql_adapter"))
    else if "get_oracle_adapter" !in package then Failure(ImportError("get_oracle_adapter"))
    else Success(AutoDetectAdapter(dbUrl, drivers))
  }

  /**
   * The package as it stands defines neither getter, so detection raises
   * ImportError for every URL and every set of drivers.
   */
  lemma DetectionFailsInPackage(dbUrl: Option<string>, drivers: Drivers)
    ensures DetectAdapter(PackageNames, dbUrl, drivers) == Failure(ImportError("get_postgresql_adapter"))
  {
  }

  /** The process-wide `_schema_factory` slot. */
  class FactorySlot {
    var current: Option<SchemaFactory>

    /** At import time no factory is configured. */
    constructor ()
      ensures current == None
    {
      current := None;
    }

    /**
     * `set_schema_factory` in a package defining `package`: an explicit
     * adapter is installed as given and the URL ignored; without one the
     * adapter is detected, and a failed detection raises before the slot is
     * assigned.
     */
    method SetSchemaFactory(package: set<string>, adapter: Option<Adapter>, dbUrl: Option<string>, drivers: Drivers)
      returns (r: Outcome<ImportError>)
      modifies this
      ensures adapter.Some? ==> r == Pass && current == Some(SchemaFactory(adapter.value))
      ensures adapter.None? ==> match DetectAdapter(package, dbUrl, drivers)
        case Success(a) => r == Pass && current == Some(SchemaFactory(a))
        case Failure(e) => r == Fail(e) && current == old(current)
    {
      var chosen: Adapter;
      if adapter.None? {
        var detected := DetectAdapter(package, dbUrl, drivers);
        if detected.Failure? {
          return Fail(detected.error);
        }
        chosen := detected.value;
      } else {
        chosen := adapter.value;
      }
      current := Some(SchemaFactory(chosen));
      r := Pass;
    }

    /**
     * `get_schema_factory`: configures a detected default (no URL) only while
     * the slot is unset; afterwards the installed factory is returned as is.
     * An unset slot in a package without the getters raises and stays unset.
     */
    method GetSchemaFactory(package: set<string>, drivers: Drivers) returns (r: Result<SchemaFactory, ImportError>)
      modifies this
      ensures old(current).Some? ==> r == Success(old(current).value) && current == old(current)
      ensures old(current).None? ==> match DetectAdapter(package, None, drivers)
        case Success(a) => r == Success(SchemaFactory(a)) && current == Some(SchemaFactory(a))
        case Failure(e) => r == Failure(e) && current == None
    {
      if current.None? {
        var installed := SetSchemaFactory(package, None, None, drivers);
        if installed.Fail? {
          return Failure(installed.error);
        }
      }
      r := Success(current.value);
    }

    /** `json_column`: a JSON column of the factory installed at call time. */
    method JsonColumn(package: set<string>, drivers: Drivers, options: Dict) returns (r: Result<Column, ImportError>)
      modifies this
      ensures r.Success? ==> current.Some? && r.value == current.value.JsonColumn(options)
      ensures old(current).Some? ==> r.Success? && current == old(current)
      ensures old(current).None? ==> match DetectAdapter(package, None, drivers)
        case Success(a) => r == Success(SchemaFactory(a).JsonColumn(options)) && current == Some(SchemaFactory(a))
        case Failure(e) => r == Failure(e) && current == None
    {
      var f := GetSchemaFactory(package, drivers);
      if f.Failure? {
        return Failure(f.error);
      }
      r := Success(f.value.JsonColumn(options));
    }

    /** `array_column`: an array column of the factory installed at call time. */
    method ArrayColumn(package: set<string>, drivers: Drivers, itemType: ColumnType, options: Dict)
      returns (r: Result<Column, ImportError>)
      modifies this
      ensures r.Success? ==> current.Some? && r.value == current.value.ArrayColumn(itemType, options)
      ensures old(current).Some? ==> r.Success? && current == old(current)
      ensures old(current).None? ==> match DetectAdapter(package, None, drivers)
        case Success(a) => r == Success(SchemaFactory(a).ArrayColumn(itemType, options)) && current == Some(SchemaFactory(a))
        case Failure(e) => r == Failure(e) && current == None
    {
      var f := GetSchemaFactory(package, drivers);
      if f.Failure? {
        return Failure(f.error);
      }
      r := Success(f.value.ArrayColumn(itemType, options));
    }
  }
}

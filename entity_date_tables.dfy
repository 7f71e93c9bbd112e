/**
 * Entity-date (cohort) tables: for each as-of date, the entities that are
 * active on it. A table is filled from a date-parameterised user query, one
 * date at a time and skipping dates it already covers, or from the distinct
 * (entity, date) pairs of a labels table; it is then checked to be non-empty
 * and free of duplicate (entity_id, as_of_date) pairs.
 */
module EntityDateTables {
  import opened Wrappers
  import opened Strings
  import opened Tables
  import DatabaseAdapter

  /**
   * The user's SQL: its text and, for a date substituted for `{as_of_date}`,
   * the entity ids it selects (duplicates possible).
   */
  datatype UserQuery = UserQuery(text: string, run: Date -> seq<EntityId>)

  /** `if self.query:` holds for a present, non-empty query. */
  predicate QueryGiven(query: Option<UserQuery>)
  {
    query.Some? && query.value.text != ""
  }

  /** A configured name is truthy when present and non-empty. */
  predicate NameGiven(name: Option<string>)
  {
    name.Some? && name.value != ""
  }

  /** One active row per entity, all on date `d`. */
  function DatedRows(entities: seq<EntityId>, d: Date): (r: seq<EntityDateRow>)
    ensures |r| == |entities|
    ensures forall k :: 0 <= k < |r| ==> r[k] == EntityDateRow(entities[k], d, true)
  {
    seq(|entities|, k requires 0 <= k < |entities| => EntityDateRow(entities[k], d, true))
  }

  /** The rows the table starts from: emptied when replacing or newly created. */
  function Start(present: bool, rows: seq<EntityDateRow>, replace: bool): (r: seq<EntityDateRow>)
    ensures !replace && present ==> r == rows
    ensures replace || !present ==> r == []
  {
    if replace || !present then [] else rows
  }

  /**
   * One date of query mode: a date the table already has is left alone;
   * otherwise each distinct entity the dated query returns gets one active row.
   */
  function Step(rows: seq<EntityDateRow>, d: Date, src: Date -> seq<EntityId>): (r: seq<EntityDateRow>)
    ensures HasDate(rows, d) ==> r == rows
    ensures !HasDate(rows, d) ==> |r| >= |rows| && r[..|rows|] == rows
    ensures !HasDate(rows, d) ==> forall k :: |rows| <= k < |r| ==> r[k].asOfDate == d && r[k].active && r[k].entityId in src(d)
    ensures !HasDate(rows, d) ==> forall e :: e in src(d) ==> exists k :: |rows| <= k < |r| && r[k].entityId == e
  {
    if HasDate(rows, d) then rows
    else
      var added := DatedRows(Distinct(src(d)), d);
      var r := rows + added;
      assert forall e :: e in src(d) ==> exists k :: |rows| <= k < |r| && r[k].entityId == e by {
        forall e | e in src(d) ensures exists k :: |rows| <= k < |r| && r[k].entityId == e {
          var j :| 0 <= j < |Distinct(src(d))| && Distinct(src(d))[j] == e;
          assert r[|rows| + j].entityId == e;
        }
      }
      r
  }

  /** Query mode over a list of dates, in order. */
  function Replay(rows: seq<EntityDateRow>, dates: seq<Date>, src: Date -> seq<EntityId>): seq<EntityDateRow>
  {
    if |dates| == 0 then rows
    else Step(Replay(rows, dates[..|dates| - 1], src), dates[|dates| - 1], src)
  }

  /** Appending rows keeps every date that was there. */
  lemma HasDateExtends(rows: seq<EntityDateRow>, more: seq<EntityDateRow>, d: Date)
    requires HasDate(rows, d)
    ensures HasDate(rows + more, d)
  {
    var i :| 0 <= i < |rows| && rows[i].asOfDate == d;
    assert (rows + more)[i].asOfDate == d;
  }

  /** A date whose step can add nothing: it is present, or its query returns nobody. */
  predicate SettledAt(rows: seq<EntityDateRow>, d: Date, src: Date -> seq<EntityId>)
  {
    HasDate(rows, d) || |Distinct(src(d))| == 0
  }

  lemma SettledStepIsIdentity(rows: seq<EntityDateRow>, d: Date, src: Date -> seq<EntityId>)
    requires SettledAt(rows, d, src)
    ensures Step(rows, d, src) == rows
  {
    if !HasDate(rows, d) {
      assert DatedRows(Distinct(src(d)), d) == [];
    }
  }

  /** After its own step a date is settled. */
  lemma StepSettles(rows: seq<EntityDateRow>, d: Date, src: Date -> seq<EntityId>)
    ensures SettledAt(Step(rows, d, src), d, src)
  {
    var r := Step(rows, d, src);
    if !HasDate(rows, d) && |Distinct(src(d))| > 0 {
      assert Distinct(src(d))[0] in src(d);
      assert r[|rows|].asOfDate == d;
    }
  }

  /** Later steps never unsettle a date: they only append. */
  lemma StepKeepsSettled(rows: seq<EntityDateRow>, d: Date, d': Date, src: Date -> seq<EntityId>)
    requires SettledAt(rows, d, src)
    ensures SettledAt(Step(rows, d', src), d, src)
  {
    var r := Step(rows, d', src);
    if HasDate(rows, d) && !HasDate(rows, d') {
      assert r == rows + r[|rows|..];
      HasDateExtends(rows, r[|rows|..], d);
    }
  }

  lemma {:induction false} ReplayKeepsSettled(rows: seq<EntityDateRow>, dates: seq<Date>, d: Date, src: Date -> seq<EntityId>)
    requires SettledAt(rows, d, src)
    ensures SettledAt(Replay(rows, dates, src), d, src)
  {
    if |dates| > 0 {
      ReplayKeepsSettled(rows, dates[..|dates| - 1], d, src);
      StepKeepsSettled(Replay(rows, dates[..|dates| - 1], src), d, dates[|dates| - 1], src);
    }
  }

  /** After a run every one of its dates is settled. */
  lemma {:induction false} ReplaySettles(rows: seq<EntityDateRow>, dates: seq<Date>, src: Date -> seq<EntityId>)
    ensures forall k :: 0 <= k < |dates| ==> SettledAt(Replay(rows, dates, src), dates[k], src)
  {
    if |dates| > 0 {
      var prefix := dates[..|dates| - 1];
      var last := dates[|dates| - 1];
      var before := Replay(rows, prefix, src);
      ReplaySettles(rows, prefix, src);
      forall k | 0 <= k < |dates| ensures SettledAt(Replay(rows, dates, src), dates[k], src) {
        if k < |dates| - 1 {
          assert dates[k] == prefix[k];
          StepKeepsSettled(before, dates[k], last, src);
        } else {
          StepSettles(before, last, src);
        }
      }
    }
  }

  /** A run over settled dates changes nothing. */
  lemma {:induction false} ReplaySettledIsIdentity(rows: seq<EntityDateRow>, dates: seq<Date>, src: Date -> seq<EntityId>)
    requires forall k :: 0 <= k < |dates| ==> SettledAt(rows, dates[k], src)
    ensures Replay(rows, dates, src) == rows
  {
    if |dates| > 0 {
      var prefix := dates[..|dates| - 1];
      assert forall k :: 0 <= k < |prefix| ==> prefix[k] == dates[k];
      ReplaySettledIsIdentity(rows, prefix, src);
      SettledStepIsIdentity(rows, dates[|dates| - 1], src);
    }
  }

  /** Running query mode twice over the same dates (no replace) leaves the table of one run. */
  lemma ReplayIdempotent(rows: seq<EntityDateRow>, dates: seq<Date>, src: Date -> seq<EntityId>)
    ensures Replay(Replay(rows, dates, src), dates, src) == Replay(rows, dates, src)
  {
    ReplaySettles(rows, dates, src);
    ReplaySettledIsIdentity(Replay(rows, dates, src), dates, src);
  }

  /** A step never introduces a duplicate (entity_id, as_of_date) pair. */
  lemma StepKeepsNoDuplicates(rows: seq<EntityDateRow>, d: Date, src: Date -> seq<EntityId>)
    requires !HasDuplicates(rows)
    ensures !HasDuplicates(Step(rows, d, src))
  {
    if !HasDate(rows, d) {
      var entities := Distinct(src(d));
      var added := DatedRows(entities, d);
      var r := rows + added;
      assert Step(rows, d, src) == r;
      forall i, j | 0 <= i < j < |r|
        ensures !(r[i].entityId == r[j].entityId && r[i].asOfDate == r[j].asOfDate)
      {
        if j < |rows| {
          assert r[i] == rows[i] && r[j] == rows[j];
        } else if i < |rows| {
          assert r[i] == rows[i] && rows[i].asOfDate != d;
          assert r[j].asOfDate == d;
        } else {
          assert r[i].entityId == entities[i - |rows|];
          assert r[j].entityId == entities[j - |rows|];
        }
      }
    }
  }

  /** Query mode keeps a duplicate-free table duplicate-free. */
  lemma {:induction false} ReplayKeepsNoDuplicates(rows: seq<EntityDateRow>, dates: seq<Date>, src: Date -> seq<EntityId>)
    requires !HasDuplicates(rows)
    ensures !HasDuplicates(Replay(rows, dates, src))
  {
    if |dates| > 0 {
      ReplayKeepsNoDuplicates(rows, dates[..|dates| - 1], src);
      StepKeepsNoDuplicates(Replay(rows, dates[..|dates| - 1], src), dates[|dates| - 1], src);
    }
  }

  /**
   * Every row a run adds is an active row for one of its dates and an entity
   * the query returned for that date; the rows it started from are kept.
   */
  lemma {:induction false} ReplayRowsFromSource(rows: seq<EntityDateRow>, dates: seq<Date>, src: Date -> seq<EntityId>)
    ensures |Replay(rows, dates, src)| >= |rows| && Replay(rows, dates, src)[..|rows|] == rows
    ensures forall k :: |rows| <= k < |Replay(rows, dates, src)| ==>
      Replay(rows, dates, src)[k].active
      && Replay(rows, dates, src)[k].asOfDate in dates
      && Replay(rows, dates, src)[k].entityId in src(Replay(rows, dates, src)[k].asOfDate)
  {
    if |dates| > 0 {
      var prefix := dates[..|dates| - 1];
      var before := Replay(rows, prefix, src);
      ReplayRowsFromSource(rows, prefix, src);
      var r := Replay(rows, dates, src);
      assert r == Step(before, dates[|dates| - 1], src);
      forall k | |rows| <= k < |r|
        ensures r[k].active && r[k].asOfDate in dates && r[k].entityId in src(r[k].asOfDate)
      {
        if k < |before| {
          assert r[k] == before[k];
          assert r[k].asOfDate in prefix;
        }
      }
    }
  }

  /** The distinct (entity_id, as_of_date) pairs of a labels table. */
  function LabelPairs(labels: seq<LabelRow>): (r: seq<(EntityId, Date)>)
    ensures NoRepeats(r)
    ensures forall i :: 0 <= i < |labels| ==> (labels[i].entityId, labels[i].asOfDate) in r
    ensures forall p :: p in r ==> exists i :: 0 <= i < |labels| && (labels[i].entityId, labels[i].asOfDate) == p
  {
    var all := seq(|labels|, i requires 0 <= i < |labels| => (labels[i].entityId, labels[i].asOfDate));
    assert forall i :: 0 <= i < |labels| ==> (labels[i].entityId, labels[i].asOfDate) in all by {
      forall i | 0 <= i < |labels| ensures (labels[i].entityId, labels[i].asOfDate) in all {
        assert all[i] == (labels[i].entityId, labels[i].asOfDate);
      }
    }
    Distinct(all)
  }

  /** Active rows for the pairs whose date the table does not have yet. */
  function UnclaimedRows(pairs: seq<(EntityId, Date)>, rows: seq<EntityDateRow>): (r: seq<EntityDateRow>)
    ensures forall k :: 0 <= k < |r| ==> r[k].active && !HasDate(rows, r[k].asOfDate) && (r[k].entityId, r[k].asOfDate) in pairs
    ensures forall p :: p in pairs && !HasDate(rows, p.1) ==> EntityDateRow(p.0, p.1, true) in r
    ensures NoRepeats(pairs) ==> NoRepeats(r)
  {
    if |pairs| == 0 then []
    else
      var rest := UnclaimedRows(pairs[1..], rows);
      assert forall p :: p in pairs ==> p == pairs[0] || p in pairs[1..];
      if HasDate(rows, pairs[0].1) then rest
      else
        var r := [EntityDateRow(pairs[0].0, pairs[0].1, true)] + rest;
        assert forall k :: 1 <= k < |r| ==> r[k] == rest[k - 1];
        r
  }

  /**
   * Labels mode: every distinct labels pair whose date the table lacks is
   * added as an active row; a date already in the table gets nothing.
   */
  function LabelsInsert(rows: seq<EntityDateRow>, labels: seq<LabelRow>): (r: seq<EntityDateRow>)
    ensures |r| >= |rows| && r[..|rows|] == rows
    ensures forall k :: |rows| <= k < |r| ==> r[k].active && !HasDate(rows, r[k].asOfDate)
    ensures forall i :: 0 <= i < |labels| && !HasDate(rows, labels[i].asOfDate) ==>
      EntityDateRow(labels[i].entityId, labels[i].asOfDate, true) in r[|rows|..]
    ensures forall k :: |rows| <= k < |r| ==>
      exists i :: 0 <= i < |labels| && r[k] == EntityDateRow(labels[i].entityId, labels[i].asOfDate, true)
    ensures NoRepeats(r[|rows|..])
  {
    var pairs := LabelPairs(labels);
    var added := UnclaimedRows(pairs, rows);
    var r := rows + added;
    assert r[|rows|..] == added;
    forall k | |rows| <= k < |r|
      ensures exists i :: 0 <= i < |labels| && r[k] == EntityDateRow(labels[i].entityId, labels[i].asOfDate, true)
    {
      assert r[k] == added[k - |rows|];
      var i :| 0 <= i < |labels| && (labels[i].entityId, labels[i].asOfDate) == (r[k].entityId, r[k].asOfDate);
      assert r[k] == EntityDateRow(labels[i].entityId, labels[i].asOfDate, true);
    }
    r
  }

  /** A table that covers every labels date receives nothing from labels mode. */
  lemma CoveredLabelsAddNothing(rows: seq<EntityDateRow>, labels: seq<LabelRow>)
    requires forall i :: 0 <= i < |labels| ==> HasDate(rows, labels[i].asOfDate)
    ensures LabelsInsert(rows, labels) == rows
  {
    var pairs := LabelPairs(labels);
    forall p | p in pairs ensures HasDate(rows, p.1) {
      var i :| 0 <= i < |labels| && (labels[i].entityId, labels[i].asOfDate) == p;
    }
    CoveredPairsAddNothing(pairs, rows);
  }

  lemma {:induction false} CoveredPairsAddNothing(pairs: seq<(EntityId, Date)>, rows: seq<EntityDateRow>)
    requires forall p :: p in pairs ==> HasDate(rows, p.1)
    ensures UnclaimedRows(pairs, rows) == []
  {
    if |pairs| > 0 {
      assert pairs[0] in pairs;
      assert forall p :: p in pairs[1..] ==> p in pairs;
      CoveredPairsAddNothing(pairs[1..], rows);
    }
  }

  /** Running labels mode twice leaves the table of one run. */
  lemma LabelsInsertIdempotent(rows: seq<EntityDateRow>, labels: seq<LabelRow>)
    ensures LabelsInsert(LabelsInsert(rows, labels), labels) == LabelsInsert(rows, labels)
  {
    var r := LabelsInsert(rows, labels);
    forall i | 0 <= i < |labels| ensures HasDate(r, labels[i].asOfDate) {
      if HasDate(rows, labels[i].asOfDate) {
        assert r == rows + r[|rows|..];
        HasDateExtends(rows, r[|rows|..], labels[i].asOfDate);
      } else {
        var row := EntityDateRow(labels[i].entityId, labels[i].asOfDate, true);
        var k :| 0 <= k < |r[|rows|..]| && r[|rows|..][k] == row;
        assert r[|rows| + k].asOfDate == labels[i].asOfDate;
      }
    }
    CoveredLabelsAddNothing(r, labels);
  }

  /** Labels mode keeps a duplicate-free table duplicate-free. */
  lemma LabelsInsertKeepsNoDuplicates(rows: seq<EntityDateRow>, labels: seq<LabelRow>)
    requires !HasDuplicates(rows)
    ensures !HasDuplicates(LabelsInsert(rows, labels))
  {
    var added := UnclaimedRows(LabelPairs(labels), rows);
    var r := rows + added;
    assert LabelsInsert(rows, labels) == r;
    forall i, j | 0 <= i < j < |r|
      ensures !(r[i].entityId == r[j].entityId && r[i].asOfDate == r[j].asOfDate)
    {
      if j < |rows| {
        assert r[i] == rows[i] && r[j] == rows[j];
      } else if i < |rows| {
        assert r[j] == added[j - |rows|] && !HasDate(rows, r[j].asOfDate);
        assert r[i] == rows[i];
      } else {
        assert r[i] == added[i - |rows|] && r[j] == added[j - |rows|];
        assert r[i].active && r[j].active;
      }
    }
  }

  /** The subset query's entities that the cohort also holds on that date (the inner join). */
  function SubsetEntities(found: seq<EntityId>, cohort: seq<EntityDateRow>, d: Date): (r: seq<EntityId>)
    ensures forall e :: e in r <==> e in found && InCohortOn(cohort, e, d)
  {
    if |found| == 0 then []
    else
      var rest := SubsetEntities(found[1..], cohort, d);
      assert forall e :: e in found <==> e == found[0] || e in found[1..];
      if InCohortOn(cohort, found[0], d) then [found[0]] + rest else rest
  }

  /** The subset generator's per-date source. */
  function SubsetSource(query: UserQuery, cohort: seq<EntityDateRow>): Date -> seq<EntityId>
  {
    d => SubsetEntities(query.run(d), cohort, d)
  }

  /** The subset generator only ever adds entities that are in the cohort on that date. */
  lemma SubsetRowsInCohort(rows: seq<EntityDateRow>, dates: seq<Date>, query: UserQuery, cohort: seq<EntityDateRow>)
    ensures forall k :: |rows| <= k < |Replay(rows, dates, SubsetSource(query, cohort))| ==>
      var row := Replay(rows, dates, SubsetSource(query, cohort))[k];
      InCohortOn(cohort, row.entityId, row.asOfDate) && row.entityId in query.run(row.asOfDate)
  {
    ReplayRowsFromSource(rows, dates, SubsetSource(query, cohort));
  }

  /** What `generate_entity_date_table` raises. */
  datatype GenerationError =
    | NoCohortSource
    | EmptyTable(message: string)
    | DuplicatesFound(tableName: string)

  const Ellipsis := "\U{2026}"

  /** The dates shown in the empty-table message: all of them, or the first five and an ellipsis. */
  function DatePreview(asOfDates: seq<Date>, show: Date -> string): (r: seq<string>)
    ensures |asOfDates| <= 5 ==> |r| == |asOfDates|
    ensures |asOfDates| > 5 ==> |r| == 6 && r[5] == Ellipsis
    ensures forall k :: 0 <= k < |r| && k < 5 && k < |asOfDates| ==> r[k] == show(asOfDates[k])
  {
    var shown := if |asOfDates| <= 5 then asOfDates else asOfDates[..5];
    var strs := seq(|shown|, k requires 0 <= k < |shown| => show(shown[k]));
    if |asOfDates| <= 5 then strs else strs + [Ellipsis]
  }

  /** The query text, or "labels table" when there is no query. */
  function QueryText(query: Option<UserQuery>): (t: string)
    ensures QueryGiven(query) ==> t == query.value.text
    ensures !QueryGiven(query) ==> t == "labels table"
  {
    if QueryGiven(query) then query.value.text else "labels table"
  }

  const EmptyTableOpening := "Query does not return any rows for the given as_of_dates:\n            "

  /**
   * `_empty_table_message`: the fixed opening, the date preview, and the
   * query text (or "labels table") in quotes at the end.
   */
  function EmptyTableMessage(query: Option<UserQuery>, asOfDates: seq<Date>, show: Date -> string): (m: string)
    ensures var preview := Join(", ", DatePreview(asOfDates, show));
      |m| >= |EmptyTableOpening| + |preview| && m[..|EmptyTableOpening|] == EmptyTableOpening
      && m[|EmptyTableOpening|..|EmptyTableOpening| + |preview|] == preview
    ensures |m| >= |QueryText(query)| + 1 && m[|m| - |QueryText(query)| - 1..] == QueryText(query) + "'"
  {
    Framed(EmptyTableOpening, Join(", ", DatePreview(asOfDates, show)), QueryText(query))
  }

  /** The message layout: opening, then the preview, then the quoted text on its own line. */
  function Framed(opening: string, preview: string, text: string): (m: string)
    ensures |m| >= |opening| + |preview| && m[..|opening|] == opening && m[|opening|..|opening| + |preview|] == preview
    ensures |m| >= |text| + 1 && m[|m| - |text| - 1..] == text + "'"
  {
    var tail := text + "'";
    ThreeParts(opening, preview, "\n            '", tail);
    opening + preview + ("\n            '" + tail)
  }

  /** The pieces of `a + b + (c + d)` are found where they were put. */
  lemma ThreeParts(a: string, b: string, c: string, d: string)
    ensures var m := a + b + (c + d);
      m[..|a|] == a && m[|a|..|a| + |b|] == b && m[|m| - |d|..] == d
  {
    var m := a + b + (c + d);
    assert m[|m| - |d|..] == d;
  }

  /** The checks after population: non-empty first, then no duplicate pairs. */
  function Validate(rows: seq<EntityDateRow>, query: Option<UserQuery>, asOfDates: seq<Date>, show: Date -> string, tableName: string)
    : (r: Outcome<GenerationError>)
    ensures r == Pass <==> |rows| > 0 && !HasDuplicates(rows)
    ensures |rows| == 0 ==> r == Fail(EmptyTable(EmptyTableMessage(query, asOfDates, show)))
    ensures |rows| > 0 && HasDuplicates(rows) ==> r == Fail(DuplicatesFound(tableName))
  {
    if |rows| == 0 then Fail(EmptyTable(EmptyTableMessage(query, asOfDates, show)))
    else if HasDuplicates(rows) then Fail(DuplicatesFound(tableName))
    else Pass
  }

  /** Query mode into a table that starts duplicate-free never fails the duplicates check. */
  lemma QueryModeNeverDuplicates(start: seq<EntityDateRow>, query: UserQuery, asOfDates: seq<Date>, show: Date -> string, tableName: string)
    requires !HasDuplicates(start)
    ensures Validate(Replay(start, asOfDates, query.run), Some(query), asOfDates, show, tableName) != Fail(DuplicatesFound(tableName))
  {
    ReplayKeepsNoDuplicates(start, asOfDates, query.run);
  }

  /** The entity-date table in the warehouse: whether it exists, and its rows. */
  class EntityDateTable {
    var present: bool
    var rows: seq<EntityDateRow>

    constructor (present: bool, rows: seq<EntityDateRow>)
      ensures this.present == present && this.rows == rows
    {
      this.present := present;
      this.rows := rows;
    }
  }

  /** `EntityDateTableGenerator` */
  class EntityDateTableGenerator {
    const query: Option<UserQuery>
    const table: EntityDateTable
    const entityDateTableName: string
    const labelsTableName: Option<string>
    const replace: bool

    constructor (query: Option<UserQuery>, table: EntityDateTable, entityDateTableName: string,
                 labelsTableName: Option<string>, replace: bool)
      ensures this.query == query && this.table == table && this.entityDateTableName == entityDateTableName
      ensures this.labelsTableName == labelsTableName && this.replace == replace
    {
      this.query := query;
      this.table := table;
      this.entityDateTableName := entityDateTableName;
      this.labelsTableName := labelsTableName;
      this.replace := replace;
    }

    /** `_maybe_create_entity_date_table`: drop and recreate empty when replacing or absent. */
    method MaybeCreate()
      modifies table
      ensures table.present
      ensures table.rows == Start(old(table.present), old(table.rows), replace)
    {
      if replace || !table.present {
        table.present := true;
        table.rows := [];
      }
    }

    /** Query mode: per date, skip when the check query finds a row, else insert the query's entities. */
    method PopulateFromQuery(asOfDates: seq<Date>)
      requires QueryGiven(query)
      modifies table
      ensures table.present
      ensures table.rows == Replay(Start(old(table.present), old(table.rows), replace), asOfDates, query.value.run)
    {
      MaybeCreate();
      ghost var start := table.rows;
      for i := 0 to |asOfDates|
        invariant table.present
        invariant table.rows == Replay(start, asOfDates[..i], query.value.run)
      {
        var asOfDate := asOfDates[i];
        assert asOfDates[..i + 1][..i] == asOfDates[..i];
        var anyExisting := DatabaseAdapter.EntityDateCheck(table.rows, asOfDate);
        if |anyExisting| == 1 {
          continue;
        }
        table.rows := table.rows + DatedRows(Distinct(query.value.run(asOfDate)), asOfDate);
      }
      assert asOfDates[..|asOfDates|] == asOfDates;
    }

    /** Labels mode; a missing labels table (`None`) adds nothing. */
    method PopulateFromLabels(labels: Option<seq<LabelRow>>)
      modifies table
      ensures table.present
      ensures labels.None? ==> table.rows == Start(old(table.present), old(table.rows), replace)
      ensures labels.Some? ==> table.rows == LabelsInsert(Start(old(table.present), old(table.rows), replace), labels.value)
    {
      MaybeCreate();
      if labels.None? {
        return;
      }
      table.rows := LabelsInsert(table.rows, labels.value);
    }

    /**
     * `generate_entity_date_table`: the query when there is one, else the
     * labels table when one is named, else an error; then the checks.
     */
    method Generate(asOfDates: seq<Date>, labels: Option<seq<LabelRow>>, show: Date -> string)
      returns (r: Outcome<GenerationError>)
      modifies table
      ensures !QueryGiven(query) && !NameGiven(labelsTableName) ==>
        r == Fail(NoCohortSource) && table.present == old(table.present) && table.rows == old(table.rows)
      ensures QueryGiven(query) ==>
        table.present && table.rows == Replay(Start(old(table.present), old(table.rows), replace), asOfDates, query.value.run)
      ensures !QueryGiven(query) && NameGiven(labelsTableName) ==>
        table.present && table.rows == (if labels.None? then Start(old(table.present), old(table.rows), replace)
                                        else LabelsInsert(Start(old(table.present), old(table.rows), replace), labels.value))
      ensures QueryGiven(query) || NameGiven(labelsTableName) ==>
        r == Validate(table.rows, query, asOfDates, show, entityDateTableName)
    {
      if QueryGiven(query) {
        PopulateFromQuery(asOfDates);
      } else if NameGiven(labelsTableName) {
        PopulateFromLabels(labels);
      } else {
        return Fail(NoCohortSource);
      }
      if |table.rows| == 0 {
        return Fail(EmptyTable(EmptyTableMessage(query, asOfDates, show)));
      }
      if HasDuplicates(table.rows) {
        return Fail(DuplicatesFound(entityDateTableName));
      }
      r := Pass;
    }

    /** `clean_up`: drop the table. */
    method CleanUp()
      modifies table
      ensures !table.present && table.rows == []
    {
      table.present := false;
      table.rows := [];
    }
  }

  /** The generator used when no cohort is configured. */
  class CohortTableGeneratorNoOp {
    constructor ()
    {
    }

    /** Creates nothing and never fails. */
    method Generate(asOfDates: seq<Date>) returns (r: Outcome<GenerationError>)
      ensures r == Pass
    {
      r := Pass;
    }

    method CleanUp()
    {
    }

    /** It names no table. */
    function EntityDateTableName(): (name: Option<string>)
      ensures name.None?
    {
      None
    }
  }

  /** `SubsetEntityDateTableGenerator`: a query-mode table restricted to a cohort. */
  class SubsetEntityDateTableGenerator {
    const query: Option<UserQuery>
    const table: EntityDateTable
    const entityDateTableName: string
    const replace: bool
    /** The cohort table's rows, read as they are when the subset is built. */
    const cohortTable: seq<EntityDateRow>

    constructor (query: Option<UserQuery>, table: EntityDateTable, entityDateTableName: string,
                 replace: bool, cohortTable: seq<EntityDateRow>)
      ensures this.query == query && this.table == table && this.entityDateTableName == entityDateTableName
      ensures this.replace == replace && this.cohortTable == cohortTable
    {
      this.query := query;
      this.table := table;
      this.entityDateTableName := entityDateTableName;
      this.replace := replace;
      this.cohortTable := cohortTable;
    }

    method MaybeCreate()
      modifies table
      ensures table.present
      ensures table.rows == Start(old(table.present), old(table.rows), replace)
    {
      if replace || !table.present {
        table.present := true;
        table.rows := [];
      }
    }

    /** Per date, skip when the check query finds a row, else insert the query's entities found in the cohort. */
    method PopulateFromQuery(asOfDates: seq<Date>)
      requires QueryGiven(query)
      modifies table
      ensures table.present
      ensures table.rows == Replay(Start(old(table.present), old(table.rows), replace), asOfDates,
                                   SubsetSource(query.value, cohortTable))
    {
      MaybeCreate();
      ghost var start := table.rows;
      var src := SubsetSource(query.value, cohortTable);
      for i := 0 to |asOfDates|
        invariant table.present
        invariant table.rows == Replay(start, asOfDates[..i], src)
      {
        var asOfDate := asOfDates[i];
        assert asOfDates[..i + 1][..i] == asOfDates[..i];
        var anyExisting := DatabaseAdapter.EntityDateCheck(table.rows, asOfDate);
        if |anyExisting| == 1 {
          continue;
        }
        table.rows := table.rows + DatedRows(Distinct(src(asOfDate)), asOfDate);
      }
      assert asOfDates[..|asOfDates|] == asOfDates;
    }

    /**
     * Without a query nothing is built; either way only the duplicates check
     * runs (an empty subset is accepted, an absent table has no duplicates).
     */
    method Generate(asOfDates: seq<Date>) returns (r: Outcome<GenerationError>)
      modifies table
      ensures QueryGiven(query) ==>
        table.present && table.rows == Replay(Start(old(table.present), old(table.rows), replace), asOfDates,
                                              SubsetSource(query.value, cohortTable))
      ensures !QueryGiven(query) ==> table.present == old(table.present) && table.rows == old(table.rows)
      ensures r == Pass <==> !(table.present && HasDuplicates(table.rows))
      ensures r.Fail? ==> r.error == DuplicatesFound(entityDateTableName)
    {
      if QueryGiven(query) {
        PopulateFromQuery(asOfDates);
      }
      if table.present && HasDuplicates(table.rows) {
        return Fail(DuplicatesFound(entityDateTableName));
      }
      r := Pass;
    }
  }
}

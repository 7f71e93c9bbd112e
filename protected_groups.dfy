/**
 * Protected groups for the bias audit: for each as-of date, one row per
 * cohort entity holding the attribute values known strictly before that
 * date, tagged with the cohort's hash.
 */
module ProtectedGroups {
  import opened Wrappers
  import opened Tables
  import DatabaseAdapter

  /** A record the left join may use for entity `e` on date `d`: same entity, known before `d`. */
  predicate Eligible(rec: AttributeRecord, e: EntityId, d: Date)
  {
    rec.entityId == e && rec.knowledgeDate < d
  }

  /**
   * The record `distinct on ... order by knowledge_date desc` keeps: one with
   * the latest knowledge date strictly before `d`; `None` when there is none.
   */
  function LatestRecord(source: seq<AttributeRecord>, e: EntityId, d: Date): (r: Option<AttributeRecord>)
    ensures r.None? <==> forall k :: 0 <= k < |source| ==> !Eligible(source[k], e, d)
    ensures r.Some? ==> r.value in source && Eligible(r.value, e, d)
    ensures r.Some? ==> forall k :: 0 <= k < |source| && Eligible(source[k], e, d) ==>
      source[k].knowledgeDate <= r.value.knowledgeDate
  {
    if |source| == 0 then None
    else
      var rest := LatestRecord(source[1..], e, d);
      assert forall k :: 1 <= k < |source| ==> source[k] == source[1..][k - 1];
      if !Eligible(source[0], e, d) then rest
      else if rest.Some? && rest.value.knowledgeDate > source[0].knowledgeDate then rest
      else Some(source[0])
  }

  /** The attribute values for `e` on `d`, or null attributes when no record qualifies. */
  function Attributes(source: seq<AttributeRecord>, e: EntityId, d: Date): Option<seq<string>>
  {
    match LatestRecord(source, e, d)
    case None => None
    case Some(rec) => Some(rec.values)
  }

  /** The entity ids of the cohort rows on date `d`. */
  function CohortIdsOn(cohort: seq<EntityDateRow>, d: Date): (r: seq<EntityId>)
    ensures forall e :: e in r <==> InCohortOn(cohort, e, d)
  {
    if |cohort| == 0 then []
    else
      var rest := CohortIdsOn(cohort[1..], d);
      assert forall e :: InCohortOn(cohort, e, d) <==>
        (cohort[0].entityId == e && cohort[0].asOfDate == d) || InCohortOn(cohort[1..], e, d) by {
        forall e ensures InCohortOn(cohort, e, d) ==>
          (cohort[0].entityId == e && cohort[0].asOfDate == d) || InCohortOn(cohort[1..], e, d) {
          if InCohortOn(cohort, e, d) {
            var i :| 0 <= i < |cohort| && cohort[i].entityId == e && cohort[i].asOfDate == d;
            if i > 0 {
              assert cohort[1..][i - 1] == cohort[i];
            }
          }
        }
        forall e | InCohortOn(cohort[1..], e, d) ensures InCohortOn(cohort, e, d) {
          var i :| 0 <= i < |cohort[1..]| && cohort[1..][i].entityId == e && cohort[1..][i].asOfDate == d;
          assert cohort[i + 1] == cohort[1..][i];
        }
      }
      if cohort[0].asOfDate == d then [cohort[0].entityId] + rest else rest
  }

  /**
   * What `generate` inserts for one date: exactly one row per distinct cohort
   * entity on that date, with its latest earlier attributes and the hash.
   */
  function GroupRows(cohort: seq<EntityDateRow>, source: seq<AttributeRecord>, d: Date, cohortHash: string)
    : (r: seq<ProtectedGroupRow>)
    ensures forall k :: 0 <= k < |r| ==>
      r[k].asOfDate == d && r[k].cohortHash == cohortHash
      && InCohortOn(cohort, r[k].entityId, d)
      && r[k].attributes == Attributes(source, r[k].entityId, d)
    ensures forall e :: InCohortOn(cohort, e, d) ==> exists k :: 0 <= k < |r| && r[k].entityId == e
    ensures forall i, j :: 0 <= i < j < |r| ==> r[i].entityId != r[j].entityId
  {
    var entities := Distinct(CohortIdsOn(cohort, d));
    var r := seq(|entities|, k requires 0 <= k < |entities| =>
      ProtectedGroupRow(entities[k], d, Attributes(source, entities[k], d), cohortHash));
    assert forall e :: InCohortOn(cohort, e, d) ==> exists k :: 0 <= k < |r| && r[k].entityId == e by {
      forall e | InCohortOn(cohort, e, d) ensures exists k :: 0 <= k < |r| && r[k].entityId == e {
        assert e in entities;
        var k :| 0 <= k < |entities| && entities[k] == e;
        assert r[k].entityId == e;
      }
    }
    r
  }

  /** The rows carrying hash `h`, in table order. */
  function OfHash(rows: seq<ProtectedGroupRow>, h: string): seq<ProtectedGroupRow>
  {
    if |rows| == 0 then []
    else if rows[0].cohortHash == h then [rows[0]] + OfHash(rows[1..], h)
    else OfHash(rows[1..], h)
  }

  /** `delete from ... where cohort_hash = h` */
  function DeleteHash(rows: seq<ProtectedGroupRow>, h: string): (r: seq<ProtectedGroupRow>)
    ensures forall k :: 0 <= k < |r| ==> r[k].cohortHash != h && r[k] in rows
    ensures forall k :: 0 <= k < |rows| && rows[k].cohortHash != h ==> rows[k] in r
  {
    if |rows| == 0 then []
    else
      var rest := DeleteHash(rows[1..], h);
      assert forall k :: 1 <= k < |rows| ==> rows[k] == rows[1..][k - 1];
      if rows[0].cohortHash == h then rest else [rows[0]] + rest
  }

  /** The delete leaves the rows of every other hash exactly as they were, in order. */
  lemma {:induction false} DeleteHashKeepsOtherHashes(rows: seq<ProtectedGroupRow>, h: string, other: string)
    requires other != h
    ensures OfHash(DeleteHash(rows, h), other) == OfHash(rows, other)
  {
    if |rows| > 0 {
      DeleteHashKeepsOtherHashes(rows[1..], h, other);
      if rows[0].cohortHash != h {
        assert DeleteHash(rows, h) == [rows[0]] + DeleteHash(rows[1..], h);
        assert ([rows[0]] + DeleteHash(rows[1..], h))[1..] == DeleteHash(rows[1..], h);
      }
    }
  }

  /** Rows of the deleted hash are all gone. */
  lemma {:induction false} DeleteHashRemovesHash(rows: seq<ProtectedGroupRow>, h: string)
    ensures OfHash(DeleteHash(rows, h), h) == []
  {
    var r := DeleteHash(rows, h);
    NoneOfHash(r, h);
  }

  lemma {:induction false} NoneOfHash(rows: seq<ProtectedGroupRow>, h: string)
    requires forall k :: 0 <= k < |rows| ==> rows[k].cohortHash != h
    ensures OfHash(rows, h) == []
  {
    if |rows| > 0 {
      NoneOfHash(rows[1..], h);
    }
  }

  /**
   * The rows the date loop starts from: a new table is empty; an existing
   * one keeps its rows, except that replacing deletes the rows of the hash.
   */
  function Start(present: bool, rows: seq<ProtectedGroupRow>, replace: bool, cohortHash: string): (r: seq<ProtectedGroupRow>)
    ensures !present ==> r == []
    ensures present && !replace ==> r == rows
    ensures forall k :: 0 <= k < |r| ==> r[k] in rows
    ensures replace ==> forall k :: 0 <= k < |r| ==> r[k].cohortHash != cohortHash
    ensures present ==> forall k :: 0 <= k < |rows| && (!replace || rows[k].cohortHash != cohortHash) ==> rows[k] in r
  {
    var base := if present then rows else [];
    if replace then DeleteHash(base, cohortHash) else base
  }

  /** One date: skipped when not replacing and (date, hash) already has rows, else generated. */
  function Step(rows: seq<ProtectedGroupRow>, d: Date, cohort: seq<EntityDateRow>, source: seq<AttributeRecord>,
                cohortHash: string, replace: bool): (r: seq<ProtectedGroupRow>)
    ensures !replace && HasGroupRow(rows, d, cohortHash) ==> r == rows
    ensures replace || !HasGroupRow(rows, d, cohortHash) ==> r == rows + GroupRows(cohort, source, d, cohortHash)
  {
    if !replace && HasGroupRow(rows, d, cohortHash) then rows
    else rows + GroupRows(cohort, source, d, cohortHash)
  }

  /** The date loop, in date order. */
  function Replay(rows: seq<ProtectedGroupRow>, dates: seq<Date>, cohort: seq<EntityDateRow>,
                  source: seq<AttributeRecord>, cohortHash: string, replace: bool): seq<ProtectedGroupRow>
  {
    if |dates| == 0 then rows
    else Step(Replay(rows, dates[..|dates| - 1], cohort, source, cohortHash, replace),
              dates[|dates| - 1], cohort, source, cohortHash, replace)
  }

  /** No two rows share entity, date and hash. */
  predicate NoGroupDuplicates(rows: seq<ProtectedGroupRow>)
  {
    forall i, j :: 0 <= i < j < |rows| ==>
      !(rows[i].entityId == rows[j].entityId && rows[i].asOfDate == rows[j].asOfDate
        && rows[i].cohortHash == rows[j].cohortHash)
  }

  /** Without replace, a date already generated for the hash is never generated again. */
  lemma StepKeepsNoGroupDuplicates(rows: seq<ProtectedGroupRow>, d: Date, cohort: seq<EntityDateRow>,
                                   source: seq<AttributeRecord>, cohortHash: string)
    requires NoGroupDuplicates(rows)
    ensures NoGroupDuplicates(Step(rows, d, cohort, source, cohortHash, false))
  {
    if !HasGroupRow(rows, d, cohortHash) {
      var added := GroupRows(cohort, source, d, cohortHash);
      var r := rows + added;
      forall i, j | 0 <= i < j < |r|
        ensures !(r[i].entityId == r[j].entityId && r[i].asOfDate == r[j].asOfDate && r[i].cohortHash == r[j].cohortHash)
      {
        if j < |rows| {
          assert r[i] == rows[i] && r[j] == rows[j];
        } else if i < |rows| {
          assert r[i] == rows[i] && !(rows[i].asOfDate == d && rows[i].cohortHash == cohortHash);
          assert r[j] == added[j - |rows|];
        } else {
          assert r[i] == added[i - |rows|] && r[j] == added[j - |rows|];
        }
      }
    }
  }

  /** Without replace, the table never holds two rows for one (entity, date, hash). */
  lemma {:induction false} ReplayKeepsNoGroupDuplicates(rows: seq<ProtectedGroupRow>, dates: seq<Date>,
    cohort: seq<EntityDateRow>, source: seq<AttributeRecord>, cohortHash: string)
    requires NoGroupDuplicates(rows)
    ensures NoGroupDuplicates(Replay(rows, dates, cohort, source, cohortHash, false))
  {
    if |dates| > 0 {
      ReplayKeepsNoGroupDuplicates(rows, dates[..|dates| - 1], cohort, source, cohortHash);
      StepKeepsNoGroupDuplicates(Replay(rows, dates[..|dates| - 1], cohort, source, cohortHash, false),
                                 dates[|dates| - 1], cohort, source, cohortHash);
    }
  }

  /** The protected-groups table: whether it exists, its rows, and how many indexes were built on it. */
  class ProtectedGroupsTable {
    var present: bool
    var rows: seq<ProtectedGroupRow>
    var indexes: nat

    constructor (present: bool, rows: seq<ProtectedGroupRow>)
      ensures this.present == present && this.rows == rows && this.indexes == 0
    {
      this.present := present;
      this.rows := rows;
      this.indexes := 0;
    }
  }

  /** `ProtectedGroupsGenerator`, reading attributes from `source` (the `from_obj` relation). */
  class ProtectedGroupsGenerator {
    const table: ProtectedGroupsTable
    const source: seq<AttributeRecord>
    const replace: bool

    constructor (table: ProtectedGroupsTable, source: seq<AttributeRecord>, replace: bool)
      ensures this.table == table && this.source == source && this.replace == replace
    {
      this.table := table;
      this.source := source;
      this.replace := replace;
    }

    /** `generate`: insert the rows of one date. */
    method Generate(startDate: Date, cohort: seq<EntityDateRow>, cohortHash: string)
      requires table.present
      modifies table
      ensures table.present && table.indexes == old(table.indexes)
      ensures table.rows == old(table.rows) + GroupRows(cohort, source, startDate, cohortHash)
    {
      table.rows := table.rows + GroupRows(cohort, source, startDate, cohortHash);
    }

    /**
     * `generate_all_dates`: create the table if absent, delete the hash's rows
     * when replacing, generate each date (skipping covered ones unless
     * replacing), index a table created here, and warn on an empty table.
     */
    method GenerateAllDates(asOfDates: seq<Date>, cohort: seq<EntityDateRow>, cohortHash: string)
      returns (noRowsWarning: bool)
      modifies table
      ensures table.present
      ensures table.rows == Replay(Start(old(table.present), old(table.rows), replace, cohortHash),
                                   asOfDates, cohort, source, cohortHash, replace)
      ensures table.indexes == old(table.indexes) + (if old(table.present) then 0 else 1)
      ensures noRowsWarning <==> |table.rows| == 0
    {
      var tableIsNew := false;
      if !table.present {
        table.present := true;
        table.rows := [];
        tableIsNew := true;
      }
      if replace {
        table.rows := DeleteHash(table.rows, cohortHash);
      }
      ghost var start := table.rows;
      for i := 0 to |asOfDates|
        invariant table.present
        invariant table.indexes == old(table.indexes)
        invariant table.rows == Replay(start, asOfDates[..i], cohort, source, cohortHash, replace)
      {
        var asOfDate := asOfDates[i];
        assert asOfDates[..i + 1][..i] == asOfDates[..i];
        if !replace {
          var anyExistingRows := DatabaseAdapter.ProtectedGroupsCheck(table.rows, asOfDate, cohortHash);
          if |anyExistingRows| == 1 {
            continue;
          }
        }
        Generate(asOfDate, cohort, cohortHash);
      }
      assert asOfDates[..|asOfDates|] == asOfDates;
      if tableIsNew {
        table.indexes := table.indexes + 1;
      }
      noRowsWarning := |table.rows| == 0;
    }
  }

  /** The generator used when no bias audit is configured. */
  class ProtectedGroupsGeneratorNoOp {
    constructor ()
    {
    }

    method GenerateAllDates(asOfDates: seq<Date>, cohort: seq<EntityDateRow>, cohortHash: string)
    {
    }

    method Generate(startDate: Date, cohort: seq<EntityDateRow>, cohortHash: string)
    {
    }

    /** An empty frame. */
    method AsDataframe(asOfDates: seq<Date>, cohortHash: string) returns (frame: seq<ProtectedGroupRow>)
      ensures frame == []
    {
      frame := [];
    }
  }
}

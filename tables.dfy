/**
 * The warehouse relations the generators read and write, as rows held in
 * memory. Dates are day ordinals; an entity is an integer id.
 */
module Tables {
  import opened Wrappers

  type EntityId = int
  type Date = int

  /** A row of an entity-date (cohort) table: (entity_id, as_of_date, active). */
  datatype EntityDateRow = EntityDateRow(entityId: EntityId, asOfDate: Date, active: bool)

  /** A row of a labels table. */
  datatype LabelRow = LabelRow(
    entityId: EntityId, asOfDate: Date, labelTimespan: string,
    labelName: string, labelType: string, labelValue: Option<int>)

  /**
   * A row of a protected-groups table; `attributes` is `None` when the left
   * join found no attribute record (every attribute column null).
   */
  datatype ProtectedGroupRow = ProtectedGroupRow(
    entityId: EntityId, asOfDate: Date, attributes: Option<seq<string>>, cohortHash: string)

  /** A row of the attribute source (`from_obj`), projected on the attribute columns. */
  datatype AttributeRecord = AttributeRecord(entityId: EntityId, knowledgeDate: Date, values: seq<string>)

  /** Some row of the entity-date table carries date `d`. */
  predicate HasDate(rows: seq<EntityDateRow>, d: Date)
  {
    exists i :: 0 <= i < |rows| && rows[i].asOfDate == d
  }

  /** Two rows share an (entity_id, as_of_date) pair. */
  predicate HasDuplicates(rows: seq<EntityDateRow>)
  {
    exists i, j :: 0 <= i < j < |rows| && rows[i].entityId == rows[j].entityId && rows[i].asOfDate == rows[j].asOfDate
  }

  /** Some protected-groups row carries date `d` and hash `h`. */
  predicate HasGroupRow(rows: seq<ProtectedGroupRow>, d: Date, h: string)
  {
    exists i :: 0 <= i < |rows| && rows[i].asOfDate == d && rows[i].cohortHash == h
  }

  /** Some label row carries this date, timespan and label name. */
  predicate HasLabel(rows: seq<LabelRow>, d: Date, labelTimespan: string, labelName: string)
  {
    exists i :: 0 <= i < |rows| && rows[i].asOfDate == d
      && rows[i].labelTimespan == labelTimespan && rows[i].labelName == labelName
  }

  predicate NoRepeats<T(==)>(xs: seq<T>)
  {
    forall i, j :: 0 <= i < j < |xs| ==> xs[i] != xs[j]
  }

  /** The members of `xs`, each once, in order of first appearance (SQL `group by`/`distinct`). */
  function Distinct<T(==,!new)>(xs: seq<T>): (r: seq<T>)
    ensures forall x :: x in r <==> x in xs
    ensures NoRepeats(r)
  {
    if |xs| == 0 then []
    else
      var rest := Distinct(xs[..|xs| - 1]);
      assert forall x :: x in xs <==> x in xs[..|xs| - 1] || x == xs[|xs| - 1] by {
        assert xs == xs[..|xs| - 1] + [xs[|xs| - 1]];
      }
      if xs[|xs| - 1] in rest then rest else rest + [xs[|xs| - 1]]
  }

  /** The cohort has a row for entity `e` on date `d`. */
  predicate InCohortOn(cohort: seq<EntityDateRow>, e: EntityId, d: Date)
  {
    exists i :: 0 <= i < |cohort| && cohort[i].entityId == e && cohort[i].asOfDate == d
  }
}

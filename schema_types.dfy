/** Column kinds a schema definition can ask for, and the schemas Triage needs. */
module SchemaTypes {

  /** The SQLAlchemy column types the adapters choose between. */
  datatype ColumnType =
    | JSONB
    | Text
    | String
    | Integer
    | Boolean
    | Timestamp
    | ARRAY(itemType: ColumnType)

  /** The four schemas every backend must provide, in creation order. */
  const TriageSchemas: seq<string> := ["triage_metadata", "test_results", "train_results", "triage_production"]
}

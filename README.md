# Triage database-adapter core in Dafny

This project models the backend-adapter layer of Triage and the table generators that drive it. The generators cover entity-date (cohort) tables, protected-groups tables, model groups and the feature dictionary.

**Adapters.** `DatabaseAdapter` chooses between the two adapters, PostgreSQL and Oracle. Each adapter provides:
- the JSON and array column types;
- the JSON and array codecs;
- the SQL fragment that stands for a list of timestamps;
- the statements that create the Triage schemas;
- the get-or-create of a model-group id.

**Proved about the codecs:**
- PostgreSQL stores an array as its sorted copy.
- Oracle stores an array as the sorted items joined with commas. Reading back strips whitespace from each comma-separated piece.
- Writing then reading gives the sorted list back. On Oracle this holds for items with no comma and no surrounding whitespace. The one-item list `[""]` comes back as `[]`.
- What is written does not depend on the order of the input.
- JSON written by either backend reads back as the dict that was stored.

**Model groups on Oracle.** The lookup key is `(model_type, hyperparameters JSON, sorted comma-joined features, config JSON)`. The model proves:
- the lookup is get-or-create;
- a repeated call is idempotent;
- distinct keys never share an id;
- the order of the feature list does not matter.

It also exhibits a consequence of the comma join: the feature lists `["a,b"]` and `["a", "b"]` share a key. For comma-free feature names, different feature lists always get different keys, except `[]` against `[""]` (see Findings).

**Schema factory.** The process-wide slot starts unset.
- `get_schema_factory` fills the slot only while it is unset.
- `set_schema_factory` installs an explicit adapter as given. Otherwise it detects one.
- Detection first imports `get_postgresql_adapter` and `get_oracle_adapter` from the `triage.component.database` package. The package defines neither name, so detection raises ImportError and the slot keeps its old value (see Findings). The factory methods take the package's names as a parameter and are stated for both outcomes.
- Once both getters exist, a URL naming postgres(ql) picks PostgreSQL, and that test comes before the oracle test. Without a keyword, the first importable driver picks, psycopg2 before oracledb. PostgreSQL is the default.

**Entity-date generator.** It works per as-of date.
- A date the table already has is skipped.
- Otherwise each distinct entity the dated query returns gets one active row.
- Labels mode adds the distinct labels pairs whose date the table lacks.
- After population, an empty table is an error, and so are duplicate `(entity_id, as_of_date)` pairs.
- Running twice without replace leaves the table of one run, in both modes.
- Neither mode ever creates a duplicate pair.
- The subset variant only adds entities that the cohort holds on that date, and it skips the emptiness check.

**Protected groups generator.**
- With replace, it first deletes the rows of one cohort hash and leaves the other hashes' rows exactly as they were.
- Without replace, it skips a `(date, hash)` pair that already has rows.
- Each generated date holds one row per distinct cohort entity. The row carries the attributes of the latest record known strictly before that date, or nulls when there is none.
- The index is built only by the call that created the table.

**Feature dictionary.** It keeps exactly the tables whose names contain `aggregation_imputed`, in order and with their multiplicity. It maps each kept table to its columns other than the index columns.

**Choices the adapters make:**
- Oracle stores an array as comma-joined text in a CLOB column.
- The Oracle timestamp fragment is a parenthesised list of quoted literals, for use after `IN`.
- The PostgreSQL `get_model_group_id` calls the stored procedure `public.get_model_group_id` directly.
- Both adapters encode `hyperparameters` and `model_config` with `json.dumps` as given, without `sort_keys`.

**Model grouping.** `ModelGrouper.get_model_group_id` calls the adapter with the keywords `class_path`, `parameters`, `feature_names` and `model_config`. Both adapters name their parameters `model_type`, `hyperparameters`, `feature_list` and `model_config`, so the call as written raises TypeError (see Findings). The model keeps that behaviour in `GetModelGroupIdAsWritten` and states the intended call, with the four values passed in order, in `GetModelGroupId`.

Values and external calls are modelled as follows:
- Dates are day ordinals.
- The user's SQL is a function from a date to the entity ids it selects.
- `json.dumps`/`json.loads` are a pair of function parameters, assumed only to round-trip (`Values.Lawful`).
- The PostgreSQL stored procedure is a function parameter.
- Which drivers can be imported is a pair of booleans.
- The names the `triage.component.database` package defines are a set of strings given to the schema-factory methods.

## Model

| member | source | states |
|---|---|---|
| DatabaseAdapter.JsonColumnType | src/triage/component/database/base.py:18-25 | the JSON column type is JSONB exactly on PostgreSQL and Text exactly on Oracle |
| DatabaseAdapter.ArrayColumnType | src/triage/component/database/base.py:27-37 | an ARRAY of the item type on PostgreSQL, Text on Oracle whatever the item type |
| DatabaseAdapter.RetrieveJsonData | src/triage/component/database/base.py:51-61 | a dict reads back unchanged on both backends; Oracle never fails; a failure happens exactly when PostgreSQL is given a string that does not parse |
| DatabaseAdapter.JsonRoundTrip | src/triage/component/database/base.py:39-61 | on both backends, stored JSON reads back as the dict that was stored |
| DatabaseAdapter.SerializeArray | src/triage/component/database/base.py:91-101 | PostgreSQL writes a sorted permutation of the items (duplicates kept); Oracle writes text that is empty exactly for an empty list or one that sorts to `[""]` |
| DatabaseAdapter.JoinEmptyIff | src/triage/component/database/oracle.py:122-126 | the comma join is empty exactly for `[]` and `[""]` |
| DatabaseAdapter.DeserializeArray | src/triage/component/database/base.py:103-113 | a NULL array reads as the empty list on both backends |
| DatabaseAdapter.ArrayRoundTrip | src/triage/component/database/base.py:91-113 | what a backend writes it can read, and reading back gives the sorted list (on Oracle: comma-free, unpadded items, not `[""]`) |
| DatabaseAdapter.SerializeArrayIgnoresOrder | src/triage/component/database/base.py:91-101 | on both backends, inputs with the same items (as multisets) are stored identically |
| DatabaseAdapter.FormatTimestampArrayQuery | src/triage/component/database/base.py:115-132 | empty input gives each dialect's empty query; on PostgreSQL the fragment's members are exactly the timestamps, in order; on Oracle likewise whenever no timestamp holds a quote |
| DatabaseAdapter.CreateSchemas | src/triage/component/database/base.py:82-89 | exactly four `CREATE SCHEMA IF NOT EXISTS` statements on PostgreSQL, in schema order; exactly eight on Oracle: a CREATE USER per schema, then a CREATE SESSION grant per schema, both in schema order |
| DatabaseAdapter.GetModelGroupId | src/triage/component/database/base.py:63-80 | PostgreSQL answers what the procedure returns for the sorted arguments and leaves the Oracle table alone; Oracle performs the get-or-create `Resolve` and keeps ids unique |
| DatabaseAdapter.EntityDateCheck | src/triage/component/database/base.py:222-233 | the check query returns `[1]` when the entity-date table has a row for the date and `[]` otherwise |
| DatabaseAdapter.ProtectedGroupsCheck | src/triage/component/database/base.py:291-303 | returns `[1]` when some row has the date and cohort hash, `[]` otherwise |
| DatabaseAdapter.ExistingLabelsCheck | src/triage/component/database/base.py:176-190 | returns `[1]` when labels for the date, timespan and label name exist, an empty result otherwise |
| PostgreSQLAdapter.RetrieveJsonData | src/triage/component/database/postgresql.py:30-36 | a dict is returned unchanged, a string is parsed and a parse error escapes as a failure, any other value gives `{}` |
| PostgreSQLAdapter.JsonRoundTrip | src/triage/component/database/postgresql.py:26-36 | `retrieve_json_data(store_json_data(d)) == d` for a round-tripping codec |
| PostgreSQLAdapter.SerializeArray | src/triage/component/database/postgresql.py:77-79 | the result is sorted and a permutation of the input (duplicates kept); None or empty gives `[]` |
| PostgreSQLAdapter.DeserializeArray | src/triage/component/database/postgresql.py:81-83 | a stored list comes back as a copy; None gives `[]` |
| PostgreSQLAdapter.ArrayRoundTrip | src/triage/component/database/postgresql.py:77-83 | `deserialize_array(serialize_array(xs)) == sorted(xs)` |
| PostgreSQLAdapter.SerializeArrayIgnoresOrder | src/triage/component/database/postgresql.py:77-79 | permuting the input does not change what is written |
| PostgreSQLAdapter.UnnestMembers | src/triage/component/database/postgresql.py:105 | reading an `UNNEST(ARRAY...)` fragment reads the list literal inside it |
| PostgreSQLAdapter.FormatTimestampArrayQuery | src/triage/component/database/postgresql.py:100-105 | empty input gives `(SELECT NULL WHERE FALSE)`; otherwise the fragment's members are exactly the timestamps, in order |
| PostgreSQLAdapter.CreateSchemas | src/triage/component/database/postgresql.py:68-75 | exactly one `CREATE SCHEMA IF NOT EXISTS` per Triage schema, in schema order |
| PostgreSQLAdapter.ModelGroupProcedureArgs | src/triage/component/database/postgresql.py:46-64 | the procedure gets the model type, the sorted permutation of the features and the JSON encodings of hyperparameters and config |
| PostgreSQLAdapter.GetModelGroupId | src/triage/component/database/postgresql.py:38-66 | the id is the stored procedure's answer for the model type, the JSON the adapter stores for the hyperparameters and the config, and the array it stores for the features (their sorted copy) |
| PostgreSQLAdapter.GetModelGroupIdIgnoresFeatureOrder | src/triage/component/database/postgresql.py:46-64 | permuting the feature list changes neither the procedure arguments nor the id |
| OracleAdapter.RetrieveJsonData | src/triage/component/database/oracle.py:31-40 | a dict is returned unchanged, a parsable string gives its value, an unparsable string or any other value gives `{}`; it never fails |
| OracleAdapter.JsonRoundTrip | src/triage/component/database/oracle.py:27-40 | stored JSON reads back as the dict that was stored |
| OracleAdapter.DeserializeArray | src/triage/component/database/oracle.py:128-132 | None or `""` gives `[]`; every item read holds no comma and no surrounding whitespace |
| OracleAdapter.SerializeArray | src/triage/component/database/oracle.py:122-126 | the stored text is empty exactly for a missing or empty list and for `[""]`; ArrayRoundTrip, EmptyItemLost and SerializeArrayIgnoresOrder state what reads back |
| OracleAdapter.ArrayRoundTrip | src/triage/component/database/oracle.py:122-132 | for comma-free, unpadded items other than the list `[""]`, reading back gives `sorted(xs)` |
| OracleAdapter.EmptyItemLost | src/triage/component/database/oracle.py:122-132 | the list `[""]` is written as `""` and reads back as `[]` |
| OracleAdapter.SerializeArrayIgnoresOrder | src/triage/component/database/oracle.py:122-126 | permuting the input does not change the stored text |
| OracleAdapter.FormatTimestampArrayQuery | src/triage/component/database/oracle.py:150-155 | empty input gives `(SELECT NULL FROM DUAL WHERE 1=0)`; when no timestamp holds a quote, the parenthesised list's members are exactly the timestamps, in order |
| OracleAdapter.CreateSchemas | src/triage/component/database/oracle.py:109-120 | one CREATE USER per Triage schema in order, then one CREATE SESSION grant per schema in the same order |
| OracleAdapter.ModelGroupKey | src/triage/component/database/oracle.py:48-54 | the lookup columns hold the model type and exactly what the adapter's JSON and array codecs store for the hyperparameters, the config and the features |
| OracleAdapter.ModelGroupKeyIgnoresFeatureOrder | src/triage/component/database/oracle.py:48-54 | the lookup key does not depend on the order of the feature list |
| OracleAdapter.ModelGroupKeyDistinguishes | src/triage/component/database/oracle.py:48-75 | models that differ in type, hyperparameters or config get different keys (lawful JSON) |
| OracleAdapter.CommaInFeatureNameCollides | src/triage/component/database/oracle.py:49-50 | the feature lists `["a,b"]` and `["a", "b"]` produce the same key |
| OracleAdapter.ModelGroupKeySeparatesFeatures | src/triage/component/database/oracle.py:48-50 | for comma-free feature names, feature lists with different items get different keys, except `[]` against `[""]` |
| OracleAdapter.ResolveValid | src/triage/component/database/oracle.py:77-107 | get-or-create keeps ids positive and unique, stores the key under the id returned and keeps every existing row |
| OracleAdapter.ResolveIdempotent | src/triage/component/database/oracle.py:57-78 | a second call with the same key returns the same id and changes nothing |
| OracleAdapter.ResolveStableAcrossCalls | src/triage/component/catwalk/model_grouping.py:103-104 | a key resolved again after another key was resolved gets the same id as the first time |
| OracleAdapter.ResolveDistinct | src/triage/component/database/oracle.py:77-107 | two different keys never receive the same id |
| OracleAdapter.ModelGroupsTable.GetModelGroupId | src/triage/component/database/oracle.py:42-107 | an existing key returns its stored id and inserts nothing; a new key is inserted with the next sequence value, which is returned; ids stay unique |
| SchemaFactories.SchemaFactory.JsonColumn | src/triage/component/database/schema_factory.py:20-29 | a column of the adapter's JSON type (JSONB exactly on PostgreSQL), options passed through |
| SchemaFactories.SchemaFactory.ArrayColumn | src/triage/component/database/schema_factory.py:31-41 | a column of the adapter's array type for the item type, options passed through |
| SchemaFactories.AutoDetectAdapter | src/triage/component/database/schema_factory.py:63-96 | a URL naming postgres picks PostgreSQL; Oracle is picked exactly when the URL names oracle but not postgres, or names neither and only oracledb is importable |
| SchemaFactories.PostgresqlNamesPostgres | src/triage/component/database/schema_factory.py:77 | the `postgresql` test is subsumed by the `postgres` test |
| SchemaFactories.BothNamedPicksPostgreSQL | src/triage/component/database/schema_factory.py:76-80 | a URL naming both postgresql and oracle picks PostgreSQL |
| SchemaFactories.DriversDecideWithoutKeyword | src/triage/component/database/schema_factory.py:76-96 | without a dialect keyword in the URL the outcome is the same as with no URL at all |
| SchemaFactories.DetectAdapter | src/triage/component/database/schema_factory.py:63-96 | detection succeeds exactly when the package defines both adapter getters, with `AutoDetectAdapter`'s choice; otherwise ImportError for the first getter missing, in import order |
| SchemaFactories.DetectionFailsInPackage | src/triage/component/database/schema_factory.py:73 | with the names `triage.component.database` defines, detection raises ImportError for `get_postgresql_adapter` whatever the URL and drivers |
| SchemaFactories.FactorySlot.constructor | src/triage/component/database/schema_factory.py:44-45 | the slot starts unset |
| SchemaFactories.FactorySlot.SetSchemaFactory | src/triage/component/database/schema_factory.py:48-60 | an explicit adapter is installed as given and the URL ignored; otherwise the detected adapter is installed, and a failed detection raises its ImportError and leaves the slot as it was |
| SchemaFactories.FactorySlot.GetSchemaFactory | src/triage/component/database/schema_factory.py:99-114 | a set slot is returned unchanged; an unset slot is filled with the detected default, or stays unset when detection raises ImportError, which is passed on |
| SchemaFactories.FactorySlot.JsonColumn | src/triage/component/database/schema_factory.py:117-126 | the JSON column of the factory installed at call time; a configured slot is left as it was; an unset slot whose detection fails gives the ImportError and stays unset |
| SchemaFactories.FactorySlot.ArrayColumn | src/triage/component/database/schema_factory.py:129-139 | the array column of the factory installed at call time; a configured slot is left as it was; an unset slot whose detection fails gives the ImportError and stays unset |
| ModelGrouping.NewModelGrouper | src/triage/component/catwalk/model_grouping.py:30-31 | the grouper's key set has exactly the members of the given keys |
| ModelGrouping.NewModelGrouperIgnoresOrder | src/triage/component/catwalk/model_grouping.py:30-31 | key lists with the same members, in any order and with any repeats, give the same grouper |
| ModelGrouping.FirstMissing | src/triage/component/catwalk/model_grouping.py:88-96 | the reported name is absent and every name before it is present; none is reported exactly when all are present (the first missing metadata key, or the first undeclared keyword of a call) |
| ModelGrouping.ModelGrouper.FinalModelGroupArgs | src/triage/component/catwalk/model_grouping.py:33-98 | success exactly when every key it reads is in the metadata, with the expected arguments; a KeyError names a missing key it reads, `feature_names` first in custom mode and the first missing default key otherwise |
| ModelGrouping.CustomModelConfig | src/triage/component/catwalk/model_grouping.py:78-83 | `model_config` maps exactly the remaining custom keys to their metadata values, or a KeyError for one that is missing |
| ModelGrouping.DefaultModelConfig | src/triage/component/catwalk/model_grouping.py:88-91 | `model_config` maps exactly the default keys to their metadata values, or a KeyError for the first missing one |
| ModelGrouping.MissingDefaultIsFirst | src/triage/component/catwalk/model_grouping.py:88-96 | the default loop reports the first missing key of the default keys followed by feature_names |
| ModelGrouping.ExpectedArgsFields | src/triage/component/catwalk/model_grouping.py:57-76 | with custom keys, class_path, parameters and feature_names are copied only when named, else `""`, `{}`, `[]`; with the default keys they pass through |
| ModelGrouping.ModelConfigKeys | src/triage/component/catwalk/model_grouping.py:78-91 | the model_config keys are the custom keys minus the three field keys, or exactly the default keys |
| ModelGrouping.ExpectedArgsReadsOnlyLookups | src/triage/component/catwalk/model_grouping.py:57-98 | metadata outside the keys a grouper reads never changes its arguments |
| ModelGrouping.ExpectedArgsSeparatesConfig | src/triage/component/catwalk/model_grouping.py:78-91 | metadata that differs on a model_config key gives a different model_config |
| ModelGrouping.ModelGrouper.GetModelGroupId | src/triage/component/catwalk/model_grouping.py:100-124 | the intended call: the four computed fields go, in order, to the adapter; PostgreSQL leaves the groups table unchanged; on Oracle the new table is the get-or-create of the group's key and the id is the one stored for it, so with ResolveStableAcrossCalls the same model gets the same id across other calls; a missing key leaves the table unchanged |
| ModelGrouping.AdaptersRejectCallKeywords | src/triage/component/database/postgresql.py:38-39 | neither adapter's `get_model_group_id` declares `class_path`, the first keyword the grouper passes |
| ModelGrouping.ModelGrouper.GetModelGroupIdAsWritten | src/triage/component/catwalk/model_grouping.py:114-124 | the call as written always fails: a KeyError when a key it reads is missing, otherwise the TypeError for `class_path`, with no adapter table touched |
| Tables.Distinct | src/triage/component/architect/entity_date_table_generators.py:150-153 | the grouped result holds each input entity exactly once |
| EntityDateTables.Start | src/triage/component/architect/entity_date_table_generators.py:71-106 | the table is emptied when replacing or absent, and kept otherwise |
| EntityDateTables.Step | src/triage/component/architect/entity_date_table_generators.py:118-158 | a date already present leaves the table unchanged; otherwise rows are appended, each active on that date for an entity the query returned, and every returned entity gets a row |
| EntityDateTables.ReplayIdempotent | src/triage/component/architect/entity_date_table_generators.py:118-139 | running query mode again over the same dates leaves the table of one run |
| EntityDateTables.ReplaySettles | src/triage/component/architect/entity_date_table_generators.py:118-158 | after a run, every one of its dates is present or its query returns nobody |
| EntityDateTables.StepKeepsNoDuplicates | src/triage/component/architect/entity_date_table_generators.py:137-158 | one date of query mode never introduces a duplicate (entity_id, as_of_date) pair |
| EntityDateTables.ReplayKeepsNoDuplicates | src/triage/component/architect/entity_date_table_generators.py:118-158 | query mode keeps a duplicate-free table duplicate-free |
| EntityDateTables.ReplayRowsFromSource | src/triage/component/architect/entity_date_table_generators.py:118-158 | a run keeps the starting rows and adds only active rows, each for one of its dates and an entity the query returned for that date |
| EntityDateTables.LabelPairs | src/triage/component/architect/entity_date_table_generators.py:204-206 | exactly the labels' (entity_id, as_of_date) pairs, each once |
| EntityDateTables.UnclaimedRows | src/triage/component/architect/entity_date_table_generators.py:202-212 | active rows for exactly the pairs whose date the table lacks, without repeats |
| EntityDateTables.LabelsInsert | src/triage/component/architect/entity_date_table_generators.py:202-217 | existing rows are kept; every labels pair whose date is missing is added as an active row; every added row is an active labels pair whose date was not present; no added row repeats |
| EntityDateTables.CoveredLabelsAddNothing | src/triage/component/architect/entity_date_table_generators.py:170-212 | a table that covers every labels date receives nothing |
| EntityDateTables.LabelsInsertIdempotent | src/triage/component/architect/entity_date_table_generators.py:170-217 | running labels mode twice leaves the table of one run |
| EntityDateTables.LabelsInsertKeepsNoDuplicates | src/triage/component/architect/entity_date_table_generators.py:202-212 | labels mode keeps a duplicate-free table duplicate-free |
| EntityDateTables.SubsetEntities | src/triage/component/architect/entity_date_table_generators.py:305-315 | exactly the query's entities that the cohort holds on that date |
| EntityDateTables.SubsetRowsInCohort | src/triage/component/architect/entity_date_table_generators.py:262-320 | every row the subset generator adds is an entity the query returned and the cohort holds on that date |
| EntityDateTables.DatePreview | src/triage/component/architect/entity_date_table_generators.py:224-229 | all dates when there are at most five, otherwise the first five followed by `…` |
| EntityDateTables.QueryText | src/triage/component/architect/entity_date_table_generators.py:223 | the query text, or `labels table` when there is no query |
| EntityDateTables.EmptyTableMessage | src/triage/component/architect/entity_date_table_generators.py:219-230 | the message opens with the fixed sentence, then the date preview, and ends with the query text (or "labels table") in quotes |
| EntityDateTables.Validate | src/triage/component/architect/entity_date_table_generators.py:56-64 | passes exactly for a non-empty table without duplicates; empty gives the empty-table message, duplicates give `Duplicates found` |
| EntityDateTables.QueryModeNeverDuplicates | src/triage/component/architect/entity_date_table_generators.py:47-64 | query mode from a duplicate-free table never fails the duplicates check |
| EntityDateTables.EntityDateTableGenerator.MaybeCreate | src/triage/component/architect/entity_date_table_generators.py:71-106 | afterwards the table exists, emptied when replacing or newly created, otherwise unchanged |
| EntityDateTables.EntityDateTableGenerator.PopulateFromQuery | src/triage/component/architect/entity_date_table_generators.py:108-158 | the table ends as the date-by-date replay of the query over the starting rows |
| EntityDateTables.EntityDateTableGenerator.PopulateFromLabels | src/triage/component/architect/entity_date_table_generators.py:160-217 | a missing labels table adds nothing; otherwise the unclaimed labels pairs are added |
| EntityDateTables.EntityDateTableGenerator.Generate | src/triage/component/architect/entity_date_table_generators.py:38-68 | the query when given, else labels when named, else an error with the table untouched; the outcome is the validation of the populated table |
| EntityDateTables.EntityDateTableGenerator.CleanUp | src/triage/component/architect/entity_date_table_generators.py:232-234 | the table is dropped |
| EntityDateTables.CohortTableGeneratorNoOp.Generate | src/triage/component/architect/entity_date_table_generators.py:241-245 | never fails and touches no table |
| EntityDateTables.CohortTableGeneratorNoOp.EntityDateTableName | src/triage/component/architect/entity_date_table_generators.py:251-253 | the table name is absent |
| EntityDateTables.SubsetEntityDateTableGenerator.MaybeCreate | src/triage/component/architect/entity_date_table_generators.py:270 | as for the base generator: emptied when replacing or absent, kept otherwise |
| EntityDateTables.SubsetEntityDateTableGenerator.PopulateFromQuery | src/triage/component/architect/entity_date_table_generators.py:262-320 | the table ends as the replay of the cohort-restricted query over the starting rows |
| EntityDateTables.SubsetEntityDateTableGenerator.Generate | src/triage/component/architect/entity_date_table_generators.py:323-339 | without a query nothing is built; it fails exactly when the table holds duplicates, and an empty table passes |
| ProtectedGroups.LatestRecord | src/triage/component/catwalk/protected_groups_generators.py:158-162 | a record of the entity known strictly before the date with the latest knowledge date, or none exactly when no such record exists |
| ProtectedGroups.CohortIdsOn | src/triage/component/catwalk/protected_groups_generators.py:157-161 | exactly the entities the cohort holds on that date |
| ProtectedGroups.GroupRows | src/triage/component/catwalk/protected_groups_generators.py:151-162 | one row per distinct cohort entity on the date, tagged with the date and hash, carrying the latest earlier attributes |
| ProtectedGroups.DeleteHash | src/triage/component/catwalk/protected_groups_generators.py:67-71 | no remaining row has the hash, and every row with another hash remains |
| ProtectedGroups.DeleteHashKeepsOtherHashes | src/triage/component/catwalk/protected_groups_generators.py:67-71 | the rows of every other hash are kept exactly, in order |
| ProtectedGroups.DeleteHashRemovesHash | src/triage/component/catwalk/protected_groups_generators.py:67-71 | no row of the deleted hash remains |
| ProtectedGroups.Start | src/triage/component/catwalk/protected_groups_generators.py:42-71 | a new table starts empty; an existing one keeps its rows, except that replace deletes exactly the rows of the cohort hash |
| ProtectedGroups.Step | src/triage/component/catwalk/protected_groups_generators.py:78-109 | without replace, a (date, hash) that has rows is skipped; otherwise the date's group rows are appended |
| ProtectedGroups.StepKeepsNoGroupDuplicates | src/triage/component/catwalk/protected_groups_generators.py:78-109 | without replace, one date never creates two rows for one (entity, date, hash) |
| ProtectedGroups.ReplayKeepsNoGroupDuplicates | src/triage/component/catwalk/protected_groups_generators.py:78-109 | without replace, the table never holds two rows for one (entity, date, hash) |
| ProtectedGroups.ProtectedGroupsGenerator.Generate | src/triage/component/catwalk/protected_groups_generators.py:134-178 | appends the date's group rows and nothing else |
| ProtectedGroups.ProtectedGroupsGenerator.GenerateAllDates | src/triage/component/catwalk/protected_groups_generators.py:42-132 | the table ends as the date-by-date replay from the (created, hash-cleared) start; one index is added only when the table was created; an empty table only raises the warning flag |
| ProtectedGroups.ProtectedGroupsGeneratorNoOp.AsDataframe | src/triage/component/catwalk/protected_groups_generators.py:24-28 | an empty frame |
| FeatureDictionaries.TablesToInclude | src/triage/component/architect/feature_dictionary_creator.py:15-20 | exactly the names containing `aggregation_imputed`, each as often as in the input |
| FeatureDictionaries.TablesToIncludeConcat | src/triage/component/architect/feature_dictionary_creator.py:16-20 | the filter keeps input order: filtering a concatenation concatenates the filtered parts |
| FeatureDictionaries.TablesToIncludeIdempotent | src/triage/component/architect/feature_dictionary_creator.py:15-20 | filtering twice is filtering once |
| FeatureDictionaries.BuildFeatureNamesQuery | src/triage/component/architect/feature_dictionary_creator.py:44-72 | the adapter's table-columns query exactly when an adapter is configured, otherwise the information_schema query, for the table, schema and index columns |
| FeatureDictionaries.ColumnsExcept | src/triage/component/architect/feature_dictionary_creator.py:65 | exactly the columns not listed as excluded |
| FeatureDictionaries.RunFeatureNamesQuery | src/triage/component/database/base.py:355-367 | the table's columns other than the excluded ones |
| FeatureDictionaries.FeatureNamesIndependentOfAdapter | src/triage/component/architect/feature_dictionary_creator.py:53-66 | with or without an adapter, a table's feature names are the same; neither adapter implements `get_table_columns_query`, so this holds by the meaning the model gives that query |
| FeatureDictionaries.FeatureDictionaryCreator.FeatureDictionary | src/triage/component/architect/feature_dictionary_creator.py:22-42 | keys are exactly the included tables, each mapped to its feature names; the KeyError names the first included table, in order, missing from the index lookup, after one query for each table before it; on success one query per included table, in order |
| FeatureDictionaries.FeatureDictionaryCreator.EntriesFor | src/triage/component/architect/feature_dictionary_creator.py:29-40 | the loop fills one entry per table, in order; it stops with a KeyError at the first table without index columns, every earlier table having one query |
| Sorting.Sort | src/triage/component/database/postgresql.py:79 | Python's `sorted`: the result is sorted and a permutation of its input |
| Sorting.SortPermutationInvariant | src/triage/component/database/oracle.py:49 | inputs with the same items sort to the same list |
| Strings.SplitJoin | src/triage/component/database/oracle.py:126-132 | splitting the comma join of comma-free items gives the items back |
| Strings.StripUnpadded | src/triage/component/database/oracle.py:132 | `strip` leaves an unpadded string alone and always returns one |
| SqlText.ParseQuotedListInverse | src/triage/component/database/oracle.py:154-155 | a quoted, comma-separated list of quote-free strings reads back as the strings |
| Values.LawfulDumpsInjective | src/triage/component/database/oracle.py:53-54 | a round-tripping JSON encoder never gives two values the same text |

## Left out

- SQL text and execution: DDL, insert and select statements are modelled by their effect on in-memory rows, not as strings, and their dialect correctness is not checked.
- The database-reflection helpers `table_exists`, `table_has_data` and `table_has_duplicates` are predicates on the modelled table; `src/triage/database_reflection.py` is not part of this model.
- Adapter members with no implementation in either adapter are not modelled. These include `get_labels_table_ddl`, `cast_to_interval`, `create_index_statement`, the DDL/insert/select builders, `query_to_dataframe`, `get_array_contains_expression`, `get_table_exists_check_query`, `build_array_categorical_choice`, `get_explain_query_prefix`, `get_limit_clause`, `export_query_to_csv`, the importance queries and `get_subset_table_query`. Only the three check queries are given a meaning: what they return when run.
- Transactions, partial failure and the check-then-insert race between concurrent writers are not modelled. Each method runs alone.
- `ProtectedGroupsGenerator.as_dataframe`, pandas and CSV export are not modelled because they are I/O.
- `execute_sql_file` and `setup_stored_procedures` are not modelled because they involve file I/O. The PostgreSQL stored procedure is a function parameter.
- `src/triage/util/db.py` and the Alembic migrations are not part of this model: they hold engine plumbing and fixed DDL. Of `database/__init__.py` only the set of names it defines is modelled (`SchemaFactories.PackageNames`).
- Adapter construction: `DatabaseAdapter` declares 36 abstract members and each adapter implements only some of them (not, for example, `get_labels_table_ddl`, `get_entity_date_check_query` or `get_table_columns_query`). Python therefore refuses to instantiate `PostgreSQLAdapter` or `OracleAdapter` with a TypeError, so none of the adapter paths above is reachable with these two classes as they stand. The model treats each implemented method as callable, as it would be on a complete subclass.
- Logging, and the row count that is only logged, are not modelled.
- Values are limited to JSON-like data:
  - `json.dumps(..., default=str)` for non-JSON values, and the key order of encoded dicts, are not modelled.
  - Arrays hold strings only, so `str(item)` of other item types is not modelled.
- Dates are day ordinals. The `::DATE` casts and `isoformat` are not modelled, and `str(date)` in the empty-table message is a parameter.
- `FeatureNameList`, the wrapper class around each entry of the feature dictionary, is not part of this model: each entry is the plain list of names.
- PostgreSQLAdapter.FormatTimestampArrayQuery: requires printable ASCII timestamps without `'` or `\`, because for other strings Python's `str(list)` quoting is not modelled.
- OracleAdapter.FormatTimestampArrayQuery: states the members only for timestamps without `'`, because the fragment does not escape quotes.
- OracleAdapter.ModelGroupsTable.GetModelGroupId: returns the new sequence value directly, so the `None` branch of `result[0] if result else None` is not modelled. `CURRVAL` is a counter read in the same call, with no other writer.
- ModelGrouping.ModelGrouper.GetModelGroupId: a `feature_names` value that is not a list of strings gives the error `FeatureNamesNotStrings`. In the intended call the adapter would hand such a value to `sorted` and to SQL unchecked, and what that does is not modelled.
- DatabaseAdapter.FormatTimestampArrayQuery: on PostgreSQL it requires printable ASCII timestamps without `'` or `\`, for the same reason as the PostgreSQL adapter's own version.
- ProtectedGroups.LatestRecord: among records tied on the latest knowledge date it keeps the first in source order; the database may keep any of them.
- ProtectedGroups.ProtectedGroupsGenerator.Generate: requires the table to exist, because an insert into an absent table fails in the database and that failure is not modelled.
- EntityDateTables.SubsetEntityDateTableGenerator.Generate: reads an absent table as having no duplicates, because the database's behaviour on an absent table is not modelled. The cohort table is a value read when the generator is built, so aliasing between the cohort and the target table is not modelled.
- The protected-groups row count, and the attribute values' conversion to text, are reduced to the warning flag and to strings.

## Findings

| source | as written | input that shows it | evidently intended | confidence | as-written member | corrected member |
|---|---|---|---|---|---|---|
| src/triage/component/catwalk/model_grouping.py:119-124 | calls `db_adapter.get_model_group_id` with the keywords `class_path`, `parameters`, `feature_names`, `model_config`; both adapters declare `model_type`, `hyperparameters`, `feature_list`, `model_config` (postgresql.py:38-39, oracle.py:42-43), so the call raises TypeError | any grouper and any metadata holding every key it reads, on either adapter | the four values passed to the adapter's parameters in order, returning the group id | high (not executed) | ModelGrouping.ModelGrouper.GetModelGroupIdAsWritten | ModelGrouping.ModelGrouper.GetModelGroupId |
| src/triage/component/database/schema_factory.py:73 | `from . import get_postgresql_adapter, get_oracle_adapter`, names that `database/__init__.py` does not define, so detection raises ImportError before any test; `set_schema_factory()` without an adapter, and `get_schema_factory`, `json_column` and `array_column` on an unset slot, all raise | any URL and drivers, e.g. `set_schema_factory(db_url="postgresql://h/db")` | the URL and driver detection, installing the detected adapter | high (not executed) | SchemaFactories.DetectionFailsInPackage | SchemaFactories.AutoDetectAdapter |
| src/triage/component/database/oracle.py:49-50 | the feature list is stored as its sorted items joined with commas, so a comma inside a feature name makes distinct lists share a model group | `["a,b"]` and `["a", "b"]` with the same type, hyperparameters and config | distinct feature lists give distinct model groups, as with the PostgreSQL array | medium (not executed) | OracleAdapter.CommaInFeatureNameCollides | OracleAdapter.ModelGroupKeySeparatesFeatures |

/** The built-in index resolver: from a record's `$schema` to the
    (index, doctype) pair it is indexed under. */
module Resolver {
  import opened Records

  /** The record's `$schema` value, or the empty string when it has none. */
  function SchemaOf(record: Record): (schema: Json)
    ensures "$schema" !in record.data ==> schema == JStr("")
  {
    if "$schema" in record.data then record.data["$schema"] else JStr("")
  }

  /** The configured default target. */
  function DefaultTarget(app: App): Target
  {
    Target(app.defaultIndex, app.defaultDoctype)
  }

  /** The pair the schema maps to is used exactly when both of its parts are
      non-empty; in every other case the configured default pair is. */
  function RecordToIndex(app: App, record: Record): (t: Target)
    ensures var (index, doctype) := app.schemaToIndex(SchemaOf(record));
      && (index != "" && doctype != "" <==> t == Target(index, doctype) && t.index != "" && t.doctype != "")
      && (index == "" || doctype == "" ==> t == DefaultTarget(app))
  {
    var (index, doctype) := app.schemaToIndex(SchemaOf(record));
    if index != "" && doctype != "" then Target(index, doctype) else DefaultTarget(app)
  }

  /** A record without `$schema` is looked up as the empty schema, and falls
      back to the default pair unless that lookup gives both parts. */
  lemma MissingSchemaFallsBack(app: App, record: Record)
    requires "$schema" !in record.data
    requires app.schemaToIndex(JStr("")).0 == "" || app.schemaToIndex(JStr("")).1 == ""
    ensures RecordToIndex(app, record) == DefaultTarget(app)
  {
  }

  /** The resolver never returns an empty part when the defaults have none. */
  lemma ResolvedTargetIsComplete(app: App, record: Record)
    requires app.defaultIndex != "" && app.defaultDoctype != ""
    ensures RecordToIndex(app, record).index != "" && RecordToIndex(app, record).doctype != ""
  {
  }

  /** Two records with the same `$schema` go to the same place. */
  lemma SameSchemaSameTarget(app: App, r1: Record, r2: Record)
    requires SchemaOf(r1) == SchemaOf(r2)
    ensures RecordToIndex(app, r1) == RecordToIndex(app, r2)
  {
  }
}

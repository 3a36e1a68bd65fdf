/** Stores a JSON text in a jsonb column. */
module JSonBConverter {
  import opened Wrappers
  import opened Postgres

  /** Any text, null included, becomes a jsonb object holding exactly that text. */
  function ConvertToDatabaseColumn(s: Option<string>): (r: PGobject)
    ensures r.typeName == "jsonb"
    ensures ConvertToEntityAttribute(Some(r)) == s
  {
    PGobject("jsonb", s)
  }

  /** A null object reads as null; otherwise its value is returned unchanged. */
  function ConvertToEntityAttribute(pgObject: Option<PGobject>): (r: Option<string>)
    ensures pgObject.None? ==> r.None?
    ensures pgObject.Some? ==> r == pgObject.value.value
  {
    if pgObject.None? then None else pgObject.value.value
  }
}

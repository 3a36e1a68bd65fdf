/** The JPA converter for BatchEntity.Type: both directions delegate to one shared conversion. */
module BatchEntityTypeConverter {
  import opened Wrappers
  import opened Postgres
  import opened BatchEntityDto
  import Conversion = BatchEntityTypeConversion

  /** Agrees with the conversion on every input, so null throws and a constant encodes as its name. */
  function ConvertToDatabaseColumn(entityType: Option<Type>): (r: Result<PGobject>)
    ensures r == Conversion.ToDatabaseColumn(entityType)
    ensures r.IllegalArgumentException? <==> entityType.None?
    ensures forall t: Type :: entityType == Some(t) ==> r == Ok(PGobject("batch_type", Some(t.Name())))
  {
    Conversion.ToDatabaseColumn(entityType)
  }

  /** Agrees with the conversion on every input, so null throws and unknown text decodes to null. */
  function ConvertToEntityAttribute(dbValue: Option<string>): (r: Result<Option<Type>>)
    ensures r == Conversion.ToEntityAttribute(dbValue)
    ensures r.IllegalArgumentException? <==> dbValue.None?
    ensures dbValue == Some("UNKNOWN") ==> r == Ok(None)
    ensures forall t: Type :: dbValue == Some(t.Name()) ==> r == Ok(Some(t))
  {
    Conversion.ToEntityAttribute(dbValue)
  }
}

/** The two JDBC-side value types the core stores its fields as. */
module Postgres {
  import opened Wrappers

  /** A java.sql.Timestamp, as milliseconds since the epoch. */
  type Timestamp = nat

  /**
   * An org.postgresql.util.PGobject: the name of a database type and the
   * textual value, which may be null.
   */
  datatype PGobject = PGobject(typeName: string, value: Option<string>)
}

/** BatchEntity.Type, the domain of the legacy batch-entity type conversion. */
module BatchEntityDto {

  /** The constants of BatchEntity.Type (they repeat the record statuses' names). */
  datatype Type = ACTIVE | DELETED | RESET {
    /** Enum.name() */
    function Name(): string {
      match this
      case ACTIVE => "ACTIVE"
      case DELETED => "DELETED"
      case RESET => "RESET"
    }
  }
}

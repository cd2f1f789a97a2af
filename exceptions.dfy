/**
 * The .NET exceptions the services raise or let through, as values.
 * `ArgumentNullException` and `ArgumentOutOfRangeException` derive from
 * `ArgumentException`; the others are unrelated classes.
 */
module Exceptions {
  import opened Text

  datatype Kind =
    | KeyNotFound
    | Argument
    | ArgumentNull
    | ArgumentOutOfRange
    | UnauthorizedAccess
    | DbUpdate
    | InvalidOperation
    | Other

  datatype Exception = Exception(kind: Kind, message: string)

  /** `ex is ArgumentException`: the class itself or one of its subclasses. */
  predicate IsArgumentException(k: Kind) {
    k == Argument || k == ArgumentNull || k == ArgumentOutOfRange
  }

  /** The services' `KeyNotFoundException($"{entity} with ID {id} not found")`. */
  function NotFound(entity: string, id: int): (e: Exception)
    ensures e.kind == KeyNotFound
    ensures e.message == entity + " with ID " + IntToString(id) + " not found"
  {
    Exception(KeyNotFound, entity + " with ID " + IntToString(id) + " not found")
  }

  /** What `SaveChanges` throws when the database rejects the pending changes. */
  const SaveFailed: Exception :=
    Exception(DbUpdate, "An error occurred while saving the entity changes. See the inner exception for details.")

  /**
   * What the change tracker throws when two entities with the same key
   * join one graph, as when a job links the same tag twice.
   */
  const TrackingConflict: Exception :=
    Exception(InvalidOperation, "The instance of entity type 'JobTag' cannot be tracked because another instance with the same key value is already being tracked.")
}

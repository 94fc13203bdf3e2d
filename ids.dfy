/** Document identifiers (MongoDB ObjectIds) and ids as they arrive in requests and tokens. */
module Ids {

  /** A stored document's `_id`. */
  type Id = nat

  /**
   * An id read from a request body or a token claim: missing or empty, a string that
   * is not an ObjectId (so that a `findById` on it throws a cast error), or a well-formed id.
   */
  datatype IdParam = Absent | Malformed | Ref(id: Id)
}

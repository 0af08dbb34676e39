/** Optional values and results of fallible operations, shared by every module. */
module Wrappers {

  /** A field or request parameter that may be absent (`undefined` in the source). */
  datatype Option<+T> = None | Some(value: T) {
    /** The value, or `default` when absent (the source's `x || default` on objects). */
    function GetOr(default: T): T {
      if Some? then value else default
    }
  }

  /** The outcome of an operation that can be rejected, such as a document save. */
  datatype Result<+T, +E> = Ok(value: T) | Err(error: E)

  /** Why a save was rejected: the document failed its schema's validators. */
  datatype SaveError = ValidationError
}

/** Identifiers of stored documents (MongoDB ObjectIds, abstracted to numbers). */
module Ids {
  type UserId = nat
  type DefId = nat
}

/** The two field validators the schemas use. */
module Validators {
  import opened Wrappers

  /** Mongoose's `required` on a String: present and not the empty string. */
  predicate Present(s: Option<string>) {
    s.Some? && |s.value| > 0
  }

  /** Mongoose's `enum` validator: absent, or one of the allowed values. */
  predicate OneOf(s: Option<string>, allowed: set<string>) {
    s.None? || s.value in allowed
  }
}

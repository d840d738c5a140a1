/** Values shared by every handler: document fields as the document store holds
    them, and the outcomes a handler can end in. */
module Docs {

  datatype Option<+T> = None | Some(value: T)

  /** A field of a stored document. The store is schemaless: a field can be
      missing, present and null (an update that sent an explicit null), or
      present with a value. */
  datatype Field<+T> = Absent | Null | Val(value: T)

  /** `doc.get(key, default)` in the handlers: a missing field gives the
      default, a stored null gives None. */
  function Get<T>(f: Field<T>, default: T): Option<T>
  {
    match f
    case Absent => Some(default)
    case Null => None
    case Val(v) => Some(v)
  }

  /** A keyed document lookup: `doc_ref.get()` followed by `doc.exists`. */
  function At<K, V>(m: map<K, V>, k: K): Option<V>
  {
    if k in m then Some(m[k]) else None
  }

  /** The outcomes the handlers distinguish besides success: HTTP 400, 401,
      404 and 500 (an exception the handler does not catch, or one it
      catches and re-raises as 500). */
  datatype Error = BadRequest | Unauthorized | NotFound | Internal

  datatype Result<+T> = Ok(value: T) | Err(error: Error)

  /** A timestamp the store assigns (`firestore.SERVER_TIMESTAMP`). */
  type Instant = int
}

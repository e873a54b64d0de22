/** The `Map<String, Object>` values the services and handlers return, and what they hold. */
module Envelope {
  import opened JavaLang
  import opened Entity

  /** The objects put into a result map. `VFailure(prefix, e)` is the message `prefix + e.getMessage()`. */
  datatype Value =
    | VNull
    | VBool(b: bool)
    | VText(s: string)
    | VInt(n: int)
    | VUser(user: User)
    | VUsers(users: seq<User>)
    | VFailure(prefix: string, cause: Exception)

  type ObjectMap = map<string, Value>
}

/** Values shared by the router and the dashboard: an optional value and the
    signed-in user as the identity service reports it. */
module Session {

  /** `null` in the source becomes None. */
  datatype Option<+T> = None | Some(value: T)

  /** A session user: `uid`, `email` and an optional `displayName`. */
  datatype User = User(uid: string, email: string, displayName: Option<string>)

  /** JavaScript truthiness of an optional string: null and "" are falsy. */
  predicate TruthyText(s: Option<string>)
  {
    s.Some? && s.value != ""
  }
}

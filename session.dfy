/**
 * The browser's `localStorage` reduced to the one key the client uses,
 * `authToken`: a single slot that the login screen writes and the contacts
 * screen reads and removes.
 */
module Session {
  import opened Outcomes

  class SessionStore {
    /** The stored `authToken`, `None` when the key is absent. */
    var token: Option<string>

    constructor (saved: Option<string>)
      ensures token == saved
    {
      token := saved;
    }

    /** `localStorage.setItem('authToken', value)`: overwrites any earlier token. */
    method Save(value: string)
      modifies this`token
      ensures token == Some(value)
    {
      token := Some(value);
    }

    /** `localStorage.removeItem('authToken')`: idempotent. */
    method Clear()
      modifies this`token
      ensures token == None
    {
      token := None;
    }

    /** `if (savedToken)`: a stored empty string is falsy and counts as no token. */
    predicate HasToken()
      reads this
      ensures HasToken() ==> token.Some? && |token.value| > 0
      ensures token.None? || token == Some("") ==> !HasToken()
    {
      token.Some? && token.value != ""
    }
  }
}

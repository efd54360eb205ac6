/** The client-side auth store (src/lib/authAdapter.ts): one storage slot that
    holds the serialised auth state, read back with a parse that may fail. */
module AuthAdapter {
  import opened Wrappers

  datatype AuthUser = AuthUser(id: string, email: string, name: string, role: Option<string>)

  /** `expiresAt` is kept as milliseconds since the epoch. */
  datatype AuthState = AuthState(token: string, role: string, user: AuthUser, expiresAt: int)

  /** What the slot can hold: the serialisation of an auth state, or text that
      does not parse (including the empty string, which reads as absent). */
  datatype Stored = Serialized(state: AuthState) | Malformed(text: string)

  class AuthStore {
    /** `localStorage[AUTH_KEY]`. */
    var slot: Option<Stored>

    /** The store over whatever the browser already holds. */
    constructor (initial: Option<Stored>)
      ensures slot == initial
    {
      slot := initial;
    }

    /** `getAuth()`: `None` when nothing is stored or the stored text does not parse. */
    function GetAuth(): (r: Option<AuthState>)
      reads this
      ensures slot.None? ==> r.None?
      ensures slot.Some? && slot.value.Malformed? ==> r.None?
      ensures r.Some? <==> slot.Some? && slot.value.Serialized?
      ensures r.Some? ==> slot == Some(Serialized(r.value))
    {
      match slot
      case None => None
      case Some(Malformed(_)) => None
      case Some(Serialized(a)) => Some(a)
    }

    /** `getToken()`: absent exactly when `getAuth()` is. */
    function GetToken(): (r: Option<string>)
      reads this
      ensures r.None? <==> GetAuth().None?
      ensures r.Some? ==> r.value == GetAuth().value.token
    {
      match GetAuth()
      case None => None
      case Some(a) => Some(a.token)
    }

    /** `getRole()`: absent exactly when `getAuth()` is. */
    function GetRole(): (r: Option<string>)
      reads this
      ensures r.None? <==> GetAuth().None?
      ensures r.Some? ==> r.value == GetAuth().value.role
    {
      match GetAuth()
      case None => None
      case Some(a) => Some(a.role)
    }

    /** `isAuthenticated()` at clock reading `now`: a readable state whose expiry
        lies strictly after `now`. */
    function IsAuthenticated(now: int): (r: bool)
      reads this
      ensures r <==> GetAuth().Some? && now < GetAuth().value.expiresAt
      ensures GetAuth().Some? && now == GetAuth().value.expiresAt ==> !r
    {
      match GetAuth()
      case None => false
      case Some(a) => now < a.expiresAt
    }

    /** `setAuth(a)`. */
    method SetAuth(a: AuthState)
      modifies this
      ensures slot == Some(Serialized(a))
      ensures GetAuth() == Some(a) && GetToken() == Some(a.token) && GetRole() == Some(a.role)
    {
      slot := Some(Serialized(a));
    }

    /** `clearAuth()`. */
    method ClearAuth()
      modifies this
      ensures slot == None
      ensures GetAuth() == None && GetToken() == None && GetRole() == None
      ensures forall now :: !IsAuthenticated(now)
    {
      slot := None;
    }
  }

  /** Authentication is monotone in time: once expired, a state stays expired. */
  lemma ExpiryIsFinal(store: AuthStore, t1: int, t2: int)
    requires t1 <= t2 && !store.IsAuthenticated(t1)
    ensures !store.IsAuthenticated(t2)
  {
  }
}

/**
 * The session store: who is logged in.  It holds a bearer token and the
 * professional's profile, mirrors both into the storage keys `token` and
 * `professional`, and restores them from storage once at start-up,
 * discarding a stored profile that does not parse.
 *
 * The pure functions `AfterSetAuth`, `AfterLogout` and `AfterLoad` give
 * each operation's effect on the state and on storage; the class
 * `AuthStore` performs the operations step by step and is proved to have
 * exactly those effects.
 */
module AuthStore {
  import opened Wrappers
  import opened Entities
  import opened Codec
  import opened Storage

  const TokenKey: string := "token"
  const ProfessionalKey: string := "professional"

  /** The store's state. */
  datatype Session = Session(
    token: Option<string>,
    professional: Option<Professional>,
    isAuthenticated: bool,
    isInitialized: bool)

  /** The state before storage has been read: logged out, not yet initialised. */
  const InitialSession: Session := Session(None, None, false, false)

  /** The flag agrees with the values: authenticated exactly when a token and a profile are held. */
  predicate Consistent(s: Session) {
    s.isAuthenticated <==> s.token.Some? && s.professional.Some?
  }

  /** Every storage key other than the two session keys reads the same in `a` and `b`. */
  ghost predicate OthersUnchanged(a: map<string, string>, b: map<string, string>) {
    forall k :: k != TokenKey && k != ProfessionalKey ==> Read(a, k) == Read(b, k)
  }

  /** The store's state together with the contents of storage. */
  datatype Store = Store(session: Session, items: map<string, string>)

  /** `setAuth(token, professional)`: log in and persist both values. */
  function AfterSetAuth(w: Store, token: string, p: Professional): (r: Store)
    ensures Consistent(r.session) && r.session.isAuthenticated
    ensures r.session.token == Some(token) && r.session.professional == Some(p)
    ensures r.session.isInitialized == w.session.isInitialized
    ensures Read(r.items, TokenKey) == Some(token)
    ensures ProfessionalKey in r.items && ParseProfessional(r.items[ProfessionalKey]) == Some(p)
    ensures OthersUnchanged(r.items, w.items)
  {
    ParseSerializeProfessional(p);
    Store(
      w.session.(token := Some(token), professional := Some(p), isAuthenticated := true),
      w.items[TokenKey := token][ProfessionalKey := SerializeProfessional(p)])
  }

  /** `logout()`: forget the session and remove both keys. */
  function AfterLogout(w: Store): (r: Store)
    ensures Consistent(r.session) && !r.session.isAuthenticated
    ensures r.session.token.None? && r.session.professional.None?
    ensures r.session.isInitialized == w.session.isInitialized
    ensures TokenKey !in r.items && ProfessionalKey !in r.items
    ensures OthersUnchanged(r.items, w.items)
  {
    Store(Session(None, None, false, w.session.isInitialized), w.items - {TokenKey, ProfessionalKey})
  }

  /** Both keys are stored and neither value is the empty string (both are truthy). */
  predicate HasStoredSession(items: map<string, string>) {
    TokenKey in items && items[TokenKey] != "" && ProfessionalKey in items && items[ProfessionalKey] != ""
  }

  /** The stored session, present and with a profile that parses. */
  predicate HasValidStoredSession(items: map<string, string>) {
    HasStoredSession(items) && ParseProfessional(items[ProfessionalKey]).Some?
  }

  /**
   * `loadFromStorage()`: adopt a stored session whose profile parses;
   * remove both keys when the profile does not parse; otherwise end logged
   * out without touching storage.  The store is initialised in every case.
   */
  function AfterLoad(w: Store): (r: Store)
    ensures Consistent(r.session) && r.session.isInitialized
    ensures r.session.isAuthenticated <==> HasValidStoredSession(w.items)
    ensures !r.session.isAuthenticated ==> r.session.token.None? && r.session.professional.None?
    ensures r.session.isAuthenticated ==>
      r.session.token == Some(w.items[TokenKey]) &&
      r.session.professional == ParseProfessional(w.items[ProfessionalKey])
    ensures HasStoredSession(w.items) && !HasValidStoredSession(w.items) ==>
      r.items == w.items - {TokenKey, ProfessionalKey}
    ensures !(HasStoredSession(w.items) && !HasValidStoredSession(w.items)) ==> r.items == w.items
  {
    var token := Read(w.items, TokenKey);
    var professionalStr := Read(w.items, ProfessionalKey);
    if token.Some? && token.value != "" && professionalStr.Some? && professionalStr.value != "" then
      match ParseProfessional(professionalStr.value)
      case Some(p) => Store(Session(token, Some(p), true, true), w.items)
      case None => Store(Session(None, None, false, true), w.items - {TokenKey, ProfessionalKey})
    else
      Store(Session(None, None, false, true), w.items)
  }

  /**
   * Logging in and then reloading the application restores the same
   * session, provided the token is non-empty; an empty token is not
   * restored.  Either way storage is left as `setAuth` wrote it.
   */
  lemma ReloadAfterSetAuth(w: Store, token: string, p: Professional, start: Session)
    ensures var stored := AfterSetAuth(w, token, p).items;
      var r := AfterLoad(Store(start, stored));
      r.items == stored &&
      (r.session.isAuthenticated <==> token != "") &&
      (token != "" ==> r.session == Session(Some(token), Some(p), true, true))
  {
    var stored := AfterSetAuth(w, token, p).items;
    assert ProfessionalKey in stored && stored[ProfessionalKey] == SerializeProfessional(p);
  }

  /** After logging out, reloading the application finds no session. */
  lemma ReloadAfterLogout(w: Store, start: Session)
    ensures AfterLoad(Store(start, AfterLogout(w).items)) ==
      Store(Session(None, None, false, true), AfterLogout(w).items)
  {
  }

  /** Loading twice is loading once: the first load leaves storage in a state the second accepts as it is. */
  lemma LoadIdempotent(w: Store)
    ensures AfterLoad(AfterLoad(w)) == AfterLoad(w)
  {
  }

  /** The session store of the application. */
  class AuthStore {
    var token: Option<string>
    var professional: Option<Professional>
    var isAuthenticated: bool
    var isInitialized: bool
    const storage: LocalStorage

    /** The state and the contents of storage, as one value. */
    function Current(): Store
      reads this, storage
    {
      Store(Session(token, professional, isAuthenticated, isInitialized), storage.items)
    }

    predicate Valid()
      reads this
    {
      Consistent(Session(token, professional, isAuthenticated, isInitialized))
    }

    /** The store at start-up: logged out and not initialised; storage is not read yet. */
    constructor (storage: LocalStorage)
      ensures this.storage == storage && Valid()
      ensures Current() == Store(InitialSession, storage.items)
    {
      this.storage := storage;
      token := None;
      professional := None;
      isAuthenticated := false;
      isInitialized := false;
    }

    method SetAuth(token: string, p: Professional)
      modifies this, storage
      ensures Valid() && Current() == AfterSetAuth(old(Current()), token, p)
    {
      storage.SetItem(TokenKey, token);
      storage.SetItem(ProfessionalKey, SerializeProfessional(p));
      this.token, professional, isAuthenticated := Some(token), Some(p), true;
    }

    method Logout()
      modifies this, storage
      ensures Valid() && Current() == AfterLogout(old(Current()))
    {
      storage.RemoveItem(TokenKey);
      storage.RemoveItem(ProfessionalKey);
      token, professional, isAuthenticated := None, None, false;
    }

    method LoadFromStorage()
      modifies this, storage
      ensures Valid() && Current() == AfterLoad(old(Current()))
    {
      var t := storage.GetItem(TokenKey);
      var professionalStr := storage.GetItem(ProfessionalKey);
      if t.Some? && t.value != "" && professionalStr.Some? && professionalStr.value != "" {
        var parsed := ParseProfessional(professionalStr.value);
        if parsed.Some? {
          token, professional, isAuthenticated, isInitialized := t, parsed, true, true;
        } else {
          storage.RemoveItem(TokenKey);
          storage.RemoveItem(ProfessionalKey);
          token, professional, isAuthenticated, isInitialized := None, None, false, true;
        }
      } else {
        token, professional, isAuthenticated, isInitialized := None, None, false, true;
      }
    }
  }
}

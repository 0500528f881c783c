/** The request handlers of the passkey server (server/src/handlers.rs): user
    registration, logout, and the two two-step WebAuthn ceremonies
    (registration and authentication), each a start step that parks the
    engine's ceremony state in the caller's session and a finish step that
    reads it back.

    The WebAuthn engine is opaque: each of its four calls is a function
    parameter of the handler that makes it, so two requests may see different
    behaviour (the engine's randomness). A failed `unwrap()` is a panic of the
    request; here it is an `Err` outcome, and every such failure happens before
    the handler has changed anything. */
module Handlers {
  import opened Wrappers
  import opened Users

  /** Session fields under which the ceremony states are kept. */
  const RegistrationStateField := "passkey_registration_state"
  const AuthenticationStateField := "passkey_authentication_state"

  /** Opaque values produced and consumed by the WebAuthn engine. */
  type CreationChallengeResponse
  type RequestChallengeResponse
  type PasskeyRegistration
  type PasskeyAuthentication
  type RegisterPublicKeyCredential
  type PublicKeyCredential
  type WebauthnError

  /** What a successful authentication check reports: the credential that signed. */
  datatype AuthenticationResult = AuthenticationResult(credId: CredentialId)

  /** The engine's four calls. */
  type StartRegistration =
    (Uuid, string, string, Option<seq<CredentialId>>) -> Result<(CreationChallengeResponse, PasskeyRegistration), WebauthnError>
  type FinishRegistration =
    (RegisterPublicKeyCredential, PasskeyRegistration) -> Result<Passkey, WebauthnError>
  type StartAuthentication =
    seq<Passkey> -> Result<(RequestChallengeResponse, PasskeyAuthentication), WebauthnError>
  type FinishAuthentication =
    (PublicKeyCredential, PasskeyAuthentication) -> Result<AuthenticationResult, WebauthnError>

  /** `fetch_user_by_email`: called by the authentication start, but it is not
      part of this model, so it stays an arbitrary lookup of the repository. */
  type EmailLookup = (UserRepositoryBody, string) -> Option<User>

  /** A value kept in a request's session: the state of one ceremony kind. */
  datatype SessionValue =
    | RegistrationState(registration: PasskeyRegistration)
    | AuthenticationState(authentication: PasskeyAuthentication)

  /** The responses a handler returns when it does not panic. */
  datatype Response =
    | Created
    | Success
    | NotFound
    | CreationChallenge(ccr: CreationChallengeResponse)
    | RequestChallenge(rcr: RequestChallengeResponse)

  /** Why a handler panicked. */
  datatype Panic =
    | NoIdentity               // no logged-in identity
    | UnknownUser              // the identity's user is not in the repository
    | NoUserForEmail           // fetch_user_by_email found nobody
    | CeremonyNotStarted       // the session has no state for the ceremony
    | UnreadableCeremonyState  // the session field holds the other kind of state
    | EngineFailed(error: WebauthnError)

  /** The caller's session fields, as the handlers read and write them. */
  class Session {
    var fields: map<string, SessionValue>

    constructor (initial: map<string, SessionValue>)
      ensures fields == initial
    {
      fields := initial;
    }
  }

  /** The identity the caller is logged in as, if any. */
  class Identity {
    var id: Option<Uuid>

    constructor (initial: Option<Uuid>)
      ensures id == initial
    {
      id := initial;
    }
  }

  /** The server-wide state the handlers share. */
  class Application {
    const userRepository: UserRepository

    constructor ()
      ensures fresh(userRepository)
      ensures userRepository.Valid() && userRepository.body == EmptyBody()
    {
      userRepository := new UserRepository();
    }
  }

  /** The exclusion list handed to the engine when a registration starts:
      none when the user has no passkey, exactly that passkey's credential id
      otherwise. */
  function ExcludeCredentials(user: User): (r: Option<seq<CredentialId>>)
    ensures r.None? <==> user.passkey.None?
    ensures r.Some? ==> r.value == [user.passkey.value.credId]
  {
    match user.passkey
    case None => None
    case Some(p) => Some([p.credId])
  }

  /** The allow list handed to the engine when an authentication starts: at
      most one passkey, and exactly the user's passkey when there is one. */
  function AllowCredentials(user: User): (r: seq<Passkey>)
    ensures |r| <= 1
    ensures r == [] <==> user.passkey.None?
    ensures forall p :: p in r <==> user.passkey == Some(p)
  {
    match user.passkey
    case None => []
    case Some(p) => [p]
  }

  /** Reading the registration state from the session fields: absent, of the
      wrong kind (a deserialisation error), or the stored state. */
  function RegistrationStateIn(fields: map<string, SessionValue>): (r: Result<PasskeyRegistration, Panic>)
    ensures r.Err? <==> RegistrationStateField !in fields || !fields[RegistrationStateField].RegistrationState?
    ensures r.Err? ==> r.error == (if RegistrationStateField in fields then UnreadableCeremonyState else CeremonyNotStarted)
    ensures r.Ok? ==> fields[RegistrationStateField] == RegistrationState(r.value)
  {
    if RegistrationStateField !in fields then Err(CeremonyNotStarted)
    else match fields[RegistrationStateField]
      case RegistrationState(s) => Ok(s)
      case AuthenticationState(_) => Err(UnreadableCeremonyState)
  }

  /** Reading the authentication state from the session fields. */
  function AuthenticationStateIn(fields: map<string, SessionValue>): (r: Result<PasskeyAuthentication, Panic>)
    ensures r.Err? <==> AuthenticationStateField !in fields || !fields[AuthenticationStateField].AuthenticationState?
    ensures r.Err? ==> r.error == (if AuthenticationStateField in fields then UnreadableCeremonyState else CeremonyNotStarted)
    ensures r.Ok? ==> fields[AuthenticationStateField] == AuthenticationState(r.value)
  {
    if AuthenticationStateField !in fields then Err(CeremonyNotStarted)
    else match fields[AuthenticationStateField]
      case AuthenticationState(s) => Ok(s)
      case RegistrationState(_) => Err(UnreadableCeremonyState)
  }

  /** POST /users/register: creates a passkey-less user with the new id
      `newId` (drawn at random; a collision with an existing id is not checked
      and would replace that user), saves it and logs the caller in as it. */
  method RegisterUser(app: Application, identity: Identity, email: string, newId: Uuid) returns (r: Response)
    requires app.userRepository.Valid()
    modifies app.userRepository, identity
    ensures app.userRepository.Valid()
    ensures app.userRepository.body == old(app.userRepository.body).Saved(User.Create(newId, email))
    ensures app.userRepository.body.FetchUser(newId) == Some(User.Create(newId, email))
    ensures identity.id == Some(newId)
    ensures r == Created
  {
    var user := User.Create(newId, email);
    var userId := user.id;
    app.userRepository.SaveUser(user);
    identity.id := Some(userId);
    r := Created;
  }

  /** POST /passkey/register/start: for the logged-in user, asks the engine for
      a registration challenge (excluding the user's current passkey) and
      keeps the engine's state in the session, replacing any earlier one. */
  method StartPasskeyRegistration(app: Application, session: Session, identity: Identity, start: StartRegistration)
    returns (r: Result<Response, Panic>)
    modifies session
    ensures r.Err? ==> session.fields == old(session.fields)
    ensures match identity.id
      case None => r == Err(NoIdentity)
      case Some(uid) =>
        match app.userRepository.body.FetchUser(uid)
        case None => r == Err(UnknownUser)
        case Some(user) =>
          match start(user.id, user.email, user.email, ExcludeCredentials(user))
          case Err(e) => r == Err(EngineFailed(e))
          case Ok((ccr, state)) =>
            && r == Ok(CreationChallenge(ccr))
            && session.fields == old(session.fields)[RegistrationStateField := RegistrationState(state)]
            && RegistrationStateIn(session.fields) == Ok(state)
  {
    if identity.id.None? {
      return Err(NoIdentity);
    }
    var userId := identity.id.value;
    var found := app.userRepository.FetchUser(userId);
    if found.None? {
      return Err(UnknownUser);
    }
    var user := found.value;
    var excludeCredentials := ExcludeCredentials(user);
    var started := start(user.id, user.email, user.email, excludeCredentials);
    if started.Err? {
      return Err(EngineFailed(started.error));
    }
    var (ccr, state) := started.value;
    session.fields := session.fields[RegistrationStateField := RegistrationState(state)];
    r := Ok(CreationChallenge(ccr));
  }

  /** POST /passkey/register/finish: checks the client's response against the
      registration state in the session; on success attaches the new passkey
      to the logged-in user, saves the user and only then removes the state.
      Any failure, a rejected response included, leaves the session and the
      repository as they were, so the state stays for another attempt. */
  method FinishPasskeyRegistration(
    app: Application, session: Session, identity: Identity,
    req: RegisterPublicKeyCredential, finish: FinishRegistration)
    returns (r: Result<Response, Panic>)
    requires app.userRepository.Valid()
    modifies session, app.userRepository
    ensures app.userRepository.Valid()
    ensures r.Err? ==> session.fields == old(session.fields) && app.userRepository.body == old(app.userRepository.body)
    ensures r.Ok? ==> r.value == Created && RegistrationStateField !in session.fields
    ensures match identity.id
      case None => r == Err(NoIdentity)
      case Some(uid) =>
        match old(app.userRepository.body).FetchUser(uid)
        case None => r == Err(UnknownUser)
        case Some(user) =>
          match RegistrationStateIn(old(session.fields))
          case Err(p) => r == Err(p)
          case Ok(state) =>
            match finish(req, state)
            case Err(e) => r == Err(EngineFailed(e))
            case Ok(passkey) =>
              && r == Ok(Created)
              && app.userRepository.body == old(app.userRepository.body).Saved(user.UpdatePasskey(passkey))
              && app.userRepository.body.FetchUserByPasskey(passkey.credId) == Some(user.UpdatePasskey(passkey))
              && session.fields == old(session.fields) - {RegistrationStateField}
  {
    if identity.id.None? {
      return Err(NoIdentity);
    }
    var userId := identity.id.value;
    var found := app.userRepository.FetchUser(userId);
    if found.None? {
      return Err(UnknownUser);
    }
    var user := found.value;
    var stored := RegistrationStateIn(session.fields);
    if stored.Err? {
      return Err(stored.error);
    }
    var state := stored.value;
    var finished := finish(req, state);
    if finished.Err? {
      return Err(EngineFailed(finished.error));
    }
    var passkey := finished.value;
    user := user.UpdatePasskey(passkey);
    app.userRepository.SaveUser(user);
    session.fields := session.fields - {RegistrationStateField};
    r := Ok(Created);
  }

  /** POST /logout: forgets the caller's identity. A caller who is not logged
      in is turned away by the identity extractor before the handler runs. */
  method Logout(identity: Identity) returns (r: Result<Response, Panic>)
    modifies identity
    ensures old(identity.id).None? ==> r == Err(NoIdentity) && identity.id == old(identity.id)
    ensures old(identity.id).Some? ==> r == Ok(Success) && identity.id.None?
  {
    if identity.id.None? {
      return Err(NoIdentity);
    }
    identity.id := None;
    r := Ok(Success);
  }

  /** POST /passkey/authenticate/start: looks the user up by email, asks the
      engine for a challenge allowing exactly the user's passkey (if any) and
      keeps the engine's state in the session, replacing any earlier one. */
  method StartPasskeyAuthentication(
    app: Application, session: Session, email: string,
    fetchUserByEmail: EmailLookup, start: StartAuthentication)
    returns (r: Result<Response, Panic>)
    modifies session
    ensures r.Err? ==> session.fields == old(session.fields)
    ensures match fetchUserByEmail(app.userRepository.body, email)
      case None => r == Err(NoUserForEmail)
      case Some(user) =>
        match start(AllowCredentials(user))
        case Err(e) => r == Err(EngineFailed(e))
        case Ok((rcr, state)) =>
          && r == Ok(RequestChallenge(rcr))
          && session.fields == old(session.fields)[AuthenticationStateField := AuthenticationState(state)]
          && AuthenticationStateIn(session.fields) == Ok(state)
  {
    var found := fetchUserByEmail(app.userRepository.body, email);
    if found.None? {
      return Err(NoUserForEmail);
    }
    var user := found.value;
    var allowCredentials := AllowCredentials(user);
    var started := start(allowCredentials);
    if started.Err? {
      return Err(EngineFailed(started.error));
    }
    var (rcr, state) := started.value;
    session.fields := session.fields[AuthenticationStateField := AuthenticationState(state)];
    r := Ok(RequestChallenge(rcr));
  }

  /** POST /passkey/authenticate/finish: checks the client's assertion against
      the authentication state in the session and, when the credential that
      signed is indexed, logs the caller in as its user; an unindexed
      credential gets NotFound and leaves the identity alone. The session is
      never changed: the state is not consumed, not even on success. */
  method FinishPasskeyAuthentication(
    app: Application, session: Session, identity: Identity,
    req: PublicKeyCredential, finish: FinishAuthentication)
    returns (r: Result<Response, Panic>)
    requires app.userRepository.Valid()
    modifies identity
    ensures session.fields == old(session.fields)
    ensures r != Ok(Success) ==> identity.id == old(identity.id)
    ensures r == Ok(Success) ==> identity.id.Some? && app.userRepository.body.FetchUser(identity.id.value).Some?
    ensures match AuthenticationStateIn(session.fields)
      case Err(p) => r == Err(p)
      case Ok(state) =>
        match finish(req, state)
        case Err(e) => r == Err(EngineFailed(e))
        case Ok(result) =>
          match app.userRepository.body.FetchUserByPasskey(result.credId)
          case None => r == Ok(NotFound)
          case Some(user) => r == Ok(Success) && identity.id == Some(user.id)
  {
    var stored := AuthenticationStateIn(session.fields);
    if stored.Err? {
      return Err(stored.error);
    }
    var state := stored.value;
    var finished := finish(req, state);
    if finished.Err? {
      return Err(EngineFailed(finished.error));
    }
    var result := finished.value;
    var found := app.userRepository.FetchUserByPasskey(result.credId);
    if found.Some? {
      identity.id := Some(found.value.id);
      r := Ok(Success);
    } else {
      r := Ok(NotFound);
    }
  }
}

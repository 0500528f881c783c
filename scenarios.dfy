/** Sequences of requests against the handlers, proved from the handlers'
    contracts alone: what a client observes across the two steps of a
    ceremony, and what a replayed finish step does. */
module Scenarios {
  import opened Wrappers
  import opened Users
  import opened Handlers

  /** A new user registers, starts a passkey registration (with no exclusion
      list, having no passkey yet) and finishes it: when every step succeeds,
      the passkey the engine returned resolves to that user. */
  method RegisterAndEnrol(
    app: Application, session: Session, identity: Identity,
    email: string, newId: Uuid,
    start: StartRegistration, finish: FinishRegistration, req: RegisterPublicKeyCredential)
    returns (started: Result<Response, Panic>, finished: Result<Response, Panic>)
    requires app.userRepository.Valid()
    modifies app.userRepository, session, identity
    ensures app.userRepository.Valid()
    ensures identity.id == Some(newId)
    ensures started.Ok? <==> start(newId, email, email, None).Ok?
    ensures started.Ok? && finished.Ok? ==>
              match finish(req, start(newId, email, email, None).value.1)
              case Err(_) => false
              case Ok(p) =>
                && app.userRepository.body.FetchUserByPasskey(p.credId) == Some(User(newId, email, Some(p)))
                && RegistrationStateField !in session.fields
  {
    var created := RegisterUser(app, identity, email, newId);
    started := StartPasskeyRegistration(app, session, identity, start);
    finished := FinishPasskeyRegistration(app, session, identity, req, finish);
  }

  /** Finishing a registration twice in one session: once the first finish
      has succeeded, the second fails because the state was consumed. */
  method ReplayRegistrationFinish(
    app: Application, session: Session, identity: Identity,
    req1: RegisterPublicKeyCredential, finish1: FinishRegistration,
    req2: RegisterPublicKeyCredential, finish2: FinishRegistration)
    returns (first: Result<Response, Panic>, second: Result<Response, Panic>)
    requires app.userRepository.Valid()
    modifies app.userRepository, session
    ensures first.Ok? ==> second == Err(CeremonyNotStarted)
    ensures first.Err? && first.error.EngineFailed? ==>
              RegistrationStateIn(old(session.fields)).Ok? && second != Err(CeremonyNotStarted)
  {
    first := FinishPasskeyRegistration(app, session, identity, req1, finish1);
    second := FinishPasskeyRegistration(app, session, identity, req2, finish2);
  }

  /** Finishing an authentication twice in one session: the state is not
      consumed, so the second finish reaches the engine again instead of
      being refused as a ceremony that was never started. */
  method ReplayAuthenticationFinish(
    app: Application, session: Session, identity: Identity,
    req1: PublicKeyCredential, finish1: FinishAuthentication,
    req2: PublicKeyCredential, finish2: FinishAuthentication)
    returns (first: Result<Response, Panic>, second: Result<Response, Panic>)
    requires app.userRepository.Valid()
    modifies identity
    ensures session.fields == old(session.fields)
    ensures first.Ok? ==> second.Ok? || second.error.EngineFailed?
    ensures match AuthenticationStateIn(session.fields)
      case Err(p) => first == second == Err(p)
      case Ok(state) => finish2(req2, state) == finish1(req1, state) ==> second == first
  {
    first := FinishPasskeyAuthentication(app, session, identity, req1, finish1);
    second := FinishPasskeyAuthentication(app, session, identity, req2, finish2);
  }
}

/**
  The relying-party ceremonies of W3C Web Authentication Level 2
  (libraries/webauthn.ts): registration begin and complete (section 7.1 of
  the recommendation) and authentication begin and complete (section 7.2).

  The server library's collaborators (the base64url codec and the two
  response verifiers) are the fields of a `Library` value; the challenge the
  library generates and the session id a new session would get are
  parameters.
 */
module WebAuthn {
  import opened Wrappers
  import opened UserStore

  type Bytes = seq<bv8>

  /** The relying party's web origin, a fixed deployment constant. */
  const ExpectedOrigin: string
  /** The relying party id, a fixed deployment constant. */
  const RpId: string

  const RpName: string := "SimpleWebAuthn Example"
  /** Ceremony timeout in milliseconds. */
  const Timeout: nat := 60000
  /** COSE algorithm identifiers of ES256 and RS256. */
  const SupportedAlgorithmIDs: seq<int> := [-7, -257]

  const UserAlreadyExists: string := "User already exists"
  const UserDoesNotExist: string := "User does not exist"
  const SessionExpired: string := "Session expired"
  const RegistrationFailed: string := "Registration failed"
  const AuthenticatorNotRegistered: string := "Authenticator is not registered with this site"

  /** The `{ success, message?, data? }` object every ceremony returns. */
  datatype Reply<T> = Reply(success: bool, message: Option<string>, data: Option<T>)

  /** `{ success: false, message }`. */
  function Refusal<T>(message: string): Reply<T> {
    Reply(false, Some(message), None)
  }

  /** A public-key credential descriptor: the credential id, its type and transport hints. */
  datatype CredentialDescriptor = CredentialDescriptor(
    id: Bytes,
    credentialType: string,
    transports: Option<seq<string>>)

  /** What the ceremony asks the library to put into the registration options. */
  datatype RegistrationOptionsOpts = RegistrationOptionsOpts(
    rpName: string,
    rpID: string,
    userID: string,
    userName: string,
    timeout: nat,
    attestationType: string,
    excludeCredentials: seq<CredentialDescriptor>,
    residentKey: string,
    supportedAlgorithmIDs: seq<int>)

  /** The registration options returned to the client: the requested options and the generated challenge. */
  datatype RegistrationOptions = RegistrationOptions(opts: RegistrationOptionsOpts, challenge: string)

  /** What the ceremony asks the library to put into the authentication options. */
  datatype AuthenticationOptionsOpts = AuthenticationOptionsOpts(
    timeout: nat,
    allowCredentials: seq<CredentialDescriptor>,
    userVerification: string,
    rpID: string)

  /** The authentication options returned to the client: the requested options and the generated challenge. */
  datatype AuthenticationOptions = AuthenticationOptions(opts: AuthenticationOptionsOpts, challenge: string)

  /** The client's attestation response; only the transports are read by the ceremony itself. */
  datatype RegistrationResponse = RegistrationResponse(
    id: string,
    rawId: string,
    clientDataJSON: string,
    attestationObject: string,
    transports: Option<seq<string>>)

  /** The client's assertion response; only `rawId` is read by the ceremony itself. */
  datatype AuthenticationResponse = AuthenticationResponse(
    id: string,
    rawId: string,
    clientDataJSON: string,
    authenticatorData: string,
    signature: string,
    userHandle: Option<string>)

  datatype VerifyRegistrationOpts = VerifyRegistrationOpts(
    response: RegistrationResponse,
    expectedChallenge: string,
    expectedOrigin: string,
    expectedRPID: string,
    requireUserVerification: bool)

  /** What the verifier extracted from a verified attestation. */
  datatype RegistrationInfo = RegistrationInfo(credentialPublicKey: Bytes, credentialID: Bytes, counter: nat)

  datatype RegistrationVerification = RegistrationVerification(
    verified: bool,
    registrationInfo: Option<RegistrationInfo>)

  /** A stored device handed to the assertion verifier, with its id and key decoded. */
  datatype AuthenticatorDevice = AuthenticatorDevice(
    credentialID: Bytes,
    credentialPublicKey: Bytes,
    counter: nat,
    transports: Option<seq<string>>)

  datatype VerifyAuthenticationOpts = VerifyAuthenticationOpts(
    response: AuthenticationResponse,
    expectedChallenge: string,
    expectedOrigin: string,
    expectedRPID: string,
    authenticator: AuthenticatorDevice,
    requireUserVerification: bool)

  /** The verifier's answer: whether the assertion holds, and the counter the authenticator reported. */
  datatype AuthenticationVerification = AuthenticationVerification(verified: bool, newCounter: nat)

  /**
    The server library, left abstract: base64url encoding and decoding, and
    the two response verifiers, each of which either answers or throws.
   */
  datatype Library = Library(
    fromBuffer: Bytes -> string,
    toBuffer: string -> Bytes,
    verifyRegistrationResponse: VerifyRegistrationOpts -> Result<RegistrationVerification, string>,
    verifyAuthenticationResponse: VerifyAuthenticationOpts -> Result<AuthenticationVerification, string>)

  /**
    The options record built from the email at registration begin: the user
    is named by the email, no credential is excluded, no resident key is
    asked for, no attestation is wanted and ES256 and RS256 are accepted.
   */
  function RegistrationOpts(email: string): (o: RegistrationOptionsOpts)
    ensures o.userID == email && o.userName == email
    ensures o.rpName == RpName && o.rpID == RpId && o.timeout == 60000
    ensures o.attestationType == "none" && o.excludeCredentials == [] && o.residentKey == "discouraged"
    ensures o.supportedAlgorithmIDs == [-7, -257]
  {
    RegistrationOptionsOpts(
      rpName := RpName,
      rpID := RpId,
      userID := email,
      userName := email,
      timeout := Timeout,
      attestationType := "none",
      excludeCredentials := [],
      residentKey := "discouraged",
      supportedAlgorithmIDs := SupportedAlgorithmIDs)
  }

  /** One descriptor per stored device, in device order, each of type "public-key". */
  function AllowCredentials(devices: seq<UserDevice>, toBuffer: string -> Bytes): (r: seq<CredentialDescriptor>)
    ensures |r| == |devices|
    ensures forall i :: 0 <= i < |devices| ==>
      r[i] == CredentialDescriptor(toBuffer(devices[i].credentialID), "public-key", devices[i].transports)
  {
    if devices == [] then []
    else
      [CredentialDescriptor(toBuffer(devices[0].credentialID), "public-key", devices[0].transports)]
      + AllowCredentials(devices[1..], toBuffer)
  }

  /**
    `devices.find(dev => dev.credentialID === rawId)`: the first stored
    device whose credential id equals `rawId`, or none when no device does.
   */
  function FindDevice(devices: seq<UserDevice>, rawId: string): (r: Option<UserDevice>)
    ensures r.None? <==> forall i :: 0 <= i < |devices| ==> devices[i].credentialID != rawId
    ensures r.Some? ==> exists i :: 0 <= i < |devices| && devices[i] == r.value && IsFirstMatch(devices, rawId, i)
  {
    if devices == [] then None
    else if devices[0].credentialID == rawId then
      assert IsFirstMatch(devices, rawId, 0);
      Some(devices[0])
    else
      var rest := FindDevice(devices[1..], rawId);
      if rest.Some? then
        var i :| 0 <= i < |devices[1..]| && devices[1..][i] == rest.value && IsFirstMatch(devices[1..], rawId, i);
        assert IsFirstMatch(devices, rawId, i + 1);
        rest
      else
        rest
  }

  /** Device `i` carries `rawId` and no device before it does. */
  predicate IsFirstMatch(devices: seq<UserDevice>, rawId: string, i: int) {
    && 0 <= i < |devices|
    && devices[i].credentialID == rawId
    && forall j :: 0 <= j < i ==> devices[j].credentialID != rawId
  }

  /**
    The session guard `!email || !currentChallenge` passes: both are present
    and non-empty. A freshly minted session never passes it.
   */
  predicate CeremonyPending(s: SessionData)
    ensures CeremonyPending(s) ==> s != NoSessionData
  {
    s.email.Some? && s.email.value != "" && s.currentChallenge.Some? && s.currentChallenge.value != ""
  }

  /**
    The device stored for a verified attestation: its id and key are the
    verifier's, base64url-encoded, its counter is the verifier's counter and
    its transports are the ones the client reported.
   */
  function NewDevice(lib: Library, info: RegistrationInfo, response: RegistrationResponse): (d: UserDevice)
    ensures d.credentialID == lib.fromBuffer(info.credentialID)
    ensures d.credentialPublicKey == lib.fromBuffer(info.credentialPublicKey)
    ensures d.counter == info.counter && d.transports == response.transports
  {
    UserDevice(lib.fromBuffer(info.credentialID), lib.fromBuffer(info.credentialPublicKey), info.counter, response.transports)
  }

  /**
    `generateWebAuthnRegistrationOptions`: refuses an email that already has
    a user and changes nothing; otherwise returns the registration options
    with the generated challenge and stores that challenge and the email in
    the caller's session.
   */
  method GenerateRegistrationOptions(st: Store, email: string, challenge: string, freshId: string)
    returns (r: Reply<RegistrationOptions>)
    requires st.Valid()
    modifies st
    ensures st.Valid()
    ensures st.UsersUnchanged()
    ensures old(st.FindUser(email)).Some? ==>
      r == Refusal(UserAlreadyExists) && st.kv == old(st.kv) && st.cookie == old(st.cookie)
    ensures old(st.FindUser(email)).None? ==>
      && r.success && r.message.None? && r.data.Some?
      && r.data.value.challenge == challenge
      && var opts := r.data.value.opts;
      && opts.rpName == RpName && opts.rpID == RpId
      && opts.userID == email && opts.userName == email
      && opts.timeout == 60000 && opts.attestationType == "none"
      && opts.excludeCredentials == [] && opts.residentKey == "discouraged"
      && opts.supportedAlgorithmIDs == [-7, -257]
    ensures old(st.FindUser(email)).None? ==>
      var sid := old(st.CurrentSessionId(freshId));
      && st.cookie == Some(sid)
      && st.kv == old(st.OpenedKv(freshId))[SessionKey(sid) := SessionEntry(SessionData(Some(challenge), Some(email)))]
      && st.GetSession(sid) == Some(SessionData(Some(challenge), Some(email)))
  {
    var user := st.FindUser(email);
    if user.Some? {
      return Refusal(UserAlreadyExists);
    }
    var options := RegistrationOptions(RegistrationOpts(email), challenge);
    st.UpdateCurrentSession(SessionData(Some(options.challenge), Some(email)), freshId);
    r := Reply(true, None, Some(options));
  }

  /**
    `verifyWebAuthnRegistration`: without a pending ceremony in the session
    the answer is "Session expired"; otherwise the attestation is checked
    against the session's challenge, and only a verified one with
    registration info creates the user, with the single new device. The
    session keeps its challenge and email on every path.
   */
  method VerifyRegistration(st: Store, lib: Library, data: RegistrationResponse, freshId: string)
    returns (r: Result<Reply<()>, string>)
    requires st.Valid()
    modifies st
    ensures st.Valid()
    ensures st.cookie == Some(old(st.CurrentSessionId(freshId)))
    ensures old(st.LiveCookie()) ==> st.SessionsUnchanged()
    ensures st.GetSession(old(st.CurrentSessionId(freshId))) == Some(old(st.CurrentSessionData(freshId)))
    ensures !CeremonyPending(old(st.CurrentSessionData(freshId))) ==>
      r == Success(Refusal(SessionExpired)) && st.kv == old(st.OpenedKv(freshId))
    ensures
      var s := old(st.CurrentSessionData(freshId));
      CeremonyPending(s) ==>
        var v := lib.verifyRegistrationResponse(
          VerifyRegistrationOpts(data, s.currentChallenge.value, ExpectedOrigin, RpId, false));
        && old(st.LiveCookie())
        && (v.Failure? ==> r == Failure(v.error) && st.kv == old(st.kv))
        && (v.Success? && !(v.value.verified && v.value.registrationInfo.Some?) ==>
              r == Success(Refusal(RegistrationFailed)) && st.kv == old(st.kv))
        && (v.Success? && v.value.verified && v.value.registrationInfo.Some? ==>
              var email := s.email.value;
              if old(st.FindUser(email)).Some? then
                r == Success(Refusal(UserAlreadyExists)) && st.kv == old(st.kv)
              else
                && r == Success(Reply(true, None, None))
                && st.kv == old(st.kv)[UserKey(email) :=
                     UserEntry(User(email, [NewDevice(lib, v.value.registrationInfo.value, data)]))])
  {
    var sessionId, session := st.GetCurrentSession(freshId);
    if !CeremonyPending(session) {
      return Success(Refusal(SessionExpired));
    }
    var email, expectedChallenge := session.email.value, session.currentChallenge.value;
    var opts := VerifyRegistrationOpts(data, expectedChallenge, ExpectedOrigin, RpId, false);
    var verification := lib.verifyRegistrationResponse(opts);
    if verification.Failure? {
      return Failure(verification.error);
    }
    if !verification.value.verified || verification.value.registrationInfo.None? {
      return Success(Refusal(RegistrationFailed));
    }
    var newDevice := NewDevice(lib, verification.value.registrationInfo.value, data);

    ghost var before := st.kv;
    st.UpdateCurrentSession(NoSessionData, freshId);
    assert st.kv == before[SessionKey(sessionId) := before[SessionKey(sessionId)]];

    var created := st.CreateUser(email, [newDevice]);
    if created.Failure? {
      return Success(Refusal(UserAlreadyExists));
    }
    r := Success(Reply(true, None, None));
  }

  /**
    `generateWebAuthnLoginOptions`: refuses an unknown email and changes
    nothing; otherwise returns authentication options that allow exactly
    the user's stored devices and stores the generated challenge and the
    email in the caller's session.
   */
  method GenerateLoginOptions(st: Store, lib: Library, email: string, challenge: string, freshId: string)
    returns (r: Reply<AuthenticationOptions>)
    requires st.Valid()
    modifies st
    ensures st.Valid()
    ensures st.UsersUnchanged()
    ensures old(st.FindUser(email)).None? ==>
      r == Refusal(UserDoesNotExist) && st.kv == old(st.kv) && st.cookie == old(st.cookie)
    ensures old(st.FindUser(email)).Some? ==>
      var devices := old(st.FindUser(email)).value.devices;
      && r.success && r.message.None? && r.data.Some?
      && r.data.value.challenge == challenge
      && r.data.value.opts.timeout == 60000
      && r.data.value.opts.allowCredentials == AllowCredentials(devices, lib.toBuffer)
      && r.data.value.opts.userVerification == "required"
      && r.data.value.opts.rpID == RpId
    ensures old(st.FindUser(email)).Some? ==>
      var sid := old(st.CurrentSessionId(freshId));
      && st.cookie == Some(sid)
      && st.kv == old(st.OpenedKv(freshId))[SessionKey(sid) := SessionEntry(SessionData(Some(challenge), Some(email)))]
      && st.GetSession(sid) == Some(SessionData(Some(challenge), Some(email)))
  {
    var user := st.FindUser(email);
    if user.None? {
      return Refusal(UserDoesNotExist);
    }
    var opts := AuthenticationOptionsOpts(
      timeout := Timeout,
      allowCredentials := AllowCredentials(user.value.devices, lib.toBuffer),
      userVerification := "required",
      rpID := RpId);
    var options := AuthenticationOptions(opts, challenge);
    st.UpdateCurrentSession(SessionData(Some(options.challenge), Some(email)), freshId);
    r := Reply(true, None, Some(options));
  }

  /**
    `verifyWebAuthnLogin`: without a pending ceremony the answer is "Session
    expired"; an unknown user or a `rawId` matching no stored device is
    refused; otherwise the assertion is checked against the session's
    challenge and the first matching device, and the success flag is the
    verifier's answer. The store is left as `getCurrentSession` left it: the
    challenge stays in the session and the device counter is not updated.
   */
  method VerifyLogin(st: Store, lib: Library, data: AuthenticationResponse, freshId: string)
    returns (r: Result<Reply<()>, string>)
    requires st.Valid()
    modifies st
    ensures st.Valid()
    ensures st.cookie == Some(old(st.CurrentSessionId(freshId)))
    ensures st.kv == old(st.OpenedKv(freshId))
    ensures st.UsersUnchanged()
    ensures st.GetSession(old(st.CurrentSessionId(freshId))) == Some(old(st.CurrentSessionData(freshId)))
    ensures !CeremonyPending(old(st.CurrentSessionData(freshId))) ==> r == Success(Refusal(SessionExpired))
    ensures
      var s := old(st.CurrentSessionData(freshId));
      CeremonyPending(s) ==>
        var user := old(st.FindUser(s.email.value));
        && (user.None? ==> r == Success(Refusal(UserDoesNotExist)))
        && (user.Some? && FindDevice(user.value.devices, data.rawId).None? ==>
              r == Success(Refusal(AuthenticatorNotRegistered)))
        && (user.Some? && FindDevice(user.value.devices, data.rawId).Some? ==>
              var device := FindDevice(user.value.devices, data.rawId).value;
              var v := lib.verifyAuthenticationResponse(VerifyAuthenticationOpts(
                data, s.currentChallenge.value, ExpectedOrigin, RpId,
                AuthenticatorDevice(
                  lib.toBuffer(device.credentialID), lib.toBuffer(device.credentialPublicKey),
                  device.counter, device.transports),
                true));
              r == if v.Failure? then Failure(v.error) else Success(Reply(v.value.verified, None, None)))
  {
    var sessionId, session := st.GetCurrentSession(freshId);
    if !CeremonyPending(session) {
      return Success(Refusal(SessionExpired));
    }
    var email, currentChallenge := session.email.value, session.currentChallenge.value;
    var user := st.FindUser(email);
    if user.None? {
      return Success(Refusal(UserDoesNotExist));
    }
    var dbAuthenticator := FindDevice(user.value.devices, data.rawId);
    if dbAuthenticator.None? {
      return Success(Refusal(AuthenticatorNotRegistered));
    }
    var device := dbAuthenticator.value;
    var opts := VerifyAuthenticationOpts(
      data, currentChallenge, ExpectedOrigin, RpId,
      AuthenticatorDevice(
        lib.toBuffer(device.credentialID), lib.toBuffer(device.credentialPublicKey),
        device.counter, device.transports),
      true);
    var verification := lib.verifyAuthenticationResponse(opts);
    if verification.Failure? {
      return Failure(verification.error);
    }

    ghost var before := st.kv;
    st.UpdateCurrentSession(NoSessionData, freshId);
    assert st.kv == before[SessionKey(sessionId) := before[SessionKey(sessionId)]];

    r := Success(Reply(verification.value.verified, None, None));
  }

  /**
    Submitting the same assertion twice in a row gets the same answer both
    times, and the store ends as the first submission found it: nothing
    consumes the challenge, so a replayed assertion is accepted again.
   */
  method LoginReplay(st: Store, lib: Library, data: AuthenticationResponse, freshId: string)
    returns (first: Result<Reply<()>, string>, second: Result<Reply<()>, string>)
    requires st.Valid()
    modifies st
    ensures st.Valid()
    ensures st.kv == old(st.OpenedKv(freshId)) && st.cookie == Some(old(st.CurrentSessionId(freshId)))
    ensures first == second
  {
    first := VerifyLogin(st, lib, data, freshId);
    second := VerifyLogin(st, lib, data, freshId);
  }

  /**
    Submitting the same attestation twice in a row: the second submission is
    checked against the same, still stored, challenge, and when the first
    created the user the second is refused with "User already exists".
   */
  method RegistrationReplay(st: Store, lib: Library, data: RegistrationResponse, freshId: string)
    returns (first: Result<Reply<()>, string>, second: Result<Reply<()>, string>)
    requires st.Valid()
    modifies st
    ensures st.Valid()
    ensures first == Success(Reply(true, None, None)) ==> second == Success(Refusal(UserAlreadyExists))
    ensures first != Success(Reply(true, None, None)) ==> second == first
  {
    first := VerifyRegistration(st, lib, data, freshId);
    second := VerifyRegistration(st, lib, data, freshId);
  }
}

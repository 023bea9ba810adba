# WebAuthn relying-party ceremonies, modelled in Dafny

This project models the server half of a passwordless WebAuthn sign-in. It
follows W3C Web Authentication Level 2, section 7.1 (registering a new
credential) and section 7.2 (verifying an authentication assertion). The
model covers four ceremony steps from `libraries/webauthn.ts`:
- registration begin;
- registration complete;
- login begin;
- login complete.

It also covers the user and session store they rely on, from `libraries/user.ts`.

- `wrappers.dfy` — `Option` (a missing value) and `Result` (a call that
  returns or throws).
- `user.dfy`, module `UserStore` — the single key-value store, class
  `Store`. Users sit under `"nextjs-webauthn-example-user-" + email` and
  sessions under `"nextjs-webauthn-example-session-" + id`. The value of
  the `session-id` cookie is a field of the same class. `Valid()` says that
  user keys hold users, each under its own email, and session keys hold
  sessions. `KeysDisjoint`
  proves that the two prefixes never collide, so session writes never
  change a user and user writes never change a session.
- `webauthn.dfy`, module `WebAuthn` — the four ceremonies as methods on a
  `Store`. The server library is a `Library` value holding four abstract
  functions:
  - base64url `fromBuffer`;
  - base64url `toBuffer`;
  - `verifyRegistrationResponse`;
  - `verifyAuthenticationResponse`.

  Each verifier either answers or throws (`Failure`). The challenge the
  library generates and the id a freshly minted session would get are
  method parameters.

The model follows the code where it departs from the usual reading of the
protocol:
- **The challenge is never consumed.** The completion steps call
  `updateCurrentSession({})`. Spreading an empty object over the old
  session leaves it as it was (`Merge` with `NoSessionData`).
  `VerifyRegistration` and `VerifyLogin` therefore leave the session
  holding its challenge and email on every path. `LoginReplay` shows what
  follows: the same assertion submitted twice gets the same answer twice.
- **The sign counter is not written back after a login.** `VerifyLogin`
  leaves every user record unchanged.
- **A new device's counter is the verifier's counter**, not a constant 0.
- **The session guard is JavaScript truthiness.** An email or challenge
  that is present but empty counts as missing (`CeremonyPending`).

## Model

| member | source | states |
|---|---|---|
| `UserStore.UserKey` | libraries/user.ts:23 | the user key is the user prefix followed by exactly the email, so distinct emails get distinct keys |
| `UserStore.SessionKey` | libraries/user.ts:48 | the session key is the session prefix followed by exactly the id, so distinct ids get distinct keys |
| `UserStore.KeysDisjoint` | libraries/user.ts:5-6 | no user key equals any session key, because the two prefixes differ at index 24 |
| `UserStore.SessionKeyIsNoUserKey` | libraries/user.ts:48-52 | a session key written for any id is no user key of any email |
| `UserStore.Merge` | libraries/user.ts:84 | each field given in the update wins; each omitted field keeps its old value; an empty update returns the old session unchanged |
| `UserStore.Store.constructor` | libraries/user.ts:5-6 | the empty key-value store with no cookie, before any request; it satisfies the store invariant |
| `UserStore.Store.FindUser` | libraries/user.ts:22-26 | returns a record exactly when one is stored under the user prefix plus the email; it is that stored record, and its email is the one looked up |
| `UserStore.Store.GetSession` | libraries/user.ts:47-49 | returns a session exactly when one is stored under the session prefix plus the id, and it is that stored session |
| `UserStore.Store.LiveCookie` | libraries/user.ts:62-65 | holds exactly when the cookie carries a non-empty id and a session is stored under that id's session key |
| `UserStore.Store.CurrentSessionId` | libraries/user.ts:59-70 | the cookie's id when it names a stored session, otherwise the newly minted id |
| `UserStore.Store.CurrentSessionData` | libraries/user.ts:62-71 | the stored session when the cookie names one, otherwise a session with no challenge and no email |
| `UserStore.Store.OpenedKv` | libraries/user.ts:62-74 | opening a session leaves the store unchanged when the cookie names a stored session; it always leaves the current session stored and every user key and record unchanged |
| `UserStore.Store.CreateSession` | libraries/user.ts:51-53 | stores the data under the session key; no user record and not the cookie change |
| `UserStore.Store.CreateUser` | libraries/user.ts:28-40 | an existing record makes it throw "User already exists", with the store unchanged; otherwise it stores `{email, devices}` under the user key and returns it, and no session changes |
| `UserStore.Store.GetCurrentSession` | libraries/user.ts:55-77 | returns the stored session named by the cookie with nothing changed; otherwise it stores an empty session under the fresh id, points the cookie at it and returns it; no user changes |
| `UserStore.Store.UpdateCurrentSession` | libraries/user.ts:79-85 | stores the current session overlaid with the update (`Merge`) under the current id; no user changes |
| `WebAuthn.RegistrationOpts` | libraries/webauthn.ts:37-52 | userID and userName are the email; rp name "SimpleWebAuthn Example" and the rp id; timeout 60000; attestation "none"; no excluded credentials; residentKey "discouraged"; algorithms exactly [-7, -257] |
| `WebAuthn.NewDevice` | libraries/webauthn.ts:103-108 | the stored device's id and key are the verifier's credential id and public key, base64url-encoded; its counter is the verifier's counter; its transports are the response's |
| `WebAuthn.CeremonyPending` | libraries/webauthn.ts:71 | the guard passes only when email and challenge are both present and non-empty, so a freshly minted, empty session never passes it; login completion repeats the same guard at line 161 |
| `WebAuthn.AllowCredentials` | libraries/webauthn.ts:138-142 | one descriptor per stored device, in device order, with that device's decoded id, type "public-key" and that device's transports |
| `WebAuthn.FindDevice` | libraries/webauthn.ts:177-179 | none exactly when no device's credential id equals `rawId`; otherwise the first device whose id does |
| `WebAuthn.GenerateRegistrationOptions` | libraries/webauthn.ts:27-62 | an existing user gives "User already exists" with store and cookie unchanged; otherwise the options carry userID = userName = email, timeout 60000, attestation "none", no excluded credentials, residentKey "discouraged", algorithms [-7, -257] and the generated challenge; the session then holds exactly that challenge and the email; users are unchanged |
| `WebAuthn.VerifyRegistration` | libraries/webauthn.ts:64-124 | with no pending challenge and email it answers "Session expired" and only opens the session; a throwing verifier propagates and a failed one gives "Registration failed", both with the store unchanged; a verified one with an existing user gives "User already exists" with the store unchanged; otherwise it creates exactly the one user with the single encoded device; the session keeps its challenge and email |
| `WebAuthn.GenerateLoginOptions` | libraries/webauthn.ts:126-154 | an unknown email gives "User does not exist" with store and cookie unchanged; otherwise the options have timeout 60000, allow exactly the user's devices (`AllowCredentials`), require user verification and carry the rp id and the generated challenge; the session then holds that challenge and the email |
| `WebAuthn.VerifyLogin` | libraries/webauthn.ts:156-209 | "Session expired", "User does not exist" and "Authenticator is not registered with this site" on the matching guards; otherwise the verifier is called with the session challenge and the first matching device, and its verdict is the success flag; on every path the store is left as opening the session left it, so no user record and no counter changes and the challenge stays |
| `WebAuthn.LoginReplay` | libraries/webauthn.ts:156-209 | two identical login completions in a row return the same result, and the store ends as opening the session left it |
| `WebAuthn.RegistrationReplay` | libraries/webauthn.ts:64-124 | when a registration completion succeeds, an identical second one is refused with "User already exists"; otherwise the second returns what the first did |

## Left out

- The server library internals are not part of this model. That covers challenge generation, client-data
  checks, CBOR/COSE decoding, SHA-256 and ECDSA/RSA signature checks. The two verifiers and the base64url codec
  are abstract functions in `Library`, and the generated challenge is a parameter. Each verifier is a total
  function of its options alone: the model gives it no clock and no library state. `LoginReplay`'s equal
  results and `RegistrationReplay`'s repeated result rest on that.
- How the library renders its options objects into the JSON it returns is left out. The returned options are
  modelled as the requested options plus the generated challenge.
- The storage client is not modelled, and neither are its JSON (de)serialisation and its I/O failures. The
  sessions stored by `createSession` as `JSON.stringify` text are modelled as the session values they encode.
- Cookie and request plumbing is not modelled. The `session-id` cookie is a field that later reads in the same
  call see.
- `Math.random()` session-id minting is not modelled. The minted id is the `freshId` parameter, and the model
  does not assume it is unused.
- `async`/`await` and concurrency are not modelled. In particular, the race between the existence check and the
  write in `createUser` is absent, because the model is sequential.
- The `./constants` module is not part of this model. `ExpectedOrigin` and `RpId` are fixed constants of
  unknown value.
- `WebAuthn.VerifyRegistration`: any exception from `createUser` is caught and reported as "User already
  exists". In the model `createUser` throws only for an existing user, because storage failures are left out.
- The UI in `app/page.tsx` and the browser-side calls are left out.

/**
  The user and session store of the relying party (libraries/user.ts).

  Users and ceremony sessions live side by side in one key-value store; a
  user is kept under `UserPrefix + email`, a session under
  `SessionPrefix + id`. The caller's session is named by the "session-id"
  cookie, which is part of the modelled state.
 */
module UserStore {
  import opened Wrappers

  const UserPrefix: string := "nextjs-webauthn-example-user-"
  const SessionPrefix: string := "nextjs-webauthn-example-session-"

  /** The store key of the user with this email. */
  function UserKey(email: string): (k: string)
    ensures |k| == |UserPrefix| + |email|
    ensures k[..|UserPrefix|] == UserPrefix && k[|UserPrefix|..] == email
  {
    UserPrefix + email
  }

  /** The store key of the session with this id. */
  function SessionKey(id: string): (k: string)
    ensures |k| == |SessionPrefix| + |id|
    ensures k[..|SessionPrefix|] == SessionPrefix && k[|SessionPrefix|..] == id
  {
    SessionPrefix + id
  }

  /** No user key is a session key: the two prefixes first differ at index 24. */
  lemma KeysDisjoint(email: string, id: string)
    ensures UserKey(email) != SessionKey(id)
  {
    assert UserKey(email)[24] == UserPrefix[24] == 'u';
    assert SessionKey(id)[24] == SessionPrefix[24] == 's';
  }

  /** Writing a session key never touches a user key. */
  lemma SessionKeyIsNoUserKey(id: string)
    ensures forall email :: UserKey(email) != SessionKey(id)
  {
    forall email
      ensures UserKey(email) != SessionKey(id)
    {
      KeysDisjoint(email, id);
    }
  }

  /**
    A registered authenticator as stored: credential id and COSE public key
    in their base64url text form, the signature counter, and the transport
    hints the client reported (which may be missing).
   */
  datatype UserDevice = UserDevice(
    credentialID: string,
    credentialPublicKey: string,
    counter: nat,
    transports: Option<seq<string>>)

  datatype User = User(email: string, devices: seq<UserDevice>)

  /** The data of a ceremony session; each field may be absent. */
  datatype SessionData = SessionData(currentChallenge: Option<string>, email: Option<string>)

  /** `{}`: a session with neither a challenge nor an email. */
  const NoSessionData := SessionData(None, None)

  /** What one key of the store holds. */
  datatype Entry = UserEntry(user: User) | SessionEntry(data: SessionData)

  /**
    The object spread `{ ...oldData, ...d }`: every field that `d` gives
    replaces the old one, every field it omits keeps its old value.
   */
  function Merge(oldData: SessionData, d: SessionData): (r: SessionData)
    ensures d.currentChallenge.Some? ==> r.currentChallenge == d.currentChallenge
    ensures d.currentChallenge.None? ==> r.currentChallenge == oldData.currentChallenge
    ensures d.email.Some? ==> r.email == d.email
    ensures d.email.None? ==> r.email == oldData.email
    ensures d == NoSessionData ==> r == oldData
  {
    SessionData(
      if d.currentChallenge.Some? then d.currentChallenge else oldData.currentChallenge,
      if d.email.Some? then d.email else oldData.email)
  }

  class Store {
    /** The key-value store. */
    var kv: map<string, Entry>
    /** The value of the "session-id" cookie, if the client sent one. */
    var cookie: Option<string>

    /**
      Users are found under user keys, each under the key of its own email,
      and sessions under session keys.
     */
    ghost predicate Valid()
      reads this
    {
      && (forall email :: UserKey(email) in kv ==>
            kv[UserKey(email)].UserEntry? && kv[UserKey(email)].user.email == email)
      && (forall id :: SessionKey(id) in kv ==> kv[SessionKey(id)].SessionEntry?)
    }

    /** An empty store and no cookie: the state before the first request. */
    constructor ()
      ensures Valid()
      ensures kv == map[] && cookie == None
    {
      kv := map[];
      cookie := None;
    }

    /** `findUser`: the record stored for this email, or none. */
    function FindUser(email: string): (r: Option<User>)
      reads this
      requires Valid()
      ensures r.Some? <==> UserKey(email) in kv
      ensures r.Some? ==> kv[UserKey(email)] == UserEntry(r.value) && r.value.email == email
    {
      var key := UserKey(email);
      if key in kv then Some(kv[key].user) else None
    }

    /** `getSession`: the session stored under this id, or none. */
    function GetSession(id: string): (r: Option<SessionData>)
      reads this
      requires Valid()
      ensures r.Some? <==> SessionKey(id) in kv
      ensures r.Some? ==> kv[SessionKey(id)] == SessionEntry(r.value)
    {
      var key := SessionKey(id);
      if key in kv then Some(kv[key].data) else None
    }

    /**
      The test `sessionId?.value` followed by `if (session)`: the cookie holds
      a non-empty id and `getSession` finds a session under it.
     */
    predicate LiveCookie()
      reads this
      requires Valid()
      ensures LiveCookie() <==> cookie.Some? && cookie.value != "" && SessionKey(cookie.value) in kv
    {
      cookie.Some? && cookie.value != "" && GetSession(cookie.value).Some?
    }

    /** The id of the session `getCurrentSession` settles on, given the id it would mint. */
    function CurrentSessionId(freshId: string): (id: string)
      reads this
      requires Valid()
      ensures LiveCookie() ==> Some(id) == cookie
      ensures !LiveCookie() ==> id == freshId
    {
      if LiveCookie() then cookie.value else freshId
    }

    /** The data `getCurrentSession` returns: the stored session, or an empty one it mints. */
    function CurrentSessionData(freshId: string): (d: SessionData)
      reads this
      requires Valid()
      ensures LiveCookie() ==> GetSession(cookie.value) == Some(d)
      ensures !LiveCookie() ==> d == NoSessionData
    {
      if LiveCookie() then GetSession(cookie.value).value else NoSessionData
    }

    /**
      The store after `getCurrentSession`: unchanged when the cookie names a
      stored session, otherwise with an empty session stored under the new id.
      No user record differs.
     */
    function OpenedKv(freshId: string): (m: map<string, Entry>)
      reads this
      requires Valid()
      ensures SessionKey(CurrentSessionId(freshId)) in m
      ensures LiveCookie() ==> m == kv
      ensures forall email :: UserKey(email) in m <==> UserKey(email) in kv
      ensures forall email :: UserKey(email) in kv ==> m[UserKey(email)] == kv[UserKey(email)]
    {
      SessionKeyIsNoUserKey(freshId);
      if LiveCookie() then kv else kv[SessionKey(freshId) := SessionEntry(NoSessionData)]
    }

    /** Every user record is the same in this state as in the old one. */
    twostate predicate UsersUnchanged()
      reads this
      requires old(Valid()) && Valid()
    {
      forall email :: FindUser(email) == old(FindUser(email))
    }

    /** Every session is the same in this state as in the old one. */
    twostate predicate SessionsUnchanged()
      reads this
      requires old(Valid()) && Valid()
    {
      forall id :: GetSession(id) == old(GetSession(id))
    }

    /** `createSession`: stores `data` under the session's key; nothing else changes. */
    method CreateSession(id: string, data: SessionData)
      requires Valid()
      modifies this
      ensures Valid()
      ensures kv == old(kv)[SessionKey(id) := SessionEntry(data)]
      ensures cookie == old(cookie)
      ensures GetSession(id) == Some(data)
      ensures UsersUnchanged()
    {
      kv := kv[SessionKey(id) := SessionEntry(data)];
      SessionKeyIsNoUserKey(id);
    }

    /**
      `createUser`: fails, throwing "User already exists", when a record is
      stored for the email and leaves it alone; otherwise stores
      `{email, devices}` under the email's key and returns it.
     */
    method CreateUser(email: string, devices: seq<UserDevice>) returns (r: Result<User, string>)
      requires Valid()
      modifies this
      ensures Valid()
      ensures cookie == old(cookie)
      ensures old(FindUser(email)).Some? ==> r == Failure("User already exists") && kv == old(kv)
      ensures old(FindUser(email)).None? ==>
        && r == Success(User(email, devices))
        && kv == old(kv)[UserKey(email) := UserEntry(User(email, devices))]
        && FindUser(email) == Some(User(email, devices))
      ensures SessionsUnchanged()
    {
      var user := FindUser(email);
      if user.Some? {
        return Failure("User already exists");
      }
      kv := kv[UserKey(email) := UserEntry(User(email, devices))];
      forall id
        ensures SessionKey(id) != UserKey(email)
      {
        KeysDisjoint(email, id);
      }
      r := Success(User(email, devices));
    }

    /**
      `getCurrentSession`: when the cookie names a stored session, returns it
      and changes nothing; otherwise stores an empty session under the
      freshly minted id `freshId`, points the cookie at it and returns it.
     */
    method GetCurrentSession(freshId: string) returns (sessionId: string, data: SessionData)
      requires Valid()
      modifies this
      ensures Valid()
      ensures sessionId == old(CurrentSessionId(freshId))
      ensures data == old(CurrentSessionData(freshId))
      ensures kv == old(OpenedKv(freshId))
      ensures cookie == Some(sessionId)
      ensures GetSession(sessionId) == Some(data)
      ensures UsersUnchanged()
    {
      if cookie.Some? && cookie.value != "" {
        var session := GetSession(cookie.value);
        if session.Some? {
          return cookie.value, session.value;
        }
      }
      sessionId := freshId;
      data := NoSessionData;
      cookie := Some(sessionId);
      CreateSession(sessionId, data);
    }

    /**
      `updateCurrentSession(d)`: opens the current session and stores its
      data overlaid with the fields `d` gives. No user record changes.
     */
    method UpdateCurrentSession(d: SessionData, freshId: string)
      requires Valid()
      modifies this
      ensures Valid()
      ensures cookie == Some(old(CurrentSessionId(freshId)))
      ensures kv == old(OpenedKv(freshId))[
        SessionKey(old(CurrentSessionId(freshId))) := SessionEntry(Merge(old(CurrentSessionData(freshId)), d))]
      ensures GetSession(old(CurrentSessionId(freshId))) == Some(Merge(old(CurrentSessionData(freshId)), d))
      ensures UsersUnchanged()
    {
      var sessionId, oldData := GetCurrentSession(freshId);
      CreateSession(sessionId, Merge(oldData, d));
    }
  }
}

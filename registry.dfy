/**
 * The session registry: the global `sessions` object, a map from session id
 * (the digits of the bot number) to `{ sock, socketClientId, isConnecting }`,
 * and the transitions the connection handlers and routes apply to it.
 * Sockets are opaque handles.
 */
module Registry {
  import opened Wrappers
  import opened Identity

  /** One registry entry; the socket and the web client id are absent until the socket exists. */
  datatype Entry = Entry(isConnecting: bool, sock: Option<nat>, socketClientId: Option<string>)

  type Sessions = map<string, Entry>

  /** `{ isConnecting: true }`: the entry written before the socket is built. */
  const Placeholder: Entry := Entry(true, None, None)

  /** `DisconnectReason.loggedOut`, the close status of an explicit logout. */
  const LoggedOut: int := 401

  /**
   * What holds of every registry the gateway builds: every key is a
   * canonical id, and an entry has a socket exactly when it has a web client id.
   */
  ghost predicate WellFormed(m: Sessions) {
    forall id :: id in m ==> IsCanonical(id) && (m[id].sock.Some? <==> m[id].socketClientId.Some?)
  }

  /** The duplicate-attach guard: an entry for `id` exists and is connecting. */
  predicate Attaching(m: Sessions, id: string) { id in m && m[id].isConnecting }

  /**
   * `startSession` on the registry: nothing changes while `id` is attaching;
   * otherwise the entry for `id`, whatever it was, becomes a connecting entry
   * that holds the new socket and web client id, or only the placeholder
   * when building the socket failed. No other key is touched.
   */
  function Attach(m: Sessions, id: string, setupOk: bool, sock: nat, clientId: string): (r: Sessions)
    ensures Attaching(m, id) ==> r == m
    ensures !Attaching(m, id) ==>
      r.Keys == m.Keys + {id} && r[id].isConnecting &&
      r[id].sock == (if setupOk then Some(sock) else None) &&
      r[id].socketClientId == (if setupOk then Some(clientId) else None)
    ensures forall k :: k in m && k != id ==> k in r && r[k] == m[k]
    ensures IsCanonical(id) && WellFormed(m) ==> WellFormed(r)
  {
    if Attaching(m, id) then m
    else m[id := if setupOk then Entry(true, Some(sock), Some(clientId)) else Placeholder]
  }

  /**
   * A `close` whose reason is not a logout, on a present entry: the flag is
   * cleared and the session is started again with the same web client id,
   * so `id` stays present and connecting, and no other key changes.
   */
  function Reconnect(m: Sessions, id: string, restartOk: bool, sock: nat, clientId: string): (r: Sessions)
    requires id in m
    ensures r.Keys == m.Keys
    ensures r[id].isConnecting && r[id].sock == (if restartOk then Some(sock) else None)
    ensures r[id].socketClientId == (if restartOk then Some(clientId) else None)
    ensures forall k :: k in m && k != id ==> r[k] == m[k]
    ensures WellFormed(m) ==> WellFormed(r)
  {
    Attach(m[id := m[id].(isConnecting := false)], id, restartOk, sock, clientId)
  }

  /** An `open` on a present entry: it stops connecting, keeps its socket, and nothing else changes. */
  function Open(m: Sessions, id: string): (r: Sessions)
    requires id in m
    ensures r.Keys == m.Keys
    ensures !r[id].isConnecting && r[id].sock == m[id].sock && r[id].socketClientId == m[id].socketClientId
    ensures forall k :: k in m && k != id ==> r[k] == m[k]
    ensures WellFormed(m) ==> WellFormed(r)
  {
    m[id := m[id].(isConnecting := false)]
  }

  /** `delete sessions[id]`: exactly `id` leaves the registry. */
  function Remove(m: Sessions, id: string): (r: Sessions)
    ensures r.Keys == m.Keys - {id}
    ensures forall k :: k in r ==> r[k] == m[k]
    ensures |r| == if id in m then |m| - 1 else |m|
    ensures WellFormed(m) ==> WellFormed(r)
  {
    m - {id}
  }

  /** A second attach while the first is connecting leaves the registry as it is. */
  lemma DuplicateAttachIgnored(m: Sessions, id: string, setupOk: bool, sock: nat, clientId: string)
    requires Attaching(m, id)
    ensures Attach(m, id, setupOk, sock, clientId) == m
  {
  }

  /** An attach of an id that is not connecting replaces its entry, connected or not. */
  lemma AttachReplacesIdle(m: Sessions, id: string, sock: nat, clientId: string)
    requires id in m && !m[id].isConnecting
    ensures Attach(m, id, true, sock, clientId)[id] == Entry(true, Some(sock), Some(clientId))
    ensures |Attach(m, id, true, sock, clientId)| == |m|
  {
    assert Attach(m, id, true, sock, clientId).Keys == m.Keys;
  }

  // ---------------------------------------------------------------------
  // The `/api/sessions` projection
  // ---------------------------------------------------------------------

  /** One element of the session list. */
  datatype SessionView = SessionView(number: string, isConnecting: bool, socketClientId: Option<string>, isConnected: bool)

  /**
   * `sock?.user?.id ? true : false`, where `users` holds the user id the
   * protocol library has set on each logged-in socket.
   */
  predicate SocketLoggedIn(sock: Option<nat>, users: map<nat, string>)
    ensures SocketLoggedIn(sock, users) <==> sock.Some? && sock.value in users && |users[sock.value]| > 0
  {
    sock.Some? && sock.value in users && users[sock.value] != ""
  }

  /**
   * `/api/sessions`: one view per registry key, carrying the key as its
   * number and the entry's flags; the `total` is the number of keys, which
   * is also the count `updateBotCount` broadcasts.
   */
  function SessionList(m: Sessions, users: map<nat, string>): (r: map<string, SessionView>)
    ensures r.Keys == m.Keys && |r| == |m|
    ensures forall id :: id in r ==>
      r[id].number == id && r[id].isConnecting == m[id].isConnecting &&
      r[id].socketClientId == m[id].socketClientId &&
      (r[id].isConnected <==> SocketLoggedIn(m[id].sock, users))
  {
    var r := map id | id in m :: SessionView(id, m[id].isConnecting, m[id].socketClientId, SocketLoggedIn(m[id].sock, users));
    assert r.Keys == m.Keys;
    r
  }
}

/**
 * The gateway process: the global session registry, the seen-contact file
 * and the log of observable effects, with one method per event handler and
 * HTTP route that changes them. Each handler invocation runs to completion
 * before the next; the socket library, the file system and the HTTP layer
 * are parameters (a flag saying whether a call succeeds, a fresh socket
 * handle) or entries in the effect log.
 */
module Server {
  import opened Wrappers
  import opened Strings
  import opened Identity
  import opened Messages
  import opened Commands
  import opened Upsert
  import opened Registry

  /** Outcome of `startSession`: ignored by the guard, started, or failed while building the socket. */
  datatype StartResult = Ignored | Started(id: string) | SetupFailed

  /** The notice sent to the bot's own chat when its connection opens. */
  const OnlineNotice: string :=
    "✅ *CRAZY MINI XMD* est maintenant connecté !\n\nTapez *.menu* pour voir les commandes disponibles."

  class Gateway {
    /** The global `sessions` object. */
    var sessions: Sessions
    /** The contents of `seen_jids.json`. */
    var seenFile: seq<string>
    /** Every file write, send, count broadcast and logout, in order. */
    var log: seq<Effect>

    ghost predicate Valid()
      reads this
    {
      WellFormed(sessions)
    }

    /** Start-up: no sessions; the seen file is created holding `[]` when it does not exist. */
    constructor(persisted: Option<seq<string>>)
      ensures Valid()
      ensures sessions == map[] && seenFile == persisted.GetOr([])
      ensures log == if persisted.None? then [SeenWritten([])] else []
    {
      sessions := map[];
      if persisted.None? {
        seenFile := [];
        log := [SeenWritten([])];
      } else {
        seenFile := persisted.value;
        log := [];
      }
    }

    /** `updateBotCount`: broadcasts the number of registry keys. */
    method UpdateBotCount()
      modifies this
      ensures log == old(log) + [BotCount(|sessions|)]
      ensures sessions == old(sessions) && seenFile == old(seenFile)
    {
      log := log + [BotCount(|sessions|)];
    }

    /**
     * `startSession(number, socketClientId)`: the id is the digits of the
     * number; the guard ignores an id whose entry is connecting; otherwise
     * the placeholder is written and, once the socket is built, it receives
     * the socket and the web client id. `setupOk` says whether loading the
     * credentials, fetching the version and building the socket succeed.
     */
    method StartSession(number: string, clientId: string, setupOk: bool, sock: nat) returns (r: StartResult)
      requires Valid()
      modifies this
      ensures Valid()
      ensures var id := DigitsOnly(number);
        sessions == Attach(old(sessions), id, setupOk, sock, clientId) &&
        r == (if Attaching(old(sessions), id) then Ignored else if setupOk then Started(id) else SetupFailed)
      ensures seenFile == old(seenFile) && log == old(log)
    {
      var id := DigitsOnly(number);
      DigitsOnlyIdempotent(number);
      if id in sessions && sessions[id].isConnecting {
        return Ignored;
      }
      ghost var m := sessions;
      sessions := sessions[id := Placeholder];
      if !setupOk {
        assert sessions == Attach(m, id, setupOk, sock, clientId);
        return SetupFailed;
      }
      sessions := sessions[id := sessions[id].(sock := Some(sock))];
      sessions := sessions[id := sessions[id].(socketClientId := Some(clientId))];
      assert sessions == m[id := Entry(true, Some(sock), Some(clientId))];
      assert sessions == Attach(m, id, setupOk, sock, clientId);
      r := Started(id);
    }

    /**
     * `connection.update` with `connection === "close"` for the session of
     * `number`. A logout removes the id and broadcasts the count. Any other
     * reason clears the flag and starts the session again, with `restartOk`
     * and `newSock` describing that start; when the entry is already gone the
     * handler throws on the missing entry and changes nothing.
     */
    method OnClose(number: string, clientId: string, reason: int, restartOk: bool, newSock: nat)
      returns (threw: bool)
      requires Valid()
      modifies this
      ensures Valid() && seenFile == old(seenFile)
      ensures var id := DigitsOnly(number);
        if reason == LoggedOut then
          !threw && sessions == Remove(old(sessions), id) && log == old(log) + [BotCount(|sessions|)]
        else if id !in old(sessions) then
          threw && sessions == old(sessions) && log == old(log)
        else
          !threw && sessions == Reconnect(old(sessions), id, restartOk, newSock, clientId) && log == old(log)
    {
      var id := DigitsOnly(number);
      threw := false;
      if reason != LoggedOut {
        if id !in sessions {
          threw := true;
          return;
        }
        sessions := sessions[id := sessions[id].(isConnecting := false)];
        var _ := StartSession(number, clientId, restartOk, newSock);
      } else {
        sessions := Remove(sessions, id);
        UpdateBotCount();
      }
    }

    /**
     * `connection.update` with `connection === "open"` from socket `sock`
     * whose user id is `selfJid`: the entry stops connecting, the online
     * notice is sent to the bot's own chat, and the count is broadcast. When
     * the entry is gone the handler throws and changes nothing.
     */
    method OnOpen(number: string, sock: nat, selfJid: string) returns (threw: bool)
      requires Valid()
      modifies this
      ensures Valid() && seenFile == old(seenFile)
      ensures var id := DigitsOnly(number);
        if id !in old(sessions) then
          threw && sessions == old(sessions) && log == old(log)
        else
          !threw && sessions == Open(old(sessions), id) &&
          log == old(log) + [Sent(Outgoing(sock, selfJid, Text(OnlineNotice))), BotCount(|sessions|)]
    {
      var id := DigitsOnly(number);
      if id !in sessions {
        return true;
      }
      threw := false;
      sessions := Open(sessions, id);
      var notice := Sent(Outgoing(sock, selfJid, Text(OnlineNotice)));
      log := log + [notice];
      UpdateBotCount();
      AppendAssoc(old(log), [notice], [BotCount(|sessions|)]);
      assert [notice] + [BotCount(|sessions|)] == [notice, BotCount(|sessions|)];
    }

    /**
     * `messages.upsert` on socket `sock`: the seen list is read from the file
     * once, then each message is handled in order, as `Batch` specifies.
     */
    method OnMessagesUpsert(sock: nat, ds: seq<Delivery>)
      requires Valid()
      modifies this
      ensures Valid() && sessions == old(sessions)
      ensures var out := Batch(sock, old(seenFile), ds, |old(sessions)|);
        seenFile == out.seen && log == old(log) + out.effects
    {
      var seenJids := seenFile;
      var i := 0;
      while i < |ds|
        invariant 0 <= i <= |ds|
        invariant sessions == old(sessions)
        invariant var out := Batch(sock, old(seenFile), ds[..i], |sessions|);
          seenJids == out.seen && seenFile == seenJids && log == old(log) + out.effects
      {
        ghost var prev := Batch(sock, old(seenFile), ds[..i], |sessions|);
        seenJids := HandleMessage(sock, seenJids, ds[i]);
        ghost var step := Step(sock, prev.seen, ds[i], |sessions|);
        assert ds[..i + 1][..i] == ds[..i];
        assert Batch(sock, old(seenFile), ds[..i + 1], |sessions|) == Outcome(step.seen, prev.effects + step.effects);
        AppendAssoc(old(log), prev.effects, step.effects);
        i := i + 1;
      }
      assert ds[..|ds|] == ds;
    }

    /**
     * One pass of the loop over `m.messages`, against the list `seenJids`
     * held in memory; returns the list for the next message.
     */
    method HandleMessage(sock: nat, seenJids: seq<string>, d: Delivery) returns (seen': seq<string>)
      requires seenFile == seenJids
      modifies this`seenFile, this`log
      ensures seenFile == seen'
      ensures var out := Step(sock, seenJids, d, |sessions|);
        seen' == out.seen && log == old(log) + out.effects
    {
      if d.msg.key.fromMe {
        return seenJids;
      }
      seen' := Greet(sock, seenJids, d.msg);
      ghost var mid := log;
      RunCommand(sock, d);
      AppendAssoc(old(log), mid[|old(log)|..], CommandEffects(sock, d, |sessions|));
    }

    /**
     * A sender not on the list is appended to it, the list is written to the
     * seen file, and then the welcome is sent.
     */
    method Greet(sock: nat, seenJids: seq<string>, msg: Inbound) returns (seen': seq<string>)
      requires seenFile == seenJids
      modifies this`seenFile, this`log
      ensures var jid := msg.key.remoteJid;
        if jid in seenJids then
          seen' == seenJids && seenFile == old(seenFile) && log == old(log)
        else
          seen' == seenJids + [jid] && seenFile == seen' &&
          log == old(log) + [SeenWritten(seen'), Sent(Outgoing(sock, jid, WelcomeFor(jid, msg.pushName)))]
    {
      var jid := msg.key.remoteJid;
      seen' := seenJids;
      if jid !in seen' {
        seen' := seen' + [jid];
        seenFile := seen';
        log := log + [SeenWritten(seenFile)];
        log := log + [Sent(Outgoing(sock, jid, WelcomeFor(jid, msg.pushName)))];
      }
    }

    /**
     * A body that starts with the prefix is parsed and its command run: the
     * handler's sends and, when it throws, the error reply.
     */
    method RunCommand(sock: nat, d: Delivery)
      modifies this`log
      ensures log == old(log) + CommandEffects(sock, d, |sessions|)
    {
      var msg := d.msg;
      var command := CommandName(GetMessageText(msg));
      if command.Some? {
        var quoted := QuotedMessage(msg);
        log := log + SendAll(sock, msg.key.remoteJid, Dispatch(Lookup(command.value), msg.pushName, quoted, |sessions|, d.env));
      } else {
        assert log == old(log) + [];
      }
    }

    /**
     * `POST /api/connect`: 400 without a number or a socket id, otherwise
     * `startSession`, answering 200 whether or not the guard ignored the
     * request, and 500 when building the session failed.
     */
    method Connect(number: Option<string>, socketId: Option<string>, setupOk: bool, sock: nat)
      returns (status: nat)
      requires Valid()
      modifies this
      ensures Valid() && seenFile == old(seenFile) && log == old(log)
      ensures !Truthy(number) || !Truthy(socketId) ==> status == 400 && sessions == old(sessions)
      ensures Truthy(number) && Truthy(socketId) ==>
        var id := DigitsOnly(number.value);
        sessions == Attach(old(sessions), id, setupOk, sock, socketId.value) &&
        status == (if Attaching(old(sessions), id) || setupOk then 200 else 500)
    {
      if !Truthy(number) || !Truthy(socketId) {
        return 400;
      }
      var r := StartSession(number.value, socketId.value, setupOk, sock);
      status := if r == SetupFailed then 500 else 200;
    }

    /**
     * `POST /api/disconnect`: 400 without a number, 404 when its id is not in
     * the registry. Otherwise the socket is logged out and the id removed
     * (200); the registry keeps the entry and the answer is 500 when the
     * entry has no socket yet or the logout fails.
     */
    method Disconnect(number: Option<string>, logoutOk: bool) returns (status: nat)
      requires Valid()
      modifies this
      ensures Valid() && seenFile == old(seenFile)
      ensures !Truthy(number) ==> status == 400 && sessions == old(sessions) && log == old(log)
      ensures Truthy(number) ==>
        var id := DigitsOnly(number.value);
        if id !in old(sessions) then
          status == 404 && sessions == old(sessions) && log == old(log)
        else if old(sessions)[id].sock.None? then
          status == 500 && sessions == old(sessions) && log == old(log)
        else if !logoutOk then
          status == 500 && sessions == old(sessions) &&
          log == old(log) + [LogoutCalled(old(sessions)[id].sock.value)]
        else
          status == 200 && sessions == Remove(old(sessions), id) &&
          log == old(log) + [LogoutCalled(old(sessions)[id].sock.value), BotCount(|sessions|)]
    {
      if !Truthy(number) {
        return 400;
      }
      var id := DigitsOnly(number.value);
      if id !in sessions {
        return 404;
      }
      var session := sessions[id];
      if session.sock.None? {
        return 500;
      }
      log := log + [LogoutCalled(session.sock.value)];
      if !logoutOk {
        return 500;
      }
      sessions := Remove(sessions, id);
      UpdateBotCount();
      status := 200;
    }

    /** `GET /api/sessions`: the registry's projection, given the user ids the library has set on sockets. */
    function ListSessions(users: map<nat, string>): (r: map<string, SessionView>)
      reads this
      ensures r.Keys == sessions.Keys && |r| == |sessions|
    {
      SessionList(sessions, users)
    }
  }

  lemma AppendAssoc<T>(a: seq<T>, b: seq<T>, c: seq<T>)
    ensures a + b + c == a + (b + c)
  {
  }

  /**
   * An attach whose socket could not be built leaves the placeholder behind:
   * every later attach of the same number is ignored (and still answered
   * 200), and a disconnect of it answers 500.
   */
  method FailedSetupBlocksNumber(number: string, clientId: string, sock: nat)
    returns (first: nat, second: nat, third: nat, statusOfDisconnect: nat)
    requires Truthy(Some(number)) && clientId != ""
    ensures first == 500 && second == 200 && statusOfDisconnect == 500
    ensures third == 200
  {
    var g := new Gateway(Some([]));
    first := g.Connect(Some(number), Some(clientId), false, sock);
    second := g.Connect(Some(number), Some(clientId), true, sock);
    third := g.Connect(Some(number), Some(clientId), true, sock + 1);
    assert g.sessions == map[DigitsOnly(number) := Placeholder];
    statusOfDisconnect := g.Disconnect(Some(number), true);
  }

  /**
   * A `.ping` from a contact never seen before: the contact is recorded and
   * welcomed, and exactly one pong is sent back.
   */
  method PingScenario(sock: nat, contact: Delivery) returns (effects: seq<Effect>, seen: seq<string>)
    requires !contact.msg.key.fromMe && !contact.env.handlerThrows
    requires contact.msg.stubType.None? && contact.msg.message.Some?
    requires contact.msg.message.value.conversation == Some(".ping")
    ensures var jid := contact.msg.key.remoteJid;
      seen == [jid] && |effects| == 3 &&
      effects[0] == SeenWritten([jid]) &&
      effects[1] == Sent(Outgoing(sock, jid, WelcomeFor(jid, contact.msg.pushName))) &&
      effects[2] == Sent(Outgoing(sock, jid, Text(PongText)))
  {
    var g := new Gateway(Some([]));
    g.OnMessagesUpsert(sock, [contact]);
    BatchSingle(sock, [], contact, 0);
    PingStep(sock, contact);
    assert g.log == [] + Step(sock, [], contact, 0).effects;
    effects := g.log;
    seen := g.seenFile;
  }

  /** One step over a first `.ping` from `contact`: record, welcome, pong. */
  lemma PingStep(sock: nat, contact: Delivery)
    requires !contact.msg.key.fromMe && !contact.env.handlerThrows
    requires contact.msg.stubType.None? && contact.msg.message.Some?
    requires contact.msg.message.value.conversation == Some(".ping")
    ensures var jid := contact.msg.key.remoteJid;
      var out := Step(sock, [], contact, 0);
      out.seen == [jid] && |out.effects| == 3 &&
      out.effects[0] == SeenWritten([jid]) &&
      out.effects[1] == Sent(Outgoing(sock, jid, WelcomeFor(jid, contact.msg.pushName))) &&
      out.effects[2] == Sent(Outgoing(sock, jid, Text(PongText)))
  {
    var jid := contact.msg.key.remoteJid;
    var welcome := Sent(Outgoing(sock, jid, WelcomeFor(jid, contact.msg.pushName)));
    var pong := Sent(Outgoing(sock, jid, Text(PongText)));
    PingSends(sock, contact);
    assert [] + [jid] == [jid];
    assert Step(sock, [], contact, 0).effects == [SeenWritten([jid]), welcome] + [pong];
  }

  /** The command part of that step: one pong. */
  lemma PingSends(sock: nat, contact: Delivery)
    requires !contact.env.handlerThrows
    requires contact.msg.stubType.None? && contact.msg.message.Some?
    requires contact.msg.message.value.conversation == Some(".ping")
    ensures CommandEffects(sock, contact, 0) == [Sent(Outgoing(sock, contact.msg.key.remoteJid, Text(PongText)))]
  {
    PingBody(contact.msg);
    PingParses();
    assert Dispatch(Ping, contact.msg.pushName, QuotedMessage(contact.msg), 0, contact.env) == [Text(PongText)];
  }

  lemma PingBody(msg: Inbound)
    requires msg.stubType.None? && msg.message.Some? && msg.message.value.conversation == Some(".ping")
    ensures GetMessageText(msg) == ".ping"
  {
  }

  /** `.ping` names the `ping` command. */
  lemma PingParses()
    ensures CommandName(".ping") == Some("ping") && Lookup("ping") == Ping
  {
    assert ".ping"[1..] == "ping";
    assert StartsWith(".ping", Prefix);
    WordCommand(".ping");
    assert ToLowerAscii("ping") == "ping";
  }
}

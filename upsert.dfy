/**
 * The `messages.upsert` handler as a specification: a batch of inbound
 * messages is processed in order against the seen-contact list loaded at the
 * start of the batch. A message sent by the bot itself is skipped. A sender
 * not yet on the list is appended, the list is persisted, and only then is
 * the welcome sent. A body that starts with the prefix is dispatched as a
 * command. Every observable action is an `Effect`, in the order the source
 * performs it.
 */
module Upsert {
  import opened Wrappers
  import opened Strings
  import opened Messages
  import opened Commands
  import opened Sequences

  /** One `sock.sendMessage(to, payload)` call of the socket with handle `sock`. */
  datatype Outgoing = Outgoing(sock: nat, to: string, payload: Payload)

  /**
   * The observable actions of the gateway: a rewrite of the seen-contact
   * file with the whole list, a message sent, a `bots_update` count
   * broadcast, and a `logout()` call on a socket.
   */
  datatype Effect =
    | SeenWritten(jids: seq<string>)
    | Sent(out: Outgoing)
    | BotCount(count: nat)
    | LogoutCalled(sock: nat)

  /** An inbound message together with the values its handler takes from outside. */
  datatype Delivery = Delivery(msg: Inbound, env: Environment)

  /** The seen-contact list after some messages, and the effects they caused. */
  datatype Outcome = Outcome(seen: seq<string>, effects: seq<Effect>)

  /** Sends the payloads `ps` to `to`, one call each, in order. */
  function SendAll(sock: nat, to: string, ps: seq<Payload>): (r: seq<Effect>)
    ensures |r| == |ps|
    ensures forall i :: 0 <= i < |r| ==> r[i] == Sent(Outgoing(sock, to, ps[i]))
  {
    seq(|ps|, i requires 0 <= i < |ps| => Sent(Outgoing(sock, to, ps[i])))
  }

  /** The sends a message's command causes: none unless its body starts with the prefix. */
  function CommandEffects(sock: nat, d: Delivery, sessionCount: nat): seq<Effect> {
    var msg := d.msg;
    match CommandName(GetMessageText(msg))
    case None => []
    case Some(name) =>
      SendAll(sock, msg.key.remoteJid,
              Dispatch(Lookup(name), msg.pushName, QuotedMessage(msg), sessionCount, d.env))
  }

  /** One iteration of the loop over `m.messages`. */
  function Step(sock: nat, seen: seq<string>, d: Delivery, sessionCount: nat): Outcome {
    var msg := d.msg;
    var jid := msg.key.remoteJid;
    if msg.key.fromMe then Outcome(seen, [])
    else if jid in seen then Outcome(seen, CommandEffects(sock, d, sessionCount))
    else
      var seen' := seen + [jid];
      Outcome(seen', [SeenWritten(seen'), Sent(Outgoing(sock, jid, WelcomeFor(jid, msg.pushName)))] +
                     CommandEffects(sock, d, sessionCount))
  }

  /** The whole loop over a batch `ds`, starting from the list `seen` read from the file. */
  function Batch(sock: nat, seen: seq<string>, ds: seq<Delivery>, sessionCount: nat): Outcome
    decreases |ds|
  {
    if ds == [] then Outcome(seen, [])
    else
      var prev := Batch(sock, seen, ds[..|ds| - 1], sessionCount);
      var last := Step(sock, prev.seen, ds[|ds| - 1], sessionCount);
      Outcome(last.seen, prev.effects + last.effects)
  }

  // ---------------------------------------------------------------------
  // Properties
  // ---------------------------------------------------------------------

  /**
   * A message causes command sends exactly when its body starts with the
   * prefix; each is a send from this socket to the sender, never a welcome,
   * one per reply of the command the body names.
   */
  lemma CommandEffectsShape(sock: nat, d: Delivery, n: nat)
    ensures CommandEffects(sock, d, n) == [] <==> !StartsWith(GetMessageText(d.msg), Prefix)
    ensures forall e :: e in CommandEffects(sock, d, n) ==>
      e.Sent? && e.out.sock == sock && e.out.to == d.msg.key.remoteJid && !e.out.payload.Welcome?
    ensures StartsWith(GetMessageText(d.msg), Prefix) ==>
      var name := CommandName(GetMessageText(d.msg)).value;
      |CommandEffects(sock, d, n)| == |Dispatch(Lookup(name), d.msg.pushName, QuotedMessage(d.msg), n, d.env)|
  {
    var msg := d.msg;
    match CommandName(GetMessageText(msg))
    case None =>
      assert CommandEffects(sock, d, n) == [];
    case Some(name) =>
      var ps := Dispatch(Lookup(name), msg.pushName, QuotedMessage(msg), n, d.env);
      var es := SendAll(sock, msg.key.remoteJid, ps);
      assert CommandEffects(sock, d, n) == es;
      forall e | e in es
        ensures e.Sent? && e.out.sock == sock && e.out.to == msg.key.remoteJid && !e.out.payload.Welcome?
      {
        var i :| 0 <= i < |es| && es[i] == e;
        assert ps[i] in ps;
      }
  }

  /**
   * One pass adds the sender to the list exactly when the message is not the
   * bot's own and the sender is new, and a message of the bot's own causes
   * nothing.
   */
  lemma StepSeen(sock: nat, seen: seq<string>, d: Delivery, n: nat)
    ensures var r := Step(sock, seen, d, n);
      (!d.msg.key.fromMe && d.msg.key.remoteJid !in seen ==> r.seen == seen + [d.msg.key.remoteJid]) &&
      (d.msg.key.fromMe || d.msg.key.remoteJid in seen ==> r.seen == seen) &&
      (d.msg.key.fromMe ==> r.effects == [])
  {
  }

  /** A batch of one message is one step. */
  lemma BatchSingle(sock: nat, seen: seq<string>, d: Delivery, n: nat)
    ensures Batch(sock, seen, [d], n) == Step(sock, seen, d, n)
  {
    assert [d][..0] == [];
    var last := Step(sock, seen, d, n);
    assert [] + last.effects == last.effects;
  }

  /** Some message of `ds` not sent by the bot comes from `jid`. */
  ghost predicate HeardFrom(ds: seq<Delivery>, jid: string) {
    exists k :: 0 <= k < |ds| && !ds[k].msg.key.fromMe && ds[k].msg.key.remoteJid == jid
  }

  /**
   * The seen list only grows, by at most one JID per message: the old list
   * is a prefix of the new one and every added JID is new relative to
   * everything before it.
   */
  lemma {:induction false} BatchSeenGrows(sock: nat, seen: seq<string>, ds: seq<Delivery>, n: nat)
    ensures var r := Batch(sock, seen, ds, n).seen;
      seen <= r && |r| <= |seen| + |ds| && forall i :: |seen| <= i < |r| ==> r[i] !in r[..i]
    decreases |ds|
  {
    if ds != [] {
      var init := ds[..|ds| - 1];
      BatchSeenGrows(sock, seen, init, n);
      var p := Batch(sock, seen, init, n).seen;
      var r := Step(sock, p, ds[|ds| - 1], n).seen;
      if r != p {
        assert r[..|p|] == p;
      }
    }
  }

  /** A JID is on the list after a batch exactly when it was before or sent a message of the batch. */
  lemma {:induction false} BatchSeenMembers(sock: nat, seen: seq<string>, ds: seq<Delivery>, n: nat, jid: string)
    ensures jid in Batch(sock, seen, ds, n).seen <==> jid in seen || HeardFrom(ds, jid)
    decreases |ds|
  {
    if ds != [] {
      var init := ds[..|ds| - 1];
      BatchSeenMembers(sock, seen, init, n, jid);
      HeardFromLast(ds, jid);
    }
  }

  /** Hearing from `jid` in `ds` is hearing from it in all but the last message, or in the last. */
  lemma HeardFromLast(ds: seq<Delivery>, jid: string)
    requires ds != []
    ensures HeardFrom(ds, jid) <==>
      HeardFrom(ds[..|ds| - 1], jid) || (!ds[|ds| - 1].msg.key.fromMe && ds[|ds| - 1].msg.key.remoteJid == jid)
  {
    var init := ds[..|ds| - 1];
    if HeardFrom(init, jid) {
      var k :| 0 <= k < |init| && !init[k].msg.key.fromMe && init[k].msg.key.remoteJid == jid;
      assert ds[k] == init[k];
    }
    if HeardFrom(ds, jid) {
      var k :| 0 <= k < |ds| && !ds[k].msg.key.fromMe && ds[k].msg.key.remoteJid == jid;
      if k < |init| { assert init[k] == ds[k]; }
    }
  }

  /**
   * The messages of `ds` not sent by the bot: every one of them is kept,
   * nothing else is, and they keep their order in `ds`.
   */
  function Others(ds: seq<Delivery>): (r: seq<Delivery>)
    ensures forall d :: d in r <==> d in ds && !d.msg.key.fromMe
    ensures forall x :: multiset(r)[x] == if x.msg.key.fromMe then 0 else multiset(ds)[x]
    ensures IsSubsequence(r, ds)
    decreases |ds|
  {
    if ds == [] then []
    else
      var init := ds[..|ds| - 1];
      var last := ds[|ds| - 1];
      assert ds == init + [last];
      var prev := Others(init);
      if last.msg.key.fromMe then
        SubsequenceExtend(prev, init, last);
        prev
      else
        SubsequenceSnoc(prev, init, last);
        prev + [last]
  }

  /** A message sent by the bot causes nothing, so a batch behaves as if it held only the others. */
  lemma {:induction false} SelfMessagesIgnored(sock: nat, seen: seq<string>, ds: seq<Delivery>, n: nat)
    ensures Batch(sock, seen, ds, n) == Batch(sock, seen, Others(ds), n)
    decreases |ds|
  {
    if ds != [] {
      var init := ds[..|ds| - 1];
      SelfMessagesIgnored(sock, seen, init, n);
      if !ds[|ds| - 1].msg.key.fromMe {
        var o := Others(init) + [ds[|ds| - 1]];
        assert o[..|o| - 1] == Others(init);
      } else {
        assert Batch(sock, seen, ds, n).effects == Batch(sock, seen, init, n).effects + [];
      }
    }
  }

  /** The effect `e` is a welcome to `jid`. */
  predicate IsWelcomeTo(e: Effect, jid: string) {
    e.Sent? && e.out.to == jid && e.out.payload.Welcome?
  }

  /** The number of welcomes to `jid` among `es`. */
  function WelcomesTo(es: seq<Effect>, jid: string): nat {
    if es == [] then 0 else (if IsWelcomeTo(es[0], jid) then 1 else 0) + WelcomesTo(es[1..], jid)
  }

  lemma {:induction false} WelcomesToAppend(a: seq<Effect>, b: seq<Effect>, jid: string)
    ensures WelcomesTo(a + b, jid) == WelcomesTo(a, jid) + WelcomesTo(b, jid)
  {
    if a != [] {
      assert (a + b)[1..] == a[1..] + b;
      WelcomesToAppend(a[1..], b, jid);
    } else {
      assert a + b == b;
    }
  }

  lemma {:induction false} NoWelcomeInSends(sock: nat, to: string, ps: seq<Payload>, jid: string)
    requires forall p :: p in ps ==> !p.Welcome?
    ensures WelcomesTo(SendAll(sock, to, ps), jid) == 0
    decreases |ps|
  {
    if ps != [] {
      assert SendAll(sock, to, ps)[1..] == SendAll(sock, to, ps[1..]);
      NoWelcomeInSends(sock, to, ps[1..], jid);
    }
  }

  /** A command never sends a welcome. */
  lemma CommandEffectsNoWelcome(sock: nat, d: Delivery, n: nat, jid: string)
    ensures WelcomesTo(CommandEffects(sock, d, n), jid) == 0
  {
    var msg := d.msg;
    match CommandName(GetMessageText(msg))
    case None =>
    case Some(name) =>
      NoWelcomeInSends(sock, msg.key.remoteJid,
        Dispatch(Lookup(name), msg.pushName, QuotedMessage(msg), n, d.env), jid);
  }

  /** One step welcomes `jid` once when it is a new sender, and otherwise not at all. */
  lemma StepWelcomes(sock: nat, seen: seq<string>, d: Delivery, n: nat, jid: string)
    ensures WelcomesTo(Step(sock, seen, d, n).effects, jid) ==
      if !d.msg.key.fromMe && d.msg.key.remoteJid == jid && jid !in seen then 1 else 0
  {
    var c := CommandEffects(sock, d, n);
    CommandEffectsNoWelcome(sock, d, n, jid);
    var msg := d.msg;
    if !msg.key.fromMe && msg.key.remoteJid !in seen {
      var g := [SeenWritten(seen + [msg.key.remoteJid]),
                Sent(Outgoing(sock, msg.key.remoteJid, WelcomeFor(msg.key.remoteJid, msg.pushName)))];
      WelcomesToAppend(g, c, jid);
      assert g[1..][1..] == [];
    }
  }

  /**
   * Welcome-once: over a batch, `jid` is welcomed exactly once when it was
   * not on the seen list and sent a message of the batch, and never otherwise.
   */
  lemma {:induction false} WelcomeOnce(sock: nat, seen: seq<string>, ds: seq<Delivery>, n: nat, jid: string)
    ensures WelcomesTo(Batch(sock, seen, ds, n).effects, jid) ==
      if jid !in seen && HeardFrom(ds, jid) then 1 else 0
    decreases |ds|
  {
    if ds != [] {
      var init := ds[..|ds| - 1];
      var d := ds[|ds| - 1];
      WelcomeOnce(sock, seen, init, n, jid);
      BatchSeenMembers(sock, seen, init, n, jid);
      var p := Batch(sock, seen, init, n);
      WelcomesToAppend(p.effects, Step(sock, p.seen, d, n).effects, jid);
      StepWelcomes(sock, p.seen, d, n, jid);
      HeardFromLast(ds, jid);
    }
  }

  /**
   * Persist-before-send: every welcome in a batch's effects comes right
   * after a rewrite of the seen file whose list already holds the welcomed JID.
   */
  ghost predicate PersistedBeforeWelcome(es: seq<Effect>) {
    forall p :: 0 <= p < |es| && es[p].Sent? && es[p].out.payload.Welcome? ==>
      p > 0 && es[p - 1].SeenWritten? && es[p].out.to in es[p - 1].jids
  }

  /** A welcome-free list satisfies persist-before-send vacuously. */
  lemma NoWelcomePersisted(c: seq<Effect>)
    requires forall e :: e in c ==> !(e.Sent? && e.out.payload.Welcome?)
    ensures PersistedBeforeWelcome(c)
  {
    forall p | 0 <= p < |c| ensures !(c[p].Sent? && c[p].out.payload.Welcome?) {
      assert c[p] in c;
    }
  }

  /** A rewrite holding `o.to`, then the send `o`, then welcome-free effects. */
  lemma PersistedPrefix(l: seq<string>, o: Outgoing, c: seq<Effect>)
    requires o.to in l
    requires forall e :: e in c ==> !(e.Sent? && e.out.payload.Welcome?)
    ensures PersistedBeforeWelcome([SeenWritten(l), Sent(o)] + c)
  {
    var es := [SeenWritten(l), Sent(o)] + c;
    forall p | 2 <= p < |es| ensures !(es[p].Sent? && es[p].out.payload.Welcome?) {
      assert es[p] == c[p - 2];
      assert c[p - 2] in c;
    }
  }

  lemma StepPersistsFirst(sock: nat, seen: seq<string>, d: Delivery, n: nat)
    ensures PersistedBeforeWelcome(Step(sock, seen, d, n).effects)
  {
    var c := CommandEffects(sock, d, n);
    CommandEffectsShape(sock, d, n);
    var jid := d.msg.key.remoteJid;
    if !d.msg.key.fromMe && jid !in seen {
      PersistedPrefix(seen + [jid], Outgoing(sock, jid, WelcomeFor(jid, d.msg.pushName)), c);
    } else {
      NoWelcomePersisted(c);
    }
  }

  /** Persist-before-send survives concatenation. */
  lemma PersistedAppend(a: seq<Effect>, b: seq<Effect>)
    requires PersistedBeforeWelcome(a) && PersistedBeforeWelcome(b)
    ensures PersistedBeforeWelcome(a + b)
  {
    var es := a + b;
    forall p | 0 <= p < |es| && es[p].Sent? && es[p].out.payload.Welcome?
      ensures p > 0 && es[p - 1].SeenWritten? && es[p].out.to in es[p - 1].jids
    {
      if p >= |a| {
        assert es[p] == b[p - |a|];
        assert es[p - 1] == b[p - |a| - 1];
      } else {
        assert es[p] == a[p];
        assert es[p - 1] == a[p - 1];
      }
    }
  }

  lemma {:induction false} BatchPersistsFirst(sock: nat, seen: seq<string>, ds: seq<Delivery>, n: nat)
    ensures PersistedBeforeWelcome(Batch(sock, seen, ds, n).effects)
    decreases |ds|
  {
    if ds != [] {
      var init := ds[..|ds| - 1];
      var prev := Batch(sock, seen, init, n);
      BatchPersistsFirst(sock, seen, init, n);
      StepPersistsFirst(sock, prev.seen, ds[|ds| - 1], n);
      PersistedAppend(prev.effects, Step(sock, prev.seen, ds[|ds| - 1], n).effects);
    }
  }

  /** A message whose body does not start with the prefix causes no command reply. */
  lemma NoPrefixNoReply(sock: nat, seen: seq<string>, d: Delivery, n: nat)
    requires !StartsWith(GetMessageText(d.msg), Prefix)
    ensures CommandEffects(sock, d, n) == []
    ensures d.msg.key.fromMe || d.msg.key.remoteJid in seen ==> Step(sock, seen, d, n).effects == []
    ensures var jid := d.msg.key.remoteJid; var es := Step(sock, seen, d, n).effects;
      !d.msg.key.fromMe && jid !in seen ==>
        |es| == 2 && es[0] == SeenWritten(seen + [jid]) &&
        es[1] == Sent(Outgoing(sock, jid, WelcomeFor(jid, d.msg.pushName)))
  {
    CommandEffectsShape(sock, d, n);
    var jid := d.msg.key.remoteJid;
    if !d.msg.key.fromMe && jid !in seen {
      var g := [SeenWritten(seen + [jid]), Sent(Outgoing(sock, jid, WelcomeFor(jid, d.msg.pushName)))];
      assert Step(sock, seen, d, n).effects == g + [];
    }
  }

  /**
   * A known sender whose body names a command outside the table, and whose
   * handler does not throw, gets exactly one reply: the "unknown command" text.
   */
  lemma UnknownCommandReply(sock: nat, seen: seq<string>, d: Delivery, n: nat, name: string)
    requires !d.msg.key.fromMe && d.msg.key.remoteJid in seen && !d.env.handlerThrows
    requires CommandName(GetMessageText(d.msg)) == Some(name) && name !in CommandNames
    ensures Step(sock, seen, d, n).effects == [Sent(Outgoing(sock, d.msg.key.remoteJid, Text(UnknownReply)))]
  {
    var jid := d.msg.key.remoteJid;
    assert Step(sock, seen, d, n).effects == CommandEffects(sock, d, n);
    UnknownDispatch(name, d.msg.pushName, QuotedMessage(d.msg), n, d.env);
    assert CommandEffects(sock, d, n) == SendAll(sock, jid, [Text(UnknownReply)]);
    SendOne(sock, jid, Text(UnknownReply));
  }

  lemma SendOne(sock: nat, to: string, p: Payload)
    ensures SendAll(sock, to, [p]) == [Sent(Outgoing(sock, to, p))]
  {
  }
}

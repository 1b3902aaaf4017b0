/**
 * Command dispatch: a body that starts with `.` names a command (the first
 * space-separated token of the trimmed rest, lower-cased), the command
 * table maps names and aliases to handlers, and each handler yields the
 * replies it sends. Values that come from the clock, `Math.random` or the
 * media download are fields of an `Environment`.
 */
module Commands {
  import opened Wrappers
  import opened Strings
  import opened Messages

  const Prefix: string := "."

  /**
   * The command name of a body, or `None` when the body does not start with
   * the prefix: `body.slice(1).trim().split(/ +/)[0].toLowerCase()`. The name
   * is the text of the trimmed rest up to its first space, so it holds no
   * space, does not start with whitespace and has no upper-case ASCII letter.
   */
  function CommandName(body: string): (r: Option<string>)
    ensures r.None? <==> !StartsWith(body, Prefix)
    ensures r.Some? ==> var t := Trim(body[1..]); r.value == ToLowerAscii(t[..IndexOfSpace(t)])
    ensures r.Some? ==> ' ' !in r.value
    ensures r.Some? ==> r.value == [] || !IsJsWhitespace(r.value[0])
    ensures r.Some? ==> forall i :: 0 <= i < |r.value| ==> !IsAsciiUpper(r.value[i])
  {
    if StartsWith(body, Prefix) then
      var args := SplitOnSpaces(Trim(body[1..]));
      Some(ToLowerAscii(args[0]))
    else None
  }

  datatype Command = Menu | Ping | Hello | Time | Info | Quote | RandomNum | Waifu | Sticker | Download | Unknown

  /** The `case` labels of the command `switch`. */
  const CommandNames: set<string> :=
    {"menu", "ping", "hello", "time", "info", "quote", "randomnum", "random",
     "waifu", "sticker", "dl", "download"}

  /** The command `switch`: every name outside the table falls to `Unknown`. */
  function Lookup(name: string): (c: Command)
    ensures c == Unknown <==> name !in CommandNames
  {
    if name == "menu" then Menu
    else if name == "ping" then Ping
    else if name == "hello" then Hello
    else if name == "time" then Time
    else if name == "info" then Info
    else if name == "quote" then Quote
    else if name == "randomnum" || name == "random" then RandomNum
    else if name == "waifu" then Waifu
    else if name == "sticker" then Sticker
    else if name == "dl" || name == "download" then Download
    else Unknown
  }

  /** `random` is an alias of `randomnum`, `download` of `dl`. */
  lemma Aliases()
    ensures Lookup("random") == Lookup("randomnum") == RandomNum
    ensures Lookup("download") == Lookup("dl") == Download
  {
  }

  /**
   * A body made of the prefix and one word, with no space inside the word
   * and no whitespace at its ends, names that word, lower-cased.
   */
  lemma WordCommand(body: string)
    requires StartsWith(body, Prefix)
    requires ' ' !in body[1..]
    requires |body| == 1 || (!IsJsWhitespace(body[1]) && !IsJsWhitespace(body[|body| - 1]))
    ensures CommandName(body) == Some(ToLowerAscii(body[1..]))
  {
    var w := body[1..];
    assert LeadingWhitespace(w) == 0;
    assert TrailingWhitespace(w) == 0;
    assert w[0..] == w && w[..|w| - 0] == w;
    assert Trim(w) == w;
    assert IndexOfSpace(w) == |w|;
    assert w[..|w|] == w;
  }

  /** A bare `.` is parsed as the empty command name, which is not in the table. */
  lemma BarePrefix()
    ensures CommandName(Prefix) == Some("") && Lookup("") == Unknown
  {
    assert Prefix[1..] == "";
    WordCommand(Prefix);
    assert ToLowerAscii("") == "";
    EmptyNameUnknown();
  }

  /** Every name of the table is at least two characters long; the empty name is none of them. */
  lemma EmptyNameUnknown()
    ensures forall name :: name in CommandNames ==> |name| >= 2
    ensures Lookup("") == Unknown
  {
  }

  // ---------------------------------------------------------------------
  // Replies
  // ---------------------------------------------------------------------

  /** What one `sock.sendMessage` call carries. */
  datatype Payload =
    | Text(text: string)
    | Welcome(text: string, mentions: seq<string>)
    | Picture(url: string, caption: string)
    | StickerOf(source: MediaType)

  /**
   * The values a handler takes from outside: the locale time string, the
   * draws of `Math.random` (used modulo the size of what they index), whether
   * the media download and file write succeed, `Date.now()`, the install
   * directory, and whether the handler throws.
   */
  datatype Environment = Environment(
    now: string,
    quotePick: nat,
    randomPick: nat,
    waifuPick: nat,
    downloadOk: bool,
    clockMillis: nat,
    baseDir: string,
    handlerThrows: bool)

  const MenuText: string :=
    "✅ Commandes disponibles :\n" +
    ".menu - Afficher les commandes\n" +
    ".ping - Vérifier si le bot répond\n" +
    ".hello - Saluer le bot\n" +
    ".time - Heure actuelle\n" +
    ".info - Infos sur le bot\n" +
    ".quote - Citation aléatoire\n" +
    ".randomnum - Nombre aléatoire\n" +
    ".sticker - Créer sticker (répondez à une image avec .sticker)\n" +
    ".waifu - Image waifu\n" +
    ".dl - Télécharger un média (répondez avec .dl)\n"

  const PongText: string := "🏓 Pong!"
  const Quotes: seq<string> := [
    "La vie est belle !",
    "Ne rêve pas ta vie, vis tes rêves !",
    "Le succès est la somme de petits efforts répétés.",
    "Rien n'est impossible, l'impossible prend juste un peu plus de temps."]
  const Waifus: seq<string> := ["https://i.imgur.com/1.png", "https://i.imgur.com/2.png", "https://i.imgur.com/3.png"]
  const StickerHint: string := "❌ Veuillez répondre à une image ou vidéo avec .sticker"
  const StickerProgress: string := "⏳ Création du sticker en cours..."
  const StickerError: string := "❌ Erreur lors de la création du sticker"
  const DownloadHint: string := "❌ Veuillez répondre à un média avec .dl"
  const DownloadProgress: string := "⏳ Téléchargement du média en cours..."
  const DownloadError: string := "❌ Erreur lors du téléchargement du média"
  const SavedHead: string := "✅ Média téléchargé: "
  const UnknownReply: string := "❌ Commande inconnue. Tapez .menu pour la liste"
  const CommandError: string := "❌ Erreur lors de l'exécution de la commande"

  /** Everything the welcome says after the sender's name. */
  const WelcomeTail: string :=
    " !\n\n🤖 *CRAZY MINI XMD* est maintenant connecté.\n\n💡 Tapez *.menu* pour voir les commandes disponibles.\n\n📱 Bot développé avec Baileys\n✨ Profitez de toutes les fonctionnalités !"

  /** The welcome sent to a contact seen for the first time. */
  function WelcomeFor(jid: string, pushName: Option<string>): (p: Payload)
    ensures p.Welcome? && p.mentions == Mentions(jid)
  {
    Welcome("👋 Bienvenue " + NameOr(pushName, "Cher utilisateur") + WelcomeTail, Mentions(jid))
  }

  /** `downloaded_${Date.now()}${extension}`. */
  function DownloadName(millis: nat, t: MediaType): (name: string)
    ensures |name| > |Extension(t)| && name[|name| - |Extension(t)|..] == Extension(t)
  {
    "downloaded_" + NatToString(millis) + Extension(t)
  }

  /**
   * `createSticker`: a hint when there is no quoted image or video;
   * otherwise a progress notice and then the sticker, or the sticker error
   * when the download fails.
   */
  function StickerReplies(quoted: Option<Content>, env: Environment): (r: seq<Payload>)
    ensures (quoted.None? || StickerType(quoted.value).None?) <==> r == [Text(StickerHint)]
    ensures quoted.Some? && StickerType(quoted.value).Some? ==>
      |r| == 2 && r[0] == Text(StickerProgress) &&
      r[1] == (if env.downloadOk then StickerOf(StickerType(quoted.value).value) else Text(StickerError))
  {
    if quoted.None? || StickerType(quoted.value).None? then [Text(StickerHint)]
    else
      var kind := StickerType(quoted.value).value;
      [Text(StickerProgress)] + [if env.downloadOk then StickerOf(kind) else Text(StickerError)]
  }

  /**
   * `downloadMedia`: a hint when the quoted message carries no medium;
   * otherwise a progress notice and then either the download error or, once
   * the medium is saved, a notice that starts with the saved file's name,
   * which carries the extension of the medium chosen.
   */
  function DownloadReplies(quoted: Option<Content>, env: Environment): (r: seq<Payload>)
    ensures (quoted.None? || DownloadType(quoted.value).None?) <==> r == [Text(DownloadHint)]
    ensures quoted.Some? && DownloadType(quoted.value).Some? ==>
      |r| == 2 && r[0] == Text(DownloadProgress) && (r[1] == Text(DownloadError) <==> !env.downloadOk)
    ensures quoted.Some? && DownloadType(quoted.value).Some? && env.downloadOk ==>
      r[1].Text? && StartsWith(r[1].text, SavedHead + DownloadName(env.clockMillis, DownloadType(quoted.value).value))
  {
    if quoted.None? || DownloadType(quoted.value).None? then [Text(DownloadHint)]
    else
      var name := DownloadName(env.clockMillis, DownloadType(quoted.value).value);
      var path := env.baseDir + "/downloads/" + name;
      var notice := SavedHead + name + "\nChemin: " + path;
      assert notice[..|SavedHead + name|] == SavedHead + name;
      var saved := Labelled(SavedHead, name + "\nChemin: " + path);
      assert saved == notice;
      assert DownloadError[0] == '❌';
      [Text(DownloadProgress)] + [if env.downloadOk then Text(saved) else Text(DownloadError)]
  }

  /** A reply made of a fixed label followed by a variable value; it starts with the label's first character. */
  function Labelled(head: string, value: string): (t: string)
    requires head != []
    ensures t != [] && t[0] == head[0]
  {
    head + value
  }

  /** The error and hint texts differ from one another and from every reply that starts with another symbol. */
  lemma ReplyTextsDiffer()
    ensures UnknownReply[0] == CommandError[0] == '❌'
    ensures UnknownReply != CommandError
    ensures MenuText[0] != '❌' && PongText[0] != '❌'
    ensures forall t :: t in [StickerHint, StickerError, DownloadHint, DownloadError] ==>
      t != UnknownReply && t != CommandError
    ensures StickerProgress[0] == '⏳' && DownloadProgress[0] == '⏳'
  {
    assert |UnknownReply| == 46 && |CommandError| == 43;
    assert |StickerHint| == 54 && |StickerError| == 39 && |DownloadHint| == 39 && |DownloadError| == 40;
  }

  /**
   * What the handler of `cmd` sends. Every command sends at least one
   * reply, never a welcome, and the "unknown command" reply is sent by the
   * `Unknown` case alone, as its only reply.
   */
  function Replies(cmd: Command, pushName: Option<string>, quoted: Option<Content>,
                   sessionCount: nat, env: Environment): (r: seq<Payload>)
    ensures 1 <= |r| <= 2
    ensures forall p :: p in r ==> !p.Welcome?
    ensures cmd == Unknown <==> Text(UnknownReply) in r
    ensures cmd == Unknown ==> r == [Text(UnknownReply)]
    ensures Text(CommandError) !in r
  {
    ReplyTextsDiffer();
    match cmd
    case Menu => [Text(MenuText)]
    case Ping => [Text(PongText)]
    case Hello => [Text(Labelled("👋 Hello ", NameOr(pushName, "user") + "!"))]
    case Time => [Text(Labelled("⏰ Heure actuelle : ", env.now))]
    case Info =>
      [Text(Labelled("🤖 Bot: CRAZY MINI XMD\nSessions actives: ", NatToString(sessionCount) + "\nPréfixe: ."))]
    case Quote => [Text(Labelled("💬 Citation : ", Quotes[env.quotePick % |Quotes|]))]
    case RandomNum => [Text(Labelled("🔢 Nombre aléatoire : ", NatToString(env.randomPick % 1000)))]
    case Waifu => [Picture(Waifus[env.waifuPick % |Waifus|], "✨ Waifu aléatoire")]
    case Sticker => StickerReplies(quoted, env)
    case Download => DownloadReplies(quoted, env)
    case Unknown => [Text(UnknownReply)]
  }

  /**
   * The `try`/`catch` around the `switch`: the handler's sends and, when the
   * handler throws, exactly one error reply after them.
   */
  function Dispatch(cmd: Command, pushName: Option<string>, quoted: Option<Content>,
                    sessionCount: nat, env: Environment): (r: seq<Payload>)
    ensures |r| >= 1
    ensures !env.handlerThrows ==> r == Replies(cmd, pushName, quoted, sessionCount, env)
    ensures env.handlerThrows ==>
      r[..|r| - 1] == Replies(cmd, pushName, quoted, sessionCount, env) && r[|r| - 1] == Text(CommandError)
    ensures forall p :: p in r ==> !p.Welcome?
  {
    var sent := Replies(cmd, pushName, quoted, sessionCount, env);
    if env.handlerThrows then
      sent + [Text(CommandError)]
    else sent
  }

  /** The error reply is sent once when the handler throws, and never otherwise. */
  lemma DispatchErrorOnce(cmd: Command, pushName: Option<string>, quoted: Option<Content>,
                          sessionCount: nat, env: Environment)
    ensures multiset(Dispatch(cmd, pushName, quoted, sessionCount, env))[Text(CommandError)] ==
      if env.handlerThrows then 1 else 0
  {
    var sent := Replies(cmd, pushName, quoted, sessionCount, env);
    assert multiset(sent)[Text(CommandError)] == 0;
    if env.handlerThrows {
      assert multiset(sent + [Text(CommandError)]) == multiset(sent) + multiset([Text(CommandError)]);
    }
  }

  /** A name outside the table, when nothing throws, gets only the unknown-command reply. */
  lemma UnknownDispatch(name: string, pushName: Option<string>, quoted: Option<Content>, n: nat, env: Environment)
    requires name !in CommandNames && !env.handlerThrows
    ensures Dispatch(Lookup(name), pushName, quoted, n, env) == [Text(UnknownReply)]
  {
  }
}

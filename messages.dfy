/**
 * Inbound chat messages as the gateway reads them: the text body is the
 * first non-empty of a fixed list of optional fields, the quoted message of
 * a reply carries the media a `.sticker` or `.dl` command works on, and a
 * welcome mentions the sender's number when the JID is a user JID.
 */
module Messages {
  import opened Wrappers
  import opened Strings

  /** An image, video, audio or document sub-message; only its caption is read. */
  datatype MediaMessage = MediaMessage(caption: Option<string>)

  /** `extendedTextMessage`: a text and, in its context info, an optional quoted message. */
  datatype ExtendedText = ExtendedText(text: Option<string>, quoted: Option<Content>)

  /** The fields of a message object that the gateway reads; each may be absent. */
  datatype Content = Content(
    conversation: Option<string>,
    extendedText: Option<ExtendedText>,
    image: Option<MediaMessage>,
    video: Option<MediaMessage>,
    audio: Option<MediaMessage>,
    document: Option<MediaMessage>)

  datatype Key = Key(remoteJid: string, fromMe: bool)

  /**
   * One element of `m.messages`: its key, the sender's display name, the
   * stub type, the optional `message` object and, for the case where
   * `message` is absent, the same content fields read off the envelope itself.
   */
  datatype Inbound = Inbound(
    key: Key,
    pushName: Option<string>,
    stubType: Option<string>,
    message: Option<Content>,
    envelope: Content)

  /** A string field is truthy in JavaScript when it is present and not empty. */
  predicate Truthy(f: Option<string>) { f.Some? && f.value != "" }

  /**
   * `name || fallback`: the display name when it is truthy, the fallback
   * otherwise; with a non-empty fallback the result is never empty.
   */
  function NameOr(name: Option<string>, fallback: string): (r: string)
    ensures Truthy(name) ==> r == name.value
    ensures !Truthy(name) ==> r == fallback
    ensures fallback != "" ==> r != ""
  {
    if Truthy(name) then name.value else fallback
  }

  // ---------------------------------------------------------------------
  // getMessageText
  // ---------------------------------------------------------------------

  /** `msg.message || msg`: the message object when there is one, the envelope only when there is none. */
  function SelectedContent(msg: Inbound): (c: Content)
    ensures msg.message.Some? ==> c == msg.message.value
    ensures msg.message.None? ==> c == msg.envelope
  {
    msg.message.GetOr(msg.envelope)
  }

  /** `m?.caption`. */
  function CaptionOf(m: Option<MediaMessage>): Option<string> {
    if m.Some? then m.value.caption else None
  }

  /** `message.extendedTextMessage?.text`. */
  function ExtendedTextOf(c: Content): Option<string> {
    if c.extendedText.Some? then c.extendedText.value.text else None
  }

  /** The body fields of a message, in the order they are tried. */
  function BodyFields(c: Content): seq<Option<string>> {
    [c.conversation, ExtendedTextOf(c), CaptionOf(c.image), CaptionOf(c.video),
     CaptionOf(c.audio), CaptionOf(c.document)]
  }

  /**
   * The first truthy field of `fs`, or `""` when none is: the result is
   * empty exactly when every field is falsy, and otherwise it is the value
   * of some field all of whose predecessors are falsy.
   */
  function FirstNonEmpty(fs: seq<Option<string>>): (r: string)
    ensures r == "" <==> forall i :: 0 <= i < |fs| ==> !Truthy(fs[i])
    ensures r != "" ==> exists i :: 0 <= i < |fs| && fs[i] == Some(r) &&
                                    forall j :: 0 <= j < i ==> !Truthy(fs[j])
  {
    if fs == [] then ""
    else if Truthy(fs[0]) then fs[0].value
    else
      var r := FirstNonEmpty(fs[1..]);
      assert forall i :: 1 <= i < |fs| ==> fs[i] == fs[1..][i - 1];
      r
  }

  /**
   * `getMessageText(msg)`: `""` for a revoked message, otherwise the first
   * non-empty of conversation, extended text, and the image, video, audio
   * and document captions, read from `msg.message` when it is present and
   * from `msg` itself otherwise.
   */
  function GetMessageText(msg: Inbound): (r: string)
    ensures msg.stubType == Some("REVOKE") ==> r == ""
    ensures msg.stubType != Some("REVOKE") ==> r == FirstNonEmpty(BodyFields(SelectedContent(msg)))
  {
    var message := SelectedContent(msg);
    if msg.stubType == Some("REVOKE") then ""
    else
      var r := NameOr(message.conversation,
               NameOr(ExtendedTextOf(message),
               NameOr(CaptionOf(message.image),
               NameOr(CaptionOf(message.video),
               NameOr(CaptionOf(message.audio),
               NameOr(CaptionOf(message.document), ""))))));
      FirstNonEmptyUnfold(BodyFields(message));
      r
  }

  /** `FirstNonEmpty` over six fields is the `||` chain over them. */
  lemma FirstNonEmptyUnfold(fs: seq<Option<string>>)
    requires |fs| == 6
    ensures FirstNonEmpty(fs) ==
      NameOr(fs[0], NameOr(fs[1], NameOr(fs[2], NameOr(fs[3], NameOr(fs[4], NameOr(fs[5], ""))))))
  {
    assert fs[1..][1..][1..][1..][1..][1..] == [];
  }

  /**
   * `msg.message?.extendedTextMessage?.contextInfo?.quotedMessage`: read
   * from `message` only, never from the envelope, so a message without a
   * message object or without an extended text quotes nothing.
   */
  function QuotedMessage(msg: Inbound): (q: Option<Content>)
    ensures msg.message.None? || msg.message.value.extendedText.None? ==> q.None?
    ensures msg.message.Some? && msg.message.value.extendedText.Some? ==>
      q == msg.message.value.extendedText.value.quoted
  {
    if msg.message.Some? && msg.message.value.extendedText.Some?
    then msg.message.value.extendedText.value.quoted
    else None
  }

  // ---------------------------------------------------------------------
  // Media of a quoted message
  // ---------------------------------------------------------------------

  datatype MediaType = Image | Video | Audio | Document

  predicate Present(q: Content, t: MediaType) {
    match t
    case Image => q.image.Some?
    case Video => q.video.Some?
    case Audio => q.audio.Some?
    case Document => q.document.Some?
  }

  /** Priority of a media type when several are present: lower wins. */
  function Rank(t: MediaType): nat {
    match t
    case Image => 0
    case Video => 1
    case Audio => 2
    case Document => 3
  }

  /**
   * The media type `.dl` downloads: none when the quoted message carries no
   * media, otherwise the present type of highest priority
   * (image, then video, then audio, then document).
   */
  function DownloadType(q: Content): (r: Option<MediaType>)
    ensures r.Some? ==> Present(q, r.value) && forall t :: Present(q, t) ==> Rank(r.value) <= Rank(t)
    ensures r.None? <==> forall t :: !Present(q, t)
  {
    if q.image.Some? then Some(Image)
    else if q.video.Some? then Some(Video)
    else if q.audio.Some? then Some(Audio)
    else if q.document.Some? then Some(Document)
    else None
  }

  /**
   * The file extension of a downloaded medium: `.jpg`, `.mp4` and `.mp3` for
   * image, video and audio, and `.bin` for everything else, which is only
   * the document type.
   */
  function Extension(t: MediaType): (e: string)
    ensures |e| == 4 && e[0] == '.'
    ensures e == ".bin" <==> t == Document
  {
    match t
    case Image => assert ".jpg"[1] != ".bin"[1]; ".jpg"
    case Video => assert ".mp4"[1] != ".bin"[1]; ".mp4"
    case Audio => assert ".mp3"[1] != ".bin"[1]; ".mp3"
    case Document => ".bin"
  }

  /** Different media types get different extensions. */
  lemma ExtensionInjective(a: MediaType, b: MediaType)
    ensures Extension(a) == Extension(b) ==> a == b
  {
  }

  /**
   * The media type `.sticker` converts: none unless the quoted message has
   * an image or a video, and the image when it has both.
   */
  function StickerType(q: Content): (r: Option<MediaType>)
    ensures r.None? <==> !Present(q, Image) && !Present(q, Video)
    ensures r.Some? ==> Present(q, r.value) && (r.value == Image || r.value == Video)
    ensures r.Some? && Present(q, Image) ==> r.value == Image
  {
    if q.image.Some? then Some(Image)
    else if q.video.Some? then Some(Video)
    else None
  }

  /** Whenever a sticker can be made, it is made from the medium `.dl` would download. */
  lemma StickerAgreesWithDownload(q: Content)
    ensures StickerType(q).Some? ==> StickerType(q) == DownloadType(q)
  {
  }

  // ---------------------------------------------------------------------
  // Welcome mention
  // ---------------------------------------------------------------------

  const UserJidSuffix: string := "@s.whatsapp.net"

  /**
   * The `mentionedJid` list of a welcome: empty unless the JID names a
   * user (`@s.whatsapp.net`), and then the single number before the first
   * `@`.
   */
  function Mentions(jid: string): (r: seq<string>)
    ensures !Contains(jid, UserJidSuffix) ==> r == []
    ensures Contains(jid, UserJidSuffix) ==>
      |r| == 1 && StartsWith(jid, r[0]) && '@' !in r[0] && |r[0]| < |jid| && jid[|r[0]|] == '@'
  {
    if Contains(jid, UserJidSuffix) then
      ContainsHead(jid, UserJidSuffix);
      [BeforeFirst(jid, '@')]
    else []
  }

  /** A string that contains `sub` contains its first character. */
  lemma {:induction false} ContainsHead(s: string, sub: string)
    requires sub != [] && Contains(s, sub)
    ensures sub[0] in s
    decreases |s|
  {
    if !StartsWith(s, sub) {
      ContainsHead(s[1..], sub);
    } else {
      assert s[0] == sub[0];
    }
  }
}

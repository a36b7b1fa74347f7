/**
 * The Telegram value types the bot framework consumes: users, chats, the
 * recipients built from them, and inbound messages with their kind.
 * Modelled on telegram/types.go.
 */
module TelegramTypes {
  import opened Wrappers

  /** A Go float64 (coordinates). No arithmetic is done on it, so it stays opaque. */
  type Float64(==)

  // ---------------------------------------------------------------------------
  // Decimal rendering (strconv.FormatInt(n, 10) and strconv.Itoa)
  // ---------------------------------------------------------------------------

  predicate IsDigit(c: char) { '0' <= c <= '9' }

  function DigitChar(d: nat): (c: char)
    requires d < 10
    ensures IsDigit(c) && c as int - '0' as int == d
  {
    ('0' as int + d) as char
  }

  /** Base-10 digits of `n`, most significant first, without leading zeros. */
  function Digits(n: nat): (s: string)
    ensures |s| >= 1
    ensures forall i :: 0 <= i < |s| ==> IsDigit(s[i])
    ensures n > 0 ==> s[0] != '0'
    decreases n
  {
    if n < 10 then [DigitChar(n)] else Digits(n / 10) + [DigitChar(n % 10)]
  }

  /** strconv.FormatInt(n, 10): a minus sign for negative numbers, then the digits. */
  function FormatInt(n: int): (s: string)
    ensures |s| >= 1
    ensures n < 0 <==> s[0] == '-'
    ensures forall i :: 0 < i < |s| ==> IsDigit(s[i])
  {
    if n < 0 then "-" + Digits(-n) else Digits(n)
  }

  /** Reference reading of a digit string, least significant digit last. */
  function DigitsValue(s: string): nat
    requires forall i :: 0 <= i < |s| ==> IsDigit(s[i])
    decreases |s|
  {
    if s == [] then 0
    else
      assert IsDigit(s[|s| - 1]);
      DigitsValue(s[..|s| - 1]) * 10 + (s[|s| - 1] as int - '0' as int)
  }

  /** Reference reading of FormatInt's output: an optional minus sign, then digits. */
  function ParseInt(s: string): Option<int>
  {
    if |s| > 0 && s[0] == '-' then
      if forall i :: 1 <= i < |s| ==> IsDigit(s[i]) then Some(-(DigitsValue(s[1..]) as int)) else None
    else
      if forall i :: 0 <= i < |s| ==> IsDigit(s[i]) then Some(DigitsValue(s)) else None
  }

  lemma {:induction false} DigitsRoundTrip(n: nat)
    ensures DigitsValue(Digits(n)) == n
    decreases n
  {
    if n >= 10 {
      DigitsRoundTrip(n / 10);
      var s := Digits(n);
      assert s[..|s| - 1] == Digits(n / 10);
    }
  }

  /** Reading back a rendered integer yields the integer. */
  lemma FormatIntRoundTrip(n: int)
    ensures ParseInt(FormatInt(n)) == Some(n)
  {
    var s := FormatInt(n);
    if n < 0 {
      assert s[1..] == Digits(-n);
      DigitsRoundTrip(-n);
    } else {
      DigitsRoundTrip(n);
    }
  }

  /** Distinct integers render to distinct decimal strings. */
  lemma FormatIntInjective(a: int, b: int)
    requires a != b
    ensures FormatInt(a) != FormatInt(b)
  {
    FormatIntRoundTrip(a);
    FormatIntRoundTrip(b);
  }

  // ---------------------------------------------------------------------------
  // Users, chats and recipients
  // ---------------------------------------------------------------------------

  /** A Telegram user (or bot). `id` is a Go int64. */
  datatype User = User(id: int, firstName: string, lastName: string, username: string)

  /** Chat kinds, a Go string type. */
  type ChatType = string
  const TYPECHAT: ChatType := "private"
  const TYPEGROUP: ChatType := "group"
  const TYPESUPERGROUP: ChatType := "supergroup"
  const TYPECHANNEL: ChatType := "channel"

  /** A chat; it embeds the user record that carries its id and username. */
  datatype Chat = Chat(user: User, title: string, chatType: ChatType)

  /** The Recipient interface: either a *User or a *Chat. */
  datatype Recipient = UserRecipient(u: User) | ChatRecipient(c: Chat)

  /** User.Identifier: the decimal rendering of the id, so distinct users get distinct keys. */
  function UserIdentifier(u: User): (r: string)
    ensures |r| >= 1
    ensures ParseInt(r) == Some(u.id)
  {
    FormatIntRoundTrip(u.id);
    FormatInt(u.id)
  }

  /** User.Name: first name, then " last name" and "(username)" when those are present. */
  function UserName(u: User): (r: string)
    ensures |r| == |u.firstName| + (if u.lastName != "" then 1 + |u.lastName| else 0)
                                 + (if u.username != "" then 2 + |u.username| else 0)
    ensures r[..|u.firstName|] == u.firstName
    ensures u.lastName != "" ==> r[|u.firstName|..|u.firstName| + 1 + |u.lastName|] == " " + u.lastName
    ensures u.username != "" ==> r[|r| - |u.username| - 2..] == "(" + u.username + ")"
  {
    var withLast := if u.lastName != "" then u.firstName + " " + u.lastName else u.firstName;
    if u.username != "" then withLast + "(" + u.username + ")" else withLast
  }

  /** Channels and supergroups are keyed by "@username"; other chats by their numeric id. */
  predicate IsPublicChat(c: Chat) {
    c.chatType == TYPECHANNEL || c.chatType == TYPESUPERGROUP
  }

  /** Chat.Identifier. */
  function ChatIdentifier(c: Chat): (r: string)
    ensures |r| >= 1
    ensures IsPublicChat(c) ==> r[0] == '@' && r[1..] == c.user.username
    ensures !IsPublicChat(c) ==> ParseInt(r) == Some(c.user.id)
  {
    if IsPublicChat(c) then "@" + c.user.username else UserIdentifier(c.user)
  }

  /** A chat's name is its title, whatever the embedded user is called. */
  lemma ChatNameIsTitle(c: Chat, u: User)
    ensures Name(ChatRecipient(c)) == c.title
    ensures Name(ChatRecipient(c.(user := u))) == Name(ChatRecipient(c))
  {
  }

  /**
   * Recipient.Identifier dispatches to the dynamic type: a user and a
   * private chat or group are keyed by a decimal id, channels and
   * supergroups by "@" and their username.
   */
  function Identifier(r: Recipient): (key: string)
    ensures |key| >= 1
    ensures r.UserRecipient? ==> ParseInt(key) == Some(r.u.id)
    ensures r.ChatRecipient? && IsPublicChat(r.c) ==> key[0] == '@'
    ensures r.ChatRecipient? && !IsPublicChat(r.c) ==> ParseInt(key) == Some(r.c.user.id)
  {
    match r
    case UserRecipient(u) => UserIdentifier(u)
    case ChatRecipient(c) => ChatIdentifier(c)
  }

  /** Recipient.Name dispatches to the dynamic type; Chat.Name is the chat's title. */
  function Name(r: Recipient): (name: string)
    ensures r.UserRecipient? ==> |r.u.firstName| <= |name| && name[..|r.u.firstName|] == r.u.firstName
    ensures r.ChatRecipient? ==> name == r.c.title
  {
    match r
    case UserRecipient(u) => UserName(u)
    case ChatRecipient(c) => c.title
  }

  /** Recipient.AsUser: (self, true) for a user, (nil, false) for a chat. */
  function AsUser(r: Recipient): (res: (Option<User>, bool))
    ensures res.1 <==> r.UserRecipient?
    ensures res.1 ==> res.0 == Some(r.u)
    ensures !res.1 ==> res.0 == None
  {
    match r
    case UserRecipient(u) => (Some(u), true)
    case ChatRecipient(_) => (None, false)
  }

  /** Recipient.AsChat: the mirror image of AsUser. */
  function AsChat(r: Recipient): (res: (Option<Chat>, bool))
    ensures res.1 <==> r.ChatRecipient?
    ensures res.1 ==> res.0 == Some(r.c)
    ensures !res.1 ==> res.0 == None
  {
    match r
    case UserRecipient(_) => (None, false)
    case ChatRecipient(c) => (Some(c), true)
  }

  /** Exactly one of AsUser and AsChat succeeds, and they never disagree about the kind. */
  lemma AsUserAsChatExclusive(r: Recipient)
    ensures AsUser(r).1 != AsChat(r).1
  {
  }

  /**
   * A channel's key can never collide with a user's key: the former starts
   * with '@', the latter with a digit or a minus sign.
   */
  lemma PublicChatKeyDiffersFromUserKey(c: Chat, u: User)
    requires IsPublicChat(c)
    ensures ChatIdentifier(c) != UserIdentifier(u)
  {
    var s := UserIdentifier(u);
    assert s[0] == '-' || IsDigit(s[0]);
  }

  /** Two users have the same key exactly when they have the same id. */
  lemma UserIdentifierInjective(u: User, v: User)
    ensures UserIdentifier(u) == UserIdentifier(v) <==> u.id == v.id
  {
    if u.id != v.id {
      FormatIntInjective(u.id, v.id);
    }
  }

  // ---------------------------------------------------------------------------
  // Messages
  // ---------------------------------------------------------------------------

  /** A file reference; the local io.Reader stream is not part of the model. */
  datatype File = File(id: string, mimeType: string, size: int, filename: string)
  datatype PhotoSize = PhotoSize(file: File, width: int, height: int)
  datatype Document = Document(file: File, thumb: Option<PhotoSize>)
  datatype Audio = Audio(file: File, duration: int, performer: string, title: string)
  datatype Sticker = Sticker(file: File, width: int, height: int, thumb: Option<PhotoSize>)
  datatype Video = Video(file: File, width: int, height: int, duration: int, thumb: Option<PhotoSize>)
  datatype Voice = Voice(file: File, duration: int)
  datatype Contact = Contact(number: string, firstName: string, lastName: string, userID: int)
  datatype Location = Location(latitude: Float64, longitude: Float64)
  datatype Forward = Forward(from: Option<User>, timestamp: int)

  /** Message kinds, a Go string type. */
  type MessageType = string
  const CONTACT: MessageType := "Contact"
  const LOCATION: MessageType := "Location"
  const STICKER: MessageType := "Sticker"
  const PHOTO: MessageType := "Photo"
  const VIDEO: MessageType := "Video"
  const VOICE: MessageType := "Voice"
  const AUDIO: MessageType := "Audio"
  const DOCUMENT: MessageType := "Document"
  const TEXT: MessageType := "Text"
  const STATUS: MessageType := "Status"

  /**
   * An inbound message. Optional parts (Go nil pointers, nil slices) are
   * Options; `photo` is None for a nil slice and Some([]) for an empty one.
   */
  datatype Message = Message(
    id: int,
    sender: User,
    timestamp: int,
    chat: Chat,
    forward: Option<Forward>,
    replyTo: Option<Message>,
    text: string,
    audio: Option<Audio>,
    document: Option<Document>,
    photo: Option<seq<PhotoSize>>,
    sticker: Option<Sticker>,
    video: Option<Video>,
    voice: Option<Voice>,
    caption: string,
    contact: Option<Contact>,
    location: Option<Location>)

  /** True when the message carries a contact, a location or any media. */
  predicate HasAttachment(m: Message) {
    m.contact.Some? || m.location.Some? || m.sticker.Some? || m.photo.Some?
    || m.video.Some? || m.voice.Some? || m.audio.Some? || m.document.Some?
  }

  /**
   * Message.Type: the first present part in the order contact, location,
   * sticker, photo, video, voice, audio, document; then TEXT for a non-empty
   * text; STATUS otherwise.
   */
  function Type(m: Message): (r: MessageType)
    ensures r == CONTACT <==> m.contact.Some?
    ensures r == LOCATION <==> m.contact.None? && m.location.Some?
    ensures r == STICKER <==> m.contact.None? && m.location.None? && m.sticker.Some?
    ensures r == PHOTO <==> m.contact.None? && m.location.None? && m.sticker.None? && m.photo.Some?
    ensures r == VIDEO <==> m.contact.None? && m.location.None? && m.sticker.None? && m.photo.None?
                            && m.video.Some?
    ensures r == VOICE <==> m.contact.None? && m.location.None? && m.sticker.None? && m.photo.None?
                            && m.video.None? && m.voice.Some?
    ensures r == AUDIO <==> m.contact.None? && m.location.None? && m.sticker.None? && m.photo.None?
                            && m.video.None? && m.voice.None? && m.audio.Some?
    ensures r == DOCUMENT <==> m.contact.None? && m.location.None? && m.sticker.None? && m.photo.None?
                               && m.video.None? && m.voice.None? && m.audio.None? && m.document.Some?
    ensures r == TEXT <==> !HasAttachment(m) && m.text != ""
    ensures r == STATUS <==> !HasAttachment(m) && m.text == ""
  {
    if m.contact.Some? then CONTACT
    else if m.location.Some? then LOCATION
    else if m.sticker.Some? then STICKER
    else if m.photo.Some? then PHOTO
    else if m.video.Some? then VIDEO
    else if m.voice.Some? then VOICE
    else if m.audio.Some? then AUDIO
    else if m.document.Some? then DOCUMENT
    else if m.text != "" then TEXT
    else STATUS
  }
}

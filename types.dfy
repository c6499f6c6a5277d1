/**
 * The Bot API records the core works on, reduced to the fields it reads,
 * and the small accessors defined on them: the chat-type predicates and
 * `Identifier` of chats and users.
 */
module Types {
  import opened Wrappers
  import opened GoStrings

  /** An attached document, video or contact; only its presence matters here. */
  datatype Document = Document(fileID: string)
  datatype Video = Video(fileID: string)
  datatype Contact = Contact(phoneNumber: string)

  datatype User = User(id: Int64, username: string)
  {
    /** `User.Identifier`: the same rule as `IdentifierOf`. */
    function Identifier(): (r: string)
      ensures r != "" && (r[0] == '@' <==> id == 0)
      ensures r == IdentifierOf(id, username)
    {
      IdentifierOf(id, username)
    }
  }

  const ChatPrivate: string := "private"
  const ChatGroup: string := "group"
  const ChatSupergroup: string := "supergroup"
  const ChatChannel: string := "channel"

  datatype Chat = Chat(id: Int64, chatType: string, username: string)
  {
    predicate IsPrivate() { chatType == ChatPrivate }
    predicate IsGroup() { chatType == ChatGroup }
    predicate IsSupergroup() { chatType == ChatSupergroup }
    predicate IsChannel() { chatType == ChatChannel }

    /** `Chat.Identifier`: the same rule as `IdentifierOf`. */
    function Identifier(): (r: string)
      ensures r != "" && (r[0] == '@' <==> id == 0)
      ensures r == IdentifierOf(id, username)
    {
      IdentifierOf(id, username)
    }
  }

  datatype ChatFullInfo = ChatFullInfo(id: Int64, username: string)
  {
    /** `ChatFullInfo.Identifier`: the same rule as `IdentifierOf`. */
    function Identifier(): (r: string)
      ensures r != "" && (r[0] == '@' <==> id == 0)
      ensures r == IdentifierOf(id, username)
    {
      IdentifierOf(id, username)
    }
  }

  /**
   * The identifier shared by chats and users: the decimal id when it is set,
   * else the user name behind an `@`. The decimal form never starts with `@`,
   * so the two forms cannot be confused, and it reads back as the id.
   */
  function IdentifierOf(id: Int64, username: string): (r: string)
    ensures r != ""
    ensures r[0] == '@' <==> id == 0
    ensures id == 0 ==> r == "@" + username
    ensures id != 0 ==> ParseInt(r) == Some(id as int)
  {
    if id != 0 then ParseFormat(id); FormatInt(id) else "@" + username
  }

  /** The four chat kinds exclude each other. */
  lemma ChatKindsExclusive(c: Chat)
    ensures (if c.IsPrivate() then 1 else 0) + (if c.IsGroup() then 1 else 0)
          + (if c.IsSupergroup() then 1 else 0) + (if c.IsChannel() then 1 else 0) <= 1
  {
    assert ChatPrivate[0] == 'p' && ChatGroup[0] == 'g' && ChatSupergroup[0] == 's' && ChatChannel[0] == 'c';
  }

  datatype PhotoSize = PhotoSize(fileID: string, fileUniqueID: string, width: int, height: int, fileSize: int)

  /** The zero `PhotoSize{}`. */
  const ZeroPhotoSize: PhotoSize := PhotoSize("", "", 0, 0, 0)

  datatype Message = Message(
    messageID: Int64,
    date: Int64,
    chat: Chat,
    text: string,
    document: Option<Document>,
    video: Option<Video>,
    contact: Option<Contact>)

  datatype CallbackQuery = CallbackQuery(id: string, from: User, data: string)

  /** The part of an inline keyboard button the core reads and rewrites. */
  datatype InlineKeyboardButton = InlineKeyboardButton(text: string, url: string, callbackData: string)

  /** A reply keyboard button; its text is what the user sends. */
  datatype KeyboardButton = KeyboardButton(text: string)

  datatype InaccessibleMessage = InaccessibleMessage(chat: Chat, messageID: Int64)

  /** The part of an inbound update that routing looks at. */
  datatype Update = Update(updateID: Int64, message: Option<Message>, callbackQuery: Option<CallbackQuery>)
}

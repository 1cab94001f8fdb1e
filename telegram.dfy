/**
 * The transport-side objects the forwarder reads (entities, messages, reply
 * headers, senders), as plain records, and the transport itself as a record of
 * deterministic oracles. A call that raises, or that returns nothing, is `None`.
 */
module Telegram {
  import opened Wrappers
  import opened Strings

  /** An attribute of a Python object: missing, or present and holding None or a value. */
  datatype Attr<T> = Absent | Present(v: Option<T>)

  /** `getattr(obj, name, None)` */
  function Get<T>(a: Attr<T>): Option<T> {
    if a.Present? then a.v else None
  }

  /** The text an attribute holds, with a missing attribute and None both read as "". */
  function TextOf(a: Attr<string>): string {
    if a.Present? && a.v.Some? then a.v.value else ""
  }

  /** `hasattr(obj, name) and obj.name` for a text attribute. */
  predicate Truthy(a: Attr<string>) {
    TextOf(a) != ""
  }

  /** The Python truth value of an optional integer: None and 0 are false. */
  predicate IntTruthy(i: Option<int>) {
    i.Some? && i.value != 0
  }

  /**
   * A key of the entity caches as the caller gave it: Python dictionaries keep
   * the integer -5 and the string "-5" apart, and so does this model.
   */
  datatype ChatKey = Num(n: int) | Name(s: string)

  /** `str(chat_id)` */
  function KeyString(k: ChatKey): string {
    match k
    case Num(n) => IntToString(n)
    case Name(s) => s
  }

  /** A resolved chat: `title` is None when the entity has no title attribute. */
  datatype Entity = Entity(
    id: int,
    title: Option<string>,
    isChannel: bool,
    megagroup: bool,
    forum: bool,
    noforwards: bool)

  /** The argument handed to the transport's entity lookup. */
  datatype EntityQuery = ById(id: int) | ByName(name: string)

  /** A media attachment: `typeName` is `type(media).__name__`; `isWebPage` is `isinstance(media, MessageMediaWebPage)`. */
  datatype Media = Media(typeName: string, isWebPage: bool)

  /** A formatting entity of a message, passed through untouched. */
  datatype TextEntity = TextEntity(kind: string, offset: int, length: int)

  /** A sender: the name fields hold "" when missing or None; `id` is None when there is no id attribute. */
  datatype User = User(id: Option<int>, firstName: string, lastName: string, username: string)

  /** The outcome of `message.get_sender()`: it raised, or it returned a sender or None. */
  datatype SenderLookup = SenderFailed | SenderFound(user: Option<User>)

  /** `message.reply_to`; `forumTopic` is `hasattr(reply_to, 'forum_topic') and reply_to.forum_topic`. */
  datatype ReplyHeader = ReplyHeader(
    forumTopic: bool,
    topMsgId: Attr<int>,
    replyToTopId: Attr<int>,
    replyToMsgId: Attr<int>)

  /**
   * A message. `dictMessage` is the `'message'` entry of `to_dict()` (Absent when
   * there is no such entry or `to_dict` raises); `sender` is what `get_sender()` gives.
   */
  datatype Message = Message(
    id: int,
    message: Attr<string>,
    text: Attr<string>,
    rawText: Attr<string>,
    extractedText: Attr<string>,
    dictMessage: Attr<string>,
    topicId: Attr<int>,
    topic: Attr<int>,
    replyTo: Option<ReplyHeader>,
    post: bool,
    media: Option<Media>,
    entities: seq<TextEntity>,
    sender: SenderLookup)

  /** An inbound new-message event. */
  datatype Event = Event(chatId: int, message: Message)

  /** One entry of a forum's topic listing. */
  datatype ForumTopic = ForumTopic(id: int, title: string)

  /** The outcome of a native forward: forwarded (`nonEmpty` is the truth of the result), a restriction error, or any other error. */
  datatype ForwardOutcome = Forwarded(nonEmpty: bool) | Restricted | Failed

  /** The transport calls a delivery makes, in order. */
  datatype Action =
    | ForwardAttempt(peer: int, messageId: int)
    | EditTopic(peer: int, topic: int)
    | SendText(toChat: ChatKey, text: string, replyTo: Option<int>, entities: seq<TextEntity>, file: Option<Media>)
    | SendMedia(toChat: ChatKey, caption: string, replyTo: Option<int>, attachment: Media)

  /**
   * The transport, one oracle per call the core makes:
   * - resolve: `client.get_entity`;
   * - forumTopics: the topic listing of `GetFullChannelRequest` (None: it raised or there is no listing);
   * - topicStarterTitle: the title attribute ("" when missing) of the first message `GetMessagesRequest` returns for the topic id;
   * - discussionTitles: the titles of the messages `GetDiscussionMessageRequest` returns;
   * - getMessage, getTopicMessage, getRawMessage: the three link-fetch strategies;
   * - getReplied: the fetch of a replied-to message;
   * - forward: `forward_messages`; accepts: whether `send_message` returns without raising.
   */
  datatype Transport = Transport(
    resolve: EntityQuery -> Option<Entity>,
    forumTopics: Entity -> Option<seq<ForumTopic>>,
    topicStarterTitle: (Option<Entity>, int) -> Option<string>,
    discussionTitles: (Option<Entity>, int) -> Option<seq<string>>,
    getMessage: (Entity, int) -> Option<Message>,
    getTopicMessage: (Entity, int, int) -> Option<Message>,
    getRawMessage: (Entity, int) -> Option<Message>,
    getReplied: (int, Option<int>) -> Option<Message>,
    forward: (int, Message) -> ForwardOutcome,
    accepts: Action -> bool)
}

/**
 * Message processing: the formatted text of a replied-to or linked message,
 * the topic a message belongs to, whether it is a genuine reply, and the
 * payload a reconstructed delivery sends.
 */
module Processors {
  import opened Wrappers
  import opened Strings
  import opened Telegram
  import opened Utils

  /** Formatted content of a replied-to or linked message, as the payload builder receives it. */
  datatype Content = Content(text: string, media: Option<Media>, entities: seq<TextEntity>)

  const ReplyPrefix := "\U{2934}\U{FE0F} **In reply to:**\n"
  const UnknownUser := "Unknown User"
  const EmptyLabel := "[Empty message]"

  function LinkedPrefix(url: string): string {
    "\U{1F517} **Linked message:** " + url + "\n"
  }

  /** The label of a media-only message: "[Message with <type>]". */
  function MediaLabel(md: Media): string {
    "[Message with " + MediaTypeName(Some(md)).value + "]"
  }

  /**
   * The display name of a sender: the first name, then " <last name>", then
   * " (@<username>)", each when non-empty; when all are empty, "User <id>" if
   * the sender has an id. A failed lookup or no sender gives "Unknown User".
   */
  function SenderName(s: SenderLookup): string {
    match s
    case SenderFailed => UnknownUser
    case SenderFound(None) => UnknownUser
    case SenderFound(Some(u)) =>
      var name := u.firstName
        + (if u.lastName != "" then " " + u.lastName else "")
        + (if u.username != "" then " (@" + u.username + ")" else "");
      if name != "" then name
      else if u.id.Some? then "User " + IntToString(u.id.value)
      else UnknownUser
  }

  /** The prefix of a formatted message: a reply wins over a link; otherwise none. */
  function Prefix(isReply: bool, linkedFrom: Option<string>): string {
    if isReply then ReplyPrefix
    else if linkedFrom.Some? && linkedFrom.value != "" then LinkedPrefix(linkedFrom.value)
    else ""
  }

  /**
   * The body of a formatted message: the extracted text, `message`, `text`,
   * `raw_text`, the `'message'` entry of the dictionary form, the first that is
   * non-empty; failing all, the media label or "[Empty message]".
   */
  function Body(m: Message): string {
    if Truthy(m.extractedText) then TextOf(m.extractedText)
    else if Truthy(m.message) then TextOf(m.message)
    else if Truthy(m.text) then TextOf(m.text)
    else if Truthy(m.rawText) then TextOf(m.rawText)
    else if Truthy(m.dictMessage) then TextOf(m.dictMessage)
    else if m.media.Some? then MediaLabel(m.media.value)
    else EmptyLabel
  }

  /** `format_message_for_forwarding` */
  function FormatContent(m: Message, isReply: bool, linkedFrom: Option<string>): (r: Content)
    ensures r.media == m.media && r.entities == m.entities
    ensures StartsWith(r.text, Prefix(isReply, linkedFrom))
  {
    var text := Prefix(isReply, linkedFrom) + "**" + SenderName(m.sender) + ":** " + Body(m);
    assert text[..|Prefix(isReply, linkedFrom)|] == Prefix(isReply, linkedFrom);
    Content(text, m.media, m.entities)
  }

  /** A sender always has a non-empty display name; a failed or empty lookup reads "Unknown User". */
  lemma SenderNameNonEmpty(s: SenderLookup)
    ensures SenderName(s) != ""
    ensures s.SenderFailed? || s.user.None? ==> SenderName(s) == UnknownUser
  {
  }

  /** The three name parts are joined in order, with the username in parentheses. */
  lemma SenderNameSample()
    ensures SenderName(SenderFound(Some(User(Some(7), "Ada", "Lovelace", "ada")))) == "Ada Lovelace (@ada)"
    ensures SenderName(SenderFound(Some(User(Some(7), "", "", "ada")))) == " (@ada)"
  {
  }

  /** A sender without any name part is named by its id, or "Unknown User" without one. */
  lemma SenderNameIdFallback(u: User)
    requires u.firstName == "" && u.lastName == "" && u.username == ""
    ensures u.id.Some? ==> SenderName(SenderFound(Some(u))) == "User " + IntToString(u.id.value)
    ensures u.id.None? ==> SenderName(SenderFound(Some(u))) == UnknownUser
  {
  }

  /** The reply prefix wins over a link; a link's prefix carries its URL. */
  lemma PrefixPrecedence(linkedFrom: Option<string>, url: string)
    ensures Prefix(true, linkedFrom) == ReplyPrefix
    ensures url != "" ==> Prefix(false, Some(url)) == LinkedPrefix(url)
    ensures Prefix(false, None) == "" && Prefix(false, Some("")) == ""
  {
  }

  /** The body is first-success over the five text sources, and never empty. */
  lemma BodyIsFirstNonEmpty(m: Message)
    ensures var xs := [TextOf(m.extractedText), TextOf(m.message), TextOf(m.text), TextOf(m.rawText), TextOf(m.dictMessage)];
      && (FirstNonEmpty(xs) != "" ==> Body(m) == FirstNonEmpty(xs))
      && (FirstNonEmpty(xs) == "" ==> Body(m) == if m.media.Some? then MediaLabel(m.media.value) else EmptyLabel)
    ensures Body(m) != ""
  {
    var xs := [TextOf(m.extractedText), TextOf(m.message), TextOf(m.text), TextOf(m.rawText), TextOf(m.dictMessage)];
    if TextOf(m.extractedText) != "" {
      FirstNonEmptyAt(xs, 0);
    } else if TextOf(m.message) != "" {
      FirstNonEmptyAt(xs, 1);
    } else if TextOf(m.text) != "" {
      FirstNonEmptyAt(xs, 2);
    } else if TextOf(m.rawText) != "" {
      FirstNonEmptyAt(xs, 3);
    } else if TextOf(m.dictMessage) != "" {
      FirstNonEmptyAt(xs, 4);
    } else {
      assert forall i | 0 <= i < |xs| :: xs[i] == "";
    }
  }

  /** The formatted text is the prefix, the bold sender name and the body, in that order. */
  lemma FormatLayout(m: Message, isReply: bool, linkedFrom: Option<string>)
    ensures var r := FormatContent(m, isReply, linkedFrom);
      var head := Prefix(isReply, linkedFrom) + "**" + SenderName(m.sender) + ":** ";
      && r.text == head + Body(m)
      && r.text[|head|..] == Body(m)
      && |r.text| > |head|
  {
    BodyIsFirstNonEmpty(m);
  }

  /** The topic from a reply header: the forum flag decides which of the two top ids is read first. */
  function ReplyTopic(rt: ReplyHeader): Option<int> {
    var fromTop :=
      if rt.forumTopic then
        if rt.topMsgId.Present? then rt.topMsgId.v
        else if rt.replyToTopId.Present? then rt.replyToTopId.v
        else None
      else if rt.replyToTopId.Present? then rt.replyToTopId.v
      else if rt.topMsgId.Present? then rt.topMsgId.v
      else None;
    if fromTop.None? && rt.replyToMsgId.Present? then rt.replyToMsgId.v else fromTop
  }

  /**
   * The topic of a message in a forum: `topic_id`, then `topic`, then the reply
   * header, then the message's own id for a post, else the default topic 1.
   * Attributes are tested for presence: a present attribute holding None ends
   * the chain with None.
   */
  function TopicChain(m: Message): Option<int> {
    if m.topicId.Present? then m.topicId.v
    else if m.topic.Present? then m.topic.v
    else if m.replyTo.Some? then ReplyTopic(m.replyTo.value)
    else if m.post then Some(m.id)
    else Some(1)
  }

  /** `extract_topic_id`: None unless the chat resolves to a forum; then the precedence chain. */
  function ExtractTopicId(t: Transport, ev: Event): Option<int> {
    var e := t.resolve(ById(ev.chatId));
    if e.None? || !e.value.forum then None else TopicChain(ev.message)
  }

  /** Outside forums, or when the chat does not resolve, a message has no topic. */
  lemma TopicOutsideForum(t: Transport, ev: Event)
    requires t.resolve(ById(ev.chatId)).None? || !t.resolve(ById(ev.chatId)).value.forum
    ensures ExtractTopicId(t, ev) == None
  {
  }

  /** The `topic_id` attribute, when present, decides alone, even when it holds None. */
  lemma TopicIdAttributeWins(m: Message, other: Attr<int>, rt: Option<ReplyHeader>, post: bool)
    requires m.topicId.Present?
    ensures TopicChain(m.(topic := other, replyTo := rt, post := post)) == m.topicId.v
    ensures m.topicId == Present(None) ==> TopicChain(m) == None
  {
  }

  /** The default topic 1 is reached only when there are no topic attributes, no reply header and no post. */
  lemma TopicDefault(m: Message)
    ensures m.topicId.Absent? && m.topic.Absent? && m.replyTo.None? && !m.post ==> TopicChain(m) == Some(1)
    ensures m.topicId.Present? ==> TopicChain(m) == m.topicId.v
    ensures m.topicId.Absent? && m.topic.Present? ==> TopicChain(m) == m.topic.v
    ensures m.topicId.Absent? && m.topic.Absent? && m.replyTo.Some? ==> TopicChain(m) == ReplyTopic(m.replyTo.value)
    ensures m.topicId.Absent? && m.topic.Absent? && m.replyTo.None? && m.post ==> TopicChain(m) == Some(m.id)
  {
  }

  /**
   * In a reply header, with the forum flag `top_msg_id` is preferred to
   * `reply_to_top_id`, without it the other way round; `reply_to_msg_id` is
   * used only when neither gives a topic.
   */
  lemma ReplyTopicOrder(a: int, b: int, c: int)
    ensures ReplyTopic(ReplyHeader(true, Present(Some(a)), Present(Some(b)), Present(Some(c)))) == Some(a)
    ensures ReplyTopic(ReplyHeader(false, Present(Some(a)), Present(Some(b)), Present(Some(c)))) == Some(b)
    ensures ReplyTopic(ReplyHeader(true, Absent, Absent, Present(Some(c)))) == Some(c)
    ensures ReplyTopic(ReplyHeader(false, Present(None), Absent, Present(Some(c)))) == Some(c)
  {
  }

  /** `is_genuine_reply` */
  function IsGenuineReply(m: Message, topic: Option<int>): bool {
    if m.replyTo.None? || !m.replyTo.value.replyToMsgId.Present? then false
    else if m.replyTo.value.forumTopic && IntTruthy(topic) then Get(m.replyTo.value.replyToMsgId) != topic
    else true
  }

  /**
   * A genuine reply is one with a replied-to message id, except that inside a
   * forum topic a "reply" to the topic's own root message is not one.
   */
  lemma GenuineReplyIff(m: Message, topic: Option<int>)
    ensures IsGenuineReply(m, topic) <==>
      && m.replyTo.Some? && m.replyTo.value.replyToMsgId.Present?
      && !(m.replyTo.value.forumTopic && IntTruthy(topic) && Get(m.replyTo.value.replyToMsgId) == topic)
  {
  }

  /** The body line of the payload: the message text, else the media label, else "[Empty message]". */
  function MainText(m: Message, source: string, includeSource: bool): string {
    var text := ExtractMessageText(m);
    var body := if text != "" then text else if m.media.Some? then MediaLabel(m.media.value) else EmptyLabel;
    if includeSource then source + "\n\n" + body else body
  }

  /** `"\n\n".join(xs)` */
  function JoinTexts(xs: seq<string>): string
    decreases |xs|
  {
    if xs == [] then ""
    else if |xs| == 1 then xs[0]
    else JoinTexts(xs[..|xs| - 1]) + "\n\n" + xs[|xs| - 1]
  }

  function Texts(contents: seq<Content>): seq<string> {
    seq(|contents|, i requires 0 <= i < |contents| => contents[i].text)
  }

  /** The media of a payload that can be sent as a file: none for a web page preview. */
  function Sendable(media: Option<Media>): (r: Option<Media>)
    ensures r.Some? ==> !r.value.isWebPage && r == media
    ensures media.Some? && !media.value.isWebPage ==> r == media
  {
    if media.Some? && !media.value.isWebPage then media else None
  }

  /** The attachments of the additional contents that can be sent, in order. */
  function AdditionalMedia(contents: seq<Content>): seq<Media>
    decreases |contents|
  {
    if contents == [] then []
    else
      var last := contents[|contents| - 1];
      AdditionalMedia(contents[..|contents| - 1])
        + (if last.media.Some? && !last.media.value.isWebPage then [last.media.value] else [])
  }

  /** A reconstructed delivery: the text, the file sent with it, and the attachments sent after it. */
  datatype Prepared = Prepared(text: string, sendable: Option<Media>, additional: seq<Media>)

  /** `prepare_forwarding_content` */
  function PrepareSpec(m: Message, source: string, includeSource: bool, contents: seq<Content>): Prepared {
    var text := MainText(m, source, includeSource) + (if contents != [] then "\n\n" + JoinTexts(Texts(contents)) else "");
    Prepared(text, Sendable(m.media), AdditionalMedia(contents))
  }

  /** The payload builder, appending the attachments one content at a time. */
  method PrepareForwardingContent(m: Message, source: string, includeSource: bool, contents: seq<Content>)
    returns (p: Prepared)
    ensures p == PrepareSpec(m, source, includeSource, contents)
  {
    var text := MainText(m, source, includeSource);
    if contents != [] {
      text := text + "\n\n" + JoinTexts(Texts(contents));
    }
    var sendable := None;
    if m.media.Some? && !m.media.value.isWebPage {
      sendable := m.media;
    }
    var additional: seq<Media> := [];
    var i := 0;
    while i < |contents|
      invariant 0 <= i <= |contents|
      invariant additional == AdditionalMedia(contents[..i])
    {
      assert contents[..i + 1][..i] == contents[..i];
      var c := contents[i];
      if c.media.Some? && !c.media.value.isWebPage {
        additional := additional + [c.media.value];
      }
      i := i + 1;
    }
    assert contents[..i] == contents;
    p := Prepared(text, sendable, additional);
  }

  /** Attachments are a filter of the contents' media: order kept, web pages dropped, no more than one per content. */
  lemma {:induction false} AdditionalMediaFilter(contents: seq<Content>, md: Media)
    ensures |AdditionalMedia(contents)| <= |contents|
    ensures forall k | 0 <= k < |AdditionalMedia(contents)| :: !AdditionalMedia(contents)[k].isWebPage
    ensures md in AdditionalMedia(contents) <==>
      exists k | 0 <= k < |contents| :: contents[k].media == Some(md) && !md.isWebPage
    decreases |contents|
  {
    if contents != [] {
      var front := contents[..|contents| - 1];
      AdditionalMediaFilter(front, md);
      assert forall k | 0 <= k < |front| :: front[k] == contents[k];
    }
  }

  lemma {:induction false} AdditionalMediaAppend(a: seq<Content>, b: seq<Content>)
    ensures AdditionalMedia(a + b) == AdditionalMedia(a) + AdditionalMedia(b)
    decreases |b|
  {
    if b == [] {
      assert a + b == a;
    } else {
      var b' := b[..|b| - 1];
      assert (a + b)[..|a + b| - 1] == a + b';
      AdditionalMediaAppend(a, b');
    }
  }

  /**
   * The payload text starts with the source header when it is included, and
   * ends with the text of the last additional content, after a blank line.
   */
  lemma PreparedTextLayout(m: Message, source: string, includeSource: bool, contents: seq<Content>)
    ensures var p := PrepareSpec(m, source, includeSource, contents);
      && (includeSource ==> StartsWith(p.text, source + "\n\n"))
      && (contents == [] ==> p.text == MainText(m, source, includeSource))
      && (contents != [] ==> EndsWith(p.text, "\n\n" + contents[|contents| - 1].text))
  {
    var p := PrepareSpec(m, source, includeSource, contents);
    var main := MainText(m, source, includeSource);
    if includeSource {
      assert main[..|source + "\n\n"|] == source + "\n\n";
      assert p.text[..|source + "\n\n"|] == main[..|source + "\n\n"|];
    }
    if contents != [] {
      var xs := Texts(contents);
      var last := "\n\n" + contents[|contents| - 1].text;
      JoinEndsWith(xs);
      var rest := "\n\n" + JoinTexts(xs);
      assert p.text == main + rest;
      assert EndsWith(rest, last);
      assert p.text[|p.text| - |last|..] == rest[|rest| - |last|..];
    }
  }

  predicate EndsWith(s: string, suffix: string) {
    |suffix| <= |s| && s[|s| - |suffix|..] == suffix
  }

  lemma EndsWithAppend(a: string, b: string)
    ensures EndsWith(a + b, b)
  {
    assert (a + b)[|a|..] == b;
  }

  lemma JoinEndsWith(xs: seq<string>)
    requires xs != []
    ensures EndsWith("\n\n" + JoinTexts(xs), "\n\n" + xs[|xs| - 1])
  {
    var sep, x := "\n\n", xs[|xs| - 1];
    if |xs| == 1 {
      assert JoinTexts(xs) == x;
      EndsWithAppend([], sep + x);
      assert [] + (sep + x) == sep + x;
    } else {
      var j := JoinTexts(xs[..|xs| - 1]);
      assert JoinTexts(xs) == j + sep + x;
      Regroup(sep, j, sep, x);
      EndsWithAppend(sep + j, sep + x);
    }
  }

  lemma Regroup(p: string, a: string, b: string, c: string)
    ensures p + (a + b + c) == (p + a) + (b + c)
  {
  }
}

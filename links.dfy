/**
 * Message links: the records read off a message's text, and the fetch of the
 * message a record points to, with its cache of resolved links.
 */
module Links {
  import opened Wrappers
  import opened Strings
  import opened Telegram
  import opened Utils
  import opened LinkPattern
  import opened Entities

  /** The chat a link names: the digits of a `c/` link (as written, without "-100"), or a username. */
  datatype LinkChat = ChatIdRef(chatId: string) | UsernameRef(username: string)

  /** One extracted link: the matched text, the message id, the chat, and the topic id when the link has one. */
  datatype LinkRef = LinkRef(fullMatch: string, messageId: int, chat: LinkChat, topicId: Option<int>)

  function RefChat(c: ChatPart): LinkChat {
    match c
    case Channel(d) => ChatIdRef(d)
    case Username(u) => UsernameRef(u)
  }

  /** `int()` of an optional digit group. */
  function TopicValue(t: Option<string>): Option<int>
    requires t.Some? ==> IsDigitString(t.value)
  {
    if t.Some? then Some(DigitsValue(t.value)) else None
  }

  /** The record of one match of the link pattern in `text`. */
  function ToRef(text: string, m: LinkMatch): LinkRef
    requires ReadsAs(text, m)
  {
    LinkRef(text[m.start..m.end], DigitsValue(m.msg), RefChat(m.chat), TopicValue(m.topic))
  }

  /** `extract_message_links`: one record per match, left to right; an empty text has none. */
  function ExtractMessageLinks(text: string): (r: seq<LinkRef>)
    ensures text == [] ==> r == []
    ensures text != [] ==> |r| == |FindAll(text, 0)|
  {
    if text == [] then []
    else
      var ms := FindAll(text, 0);
      FindAllSound(text, 0);
      seq(|ms|, i requires 0 <= i < |ms| => ToRef(text, ms[i]))
  }

  /** The record of a link read off a well-formed rendering. */
  function RefOf(l: LinkParts): LinkRef
    requires WellFormed(l)
  {
    LinkRef(Render(l), DigitsValue(l.msg), RefChat(l.chat), TopicValue(l.topic))
  }

  /** The record of some well-formed link. */
  ghost predicate IsLinkRecord(x: LinkRef) {
    exists l :: WellFormed(l) && x == RefOf(l)
  }

  /**
   * Soundness of extraction: every record is the record of a well-formed link
   * whose rendering is exactly the record's matched text.
   */
  lemma ExtractSound(text: string)
    ensures var r := ExtractMessageLinks(text);
      forall i | 0 <= i < |r| :: IsLinkRecord(r[i])
  {
    if text != [] {
      var ms := FindAll(text, 0);
      var r := ExtractMessageLinks(text);
      FindAllSound(text, 0);
      forall i | 0 <= i < |r|
        ensures IsLinkRecord(r[i])
      {
        assert r[i] == ToRef(text, ms[i]);
        RefOfMatch(text, ms[i]);
        var l := LinkParts(text[ms[i].start + 4] == 's', ms[i].chat, ms[i].msg, ms[i].topic);
        assert WellFormed(l) && r[i] == RefOf(l);
      }
    }
  }

  lemma RefOfMatch(text: string, m: LinkMatch)
    requires ReadsAs(text, m)
    ensures var l := LinkParts(text[m.start + 4] == 's', m.chat, m.msg, m.topic);
      WellFormed(l) && ToRef(text, m) == RefOf(l)
  {
  }

  /** A text that is one well-formed link yields exactly that link's record. */
  lemma ExtractRendered(l: LinkParts)
    requires WellFormed(l) && !(l.chat == Username("c") && l.topic.Some?)
    ensures ExtractMessageLinks(Render(l)) == [RefOf(l)]
  {
    var s := Render(l);
    FindAllRendered(l);
    assert s[0..|s|] == s;
  }

  /** Two links, each after text without an 'h', are both extracted, in order. */
  lemma ExtractTwoLinks(a: string, l1: LinkParts, b: string, l2: LinkParts)
    requires WellFormed(l1) && !(l1.chat == Username("c") && l1.topic.Some?)
    requires WellFormed(l2) && !(l2.chat == Username("c") && l2.topic.Some?)
    requires forall k | 0 <= k < |a| :: a[k] != 'h'
    requires forall k | 0 <= k < |b| :: b[k] != 'h'
    requires b != [] && !IsDigit(b[0]) && b[0] != '/'
    ensures ExtractMessageLinks(a + Render(l1) + b + Render(l2)) == [RefOf(l1), RefOf(l2)]
  {
    var r1, r2 := Render(l1), Render(l2);
    var text := a + r1 + b + r2;
    var e1 := |a| + |r1|;
    FindAllTwoLinks(a, l1, b, l2);
    MiddleSlices(a, r1, b, r2);
    ExtractTwoAt(text, |a|, e1, e1 + |b|, l1, l2);
  }

  lemma ExtractTwoAt(text: string, p1: nat, e1: nat, p2: nat, l1: LinkParts, l2: LinkParts)
    requires WellFormed(l1) && WellFormed(l2)
    requires p1 <= e1 <= p2 <= |text| && text != []
    requires FindAll(text, 0) == [
      LinkMatch(p1, e1, l1.chat, l1.msg, l1.topic),
      LinkMatch(p2, |text|, l2.chat, l2.msg, l2.topic)]
    requires text[p1..e1] == Render(l1) && text[p2..|text|] == Render(l2)
    ensures ExtractMessageLinks(text) == [RefOf(l1), RefOf(l2)]
  {
    var m1 := LinkMatch(p1, e1, l1.chat, l1.msg, l1.topic);
    var m2 := LinkMatch(p2, |text|, l2.chat, l2.msg, l2.topic);
    FindAllSound(text, 0);
    assert FindAll(text, 0)[0] == m1 && FindAll(text, 0)[1] == m2;
    ExtractTwo(text, m1, m2);
    ToRefIs(text, m1, l1);
    ToRefIs(text, m2, l2);
  }

  lemma ToRefIs(text: string, m: LinkMatch, l: LinkParts)
    requires ReadsAs(text, m) && WellFormed(l)
    requires m.chat == l.chat && m.msg == l.msg && m.topic == l.topic
    requires text[m.start..m.end] == Render(l)
    ensures ToRef(text, m) == RefOf(l)
  {
  }

  lemma ExtractTwo(text: string, m1: LinkMatch, m2: LinkMatch)
    requires text != [] && FindAll(text, 0) == [m1, m2]
    requires ReadsAs(text, m1) && ReadsAs(text, m2)
    ensures ExtractMessageLinks(text) == [ToRef(text, m1), ToRef(text, m2)]
  {
  }

  lemma MiddleSlices(a: string, x: string, b: string, y: string)
    ensures var s := a + x + b + y;
      s[|a|..|a| + |x|] == x && s[|a| + |x| + |b|..|s|] == y
  {
    Pieces4(a, x, b, y);
  }

  /** The two links of a sample text, the second with a topic. */
  lemma ExtractSample()
    ensures ExtractMessageLinks("see " + "https://t.me/c/555/10" + " and " + "https://t.me/alice/20/3") == [
      LinkRef("https://t.me/c/555/10", 10, ChatIdRef("555"), None),
      LinkRef("https://t.me/alice/20/3", 20, UsernameRef("alice"), Some(3))]
  {
    SampleRenders();
    ExtractTwoLinks("see ", LinkParts(true, Channel("555"), "10", None),
                    " and ", LinkParts(true, Username("alice"), "20", Some("3")));
    assert DigitsValue("10") == 10;
    assert DigitsValue("20") == 20;
    assert DigitsValue("3") == 3;
  }

  /** The text of a link's chat as the record holds it. */
  function ChatRefText(c: LinkChat): string {
    match c
    case ChatIdRef(d) => d
    case UsernameRef(u) => u
  }

  /** The cache key of a link: its chat text, "-", its message id; the topic is not part of it. */
  function CacheKey(l: LinkRef): string {
    ChatRefText(l.chat) + "-" + IntToString(l.messageId)
  }

  /**
   * The key shared by a `c/555` link and a link to a chat whose username is
   * "555" (which the pattern reads as a username), whatever their topics: the
   * second fetch is answered with the first one's message.
   */
  lemma CacheKeyCollision(a: string, b: string, id: int, t1: Option<int>, t2: Option<int>)
    ensures CacheKey(LinkRef(a, id, ChatIdRef("555"), t1)) == CacheKey(LinkRef(b, id, UsernameRef("555"), t2))
    ensures ExtractMessageLinks("https://t.me/555/10") == [LinkRef("https://t.me/555/10", 10, UsernameRef("555"), None)]
  {
    var l := LinkParts(true, Username("555"), "10", None);
    assert Render(l) == "https://t.me/555/10";
    ExtractRendered(l);
    assert DigitsValue("10") == 10;
  }

  /** The entity key a link is resolved under: bare channel digits get the supergroup prefix "-100". */
  function EntityKeyFor(c: LinkChat): ChatKey {
    match c
    case ChatIdRef(d) => if !StartsWith(d, "-100") && IsDigitString(d) then Name("-100" + d) else Name(d)
    case UsernameRef(u) => Name(u)
  }

  /** Whether a message has any of its three text attributes set and non-empty. */
  predicate HasText(m: Message) {
    Truthy(m.message) || Truthy(m.text) || Truthy(m.rawText)
  }

  /** The second strategy: with a truthy topic id and no `message` text, a fetch in the topic replaces the message if it has text. */
  function WithTopic(t: Transport, e: Entity, id: int, topic: Option<int>, m: Option<Message>): Option<Message> {
    if IntTruthy(topic) && (m.None? || !Truthy(m.value.message)) then
      var mt := t.getTopicMessage(e, id, topic.value);
      if mt.Some? && HasText(mt.value) then mt else m
    else m
  }

  /**
   * The third strategy: with no text at all, a raw fetch whose `message` is
   * non-empty is adopted when there is no message, or its text copied into a
   * message that has a `message` attribute.
   */
  function WithRaw(t: Transport, e: Entity, id: int, m: Option<Message>): Option<Message> {
    if m.None? || !HasText(m.value) then
      var raw := t.getRawMessage(e, id);
      if raw.Some? && Truthy(raw.value.message) then
        if m.None? then raw
        else if m.value.message.Present? then Some(m.value.(message := raw.value.message))
        else m
      else m
    else m
  }

  /** The three fetch strategies in order. */
  function Retrieve(t: Transport, e: Entity, id: int, topic: Option<int>): Option<Message> {
    WithRaw(t, e, id, WithTopic(t, e, id, topic, t.getMessage(e, id)))
  }

  /** The fetched message with its extracted text recorded. */
  function Finalize(m: Message): Message {
    m.(extractedText := Present(Some(ExtractMessageText(m))))
  }

  /** A message whose recorded extracted text is the first non-empty of its text attributes. */
  predicate Finalized(m: Message) {
    m.extractedText == Present(Some(ExtractMessageText(m)))
  }

  /** The result of a fetch, the link cache and the entity caches after it. */
  datatype Fetched = Fetched(value: Option<Message>, links: map<string, Message>, caches: Caches)

  /**
   * `fetch_linked_message`: a cached link is answered from the cache; otherwise
   * the chat is resolved and the strategies run; only a message obtained is cached.
   */
  function FetchSpec(links: map<string, Message>, c: Caches, t: Transport, l: LinkRef): Fetched {
    var key := CacheKey(l);
    if key in links then Fetched(Some(links[key]), links, c)
    else
      var g := EntitySpec(c, t, EntityKeyFor(l.chat));
      if g.value.None? then Fetched(None, links, g.caches)
      else
        var m := Retrieve(t, g.value.value, l.messageId, l.topicId);
        if m.None? then Fetched(None, links, g.caches)
        else Fetched(Some(Finalize(m.value)), links[key := Finalize(m.value)], g.caches)
  }

  /** A channel link is resolved under its digits with the supergroup prefix. */
  lemma ChannelEntityKey(d: string)
    requires IsDigitString(d)
    ensures EntityKeyFor(ChatIdRef(d)) == Name("-100" + d)
  {
    assert d[0] != '-';
  }

  /** A cached link is answered from the cache, whatever the transport would say, and nothing changes. */
  lemma FetchHit(links: map<string, Message>, c: Caches, t1: Transport, t2: Transport, l: LinkRef)
    requires CacheKey(l) in links
    ensures FetchSpec(links, c, t1, l) == FetchSpec(links, c, t2, l) == Fetched(Some(links[CacheKey(l)]), links, c)
  {
  }

  /**
   * The link cache only grows: a failed fetch leaves it as it was; a successful
   * one adds the finalised message under the link's key. Every cached message
   * stays finalised, so every message a fetch returns is.
   */
  lemma FetchCaches(links: map<string, Message>, c: Caches, t: Transport, l: LinkRef)
    requires forall key | key in links :: Finalized(links[key])
    ensures var f := FetchSpec(links, c, t, l);
      && (f.value.None? ==> f.links == links)
      && (f.value.Some? ==> CacheKey(l) in f.links && f.links[CacheKey(l)] == f.value.value)
      && (f.value.Some? ==> Finalized(f.value.value))
      && (forall key | key in f.links :: Finalized(f.links[key]))
      && (forall key | key in links :: key in f.links && f.links[key] == links[key])
      && Grows(c, f.caches)
  {
    var key := CacheKey(l);
    if key !in links {
      EntityGrows(c, t, EntityKeyFor(l.chat));
      var g := EntitySpec(c, t, EntityKeyFor(l.chat));
      if g.value.Some? {
        var m := Retrieve(t, g.value.value, l.messageId, l.topicId);
        if m.Some? {
          var f := Finalize(m.value);
          assert ExtractMessageText(f) == ExtractMessageText(m.value);
        }
      }
    }
  }

  /**
   * A link to a public username whose first character is a letter never
   * resolves: the chat key goes through `int()`. Nothing is cached.
   */
  lemma UsernameLinkUnresolved(links: map<string, Message>, c: Caches, t: Transport, l: LinkRef)
    requires l.chat.UsernameRef? && l.chat.username != [] && 'a' <= l.chat.username[0] <= 'z'
    requires CacheKey(l) !in links && Name(l.chat.username) !in c.entities
    ensures FetchSpec(links, c, t, l) == Fetched(None, links, c)
  {
    UsernameNeverResolves(c, t, l.chat.username);
  }

  /** A first fetch with `message` text settles the result: neither later strategy runs. */
  lemma RetrieveFirstWins(t: Transport, e: Entity, id: int, topic: Option<int>)
    requires t.getMessage(e, id).Some? && Truthy(t.getMessage(e, id).value.message)
    ensures Retrieve(t, e, id, topic) == t.getMessage(e, id)
  {
  }

  /** Without a truthy topic id the topic strategy never runs: its oracle is irrelevant. */
  lemma RetrieveWithoutTopic(t: Transport, e: Entity, id: int, topic: Option<int>, other: (Entity, int, int) -> Option<Message>)
    requires !IntTruthy(topic)
    ensures Retrieve(t, e, id, topic) == Retrieve(t.(getTopicMessage := other), e, id, topic)
    ensures Retrieve(t, e, id, topic) == WithRaw(t, e, id, t.getMessage(e, id))
  {
  }

  /** Once some message has text the raw strategy does not run: its oracle is irrelevant. */
  lemma RetrieveRawOnlyWithoutText(t: Transport, e: Entity, id: int, topic: Option<int>, other: (Entity, int) -> Option<Message>)
    requires var m := WithTopic(t, e, id, topic, t.getMessage(e, id)); m.Some? && HasText(m.value)
    ensures Retrieve(t, e, id, topic) == Retrieve(t.(getRawMessage := other), e, id, topic)
  {
  }

  /** The raw text is copied into a textless message that has a `message` attribute, which is kept otherwise. */
  lemma RetrieveCopiesRawText(t: Transport, e: Entity, id: int)
    requires var m := t.getMessage(e, id); m.Some? && !HasText(m.value) && m.value.message.Present?
    requires var raw := t.getRawMessage(e, id); raw.Some? && Truthy(raw.value.message)
    ensures Retrieve(t, e, id, None) == Some(t.getMessage(e, id).value.(message := t.getRawMessage(e, id).value.message))
  {
  }

  /** The link cache, sharing the entity manager (and its transport) of the forwarder. */
  class LinkManager {
    var resolvedMessageLinks: map<string, Message>
    const entityManager: EntityManager

    constructor(entityManager: EntityManager)
      ensures this.entityManager == entityManager && resolvedMessageLinks == map[]
    {
      this.entityManager := entityManager;
      resolvedMessageLinks := map[];
    }

    /** The three strategies, updating the message step by step. */
    static method RunStrategies(t: Transport, e: Entity, id: int, topic: Option<int>) returns (message: Option<Message>)
      ensures message == Retrieve(t, e, id, topic)
    {
      message := t.getMessage(e, id);
      if topic.Some? && topic.value != 0 && (message.None? || !Truthy(message.value.message)) {
        var withTopic := t.getTopicMessage(e, id, topic.value);
        if withTopic.Some? && HasText(withTopic.value) {
          message := withTopic;
        }
      }
      if message.None? || !HasText(message.value) {
        var raw := t.getRawMessage(e, id);
        if raw.Some? && Truthy(raw.value.message) {
          if message.None? {
            message := raw;
          } else if message.value.message.Present? {
            message := Some(message.value.(message := raw.value.message));
          }
        }
      }
    }

    method FetchLinkedMessage(l: LinkRef) returns (message: Option<Message>)
      modifies this, entityManager
      ensures Fetched(message, resolvedMessageLinks, entityManager.State())
        == FetchSpec(old(resolvedMessageLinks), old(entityManager.State()), entityManager.transport, l)
    {
      var key := CacheKey(l);
      if key in resolvedMessageLinks {
        return Some(resolvedMessageLinks[key]);
      }
      var chat := entityManager.GetEntity(EntityKeyFor(l.chat));
      if chat.None? {
        return None;
      }
      message := RunStrategies(entityManager.transport, chat.value, l.messageId, l.topicId);
      if message.None? {
        return None;
      }
      var m := message.value;
      var extracted :=
        if Truthy(m.message) then TextOf(m.message)
        else if Truthy(m.text) then TextOf(m.text)
        else if Truthy(m.rawText) then TextOf(m.rawText)
        else "";
      m := m.(extractedText := Present(Some(extracted)));
      resolvedMessageLinks := resolvedMessageLinks[key := m];
      message := Some(m);
    }
  }
}

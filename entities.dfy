/**
 * The entity manager: chats resolved through the transport, the names of
 * forum topics, and the chats known to refuse native forwarding, each kept in
 * a cache. The pure functions below give the result and the new caches of each
 * operation; the class performs the same steps on its fields.
 */
module Entities {
  import opened Wrappers
  import opened Strings
  import opened Telegram
  import opened Utils

  /** The three caches: resolved chats, topic names per chat, chats that refuse forwarding. */
  datatype Caches = Caches(
    entities: map<ChatKey, Entity>,
    topics: map<ChatKey, map<int, string>>,
    noForward: set<ChatKey>)

  /** A result together with the caches after the call. */
  datatype Got<T> = Got(value: T, caches: Caches)

  const NoCaches := Caches(map[], map[], {})

  /**
   * The lookup the transport receives for a chat key: an integer as it is; a
   * string starting with "-100" or with neither "-100" nor "@" through `int()`,
   * which fails (None) on anything but an integer literal; an "@" handle as it is.
   */
  function QueryFor(k: ChatKey): (r: Option<EntityQuery>)
    ensures k.Num? ==> r == Some(ById(k.n))
    ensures k.Name? && StartsWith(k.s, "@") ==> r == Some(ByName(k.s))
    ensures k.Name? && !StartsWith(k.s, "@") ==> r == (if ParseInt(k.s).Some? then Some(ById(ParseInt(k.s).value)) else None)
  {
    match k
    case Num(n) => Some(ById(n))
    case Name(s) =>
      if StartsWith(s, "-100") then
        if ParseInt(s).Some? then Some(ById(ParseInt(s).value)) else None
      else if StartsWith(s, "@") then Some(ByName(s))
      else if ParseInt(s).Some? then Some(ById(ParseInt(s).value)) else None
  }

  /** `get_entity`: a cached entity as it is; otherwise the transport's, cached under the key as given on success only. */
  function EntitySpec(c: Caches, t: Transport, k: ChatKey): Got<Option<Entity>> {
    if k in c.entities then Got(Some(c.entities[k]), c)
    else
      var q := QueryFor(k);
      var e := if q.Some? then t.resolve(q.value) else None;
      if e.Some? then Got(e, c.(entities := c.entities[k := e.value])) else Got(None, c)
  }

  /** `get_chat_title`: the entity's title, or "Chat <id>" when the chat does not resolve or has no title. */
  function ChatTitleSpec(c: Caches, t: Transport, k: ChatKey): Got<string> {
    var g := EntitySpec(c, t, k);
    if g.value.Some? && g.value.value.title.Some? then Got(g.value.value.title.value, g.caches)
    else Got("Chat " + KeyString(k), g.caches)
  }

  function TopicsOf(c: Caches, k: ChatKey): map<int, string> {
    if k in c.topics then c.topics[k] else map[]
  }

  function SetTopics(c: Caches, k: ChatKey, m: map<int, string>): Caches {
    c.(topics := c.topics[k := m])
  }

  /** The topic listing, asked for only of a megagroup channel. */
  function Listing(t: Transport, e: Option<Entity>): Option<seq<ForumTopic>> {
    if e.Some? && e.value.isChannel && e.value.megagroup then t.forumTopics(e.value) else None
  }

  /** A listing written into a chat's topic names one entry at a time, later entries overwriting earlier ones. */
  function WriteTopics(m: map<int, string>, ts: seq<ForumTopic>): map<int, string>
    decreases |ts|
  {
    if ts == [] then m
    else
      var last := ts[|ts| - 1];
      WriteTopics(m, ts[..|ts| - 1])[last.id := last.title]
  }

  function FallbackTopicName(id: int): string {
    "Topic " + IntToString(id)
  }

  /**
   * The name strategies after a cache miss, first success wins: the forum
   * listing (which records every listed topic); the title of the topic's first
   * message; the first titled message of the discussion; "Topic <id>". The
   * name found is recorded.
   */
  function Strategies(c: Caches, t: Transport, k: ChatKey, e: Option<Entity>, id: int): Got<string>
    requires k in c.topics
  {
    var listing := Listing(t, e);
    var c1 := if listing.Some? then SetTopics(c, k, WriteTopics(c.topics[k], listing.value)) else c;
    if listing.Some? && id in c1.topics[k] then Got(c1.topics[k][id], c1)
    else
      var starter := t.topicStarterTitle(e, id);
      var titles := t.discussionTitles(e, id);
      var name :=
        if starter.Some? && starter.value != "" then starter.value
        else if titles.Some? && FirstNonEmpty(titles.value) != "" then FirstNonEmpty(titles.value)
        else FallbackTopicName(id);
      Got(name, SetTopics(c1, k, c1.topics[k][id := name]))
  }

  /** `get_topic_name`: None for a falsy topic id; a cached name as it is; otherwise the strategies. */
  function TopicNameSpec(c: Caches, t: Transport, k: ChatKey, topic: Option<int>): Got<Option<string>> {
    if !IntTruthy(topic) then Got(None, c)
    else if k in c.topics && topic.value in c.topics[k] then Got(Some(c.topics[k][topic.value]), c)
    else
      var r := TopicMiss(c, t, k, topic.value);
      Got(Some(r.value), r.caches)
  }

  /** A cache miss: the chat's topic map is created if missing, the chat resolved, then the strategies run. */
  function TopicMiss(c: Caches, t: Transport, k: ChatKey, id: int): Got<string> {
    var g := EntitySpec(SetTopics(c, k, TopicsOf(c, k)), t, k);
    assert k in g.caches.topics;
    Strategies(g.caches, t, k, g.value, id)
  }

  /** `can_forward_from_chat`: a chat already marked is refused; an unresolved chat or a no-forwards channel is marked and refused. */
  function CanForwardSpec(c: Caches, t: Transport, k: ChatKey): Got<bool> {
    if k in c.noForward then Got(false, c)
    else
      var g := EntitySpec(c, t, k);
      if g.value.None? then Got(false, g.caches.(noForward := g.caches.noForward + {k}))
      else if g.value.value.isChannel && g.value.value.noforwards then Got(false, g.caches.(noForward := g.caches.noForward + {k}))
      else Got(true, g.caches)
  }

  /**
   * The caches only grow: a resolved chat stays resolved to the same entity, a
   * recorded topic stays recorded (its name may be replaced), and a chat marked
   * as refusing forwarding stays marked.
   */
  predicate Grows(c: Caches, d: Caches) {
    && (forall k | k in c.entities :: k in d.entities && d.entities[k] == c.entities[k])
    && (forall k | k in c.topics :: k in d.topics && c.topics[k].Keys <= d.topics[k].Keys)
    && c.noForward <= d.noForward
  }

  /** A cache hit answers from the cache alone, whatever the transport would say. */
  lemma EntityHit(c: Caches, t1: Transport, t2: Transport, k: ChatKey)
    requires k in c.entities
    ensures EntitySpec(c, t1, k) == EntitySpec(c, t2, k) == Got(Some(c.entities[k]), c)
  {
  }

  /** A miss caches the transport's entity under the key as given, and caches nothing when the lookup fails. */
  lemma EntityMiss(c: Caches, t: Transport, k: ChatKey)
    requires k !in c.entities
    ensures var g := EntitySpec(c, t, k);
      && (g.value.None? ==> g.caches == c)
      && (g.value.Some? ==> g.caches == c.(entities := c.entities[k := g.value.value]))
      && (g.value.Some? <==> QueryFor(k).Some? && t.resolve(QueryFor(k).value).Some?)
  {
  }

  /**
   * A string key that is neither "-100"-prefixed nor an "@" handle goes through
   * `int()`: a bare channel username never reaches the transport and never resolves.
   */
  lemma UsernameNeverResolves(c: Caches, t: Transport, name: string)
    requires name != [] && 'a' <= name[0] <= 'z'
    requires Name(name) !in c.entities
    ensures EntitySpec(c, t, Name(name)) == Got(None, c)
  {
    assert !StartsWith(name, "-100") && !StartsWith(name, "@");
    assert !IsDigit(name[0]);
  }

  lemma EntityGrows(c: Caches, t: Transport, k: ChatKey)
    ensures var g := EntitySpec(c, t, k);
      Grows(c, g.caches) && g.caches.topics == c.topics && g.caches.noForward == c.noForward
  {
  }

  /** The title falls back to "Chat <id>" exactly when the chat does not resolve to a titled entity. */
  lemma ChatTitleFallback(c: Caches, t: Transport, k: ChatKey)
    ensures var e := EntitySpec(c, t, k).value;
      ChatTitleSpec(c, t, k).value == if e.Some? && e.value.title.Some? then e.value.title.value else "Chat " + KeyString(k)
    ensures ChatTitleSpec(c, t, k).caches == EntitySpec(c, t, k).caches
  {
  }

  /**
   * Writing a listing: a listed id ends up with the title of its last listing
   * entry, whatever was recorded before; an id not listed keeps its name.
   */
  lemma WriteTopicsSpec(m: map<int, string>, ts: seq<ForumTopic>)
    ensures var w := WriteTopics(m, ts);
      && w.Keys == m.Keys + (set j | 0 <= j < |ts| :: ts[j].id)
      && (forall id | id in m && (forall j | 0 <= j < |ts| :: ts[j].id != id) :: w[id] == m[id])
      && (forall j | 0 <= j < |ts| && (forall j2 | j < j2 < |ts| :: ts[j2].id != ts[j].id) :: w[ts[j].id] == ts[j].title)
  {
    WriteTopicsKeys(m, ts);
    WriteTopicsKeeps(m, ts);
    WriteTopicsLast(m, ts);
  }

  lemma {:induction false} WriteTopicsKeys(m: map<int, string>, ts: seq<ForumTopic>)
    ensures WriteTopics(m, ts).Keys == m.Keys + (set j | 0 <= j < |ts| :: ts[j].id)
    decreases |ts|
  {
    if ts != [] {
      var front := ts[..|ts| - 1];
      WriteTopicsKeys(m, front);
      var ids := set j | 0 <= j < |ts| :: ts[j].id;
      var fids := set j | 0 <= j < |front| :: front[j].id;
      assert ids == fids + {ts[|ts| - 1].id} by {
        forall x | x in ids ensures x in fids + {ts[|ts| - 1].id} {
          var j :| 0 <= j < |ts| && ts[j].id == x;
          if j < |front| { assert front[j].id == x; }
        }
        forall x | x in fids ensures x in ids {
          var j :| 0 <= j < |front| && front[j].id == x;
          assert ts[j].id == x;
        }
      }
    }
  }

  lemma {:induction false} WriteTopicsKeeps(m: map<int, string>, ts: seq<ForumTopic>)
    ensures forall id | id in m && (forall j | 0 <= j < |ts| :: ts[j].id != id)
      :: id in WriteTopics(m, ts) && WriteTopics(m, ts)[id] == m[id]
    decreases |ts|
  {
    if ts != [] {
      var front := ts[..|ts| - 1];
      WriteTopicsKeeps(m, front);
      WriteTopicsKeys(m, front);
      forall id | id in m && (forall j | 0 <= j < |ts| :: ts[j].id != id)
        ensures id in WriteTopics(m, ts) && WriteTopics(m, ts)[id] == m[id]
      {
        assert forall j | 0 <= j < |front| :: front[j].id != id by {
          forall j | 0 <= j < |front| ensures front[j].id != id { assert front[j] == ts[j]; }
        }
        assert ts[|ts| - 1].id != id;
      }
    }
  }

  lemma {:induction false} WriteTopicsLast(m: map<int, string>, ts: seq<ForumTopic>)
    ensures forall j | 0 <= j < |ts| && (forall j2 | j < j2 < |ts| :: ts[j2].id != ts[j].id)
      :: ts[j].id in WriteTopics(m, ts) && WriteTopics(m, ts)[ts[j].id] == ts[j].title
    decreases |ts|
  {
    if ts != [] {
      var front := ts[..|ts| - 1];
      WriteTopicsLast(m, front);
      WriteTopicsKeys(m, front);
      forall j | 0 <= j < |ts| && (forall j2 | j < j2 < |ts| :: ts[j2].id != ts[j].id)
        ensures ts[j].id in WriteTopics(m, ts) && WriteTopics(m, ts)[ts[j].id] == ts[j].title
      {
        if j < |front| {
          assert front[j] == ts[j];
          assert forall j2 | j < j2 < |front| :: front[j2].id != front[j].id by {
            forall j2 | j < j2 < |front| ensures front[j2].id != front[j].id { assert front[j2] == ts[j2]; }
          }
          assert ts[|ts| - 1].id != ts[j].id;
        }
      }
    }
  }

  /** The forum listing may overwrite the recorded name of another topic of the chat. */
  lemma ListingOverwrites()
    ensures WriteTopics(map[7 := "Old name"], [ForumTopic(7, "Renamed"), ForumTopic(9, "Other")])[7] == "Renamed"
  {
    WriteTopicsSpec(map[7 := "Old name"], [ForumTopic(7, "Renamed"), ForumTopic(9, "Other")]);
    var ts := [ForumTopic(7, "Renamed"), ForumTopic(9, "Other")];
    assert ts[0].id == 7 && ts[1].id != 7;
  }

  /** A falsy topic id (None or 0) gives no name and touches no cache. */
  lemma TopicNameFalsy(c: Caches, t: Transport, k: ChatKey, topic: Option<int>)
    requires topic.None? || topic.value == 0
    ensures TopicNameSpec(c, t, k, topic) == Got(None, c)
  {
  }

  /** A recorded name is answered from the cache, whatever the transport would say. */
  lemma TopicNameHit(c: Caches, t1: Transport, t2: Transport, k: ChatKey, id: int)
    requires id != 0 && k in c.topics && id in c.topics[k]
    ensures TopicNameSpec(c, t1, k, Some(id)) == TopicNameSpec(c, t2, k, Some(id)) == Got(Some(c.topics[k][id]), c)
  {
  }

  /** Every strategy records the name it answers with. */
  lemma StrategiesRecord(c: Caches, t: Transport, k: ChatKey, e: Option<Entity>, id: int)
    requires k in c.topics
    ensures var r := Strategies(c, t, k, e, id);
      k in r.caches.topics && id in r.caches.topics[k] && r.caches.topics[k][id] == r.value
    ensures Grows(c, Strategies(c, t, k, e, id).caches)
    ensures Strategies(c, t, k, e, id).caches.entities == c.entities
    ensures Strategies(c, t, k, e, id).caches.noForward == c.noForward
  {
    var listing := Listing(t, e);
    if listing.Some? {
      WriteTopicsSpec(c.topics[k], listing.value);
    }
  }

  /**
   * A truthy topic id always gets a name, and afterwards the cache holds that
   * name for the topic; no cache loses anything.
   */
  lemma TopicNameRecorded(c: Caches, t: Transport, k: ChatKey, id: int)
    requires id != 0
    ensures var r := TopicNameSpec(c, t, k, Some(id));
      && r.value.Some?
      && k in r.caches.topics && id in r.caches.topics[k] && r.caches.topics[k][id] == r.value.value
      && Grows(c, r.caches)
      && r.caches.noForward == c.noForward
  {
    if !(k in c.topics && id in c.topics[k]) {
      TopicMissRecorded(c, t, k, id);
    }
  }

  lemma TopicMissRecorded(c: Caches, t: Transport, k: ChatKey, id: int)
    ensures var r := TopicMiss(c, t, k, id);
      && k in r.caches.topics && id in r.caches.topics[k] && r.caches.topics[k][id] == r.value
      && Grows(c, r.caches)
      && r.caches.noForward == c.noForward
  {
    var c0 := SetTopics(c, k, TopicsOf(c, k));
    assert Grows(c, c0);
    var g := EntitySpec(c0, t, k);
    EntityGrows(c0, t, k);
    StrategiesRecord(g.caches, t, k, g.value, id);
  }

  /** First success: a listed topic takes its name from the listing, whatever the later strategies would give. */
  lemma StrategiesPreferListing(c: Caches, t: Transport, k: ChatKey, e: Option<Entity>, id: int, j: nat)
    requires k in c.topics
    requires Listing(t, e).Some? && j < |Listing(t, e).value|
    requires Listing(t, e).value[j].id == id
    requires forall j2 | j < j2 < |Listing(t, e).value| :: Listing(t, e).value[j2].id != id
    ensures Strategies(c, t, k, e, id).value == Listing(t, e).value[j].title
  {
    WriteTopicsSpec(c.topics[k], Listing(t, e).value);
  }

  /** First success: without a listing entry, a non-empty starter title wins over the discussion. */
  lemma StrategiesPreferStarter(c: Caches, t: Transport, k: ChatKey, e: Option<Entity>, id: int)
    requires k in c.topics && id !in c.topics[k]
    requires Listing(t, e).None?
    requires t.topicStarterTitle(e, id).Some? && t.topicStarterTitle(e, id).value != ""
    ensures Strategies(c, t, k, e, id).value == t.topicStarterTitle(e, id).value
  {
  }

  /** When no strategy finds a name, the synthetic "Topic <id>" is used. */
  lemma StrategiesFallback(c: Caches, t: Transport, k: ChatKey, e: Option<Entity>, id: int)
    requires k in c.topics && id !in c.topics[k]
    requires Listing(t, e).None? || forall j | 0 <= j < |Listing(t, e).value| :: Listing(t, e).value[j].id != id
    requires t.topicStarterTitle(e, id).None? || t.topicStarterTitle(e, id).value == ""
    requires t.discussionTitles(e, id).None? || forall j | 0 <= j < |t.discussionTitles(e, id).value| :: t.discussionTitles(e, id).value[j] == ""
    ensures Strategies(c, t, k, e, id).value == FallbackTopicName(id)
  {
    if Listing(t, e).Some? {
      WriteTopicsSpec(c.topics[k], Listing(t, e).value);
    }
  }

  /**
   * After the check, the answer and the set agree: forwarding is allowed
   * exactly when the chat is not marked. The set only gains this chat.
   */
  lemma CanForwardConsistent(c: Caches, t: Transport, k: ChatKey)
    ensures var r := CanForwardSpec(c, t, k);
      && (r.value <==> k !in r.caches.noForward)
      && c.noForward <= r.caches.noForward <= c.noForward + {k}
      && (r.value ==> r.caches.noForward == c.noForward)
      && Grows(c, r.caches)
  {
  }

  /** A marked chat is refused without a lookup: the transport is not consulted. */
  lemma CanForwardMarked(c: Caches, t1: Transport, t2: Transport, k: ChatKey)
    requires k in c.noForward
    ensures CanForwardSpec(c, t1, k) == CanForwardSpec(c, t2, k) == Got(false, c)
  {
  }

  /** A resolved chat that is not a no-forwards channel is allowed, and nothing is marked. */
  lemma CanForwardResolved(c: Caches, t: Transport, k: ChatKey)
    requires k !in c.noForward
    requires var e := EntitySpec(c, t, k).value; e.Some? && !(e.value.isChannel && e.value.noforwards)
    ensures CanForwardSpec(c, t, k) == Got(true, EntitySpec(c, t, k).caches)
  {
  }

  /** The manager's caches over a transport. */
  class EntityManager {
    var chatEntities: map<ChatKey, Entity>
    var chatTopics: map<ChatKey, map<int, string>>
    var noForwardChats: set<ChatKey>
    const transport: Transport

    function State(): Caches
      reads this
    {
      Caches(chatEntities, chatTopics, noForwardChats)
    }

    constructor(transport: Transport)
      ensures State() == NoCaches && this.transport == transport
    {
      this.transport := transport;
      chatEntities := map[];
      chatTopics := map[];
      noForwardChats := {};
    }

    method GetEntity(k: ChatKey) returns (e: Option<Entity>)
      modifies this
      ensures Got(e, State()) == EntitySpec(old(State()), transport, k)
      ensures chatTopics == old(chatTopics) && noForwardChats == old(noForwardChats)
    {
      if k in chatEntities {
        return Some(chatEntities[k]);
      }
      var q := QueryFor(k);
      if q.None? {
        return None;
      }
      e := transport.resolve(q.value);
      if e.Some? {
        chatEntities := chatEntities[k := e.value];
      }
    }

    method GetChatTitle(k: ChatKey) returns (title: string)
      modifies this
      ensures Got(title, State()) == ChatTitleSpec(old(State()), transport, k)
    {
      var e := GetEntity(k);
      if e.Some? {
        if e.value.title.Some? {
          return e.value.title.value;
        }
      }
      return "Chat " + KeyString(k);
    }

    /** Records a topic name for chat k. */
    method Record(k: ChatKey, id: int, name: string)
      requires k in chatTopics
      modifies this
      ensures State() == SetTopics(old(State()), k, old(chatTopics)[k][id := name])
    {
      chatTopics := chatTopics[k := chatTopics[k][id := name]];
    }

    /** The forum listing, written into the chat's topic names entry by entry. */
    method WriteListing(k: ChatKey, ts: seq<ForumTopic>)
      requires k in chatTopics
      modifies this
      ensures State() == SetTopics(old(State()), k, WriteTopics(old(chatTopics)[k], ts))
    {
      var i := 0;
      while i < |ts|
        invariant 0 <= i <= |ts|
        invariant State() == SetTopics(old(State()), k, WriteTopics(old(chatTopics)[k], ts[..i]))
      {
        assert ts[..i + 1][..i] == ts[..i];
        chatTopics := chatTopics[k := chatTopics[k][ts[i].id := ts[i].title]];
        i := i + 1;
      }
      assert ts[..i] == ts;
    }

    /** The first titled message of the discussion, or "" when there is none. */
    static method FirstTitle(titles: seq<string>) returns (title: string)
      ensures title == FirstNonEmpty(titles)
    {
      var i := 0;
      while i < |titles|
        invariant 0 <= i <= |titles|
        invariant forall j | 0 <= j < i :: titles[j] == ""
      {
        if titles[i] != "" {
          FirstNonEmptyAt(titles, i);
          return titles[i];
        }
        i := i + 1;
      }
      return "";
    }

    method RunStrategies(k: ChatKey, e: Option<Entity>, id: int) returns (name: string)
      requires k in chatTopics
      modifies this
      ensures Got(name, State()) == Strategies(old(State()), transport, k, e, id)
    {
      var listing := Listing(transport, e);
      if listing.Some? {
        WriteListing(k, listing.value);
        if id in chatTopics[k] {
          return chatTopics[k][id];
        }
      }
      var starter := transport.topicStarterTitle(e, id);
      if starter.Some? && starter.value != "" {
        Record(k, id, starter.value);
        return starter.value;
      }
      var titles := transport.discussionTitles(e, id);
      if titles.Some? {
        var title := FirstTitle(titles.value);
        if title != "" {
          Record(k, id, title);
          return title;
        }
      }
      name := FallbackTopicName(id);
      Record(k, id, name);
    }

    method GetTopicName(k: ChatKey, topic: Option<int>) returns (name: Option<string>)
      modifies this
      ensures Got(name, State()) == TopicNameSpec(old(State()), transport, k, topic)
    {
      if topic.None? || topic.value == 0 {
        return None;
      }
      var id := topic.value;
      if k in chatTopics && id in chatTopics[k] {
        return Some(chatTopics[k][id]);
      }
      var found := LookUpTopic(k, id);
      name := Some(found);
    }

    /** A cache miss: the chat's topic map is created if missing, the chat resolved, then the strategies run. */
    method LookUpTopic(k: ChatKey, id: int) returns (name: string)
      modifies this
      ensures Got(name, State()) == TopicMiss(old(State()), transport, k, id)
    {
      if k !in chatTopics {
        chatTopics := chatTopics[k := map[]];
      }
      assert State() == SetTopics(old(State()), k, TopicsOf(old(State()), k));
      var e := GetEntity(k);
      name := RunStrategies(k, e, id);
    }

    method CanForwardFromChat(k: ChatKey) returns (ok: bool)
      modifies this
      ensures Got(ok, State()) == CanForwardSpec(old(State()), transport, k)
    {
      if k in noForwardChats {
        return false;
      }
      var e := GetEntity(k);
      if e.None? {
        noForwardChats := noForwardChats + {k};
        return false;
      }
      if e.value.isChannel && e.value.noforwards {
        noForwardChats := noForwardChats + {k};
        return false;
      }
      return true;
    }
  }
}

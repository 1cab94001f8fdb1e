/**
 * The new-message handler: it records the message's extracted text, decides
 * the targets from the rules, and, when there are any, gathers the replied-to
 * message and the linked messages and hands everything to the forwarder.
 */
module Handlers {
  import opened Wrappers
  import opened Strings
  import opened Telegram
  import opened Utils
  import opened Entities
  import opened Rules
  import opened Links
  import opened Processors
  import opened Forwarding

  /** Everything a handled message can change: the entity caches, the link cache, and the transport calls made. */
  datatype World = World(caches: Caches, links: map<string, Message>, outbox: seq<Action>)

  /** The contents gathered from links, with the caches after the fetches. */
  datatype Gathered = Gathered(contents: seq<Content>, links: map<string, Message>, caches: Caches)

  /** The sender id used by the rules: the id of a sender that was found, else None. */
  function SenderId(s: SenderLookup): Option<int> {
    if s.SenderFound? && s.user.Some? then s.user.value.id else None
  }

  /** The replied-to message, formatted as a reply, for a genuine reply whose fetch succeeds. */
  function ReplyContents(t: Transport, ev: Event, topic: Option<int>): seq<Content> {
    if IsGenuineReply(ev.message, topic) then
      var r := t.getReplied(ev.chatId, Get(ev.message.replyTo.value.replyToMsgId));
      if r.Some? then [FormatContent(r.value, true, None)] else []
    else []
  }

  /** The links of a message: those in its `text` attribute, when that is non-empty. */
  function LinksOf(m: Message): seq<LinkRef> {
    if Truthy(m.text) then ExtractMessageLinks(TextOf(m.text)) else []
  }

  /** Each link fetched in order; a fetched message is formatted with the link's text, a failed fetch skipped. */
  function LinkContents(links: map<string, Message>, c: Caches, t: Transport, refs: seq<LinkRef>): Gathered
    decreases |refs|
  {
    if refs == [] then Gathered([], links, c)
    else
      var prev := LinkContents(links, c, t, refs[..|refs| - 1]);
      var last := refs[|refs| - 1];
      var f := FetchSpec(prev.links, prev.caches, t, last);
      Gathered(prev.contents + (if f.value.Some? then [FormatContent(f.value.value, false, Some(last.fullMatch))] else []), f.links, f.caches)
  }

  /** `process_and_forward_message`: the reply first, then the linked messages, then the forward to every target. */
  function ProcessSpec(w: World, t: Transport, ev: Event, ds: seq<Decision>, topic: Option<int>, canForward: bool): World {
    var g := LinkContents(w.links, w.caches, t, LinksOf(ev.message));
    var f := ForwardSpec(g.caches, t, ev, ReplyContents(t, ev, topic) + g.contents, topic, canForward, ds);
    World(f.caches, g.links, w.outbox + f.actions)
  }

  /** `handle_new_message` */
  function HandleSpec(w: World, t: Transport, rules: RuleTable, ev: Event): World {
    var ev' := ev.(message := Finalize(ev.message));
    var topic := ExtractTopicId(t, ev');
    var ds := Decide(rules, Num(ev.chatId), topic, SenderId(ev.message.sender));
    if ds == [] then w
    else
      var cf := CanForwardSpec(w.caches, t, Num(ev.chatId));
      ProcessSpec(w.(caches := cf.caches), t, ev', ds, topic, cf.value)
  }

  /** A message no rule forwards changes nothing: no chat is checked or marked, nothing is fetched or sent. */
  lemma NoTargetsNoEffect(w: World, t: Transport, rules: RuleTable, ev: Event)
    requires Decide(rules, Num(ev.chatId), ExtractTopicId(t, ev), SenderId(ev.message.sender)) == []
    ensures HandleSpec(w, t, rules, ev) == w
  {
    var ev' := ev.(message := Finalize(ev.message));
    TopicIgnoresExtractedText(t, ev);
    assert Decide(rules, Num(ev.chatId), ExtractTopicId(t, ev'), SenderId(ev.message.sender)) == [];
  }

  /** Recording the extracted text does not change the topic a message is assigned to. */
  lemma TopicIgnoresExtractedText(t: Transport, ev: Event)
    ensures ExtractTopicId(t, ev.(message := Finalize(ev.message))) == ExtractTopicId(t, ev)
  {
    assert TopicChain(Finalize(ev.message)) == TopicChain(ev.message);
  }

  /** The replied-to message is fetched only for a genuine reply, and its content carries the reply prefix. */
  lemma ReplyOnlyWhenGenuine(t: Transport, ev: Event, topic: Option<int>, other: (int, Option<int>) -> Option<Message>)
    ensures |ReplyContents(t, ev, topic)| <= 1
    ensures !IsGenuineReply(ev.message, topic) ==> ReplyContents(t, ev, topic) == [] == ReplyContents(t.(getReplied := other), ev, topic)
    ensures ReplyContents(t, ev, topic) != [] ==> StartsWith(ReplyContents(t, ev, topic)[0].text, ReplyPrefix)
  {
  }

  /**
   * Link contents: at most one per link, each formatted with the reference of
   * the link it came from; the link cache keeps every message it held, all
   * finalised, and the entity caches only grow.
   */
  lemma {:induction false} LinkContentsSound(links: map<string, Message>, c: Caches, t: Transport, refs: seq<LinkRef>)
    requires forall key | key in links :: Finalized(links[key])
    ensures var g := LinkContents(links, c, t, refs);
      && |g.contents| <= |refs|
      && (forall i | 0 <= i < |g.contents| :: exists j | 0 <= j < |refs| ::
            StartsWith(g.contents[i].text, Prefix(false, Some(refs[j].fullMatch))))
      && (forall key | key in g.links :: Finalized(g.links[key]))
      && (forall key | key in links :: key in g.links && g.links[key] == links[key])
      && Grows(c, g.caches)
    decreases |refs|
  {
    if refs != [] {
      var front := refs[..|refs| - 1];
      var prev := LinkContents(links, c, t, front);
      var last := refs[|refs| - 1];
      LinkContentsSound(links, c, t, front);
      FetchCaches(prev.links, prev.caches, t, last);
      var g := LinkContents(links, c, t, refs);
      forall i | 0 <= i < |g.contents|
        ensures exists j | 0 <= j < |refs| :: StartsWith(g.contents[i].text, Prefix(false, Some(refs[j].fullMatch)))
      {
        if i < |prev.contents| {
          var j :| 0 <= j < |front| && StartsWith(prev.contents[i].text, Prefix(false, Some(front[j].fullMatch)));
          assert refs[j] == front[j];
        } else {
          assert StartsWith(g.contents[i].text, Prefix(false, Some(last.fullMatch)));
        }
      }
    }
  }

  /**
   * Once anything was gathered (a reply or a linked message), no target is
   * forwarded natively: every target gets exactly one reconstructed send.
   */
  lemma GatheredMeansReconstruct(w: World, t: Transport, ev: Event, ds: seq<Decision>, topic: Option<int>, canForward: bool)
    requires ReplyContents(t, ev, topic) != [] || LinkContents(w.links, w.caches, t, LinksOf(ev.message)).contents != []
    ensures var r := ProcessSpec(w, t, ev, ds, topic, canForward);
      |r.outbox| >= |w.outbox| && var sent := r.outbox[|w.outbox|..];
      Attempts(sent) == 0 && MainSends(sent) == |ds|
  {
    var g := LinkContents(w.links, w.caches, t, LinksOf(ev.message));
    var contents := ReplyContents(t, ev, topic) + g.contents;
    ForwardCounts(g.caches, t, ev, contents, topic, canForward, ds);
    var f := ForwardSpec(g.caches, t, ev, contents, topic, canForward, ds);
    assert (w.outbox + f.actions)[|w.outbox|..] == f.actions;
  }

  /**
   * A message with nothing to gather is forwarded natively to every target
   * whose chat parses, when the chat allows it.
   */
  lemma NothingGatheredNative(w: World, t: Transport, ev: Event, ds: seq<Decision>, topic: Option<int>)
    requires ReplyContents(t, ev, topic) == [] && LinkContents(w.links, w.caches, t, LinksOf(ev.message)).contents == []
    ensures var r := ProcessSpec(w, t, ev, ds, topic, true);
      |r.outbox| >= |w.outbox| && Attempts(r.outbox[|w.outbox|..]) == Parseable(ds)
  {
    var g := LinkContents(w.links, w.caches, t, LinksOf(ev.message));
    ForwardCounts(g.caches, t, ev, [], topic, true, ds);
    var f := ForwardSpec(g.caches, t, ev, [], topic, true, ds);
    assert ReplyContents(t, ev, topic) + g.contents == [];
    assert (w.outbox + f.actions)[|w.outbox|..] == f.actions;
  }

  /** Handling a message only adds to the caches and to the calls made. */
  lemma HandleGrows(w: World, t: Transport, rules: RuleTable, ev: Event)
    requires forall key | key in w.links :: Finalized(w.links[key])
    ensures var r := HandleSpec(w, t, rules, ev);
      && Grows(w.caches, r.caches)
      && (forall key | key in w.links :: key in r.links && r.links[key] == w.links[key])
      && (forall key | key in r.links :: Finalized(r.links[key]))
      && |r.outbox| >= |w.outbox| && r.outbox[..|w.outbox|] == w.outbox
  {
    var ev' := ev.(message := Finalize(ev.message));
    var topic := ExtractTopicId(t, ev');
    var ds := Decide(rules, Num(ev.chatId), topic, SenderId(ev.message.sender));
    if ds != [] {
      var cf := CanForwardSpec(w.caches, t, Num(ev.chatId));
      CanForwardConsistent(w.caches, t, Num(ev.chatId));
      var g := LinkContents(w.links, cf.caches, t, LinksOf(ev'.message));
      LinkContentsSound(w.links, cf.caches, t, LinksOf(ev'.message));
      var contents := ReplyContents(t, ev', topic) + g.contents;
      ForwardGrows(g.caches, t, ev', contents, topic, cf.value, ds);
      var f := ForwardSpec(g.caches, t, ev', contents, topic, cf.value, ds);
      assert (w.outbox + f.actions)[..|w.outbox|] == w.outbox;
    }
  }

  /** The handler, wired to managers that share one entity manager. */
  class MessageHandler {
    const entityManager: EntityManager
    const ruleManager: RuleManager
    const linkManager: LinkManager
    const forwardingManager: ForwardingManager

    constructor(entityManager: EntityManager, ruleManager: RuleManager, linkManager: LinkManager, forwardingManager: ForwardingManager)
      requires linkManager.entityManager == entityManager && forwardingManager.entityManager == entityManager
      ensures this.entityManager == entityManager && this.ruleManager == ruleManager
      ensures this.linkManager == linkManager && this.forwardingManager == forwardingManager
    {
      this.entityManager := entityManager;
      this.ruleManager := ruleManager;
      this.linkManager := linkManager;
      this.forwardingManager := forwardingManager;
    }

    /** The managers share the handler's entity manager. */
    predicate Wired()
      reads this, linkManager, forwardingManager
    {
      linkManager.entityManager == entityManager && forwardingManager.entityManager == entityManager
    }

    function State(): World
      reads this, entityManager, linkManager, forwardingManager
    {
      World(entityManager.State(), linkManager.resolvedMessageLinks, forwardingManager.outbox)
    }

    /** Fetches and formats the linked messages in order. */
    method GatherLinks(refs: seq<LinkRef>) returns (contents: seq<Content>)
      requires Wired()
      modifies linkManager, entityManager
      ensures Gathered(contents, linkManager.resolvedMessageLinks, entityManager.State())
        == LinkContents(old(linkManager.resolvedMessageLinks), old(entityManager.State()), entityManager.transport, refs)
    {
      ghost var links0 := linkManager.resolvedMessageLinks;
      ghost var c0 := entityManager.State();
      contents := [];
      var i := 0;
      while i < |refs|
        invariant 0 <= i <= |refs|
        invariant Gathered(contents, linkManager.resolvedMessageLinks, entityManager.State())
          == LinkContents(links0, c0, entityManager.transport, refs[..i])
      {
        assert refs[..i + 1][..i] == refs[..i];
        var linked := linkManager.FetchLinkedMessage(refs[i]);
        if linked.Some? {
          contents := contents + [FormatContent(linked.value, false, Some(refs[i].fullMatch))];
        }
        i := i + 1;
      }
      assert refs[..i] == refs;
    }

    /** `process_and_forward_message` */
    method ProcessAndForward(ev: Event, ds: seq<Decision>, topic: Option<int>, canForward: bool)
      requires Wired()
      modifies linkManager, entityManager, forwardingManager
      ensures State() == ProcessSpec(old(State()), entityManager.transport, ev, ds, topic, canForward)
    {
      var contents := ReplyContents(entityManager.transport, ev, topic);
      var linked := GatherLinks(LinksOf(ev.message));
      contents := contents + linked;
      forwardingManager.ForwardMessage(ev, contents, topic, canForward, ds);
    }

    /** `handle_new_message` */
    method HandleNewMessage(ev: Event)
      requires Wired()
      modifies linkManager, entityManager, forwardingManager
      ensures State() == HandleSpec(old(State()), entityManager.transport, ruleManager.rules, ev)
    {
      var message := Finalize(ev.message);
      var ev' := ev.(message := message);
      var senderId := SenderId(message.sender);
      var topic := ExtractTopicId(entityManager.transport, ev');
      var targets := ruleManager.ShouldForward(Num(ev.chatId), topic, senderId);
      if targets != [] {
        var canForward := entityManager.CanForwardFromChat(Num(ev.chatId));
        ProcessAndForward(ev', targets, topic, canForward);
      }
    }
  }
}

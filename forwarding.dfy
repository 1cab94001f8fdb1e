/**
 * Delivery of one message to its targets: a native forward when the chat
 * allows it and nothing is attached, otherwise (or when the native forward
 * fails) a reconstructed message with a source line, followed by the
 * attachments of the referenced messages.
 */
module Forwarding {
  import opened Wrappers
  import opened Strings
  import opened Telegram
  import opened Entities
  import opened Rules
  import opened Processors

  const ForwardedFrom := "\U{1F4E8} Forwarded from: "
  const MediaCaption := "\U{1F4CE} Additional media from referenced message"

  /** `int(to_chat)`: an integer as it is, a string through `int()`, which may fail. */
  function IntOf(k: ChatKey): Option<int> {
    match k
    case Num(n) => Some(n)
    case Name(s) => ParseInt(s)
  }

  /** The caches after a delivery and the transport calls it made, in order. */
  datatype Delivery = Delivery(caches: Caches, actions: seq<Action>)

  /** The source line: the chat title, then " | <topic name>" when a name was found. */
  function SourceInfo(title: string, topicName: Option<string>): string {
    ForwardedFrom + title + (if topicName.Some? && topicName.value != "" then " | " + topicName.value else "")
  }

  /** One send per attachment, each with the fixed caption, into the target's topic. */
  function MediaSends(toChat: ChatKey, toTopic: Option<int>, ms: seq<Media>): seq<Action> {
    seq(|ms|, i requires 0 <= i < |ms| => SendMedia(toChat, MediaCaption, toTopic, ms[i]))
  }

  /**
   * The reconstructed delivery to one target: the chat title and, for a truthy
   * topic, the topic name; the main message; then the attachments, only when
   * the main message went through.
   */
  function ReconstructSpec(c: Caches, t: Transport, ev: Event, contents: seq<Content>, topic: Option<int>, d: Decision): Delivery {
    var source := SourceSpec(c, t, ev.chatId, topic);
    var p := PrepareSpec(ev.message, source.value, d.includeSource, contents);
    Delivery(source.caches, SendsFor(t, ev, d, p))
  }

  /** The source line of a reconstruction: the chat title and, for a truthy topic, the topic name. */
  function SourceSpec(c: Caches, t: Transport, chatId: int, topic: Option<int>): Got<string> {
    var title := ChatTitleSpec(c, t, Num(chatId));
    var name := if IntTruthy(topic) then TopicNameSpec(title.caches, t, Num(chatId), topic) else Got(None, title.caches);
    Got(SourceInfo(title.value, name.value), name.caches)
  }

  /** The sends of a reconstruction: the main message, then the attachments if it went through. */
  function SendsFor(t: Transport, ev: Event, d: Decision, p: Prepared): seq<Action> {
    var main := SendText(d.toChat, p.text, d.toTopic, ev.message.entities, p.sendable);
    [main] + (if t.accepts(main) then MediaSends(d.toChat, d.toTopic, p.additional) else [])
  }

  /**
   * The delivery to one target. A native forward is tried when the chat may be
   * forwarded from, nothing is attached and the target parses as an integer;
   * success ends the delivery (moving the copy into the target topic when there
   * is one); a restriction error marks the source chat; any failure falls
   * through to reconstruction.
   */
  function DeliverSpec(c: Caches, t: Transport, ev: Event, contents: seq<Content>, topic: Option<int>, canForward: bool, d: Decision): Delivery {
    var peer := IntOf(d.toChat);
    if canForward && contents == [] && peer.Some? then
      var attempt := ForwardAttempt(peer.value, ev.message.id);
      match t.forward(peer.value, ev.message)
      case Forwarded(nonEmpty) =>
        Delivery(c, [attempt] + (if IntTruthy(d.toTopic) && nonEmpty then [EditTopic(peer.value, d.toTopic.value)] else []))
      case Restricted =>
        var r := ReconstructSpec(c.(noForward := c.noForward + {Num(ev.chatId)}), t, ev, contents, topic, d);
        Delivery(r.caches, [attempt] + r.actions)
      case Failed =>
        var r := ReconstructSpec(c, t, ev, contents, topic, d);
        Delivery(r.caches, [attempt] + r.actions)
    else ReconstructSpec(c, t, ev, contents, topic, d)
  }

  /** `forward_message`: the targets in order, each seeing the caches the previous ones left. */
  function ForwardSpec(c: Caches, t: Transport, ev: Event, contents: seq<Content>, topic: Option<int>, canForward: bool, ds: seq<Decision>): Delivery
    decreases |ds|
  {
    if ds == [] then Delivery(c, [])
    else
      var prev := ForwardSpec(c, t, ev, contents, topic, canForward, ds[..|ds| - 1]);
      var one := DeliverSpec(prev.caches, t, ev, contents, topic, canForward, ds[|ds| - 1]);
      Delivery(one.caches, prev.actions + one.actions)
  }

  /** Number of native forward attempts among the actions. */
  function Attempts(xs: seq<Action>): nat
    decreases |xs|
  {
    if xs == [] then 0 else Attempts(xs[..|xs| - 1]) + (if xs[|xs| - 1].ForwardAttempt? then 1 else 0)
  }

  /** Number of main (text) sends among the actions. */
  function MainSends(xs: seq<Action>): nat
    decreases |xs|
  {
    if xs == [] then 0 else MainSends(xs[..|xs| - 1]) + (if xs[|xs| - 1].SendText? then 1 else 0)
  }

  /** Number of targets whose chat parses as an integer. */
  function Parseable(ds: seq<Decision>): nat
    decreases |ds|
  {
    if ds == [] then 0 else Parseable(ds[..|ds| - 1]) + (if IntOf(ds[|ds| - 1].toChat).Some? then 1 else 0)
  }

  lemma {:induction false} CountsAppend(a: seq<Action>, b: seq<Action>)
    ensures Attempts(a + b) == Attempts(a) + Attempts(b)
    ensures MainSends(a + b) == MainSends(a) + MainSends(b)
    decreases |b|
  {
    if b == [] {
      assert a + b == a;
    } else {
      var b' := b[..|b| - 1];
      assert (a + b)[..|a + b| - 1] == a + b';
      CountsAppend(a, b');
    }
  }

  /** Each attachment send counts neither as an attempt nor as a main send. */
  lemma {:induction false} MediaSendsCounts(toChat: ChatKey, toTopic: Option<int>, ms: seq<Media>)
    ensures Attempts(MediaSends(toChat, toTopic, ms)) == 0 && MainSends(MediaSends(toChat, toTopic, ms)) == 0
    decreases |ms|
  {
    if ms != [] {
      var xs := MediaSends(toChat, toTopic, ms);
      assert xs[..|xs| - 1] == MediaSends(toChat, toTopic, ms[..|ms| - 1]);
      MediaSendsCounts(toChat, toTopic, ms[..|ms| - 1]);
    }
  }

  /**
   * The sends of a reconstruction: the main message first, as a reply into the
   * target topic with the message's own formatting; the attachments follow,
   * each with the fixed caption, only when the main send went through.
   */
  lemma SendsLayout(t: Transport, ev: Event, d: Decision, p: Prepared)
    ensures var xs := SendsFor(t, ev, d, p);
      && xs != [] && xs[0] == SendText(d.toChat, p.text, d.toTopic, ev.message.entities, p.sendable)
      && |xs| == 1 + (if t.accepts(xs[0]) then |p.additional| else 0)
      && (forall i | 1 <= i < |xs| :: xs[i] == SendMedia(d.toChat, MediaCaption, d.toTopic, p.additional[i - 1]))
      && Attempts(xs) == 0 && MainSends(xs) == 1
  {
    var xs := SendsFor(t, ev, d, p);
    var main := xs[0];
    var rest := if t.accepts(main) then MediaSends(d.toChat, d.toTopic, p.additional) else [];
    assert xs == [main] + rest;
    MediaSendsCounts(d.toChat, d.toTopic, p.additional);
    CountsAppend([main], rest);
    assert Attempts([main]) == 0 && MainSends([main]) == 1 by {
      assert [main][..0] == [];
    }
  }

  /** A reconstruction's sends carry the prepared payload of the message and its referenced contents. */
  lemma ReconstructLayout(c: Caches, t: Transport, ev: Event, contents: seq<Content>, topic: Option<int>, d: Decision)
    ensures var r := ReconstructSpec(c, t, ev, contents, topic, d);
      var p := PrepareSpec(ev.message, SourceSpec(c, t, ev.chatId, topic).value, d.includeSource, contents);
      && r.actions == SendsFor(t, ev, d, p)
      && r.caches == SourceSpec(c, t, ev.chatId, topic).caches
      && p.additional == AdditionalMedia(contents)
      && r.actions != [] && r.actions[0].SendText?
      && Attempts(r.actions) == 0 && MainSends(r.actions) == 1
  {
    var p := PrepareSpec(ev.message, SourceSpec(c, t, ev.chatId, topic).value, d.includeSource, contents);
    SendsLayout(t, ev, d, p);
  }

  /** The source line carries the chat title and, when one was found, the topic name. */
  lemma SourceInfoLayout(title: string, name: string)
    ensures SourceInfo(title, None) == ForwardedFrom + title
    ensures SourceInfo(title, Some("")) == ForwardedFrom + title
    ensures name != "" ==> SourceInfo(title, Some(name)) == ForwardedFrom + title + " | " + name
    ensures StartsWith(SourceInfo(title, Some(name)), ForwardedFrom + title)
  {
    var s := SourceInfo(title, Some(name));
    assert s[..|ForwardedFrom + title|] == ForwardedFrom + title;
  }

  /** A native attempt is made exactly when the chat may be forwarded from, nothing is attached and the target parses. */
  lemma NativeIff(c: Caches, t: Transport, ev: Event, contents: seq<Content>, topic: Option<int>, canForward: bool, d: Decision)
    ensures var r := DeliverSpec(c, t, ev, contents, topic, canForward, d);
      r.actions != [] && (r.actions[0].ForwardAttempt? <==> canForward && contents == [] && IntOf(d.toChat).Some?)
  {
    ReconstructLayout(c, t, ev, contents, topic, d);
    ReconstructLayout(c.(noForward := c.noForward + {Num(ev.chatId)}), t, ev, contents, topic, d);
  }

  /**
   * A native forward that succeeds ends the delivery: nothing is sent, no
   * cache changes, and the copy is moved into the target topic exactly when
   * there is a topic and the forward returned something.
   */
  lemma NativeSuccess(c: Caches, t: Transport, ev: Event, topic: Option<int>, d: Decision)
    requires IntOf(d.toChat).Some?
    requires t.forward(IntOf(d.toChat).value, ev.message).Forwarded?
    ensures var r := DeliverSpec(c, t, ev, [], topic, true, d);
      var peer := IntOf(d.toChat).value;
      && r.caches == c
      && MainSends(r.actions) == 0
      && (forall i | 0 <= i < |r.actions| :: !r.actions[i].SendText? && !r.actions[i].SendMedia?)
      && (|r.actions| == 2 <==> IntTruthy(d.toTopic) && t.forward(peer, ev.message).nonEmpty)
      && (|r.actions| == 2 ==> r.actions[1] == EditTopic(peer, d.toTopic.value))
  {
    var r := DeliverSpec(c, t, ev, [], topic, true, d);
    var peer := IntOf(d.toChat).value;
    var a := ForwardAttempt(peer, ev.message.id);
    assert MainSends([a]) == 0 by {
      assert [a][..0] == [];
    }
    if IntTruthy(d.toTopic) && t.forward(peer, ev.message).nonEmpty {
      var e := EditTopic(peer, d.toTopic.value);
      assert r.actions == [a] + [e];
      CountsAppend([a], [e]);
      assert MainSends([e]) == 0 by {
        assert [e][..0] == [];
      }
    } else {
      assert r.actions == [a];
    }
  }

  /**
   * A restriction error marks the source chat as refusing forwarding and falls
   * through to a reconstructed send; any other failure falls through without
   * marking.
   */
  lemma NativeFailure(c: Caches, t: Transport, ev: Event, topic: Option<int>, d: Decision)
    requires IntOf(d.toChat).Some?
    requires !t.forward(IntOf(d.toChat).value, ev.message).Forwarded?
    ensures var r := DeliverSpec(c, t, ev, [], topic, true, d);
      && |r.actions| >= 2 && r.actions[1].SendText? && MainSends(r.actions) == 1
      && (t.forward(IntOf(d.toChat).value, ev.message).Restricted? ==> Num(ev.chatId) in r.caches.noForward)
      && (t.forward(IntOf(d.toChat).value, ev.message).Failed? ==> r.caches == ReconstructSpec(c, t, ev, [], topic, d).caches)
  {
    var peer := IntOf(d.toChat).value;
    var a := ForwardAttempt(peer, ev.message.id);
    var c1 := if t.forward(peer, ev.message).Restricted? then c.(noForward := c.noForward + {Num(ev.chatId)}) else c;
    var rec := ReconstructSpec(c1, t, ev, [], topic, d);
    ReconstructLayout(c1, t, ev, [], topic, d);
    ReconstructGrows(c1, t, ev, [], topic, d);
    CountsAppend([a], rec.actions);
    assert MainSends([a]) == 0 by {
      assert [a][..0] == [];
    }
  }

  /** A reconstruction only adds to the caches. */
  lemma ReconstructGrows(c: Caches, t: Transport, ev: Event, contents: seq<Content>, topic: Option<int>, d: Decision)
    ensures Grows(c, ReconstructSpec(c, t, ev, contents, topic, d).caches)
  {
    var title := ChatTitleSpec(c, t, Num(ev.chatId));
    EntityGrows(c, t, Num(ev.chatId));
    if IntTruthy(topic) {
      TopicNameRecorded(title.caches, t, Num(ev.chatId), topic.value);
    }
  }

  /** A delivery only adds to the caches: a chat marked as refusing forwarding stays marked. */
  lemma DeliverGrows(c: Caches, t: Transport, ev: Event, contents: seq<Content>, topic: Option<int>, canForward: bool, d: Decision)
    ensures Grows(c, DeliverSpec(c, t, ev, contents, topic, canForward, d).caches)
  {
    ReconstructGrows(c, t, ev, contents, topic, d);
    ReconstructGrows(c.(noForward := c.noForward + {Num(ev.chatId)}), t, ev, contents, topic, d);
  }

  lemma {:induction false} ForwardGrows(c: Caches, t: Transport, ev: Event, contents: seq<Content>, topic: Option<int>, canForward: bool, ds: seq<Decision>)
    ensures Grows(c, ForwardSpec(c, t, ev, contents, topic, canForward, ds).caches)
    decreases |ds|
  {
    if ds != [] {
      var prev := ForwardSpec(c, t, ev, contents, topic, canForward, ds[..|ds| - 1]);
      ForwardGrows(c, t, ev, contents, topic, canForward, ds[..|ds| - 1]);
      DeliverGrows(prev.caches, t, ev, contents, topic, canForward, ds[|ds| - 1]);
    }
  }

  /** Per target: one main send when no native attempt is made; one attempt per parseable target otherwise. */
  lemma DeliverCounts(c: Caches, t: Transport, ev: Event, contents: seq<Content>, topic: Option<int>, canForward: bool, d: Decision)
    ensures var r := DeliverSpec(c, t, ev, contents, topic, canForward, d);
      && (!(canForward && contents == []) ==> Attempts(r.actions) == 0 && MainSends(r.actions) == 1)
      && (canForward && contents == [] ==> Attempts(r.actions) == if IntOf(d.toChat).Some? then 1 else 0)
  {
    var r := DeliverSpec(c, t, ev, contents, topic, canForward, d);
    var peer := IntOf(d.toChat);
    ReconstructLayout(c, t, ev, contents, topic, d);
    if canForward && contents == [] && peer.Some? {
      var a := ForwardAttempt(peer.value, ev.message.id);
      var c1 := if t.forward(peer.value, ev.message).Restricted? then c.(noForward := c.noForward + {Num(ev.chatId)}) else c;
      ReconstructLayout(c1, t, ev, contents, topic, d);
      assert r.actions[..1] == [a];
      assert [a][..0] == [];
      CountsAppend([a], r.actions[1..]);
      assert r.actions == [a] + r.actions[1..];
    }
  }

  /**
   * Over all targets: without native forwarding every target gets exactly one
   * main send and no attempt; with it, every target whose chat parses gets an
   * attempt, even after an earlier target's attempt marked the chat, because
   * the flag is read once before the loop.
   */
  lemma {:induction false} ForwardCounts(c: Caches, t: Transport, ev: Event, contents: seq<Content>, topic: Option<int>, canForward: bool, ds: seq<Decision>)
    ensures var r := ForwardSpec(c, t, ev, contents, topic, canForward, ds);
      && (!(canForward && contents == []) ==> Attempts(r.actions) == 0 && MainSends(r.actions) == |ds|)
      && (canForward && contents == [] ==> Attempts(r.actions) == Parseable(ds))
    decreases |ds|
  {
    if ds == [] {
    } else {
      var prev := ForwardSpec(c, t, ev, contents, topic, canForward, ds[..|ds| - 1]);
      var one := DeliverSpec(prev.caches, t, ev, contents, topic, canForward, ds[|ds| - 1]);
      ForwardCounts(c, t, ev, contents, topic, canForward, ds[..|ds| - 1]);
      DeliverCounts(prev.caches, t, ev, contents, topic, canForward, ds[|ds| - 1]);
      CountsAppend(prev.actions, one.actions);
    }
  }

  lemma AppendAssoc(a: seq<Action>, b: seq<Action>, c: seq<Action>)
    ensures (a + b) + c == a + (b + c)
  {
  }

  lemma ForwardStep(c: Caches, t: Transport, ev: Event, contents: seq<Content>, topic: Option<int>, canForward: bool, ds: seq<Decision>, i: nat)
    requires i < |ds|
    ensures var prev := ForwardSpec(c, t, ev, contents, topic, canForward, ds[..i]);
      var one := DeliverSpec(prev.caches, t, ev, contents, topic, canForward, ds[i]);
      ForwardSpec(c, t, ev, contents, topic, canForward, ds[..i + 1]) == Delivery(one.caches, prev.actions + one.actions)
  {
    assert ds[..i + 1][..i] == ds[..i];
  }

  /** The forwarding manager: the transport calls it made, and the entity manager whose caches it updates. */
  class ForwardingManager {
    const entityManager: EntityManager
    var outbox: seq<Action>

    constructor(entityManager: EntityManager)
      ensures this.entityManager == entityManager && outbox == []
    {
      this.entityManager := entityManager;
      outbox := [];
    }

    /** Sends the attachments, each with the fixed caption. */
    method SendAdditional(toChat: ChatKey, toTopic: Option<int>, ms: seq<Media>)
      modifies this
      ensures outbox == old(outbox) + MediaSends(toChat, toTopic, ms)
    {
      var i := 0;
      while i < |ms|
        invariant 0 <= i <= |ms|
        invariant outbox == old(outbox) + MediaSends(toChat, toTopic, ms[..i])
      {
        assert MediaSends(toChat, toTopic, ms[..i + 1]) == MediaSends(toChat, toTopic, ms[..i]) + [SendMedia(toChat, MediaCaption, toTopic, ms[i])];
        outbox := outbox + [SendMedia(toChat, MediaCaption, toTopic, ms[i])];
        i := i + 1;
      }
      assert ms[..i] == ms;
    }

    /** The source line of a reconstruction, looking up the chat title and the topic name. */
    method Source(chatId: int, topic: Option<int>) returns (source: string)
      modifies entityManager
      ensures Got(source, entityManager.State()) == SourceSpec(old(entityManager.State()), entityManager.transport, chatId, topic)
    {
      var title := entityManager.GetChatTitle(Num(chatId));
      var name: Option<string> := None;
      if IntTruthy(topic) {
        name := entityManager.GetTopicName(Num(chatId), topic);
      }
      source := SourceInfo(title, name);
    }

    /** Sends the main message, then the attachments if it went through. */
    method Send(ev: Event, d: Decision, p: Prepared)
      modifies this
      ensures outbox == old(outbox) + SendsFor(entityManager.transport, ev, d, p)
    {
      var main := SendText(d.toChat, p.text, d.toTopic, ev.message.entities, p.sendable);
      outbox := outbox + [main];
      if entityManager.transport.accepts(main) {
        SendAdditional(d.toChat, d.toTopic, p.additional);
      }
    }

    /** The reconstructed delivery to one target. */
    method Reconstruct(ev: Event, contents: seq<Content>, topic: Option<int>, d: Decision)
      modifies this, entityManager
      ensures var r := ReconstructSpec(old(entityManager.State()), entityManager.transport, ev, contents, topic, d);
        entityManager.State() == r.caches && outbox == old(outbox) + r.actions
    {
      var source := Source(ev.chatId, topic);
      var p := PrepareForwardingContent(ev.message, source, d.includeSource, contents);
      Send(ev, d, p);
    }

    /** The delivery to one target: a native forward when allowed, else (or on failure) reconstruction. */
    method Deliver(ev: Event, contents: seq<Content>, topic: Option<int>, canForward: bool, d: Decision)
      modifies this, entityManager
      ensures var r := DeliverSpec(old(entityManager.State()), entityManager.transport, ev, contents, topic, canForward, d);
        entityManager.State() == r.caches && outbox == old(outbox) + r.actions
    {
      var peer := IntOf(d.toChat);
      if canForward && contents == [] && peer.Some? {
        outbox := outbox + [ForwardAttempt(peer.value, ev.message.id)];
        var outcome := entityManager.transport.forward(peer.value, ev.message);
        match outcome
        case Forwarded(nonEmpty) =>
          if IntTruthy(d.toTopic) && nonEmpty {
            outbox := outbox + [EditTopic(peer.value, d.toTopic.value)];
          }
          return;
        case Restricted =>
          entityManager.noForwardChats := entityManager.noForwardChats + {Num(ev.chatId)};
        case Failed =>
      }
      Reconstruct(ev, contents, topic, d);
    }

    /** `forward_message`: every target in order. */
    method ForwardMessage(ev: Event, contents: seq<Content>, topic: Option<int>, canForward: bool, ds: seq<Decision>)
      modifies this, entityManager
      ensures var r := ForwardSpec(old(entityManager.State()), entityManager.transport, ev, contents, topic, canForward, ds);
        entityManager.State() == r.caches && outbox == old(outbox) + r.actions
    {
      ghost var c0 := entityManager.State();
      ghost var sent := outbox;
      var i := 0;
      while i < |ds|
        invariant 0 <= i <= |ds|
        invariant var r := ForwardSpec(c0, entityManager.transport, ev, contents, topic, canForward, ds[..i]);
          entityManager.State() == r.caches && outbox == sent + r.actions
      {
        ghost var prev := ForwardSpec(c0, entityManager.transport, ev, contents, topic, canForward, ds[..i]);
        ghost var one := DeliverSpec(prev.caches, entityManager.transport, ev, contents, topic, canForward, ds[i]);
        ForwardStep(c0, entityManager.transport, ev, contents, topic, canForward, ds, i);
        Deliver(ev, contents, topic, canForward, ds[i]);
        AppendAssoc(sent, prev.actions, one.actions);
        i := i + 1;
      }
      assert ds[..i] == ds;
    }
  }
}

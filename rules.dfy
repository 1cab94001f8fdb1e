/**
 * Rule matching: which targets a message from a chat (and topic, and sender)
 * is delivered to. A rule table maps a chat key to entries keyed by "*" (every
 * message of the chat) or by a topic id written in decimal.
 */
module Rules {
  import opened Wrappers
  import opened Strings
  import opened Telegram
  import opened Utils

  /** One configured target: where to deliver, in which topic, and for which senders (empty: all). */
  datatype Target = Target(chatId: ChatKey, topicId: Option<int>, userIds: seq<int>)

  /** One emitted forwarding decision. */
  datatype Decision = Decision(toChat: ChatKey, toTopic: Option<int>, includeSource: bool)

  type Entry = map<string, seq<Target>>
  type RuleTable = map<string, Entry>

  const AllTopics := "*"

  /** The entry of the first candidate key present in the table, if any. */
  function FirstEntry(keys: seq<string>, rules: RuleTable): (r: Option<Entry>)
    ensures r.None? <==> forall k | 0 <= k < |keys| :: keys[k] !in rules
    ensures r.Some? ==> exists k | 0 <= k < |keys| ::
      keys[k] in rules && r.value == rules[keys[k]] && forall j | 0 <= j < k :: keys[j] !in rules
  {
    if keys == [] then None
    else if keys[0] in rules then Some(rules[keys[0]])
    else
      var r := FirstEntry(keys[1..], rules);
      assert forall k | 1 <= k < |keys| :: keys[k] == keys[1..][k - 1];
      if r.Some? then
        var k :| 0 <= k < |keys[1..]| && keys[1..][k] in rules && r.value == rules[keys[1..][k]]
          && forall j | 0 <= j < k :: keys[1..][j] !in rules;
        assert keys[k + 1] in rules && forall j | 0 <= j < k + 1 :: keys[j] !in rules;
        r
      else r
  }

  /** The sender filter: a target is skipped iff it lists senders, the sender is known, and is not listed. */
  predicate Allowed(t: Target, user: Option<int>) {
    !(|t.userIds| > 0 && user.Some? && user.value !in t.userIds)
  }

  function Emit(t: Target): Decision {
    Decision(t.chatId, t.topicId, true)
  }

  /** The decisions of the targets that pass the sender filter, in order. */
  function Admit(ts: seq<Target>, user: Option<int>): seq<Decision>
    decreases |ts|
  {
    if ts == [] then []
    else
      var last := ts[|ts| - 1];
      Admit(ts[..|ts| - 1], user) + (if Allowed(last, user) then [Emit(last)] else [])
  }

  /** The targets of one key of an entry, or none when the key is missing. */
  function TargetsAt(entry: Entry, key: string): seq<Target> {
    if key in entry then entry[key] else []
  }

  /**
   * The forwarding decisions for a message: the first candidate key present
   * wins; its "*" targets come first, then the targets of the message's topic.
   */
  function Decide(rules: RuleTable, chat: ChatKey, topic: Option<int>, user: Option<int>): seq<Decision> {
    match FirstEntry(NormalizeChatId(KeyString(chat)), rules)
    case None => []
    case Some(entry) => DecideIn(entry, topic, user)
  }

  /** The decisions an entry yields: its "*" targets, then those of the message's topic. */
  function DecideIn(entry: Entry, topic: Option<int>, user: Option<int>): seq<Decision> {
    Admit(TargetsAt(entry, AllTopics), user)
      + (if topic.Some? then Admit(TargetsAt(entry, IntToString(topic.value)), user) else [])
  }

  /** Filtering distributes over concatenation, so order is kept. */
  lemma {:induction false} AdmitAppend(a: seq<Target>, b: seq<Target>, user: Option<int>)
    ensures Admit(a + b, user) == Admit(a, user) + Admit(b, user)
    decreases |b|
  {
    if b == [] {
      assert a + b == a;
    } else {
      var b' := b[..|b| - 1];
      assert (a + b)[..|a + b| - 1] == a + b';
      AdmitAppend(a, b', user);
    }
  }

  /** A decision is emitted iff some target passing the filter emits it; every decision includes the source. */
  lemma {:induction false} AdmitMembers(ts: seq<Target>, user: Option<int>, d: Decision)
    ensures d in Admit(ts, user) <==> exists k | 0 <= k < |ts| :: Allowed(ts[k], user) && d == Emit(ts[k])
    ensures d in Admit(ts, user) ==> d.includeSource
    ensures |Admit(ts, user)| <= |ts|
    decreases |ts|
  {
    if ts != [] {
      var front := ts[..|ts| - 1];
      AdmitMembers(front, user, d);
      assert forall k | 0 <= k < |front| :: front[k] == ts[k];
    }
  }

  /** With an unknown sender, or when no target lists senders, nothing is filtered out. */
  lemma {:induction false} AdmitAll(ts: seq<Target>, user: Option<int>)
    requires forall k | 0 <= k < |ts| :: Allowed(ts[k], user)
    ensures |Admit(ts, user)| == |ts|
    ensures forall k | 0 <= k < |ts| :: Admit(ts, user)[k] == Emit(ts[k])
    decreases |ts|
  {
    if ts != [] {
      var front := ts[..|ts| - 1];
      AdmitAll(front, user);
    }
  }

  /** No candidate key in the table: nothing is forwarded. */
  lemma DecideUnknownChat(rules: RuleTable, chat: ChatKey, topic: Option<int>, user: Option<int>)
    requires forall c | c in NormalizeChatId(KeyString(chat)) :: c !in rules
    ensures Decide(rules, chat, topic, user) == []
  {
    var keys := NormalizeChatId(KeyString(chat));
    assert forall k | 0 <= k < |keys| :: keys[k] in keys;
  }

  /**
   * The first candidate key present decides alone: the decisions depend on its
   * entry only, whatever later candidates map to.
   */
  lemma DecideFirstKeyWins(rules: RuleTable, chat: ChatKey, k: nat, topic: Option<int>, user: Option<int>)
    requires var keys := NormalizeChatId(KeyString(chat));
      k < |keys| && keys[k] in rules && forall j | 0 <= j < k :: keys[j] !in rules
    ensures Decide(rules, chat, topic, user) == DecideIn(rules[NormalizeChatId(KeyString(chat))[k]], topic, user)
  {
  }

  /** Without a topic, only the "*" targets are consulted. */
  lemma DecideNoTopic(rules: RuleTable, chat: ChatKey, user: Option<int>)
    ensures var e := FirstEntry(NormalizeChatId(KeyString(chat)), rules);
      Decide(rules, chat, None, user) == if e.Some? then Admit(TargetsAt(e.value, AllTopics), user) else []
  {
  }

  /**
   * The result has at most as many decisions as the two target lists have
   * targets, and exactly as many when the sender is unknown.
   */
  lemma DecideBound(rules: RuleTable, chat: ChatKey, topic: Option<int>, user: Option<int>)
    requires FirstEntry(NormalizeChatId(KeyString(chat)), rules).Some?
    ensures var entry := FirstEntry(NormalizeChatId(KeyString(chat)), rules).value;
      var n := |TargetsAt(entry, AllTopics)| + (if topic.Some? then |TargetsAt(entry, IntToString(topic.value))| else 0);
      |Decide(rules, chat, topic, user)| <= n && (user.None? ==> |Decide(rules, chat, topic, user)| == n)
  {
    var entry := FirstEntry(NormalizeChatId(KeyString(chat)), rules).value;
    var star := TargetsAt(entry, AllTopics);
    AdmitMembers(star, user, Emit(Target(Num(0), None, [])));
    if user.None? { AdmitAll(star, user); }
    if topic.Some? {
      var tts := TargetsAt(entry, IntToString(topic.value));
      AdmitMembers(tts, user, Emit(Target(Num(0), None, [])));
      if user.None? { AdmitAll(tts, user); }
    }
  }

  /** Every decision emitted comes from a target of the matched entry and includes the source. */
  lemma DecideSound(rules: RuleTable, chat: ChatKey, topic: Option<int>, user: Option<int>, d: Decision)
    requires d in Decide(rules, chat, topic, user)
    ensures d.includeSource
    ensures FirstEntry(NormalizeChatId(KeyString(chat)), rules).Some?
    ensures var entry := FirstEntry(NormalizeChatId(KeyString(chat)), rules).value;
      var ts := TargetsAt(entry, AllTopics) + (if topic.Some? then TargetsAt(entry, IntToString(topic.value)) else []);
      exists t | t in ts :: Allowed(t, user) && d == Emit(t)
  {
    var entry := FirstEntry(NormalizeChatId(KeyString(chat)), rules).value;
    var star := TargetsAt(entry, AllTopics);
    AdmitMembers(star, user, d);
    if topic.Some? {
      AdmitMembers(TargetsAt(entry, IntToString(topic.value)), user, d);
    }
  }

  /**
   * A supergroup's rules under its prefixed key: the "*" target comes before the
   * topic's target, the topic target filters on its sender list, and the entry
   * under the bare key is never consulted because the prefixed key comes first.
   */
  lemma DecideScenario()
    ensures var rules := map[
        "-1001234" := map["*" := [Target(Name("-1009"), None, [])], "5" := [Target(Num(-1007), Some(2), [42])]],
        "1234" := map["*" := [Target(Name("other"), None, [])]]];
      && Decide(rules, Name("-1001234"), Some(5), Some(42))
        == [Decision(Name("-1009"), None, true), Decision(Num(-1007), Some(2), true)]
      && Decide(rules, Name("-1001234"), Some(5), Some(7)) == [Decision(Name("-1009"), None, true)]
      && Decide(rules, Name("-1001234"), None, Some(42)) == [Decision(Name("-1009"), None, true)]
  {
    assert IntToString(5) == "5";
  }

  /** The rule table a forwarder consults; it is read and never changed. */
  class RuleManager {
    const rules: RuleTable

    constructor(rules: RuleTable)
      ensures this.rules == rules
    {
      this.rules := rules;
    }

    /** Appends the decisions of the targets passing the sender filter. */
    static method AppendAdmitted(acc: seq<Decision>, ts: seq<Target>, user: Option<int>) returns (r: seq<Decision>)
      ensures r == acc + Admit(ts, user)
    {
      r := acc;
      var i := 0;
      while i < |ts|
        invariant 0 <= i <= |ts|
        invariant r == acc + Admit(ts[..i], user)
      {
        var t := ts[i];
        assert ts[..i + 1][..i] == ts[..i];
        if |t.userIds| > 0 && user.Some? && user.value !in t.userIds {
          i := i + 1;
          continue;
        }
        r := r + [Emit(t)];
        i := i + 1;
      }
      assert ts[..i] == ts;
    }

    /** The entry of the first candidate key present in the table, probing the keys in order. */
    static method Probe(keys: seq<string>, rules: RuleTable) returns (matching: Option<Entry>)
      ensures matching == FirstEntry(keys, rules)
    {
      matching := None;
      var i := 0;
      while i < |keys|
        invariant 0 <= i <= |keys|
        invariant FirstEntry(keys, rules) == FirstEntry(keys[i..], rules)
      {
        if keys[i] in rules {
          matching := Some(rules[keys[i]]);
          return;
        }
        assert keys[i..][1..] == keys[i + 1..];
        i := i + 1;
      }
    }

    /** The decisions of a matched entry, "*" targets first. */
    static method Collect(entry: Entry, topic: Option<int>, user: Option<int>) returns (result: seq<Decision>)
      ensures result == DecideIn(entry, topic, user)
    {
      result := [];
      if AllTopics in entry {
        result := AppendAdmitted(result, entry[AllTopics], user);
      }
      if topic.Some? {
        var key := IntToString(topic.value);
        if key in entry {
          result := AppendAdmitted(result, entry[key], user);
        }
      }
    }

    /** The targets of a message from `chat`, in `topic`, by `user`. */
    method ShouldForward(chat: ChatKey, topic: Option<int>, user: Option<int>) returns (result: seq<Decision>)
      ensures result == Decide(rules, chat, topic, user)
    {
      var potential := NormalizeChatId(KeyString(chat));
      var matching := Probe(potential, rules);
      if matching.None? {
        return [];
      }
      result := Collect(matching.value, topic, user);
    }
  }
}

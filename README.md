# Telegram forwarder core in Dafny

This project models the message-forwarding core of `telegram_forwarder`, a
Telegram user-bot that watches source chats and copies their messages to
target chats according to a rule table. The model covers these parts:

- **Rules** (`rules.dfy`): the rule table keyed by normalised chat ids; the
  `"*"` and per-topic target lists; and the sender filter.
- **Entities** (`entities.dfy`): the three caches of the entity manager.
  - resolved entities;
  - topic names, with the topic-name strategies (forum listing, topic
    starter, discussion, synthetic fallback);
  - chats that refuse forwarding.
- **Link pattern** (`link_pattern.dfy`): the message-link regular expression.
  - It is written as a matcher that takes the leftmost match, repeats
    greedily and tries the first alternative first.
  - A scan finds non-overlapping matches.
  - A generator states what a well-formed link looks like.
- **Links** (`links.dfy`): link extraction and the linked-message cache.
  Fetching tries three strategies in order.
- **Processors** (`processors.dfy`):
  - message formatting: sender name, prefix and body;
  - topic-id extraction;
  - the genuine-reply test;
  - preparation of the reconstructed payload.
- **Forwarding** (`forwarding.dfy`): delivery to each target. It tries a
  native forward, falls back to reconstruction, and records a chat that
  refuses forwarding.
- **Handlers** (`handlers.dfy`): the new-message handler. It extracts the
  text, decides the targets, gathers reply and link contents, then forwards.
- **Client** (`client.dfy`): the proxy settings derived from the
  configuration.
- **Shared helpers**:
  - `utils.dfy` holds the shared helpers: chat-id normalisation, text
    extraction and media type names.
  - `strings.dfy` holds the string built-ins the code relies on: `int()`,
    `str()`, `lstrip`, `replace` and `lower`.
  - `telegram.dfy` holds the records the code reads from Telegram objects
    and the transport.

The Telegram transport is a record of functions (`Telegram.Transport`).
Each function stands for one call the code makes: resolving an entity,
listing forum topics, fetching a message, forwarding, or sending. Every
operation is deterministic given the transport.

- **Imperative parts.** The managers are classes whose fields are the
  caches. Their methods are proved equal to specification functions over
  the cache state (`Entities.Caches`). The forwarding manager appends each
  transport call it makes to an `outbox` sequence.
- **Pure parts.** Rule lookup, formatting, topic extraction, the link
  grammar and the proxy setup are functions. Lemmas state their
  properties.

Behaviour of the code modelled as written:

- A username link whose username starts with a letter is never resolved.
  The code passes the username to `int()`, which raises, and the fetch
  gives up.
- A link's cache key omits the topic and whether the chat part was a
  channel id or a username. So `t.me/c/555/10` and `t.me/555/10` share a
  key.
- Chat-id normalisation of a short id such as `-1005` reads it as
  prefixed.
- The forum topic listing overwrites the recorded names of every topic
  it lists.

## Model

| member | source | states |
|---|---|---|
| Strings.NatToString | src/forwarder/utils.py:46 | `str(n)` of a natural is a non-empty digit string without leading zeros that denotes n |
| Strings.ParseIntToString | src/forwarder/entities.py:52-57 | `int(str(i)) == i`: a chat id turned to text and back through `int()` is the same id |
| Strings.IntToStringInjective | src/forwarder/rules.py:79-81 | distinct topic ids give distinct rule-table keys `str(topic_id)` |
| Strings.StripLeadingMinus | src/forwarder/utils.py:60 | `lstrip('-')` removes exactly the maximal run of leading minus signs and keeps the rest |
| Strings.RemoveAllAbsent | src/forwarder/utils.py:76 | `replace(pat, '')` leaves a text without the pattern unchanged |
| Strings.RemoveAllPrefix | src/forwarder/utils.py:76 | a leading occurrence of the pattern is removed and the rest is processed alone |
| Strings.RemoveAllKeeps | src/forwarder/utils.py:76 | characters before the first occurrence of the pattern are kept as they are |
| Strings.LowerIdempotent | src/forwarder/client.py:54 | lower-casing the proxy type is idempotent |
| Utils.NormalizeChatId | src/forwarder/utils.py:36-61 | the candidate list starts with the id as given; it has three forms exactly when the id starts with "-100", two otherwise |
| Utils.NormalizeRelatesForms | src/forwarder/utils.py:49-61 | for digits d, the forms "-100d", "d" and "-d" normalise to lists linking each to the prefixed form "-100d" |
| Utils.NormalizeDistinct | src/forwarder/utils.py:49-61 | the candidate keys of an id are pairwise distinct, so no rule-table key is probed twice |
| Utils.NormalizeShortPrefixedForm | src/forwarder/utils.py:49-55 | "-1005" is read as prefixed, so "-1001005" is not among its candidates |
| Utils.FirstNonEmpty | src/forwarder/utils.py:27-33 | first-success over a list of strings: "" exactly when all are empty, else the first non-empty one |
| Utils.ExtractMessageText | src/forwarder/utils.py:16-33 | the text of a message: the first present, non-empty one of `message`, `text`, `raw_text`, else ""; its meaning is stated by `Utils.ExtractIsFirstNonEmpty` |
| Utils.ExtractIsFirstNonEmpty | src/forwarder/utils.py:16-33 | the message text is the first non-empty of `message`, `text`, `raw_text`, and "" exactly when none is set |
| Utils.MediaTypeName | src/forwarder/utils.py:64-76 | None exactly when there is no media; otherwise the type name shortened by the removal |
| Utils.MediaTypeNamePhoto | src/forwarder/utils.py:74-76 | `MessageMediaPhoto` reads `Photo` |
| LinkPattern.MatchAt | src/forwarder/utils.py:13 | the match of the link pattern that starts at a given index, with its groups; sound and complete by `LinkPattern.MatchSound` and `LinkPattern.MatchRendered` |
| LinkPattern.FindAll | src/forwarder/link_manager.py:49 | `finditer`: the leftmost match, then the search resumes at its end; ordered and sound by `LinkPattern.FindAllOrdered` and `LinkPattern.FindAllSound` |
| LinkPattern.DigitEndSpec | src/forwarder/utils.py:13 | a greedy `\d+` run consists of digits and stops at the first non-digit |
| LinkPattern.FindAllOrdered | src/forwarder/link_manager.py:49 | `finditer` matches lie inside the text, in order, without overlap |
| LinkPattern.MatchSound | src/forwarder/utils.py:13 | every match spans exactly the rendering of a well-formed link (scheme, host, chat part, message, optional topic) built from its groups |
| LinkPattern.FindAllSound | src/forwarder/link_manager.py:49 | every match the scan reports is a well-formed link read off the text |
| LinkPattern.MatchRendered | src/forwarder/utils.py:13 | a well-formed link in the text, followed by neither a digit nor '/', is matched exactly there with its groups (completeness) |
| LinkPattern.FindAllRendered | src/forwarder/link_manager.py:49 | a text that is a single link yields exactly that match |
| LinkPattern.UsernameCWithTopicReadsAsChannel | src/forwarder/utils.py:13 | `t.me/c/<m>/<t>` is read as channel m, message t, because the `c/` alternative is tried first |
| LinkPattern.SkipWithoutH | src/forwarder/link_manager.py:49 | the scan passes over text that holds no 'h' |
| LinkPattern.FindAllTwoLinks | src/forwarder/link_manager.py:49 | two links separated by text without an 'h' are both found, in order, with their spans |
| LinkPattern.FindAllSample | src/forwarder/link_manager.py:49 | a sample text with a channel link and a username link with a topic yields both matches |
| Links.ExtractMessageLinks | src/forwarder/link_manager.py:35-73 | an empty text yields no links; otherwise one record per match of the pattern |
| Links.ExtractSound | src/forwarder/link_manager.py:49-70 | every extracted record is that of a well-formed link: either a channel id or a username, never both; the message id and topic are parsed |
| Links.ExtractRendered | src/forwarder/link_manager.py:49-70 | a text consisting of one link yields exactly that link's record |
| Links.ExtractTwoLinks | src/forwarder/link_manager.py:49-70 | two links in a text are extracted in order |
| Links.ExtractSample | src/forwarder/link_manager.py:59-68 | `t.me/c/555/10` gives chat id "555", message 10, no topic; `t.me/alice/20/3` gives username "alice", message 20, topic 3 |
| Links.CacheKeyCollision | src/forwarder/link_manager.py:86-87 | the channel link `c/555/10` and the username link `555/10` share one cache key |
| Links.CacheKey | src/forwarder/link_manager.py:86-87 | the link cache key: the chat id or username, "-", the message id; it collides as `Links.CacheKeyCollision` shows |
| Links.EntityKeyFor | src/forwarder/link_manager.py:93-104 | the key a link's chat is resolved under: a channel's digits get the "-100" prefix, a username is used as it is |
| Links.ChannelEntityKey | src/forwarder/link_manager.py:98-99 | a channel link's chat is resolved as "-100" followed by its digits |
| Links.FetchSpec | src/forwarder/link_manager.py:75-215 | `fetch_linked_message`: a cache hit, else resolve the chat, run the strategies, record the extracted text and cache the result; its promises are `Links.FetchHit`, `Links.FetchCaches` and `Links.UsernameLinkUnresolved` |
| Links.Retrieve | src/forwarder/link_manager.py:117-183 | the three fetch strategies in order, first success wins; stated by the four `Links.Retrieve*` lemmas |
| Links.FetchHit | src/forwarder/link_manager.py:86-88 | a cached link is answered from the cache without the transport, and nothing changes |
| Links.FetchCaches | src/forwarder/link_manager.py:75-215 | a found message is cached under the link's key with its extracted text set; earlier entries are kept; the entity caches only grow |
| Links.UsernameLinkUnresolved | src/forwarder/link_manager.py:93-108 | a link whose username starts with a letter is never resolved, so the fetch gives None and changes nothing |
| Links.RetrieveFirstWins | src/forwarder/link_manager.py:117-132 | a first fetch that has `message` text settles the result |
| Links.RetrieveWithoutTopic | src/forwarder/link_manager.py:134-155 | without a truthy topic id the in-topic fetch is never made |
| Links.RetrieveRawOnlyWithoutText | src/forwarder/link_manager.py:157-183 | the raw fetch is made only when no message with text was found |
| Links.RetrieveCopiesRawText | src/forwarder/link_manager.py:157-183 | the raw text is copied into a textless message that has a `message` attribute |
| Links.LinkManager.RunStrategies | src/forwarder/link_manager.py:117-183 | the three fetch strategies, run step by step, give the first-success result |
| Links.LinkManager.FetchLinkedMessage | src/forwarder/link_manager.py:75-215 | the fetched message and the new link and entity caches are those of the fetch specification |
| Rules.Decide | src/forwarder/rules.py:29-96 | `should_forward`: the first matching normalised key's "*" targets, then its topic's targets, each passing the sender filter; its promises are the `Rules.Decide*` lemmas |
| Rules.FirstEntry | src/forwarder/rules.py:42-54 | the entry of the first normalised key present in the table; None exactly when no key is present |
| Rules.AdmitAppend | src/forwarder/rules.py:64-93 | the sender filter keeps target order across the "*" and topic lists |
| Rules.AdmitMembers | src/forwarder/rules.py:67-70 | a decision is emitted exactly when some target passing the sender filter yields it; every decision includes the source |
| Rules.AdmitAll | src/forwarder/rules.py:67-70 | with an unknown sender, or no sender lists, every target is emitted in order |
| Rules.DecideUnknownChat | src/forwarder/rules.py:57-59 | a chat none of whose normalised keys is in the table is forwarded nowhere |
| Rules.DecideFirstKeyWins | src/forwarder/rules.py:42-54 | only the entry of the first matching normalised key is consulted |
| Rules.DecideNoTopic | src/forwarder/rules.py:79-93 | without a topic, only the "*" targets are consulted |
| Rules.DecideBound | src/forwarder/rules.py:64-93 | at most one decision per "*" and topic target, and exactly one each when the sender is unknown |
| Rules.DecideSound | src/forwarder/rules.py:29-96 | a decision is emitted only when some normalised key matched, and it comes from a target in that entry's "*" list or the message topic's list that passes the sender filter; it includes the source |
| Rules.DecideScenario | src/forwarder/rules.py:29-96 | a sample table: a prefixed chat with topic targets and a sender list, decided for three messages |
| Rules.RuleManager.AppendAdmitted | src/forwarder/rules.py:67-70 | the loop appends the filtered decisions in order |
| Rules.RuleManager.Probe | src/forwarder/rules.py:42-54 | the probing loop finds the first matching key's entry |
| Rules.RuleManager.Collect | src/forwarder/rules.py:64-93 | "*" decisions first, then those of the message's topic |
| Rules.RuleManager.ShouldForward | src/forwarder/rules.py:29-96 | the decisions equal the rule specification |
| Entities.QueryFor | src/forwarder/entities.py:52-57 | an integer id is looked up by id, "@name" by name, a numeric string by its value; anything else cannot be looked up |
| Entities.EntitySpec | src/forwarder/entities.py:37-63 | `get_entity` on the caches: a hit as it is, else the transport's entity cached on success; stated by `Entities.EntityHit`, `Entities.EntityMiss` and `Entities.EntityGrows` |
| Entities.ChatTitleSpec | src/forwarder/entities.py:65-78 | `get_chat_title`: the entity's title or "Chat <id>", as `Entities.ChatTitleFallback` states |
| Entities.TopicNameSpec | src/forwarder/entities.py:80-158 | `get_topic_name`: None for a falsy topic, a cached name, else the lookup on a miss; stated by `Entities.TopicNameFalsy`, `Entities.TopicNameHit` and `Entities.TopicNameRecorded` |
| Entities.TopicMiss | src/forwarder/entities.py:97-158 | the cache miss: the chat's topic map created if missing, the chat resolved, the strategies run; `Entities.TopicMissRecorded` states that the name is recorded |
| Entities.Strategies | src/forwarder/entities.py:106-158 | the listing, the topic starter, the discussion and the fallback, first success wins; stated by the `Entities.Strategies*` lemmas |
| Entities.CanForwardSpec | src/forwarder/entities.py:160-190 | `can_forward_from_chat`: a marked chat is refused; an unresolved chat or a no-forwards channel is marked and refused; stated by the `Entities.CanForward*` lemmas |
| Entities.EntityHit | src/forwarder/entities.py:47-48 | a cached entity is returned without the transport |
| Entities.EntityMiss | src/forwarder/entities.py:52-63 | a miss caches the resolved entity under the key as given, and caches nothing when the lookup fails |
| Entities.UsernameNeverResolves | src/forwarder/entities.py:52-57 | a bare name starting with a letter never resolves |
| Entities.EntityGrows | src/forwarder/entities.py:37-63 | the entity lookup only adds to the entity cache |
| Entities.ChatTitleFallback | src/forwarder/entities.py:65-78 | the title is the entity's title, or "Chat <id>" exactly when there is no titled entity |
| Entities.WriteTopicsSpec | src/forwarder/entities.py:106-118 | after the listing, the names hold every listed id with its last listed title, and unlisted ids keep their names |
| Entities.WriteTopicsKeys | src/forwarder/entities.py:106-118 | the recorded ids are the old ones plus the listed ones |
| Entities.WriteTopicsKeeps | src/forwarder/entities.py:106-118 | a topic not in the listing keeps its recorded name |
| Entities.WriteTopicsLast | src/forwarder/entities.py:113-114 | the last listing entry for an id gives its name |
| Entities.ListingOverwrites | src/forwarder/entities.py:113-114 | the listing overwrites a name recorded earlier |
| Entities.TopicNameFalsy | src/forwarder/entities.py:91-92 | topic None or 0 gives no name and touches no cache |
| Entities.TopicNameHit | src/forwarder/entities.py:95-96 | a recorded name is returned without the transport |
| Entities.StrategiesRecord | src/forwarder/entities.py:106-158 | every strategy records the name it returns; only the topic cache changes |
| Entities.TopicNameRecorded | src/forwarder/entities.py:80-158 | a non-zero topic always gets a name, which is then recorded for the chat |
| Entities.TopicMissRecorded | src/forwarder/entities.py:99-158 | on a miss the name returned is recorded and the caches only grow |
| Entities.StrategiesPreferListing | src/forwarder/entities.py:106-118 | a listed topic takes its name from the listing |
| Entities.StrategiesPreferStarter | src/forwarder/entities.py:120-134 | without a listing, a non-empty starter title wins over the discussion |
| Entities.StrategiesFallback | src/forwarder/entities.py:155-158 | when no strategy finds a name, "Topic <id>" is used |
| Entities.CanForwardConsistent | src/forwarder/entities.py:160-190 | allowed exactly when the chat is not marked afterwards; at most this chat becomes marked, and only when refused |
| Entities.CanForwardMarked | src/forwarder/entities.py:160-190 | a marked chat is refused without a lookup |
| Entities.CanForwardResolved | src/forwarder/entities.py:160-190 | a resolved chat that is not a no-forwards channel is allowed and not marked |
| Entities.EntityManager.constructor | src/forwarder/entities.py:22-35 | the three caches start empty |
| Entities.EntityManager.GetEntity | src/forwarder/entities.py:37-63 | the entity and entity cache follow the lookup specification; the other caches are untouched |
| Entities.EntityManager.GetChatTitle | src/forwarder/entities.py:65-78 | the title and caches follow the title specification |
| Entities.EntityManager.Record | src/forwarder/entities.py:127-157 | the chat's topic map gains the name under the topic id, and nothing else changes |
| Entities.EntityManager.LookUpTopic | src/forwarder/entities.py:97-158 | the name and caches of a cache miss are those of `Entities.TopicMiss` |
| Entities.EntityManager.WriteListing | src/forwarder/entities.py:106-118 | the loop writes the listing into the chat's topic names, entry by entry |
| Entities.EntityManager.FirstTitle | src/forwarder/entities.py:136-150 | the loop finds the first non-empty discussion title |
| Entities.EntityManager.RunStrategies | src/forwarder/entities.py:106-158 | the strategies run in order and record the name, as in the specification |
| Entities.EntityManager.GetTopicName | src/forwarder/entities.py:80-158 | the name and caches follow the topic-name specification |
| Entities.EntityManager.CanForwardFromChat | src/forwarder/entities.py:160-190 | the answer and the mark follow the forwarding-permission specification |
| Processors.SenderName | src/forwarder/processors.py:43-54 | the sender's display name; stated by the `Processors.SenderName*` lemmas |
| Processors.Prefix | src/forwarder/processors.py:57-63 | the reply or link prefix, as `Processors.PrefixPrecedence` states |
| Processors.Body | src/forwarder/processors.py:65-101 | the body: the first non-empty text source, else a media label or "[Empty message]", as `Processors.BodyIsFirstNonEmpty` states |
| Processors.FormatContent | src/forwarder/processors.py:104-111 | the formatted content keeps the message's media and entities and starts with the prefix |
| Processors.FormatLayout | src/forwarder/processors.py:30-111 | the text is the prefix, then the bold sender name, then the non-empty body |
| Processors.SenderNameNonEmpty | src/forwarder/processors.py:43-54 | a sender name is never empty; a failed or empty lookup reads "Unknown User" |
| Processors.SenderNameSample | src/forwarder/processors.py:43-54 | the name parts are joined with spaces and the username follows in parentheses |
| Processors.SenderNameIdFallback | src/forwarder/processors.py:43-54 | a sender without any name part is named "User <id>" |
| Processors.PrefixPrecedence | src/forwarder/processors.py:57-63 | a reply prefix wins over a link prefix; no prefix otherwise |
| Processors.BodyIsFirstNonEmpty | src/forwarder/processors.py:65-101 | the body is the first non-empty text source, else the media label or "[Empty message]" |
| Processors.ExtractTopicId | src/forwarder/processors.py:113-189 | `extract_topic_id`: None outside a resolvable forum, else the precedence chain; stated by `Processors.TopicOutsideForum` |
| Processors.TopicChain | src/forwarder/processors.py:139-185 | the precedence chain `topic_id`, `topic`, reply header, post id, default 1, as `Processors.TopicDefault` states |
| Processors.TopicOutsideForum | src/forwarder/processors.py:128-136 | a message outside a forum, or in an unresolvable chat, has no topic |
| Processors.TopicIdAttributeWins | src/forwarder/processors.py:139-145 | a present `topic_id` attribute decides alone, even when None |
| Processors.TopicDefault | src/forwarder/processors.py:139-185 | the precedence chain `topic_id`, `topic`, reply header, post id, then the default topic 1 |
| Processors.ReplyTopicOrder | src/forwarder/processors.py:146-172 | with the `forum_topic` flag `top_msg_id` is read before `reply_to_top_id`; without it `reply_to_top_id` is read before `top_msg_id`; `reply_to_msg_id` is used only when neither gives a topic |
| Processors.IsGenuineReply | src/forwarder/processors.py:191-211 | `is_genuine_reply`, as `Processors.GenuineReplyIff` states |
| Processors.GenuineReplyIff | src/forwarder/processors.py:191-211 | a genuine reply has a replied-to id that is not the forum topic's own id |
| Processors.MainText | src/forwarder/processors.py:258-270 | the payload's main text: the message text, else "[Message with <type>]", else "[Empty message]", preceded by the source line and a blank line when the source is included |
| Processors.PrepareSpec | src/forwarder/processors.py:244-291 | `prepare_forwarding_content`: the joined text, the sendable media and the attachments; stated by `Processors.PreparedTextLayout` and `Processors.AdditionalMediaFilter` |
| Processors.Sendable | src/forwarder/processors.py:277-279 | a web page preview is never sent as a file; other media are |
| Processors.PrepareForwardingContent | src/forwarder/processors.py:244-291 | the loop builds the payload of the specification |
| Processors.AdditionalMediaFilter | src/forwarder/processors.py:282-289 | attachments are the contents' media minus web pages, in order, at most one per content |
| Processors.AdditionalMediaAppend | src/forwarder/processors.py:282-289 | attachments of joined contents are the joined attachments |
| Processors.PreparedTextLayout | src/forwarder/processors.py:258-274 | the text opens with the source line when asked, and ends with the last content's text |
| Forwarding.IntOf | src/forwarder/forwarding.py:62-65 | `int(to_chat)`: an integer target as it is, a string through `int()`, which may fail |
| Forwarding.SourceInfo | src/forwarder/forwarding.py:94-100 | the source line, as `Forwarding.SourceInfoLayout` states |
| Forwarding.DeliverSpec | src/forwarder/forwarding.py:57-130 | the delivery to one target: native forward, edit and mark, or reconstruction; stated by `Forwarding.NativeIff`, `Forwarding.NativeSuccess` and `Forwarding.NativeFailure` |
| Forwarding.ForwardSpec | src/forwarder/forwarding.py:35-134 | `forward_message`: every target in order; stated by `Forwarding.ForwardCounts`, `Forwarding.ForwardGrows` and `Forwarding.ForwardStep` |
| Forwarding.SendsLayout | src/forwarder/forwarding.py:111-130 | the main text is sent first, then the attachments only if it was accepted |
| Forwarding.ReconstructLayout | src/forwarder/forwarding.py:94-130 | a reconstruction sends the prepared payload of the message and its referenced contents |
| Forwarding.SourceInfoLayout | src/forwarder/forwarding.py:94-100 | the source line is the chat title and, when one was found, " \| " and the topic name |
| Forwarding.NativeIff | src/forwarder/forwarding.py:57-91 | a native forward is tried exactly when forwarding is allowed, nothing is attached and the target id parses |
| Forwarding.NativeSuccess | src/forwarder/forwarding.py:62-80 | a successful forward sends nothing else; the topic edit follows exactly for a truthy target topic and a non-empty result |
| Forwarding.NativeFailure | src/forwarder/forwarding.py:84-91 | a failed forward falls back to a reconstruction; a restricted chat is also marked |
| Forwarding.ReconstructGrows | src/forwarder/forwarding.py:94-130 | a reconstruction only adds to the caches |
| Forwarding.DeliverGrows | src/forwarder/forwarding.py:57-130 | a delivery only adds to the caches: a marked chat stays marked |
| Forwarding.ForwardGrows | src/forwarder/forwarding.py:35-134 | forwarding to all targets only adds to the caches |
| Forwarding.DeliverCounts | src/forwarder/forwarding.py:57-130 | one main send per target without a native attempt; one attempt per parseable target otherwise |
| Forwarding.ForwardCounts | src/forwarder/forwarding.py:50 | over all targets: one main send each, or one native attempt per parseable target |
| Forwarding.ForwardStep | src/forwarder/forwarding.py:50 | each target sees the caches the earlier ones left, and its calls follow theirs |
| Forwarding.ForwardingManager.SendAdditional | src/forwarder/forwarding.py:120-130 | one send per attachment, each with the fixed caption |
| Forwarding.ForwardingManager.Source | src/forwarder/forwarding.py:94-100 | the source line and caches follow its specification |
| Forwarding.ForwardingManager.Send | src/forwarder/forwarding.py:111-130 | the calls made are those of the send specification |
| Forwarding.ForwardingManager.Reconstruct | src/forwarder/forwarding.py:94-130 | the calls and caches follow the reconstruction specification |
| Forwarding.ForwardingManager.Deliver | src/forwarder/forwarding.py:57-130 | the calls and caches follow the per-target specification |
| Forwarding.ForwardingManager.ForwardMessage | src/forwarder/forwarding.py:35-134 | the loop over targets makes the calls and cache changes of the specification |
| Handlers.HandleSpec | src/forwarder/handlers.py:61-114 | `handle_new_message`: extract the text, find the targets, check forwarding and process; stated by `Handlers.NoTargetsNoEffect` and `Handlers.HandleGrows` |
| Handlers.ProcessSpec | src/forwarder/handlers.py:116-165 | `process_and_forward_message`: the reply, then the links, then the forward; stated by `Handlers.GatheredMeansReconstruct` and `Handlers.NothingGatheredNative` |
| Handlers.ReplyContents | src/forwarder/handlers.py:133-138 | the formatted replied-to message of a genuine reply, as `Handlers.ReplyOnlyWhenGenuine` states |
| Handlers.NoTargetsNoEffect | src/forwarder/handlers.py:102-114 | a message no rule forwards changes nothing |
| Handlers.TopicIgnoresExtractedText | src/forwarder/handlers.py:82 | recording the extracted text does not change the message's topic |
| Handlers.ReplyOnlyWhenGenuine | src/forwarder/handlers.py:133-138 | the replied-to message is fetched only for a genuine reply, and carries the reply prefix |
| Handlers.LinkContentsSound | src/forwarder/handlers.py:141-156 | each gathered content carries the prefix of one of the links; the caches only grow |
| Handlers.GatheredMeansReconstruct | src/forwarder/handlers.py:159-165 | with any reply or link content, every target gets a reconstruction and no native attempt |
| Handlers.NothingGatheredNative | src/forwarder/handlers.py:159-165 | with nothing gathered, each parseable target gets a native attempt |
| Handlers.HandleGrows | src/forwarder/handlers.py:61-114 | handling a message only adds to the caches and to the calls made |
| Handlers.MessageHandler.GatherLinks | src/forwarder/handlers.py:141-156 | the loop fetches and formats the links as in the specification |
| Handlers.MessageHandler.ProcessAndForward | src/forwarder/handlers.py:116-165 | the new state is that of the processing specification |
| Handlers.MessageHandler.HandleNewMessage | src/forwarder/handlers.py:61-114 | the new state is that of the handling specification |
| Client.SetupProxy | src/forwarder/client.py:40-73 | `setup_proxy`: the proxy, no proxy, or the error raised; stated by `Client.ProxyIff`, `Client.SetupErrors` and `Client.UnsupportedType` |
| Client.ClientProxy | src/forwarder/client.py:14-37 | the proxy `create_client` passes: none without a section, else `setup_proxy`, as `Client.EmptySectionIsNoProxy` states |
| Client.EmptySectionIsNoProxy | src/forwarder/client.py:27 | a missing section, or one without a server, connects directly |
| Client.ProxyIff | src/forwarder/client.py:40-73 | a proxy is set up exactly when a server is set, the type names mtproto or socks5 in any case, and a port is given; it uses that server and port |
| Client.SetupErrors | src/forwarder/client.py:54-70 | a null type, or a supported type without a port, raises |
| Client.TypeCaseInsensitive | src/forwarder/client.py:54-70 | "SOCKS5" and "MTProto" select their proxies; the MTProto secret defaults to "" |
| Client.UnsupportedType | src/forwarder/client.py:71-73 | a missing or unsupported type connects directly |

## Left out

- The Telegram transport (Telethon calls, the network) is modelled as the
  oracle functions of `Telegram.Transport`. Their results are parameters.
- `async`, logging and the event loop (`register_handlers`) are not
  modelled.
- Python's `int()`, `str.lower()` and `\d` are modelled on ASCII digits and
  letters only.
- Strings.ParseInt: `int()` on a string is modelled as an optional sign and
  ASCII digits only. Python also strips surrounding whitespace and accepts
  `_` between digits (`int(" 123")` is 123, `int("1_000")` is 1000). So
  `Entities.QueryFor` and `Forwarding.IntOf` reject such ids, which the
  code accepts.
- A text attribute that is present but None and one that is "" are
  distinguished only where the code compares them. Falsiness treats both
  alike.
- Messages are values. Setting `_extracted_text` on a message object, and
  sharing that object between the link cache and its callers, are modelled
  by returning the updated message.
- An entity whose title is present but None is modelled as an entity
  without a title.
- Rule-table `user_ids` are integers. String user ids are not modelled.
  Neither is the `KeyError` for a target without `chat_id`.
- `setup_interactive` (`rules.py:98-164`) is an interactive console dialogue
  and is not modelled.
- `process_replied_message` is the transport's `getReplied` oracle, which
  gives the replied-to message or None.
- Exception handlers that the modelled operations cannot reach are not
  modelled.
- A failed topic edit after a native forward is swallowed by the code. The
  model records the edit call whatever its outcome.
- Username links are resolved as the code writes them, through `int()` on
  the username. No intended behaviour is assumed.
- Client.SetupProxy: the port is an integer as read from the
  configuration. Its type is not checked.
- `create_client` is modelled only for the proxy settings it passes.
  Building the client is not modelled.
- Forwarding.ForwardingManager.ForwardMessage: the forward result is the
  transport's `Forwarded(nonEmpty)` outcome. The shape of Telethon's
  result objects is not modelled.
- Forwarding.ForwardingManager.Send: of the errors in the reconstruction
  path, only rejection of the main send is modelled, by not sending the
  attachments. Other exceptions there are not modelled.
- The files outside `src/forwarder/` (the old monolithic forwarder, the
  debug tools, `core.py`, `main.py`, configuration loading, logging) are
  not part of this model.

/**
 * The message-link grammar `https?://t\.me/(?:c/(\d+)|([^/]+))/(\d+)(?:/(\d+))?`
 * as a hand-written matcher with the same leftmost, greedy, first-alternative-
 * first behaviour, and a left-to-right scan for non-overlapping matches.
 */
module LinkPattern {
  import opened Wrappers
  import opened Strings

  /** The chat part of a link: the digits after `c/`, or a slash-free username. */
  datatype ChatPart = Channel(digits: string) | Username(name: string)

  /** A match: the span [start, end) of the text and the captured groups. */
  datatype LinkMatch = LinkMatch(start: nat, end: nat, chat: ChatPart, msg: string, topic: Option<string>)

  const Host := "://t.me/"

  /** The end of the maximal run of digits starting at i (what a greedy `\d+` can stop at). */
  function DigitEnd(s: string, i: nat): (j: nat)
    requires i <= |s|
    ensures i <= j <= |s|
    decreases |s| - i
  {
    if i < |s| && IsDigit(s[i]) then DigitEnd(s, i + 1) else i
  }

  /** The end of the maximal run of non-'/' characters starting at i (a greedy `[^/]+`). */
  function NonSlashEnd(s: string, i: nat): (j: nat)
    requires i <= |s|
    ensures i <= j <= |s|
    decreases |s| - i
  {
    if i < |s| && s[i] != '/' then NonSlashEnd(s, i + 1) else i
  }

  /** `/(\d+)(?:/(\d+))?` at index i, for a match that began at `start`. */
  function Tail(s: string, i: nat, start: nat, chat: ChatPart): (r: Option<LinkMatch>)
    requires start <= i <= |s|
    ensures r.Some? ==> r.value.start == start && i < r.value.end <= |s|
  {
    if i < |s| && s[i] == '/' then
      var me := DigitEnd(s, i + 1);
      if me == i + 1 then None
      else if me < |s| && s[me] == '/' && DigitEnd(s, me + 1) > me + 1 then
        var te := DigitEnd(s, me + 1);
        Some(LinkMatch(start, te, chat, s[i + 1..me], Some(s[me + 1..te])))
      else Some(LinkMatch(start, me, chat, s[i + 1..me], None))
    else None
  }

  /** The `c/(\d+)` alternative at index h. */
  function ChannelAt(s: string, p: nat, h: nat): (r: Option<LinkMatch>)
    requires p <= h && h + 2 <= |s|
    ensures r.Some? ==> r.value.start == p && h < r.value.end <= |s|
  {
    var de := DigitEnd(s, h + 2);
    if de == h + 2 then None else Tail(s, de, p, Channel(s[h + 2..de]))
  }

  /** The `([^/]+)` alternative at index h. */
  function UsernameAt(s: string, p: nat, h: nat): (r: Option<LinkMatch>)
    requires p <= h <= |s|
    ensures r.Some? ==> r.value.start == p && h < r.value.end <= |s|
  {
    var ue := NonSlashEnd(s, h);
    if ue == h then None else Tail(s, ue, p, Username(s[h..ue]))
  }

  /** The two alternatives after the host, at index h: `c/(\d+)` first, then `([^/]+)`. */
  function AfterHost(s: string, p: nat, h: nat): (r: Option<LinkMatch>)
    requires p <= h <= |s|
    ensures r.Some? ==> r.value.start == p && h < r.value.end <= |s|
  {
    var channel := if StartsWith(s[h..], "c/") then ChannelAt(s, p, h) else None;
    if channel.Some? then channel else UsernameAt(s, p, h)
  }

  /** The match of the grammar that starts exactly at index p, if any. */
  function MatchAt(s: string, p: nat): (r: Option<LinkMatch>)
    requires p <= |s|
    ensures r.Some? ==> r.value.start == p && p + 4 < r.value.end <= |s|
  {
    if !StartsWith(s[p..], "http") then None
    else
      var q := if p + 4 < |s| && s[p + 4] == 's' then p + 5 else p + 4;
      if !StartsWith(s[q..], Host) then None
      else AfterHost(s, p, q + 8)
  }

  /** `finditer` from index p: the leftmost match, then the search resumes where it ended. */
  function FindAll(s: string, p: nat): seq<LinkMatch>
    requires p <= |s|
    decreases |s| - p
  {
    if p == |s| then []
    else
      match MatchAt(s, p)
      case Some(m) => [m] + FindAll(s, m.end)
      case None => FindAll(s, p + 1)
  }

  // ---------------------------------------------------------------------------
  // The grammar as a generator: what a link looks like, written forwards.


  /** The parts of a link; `secure` is whether the scheme is `https`. */
  datatype LinkParts = LinkParts(secure: bool, chat: ChatPart, msg: string, topic: Option<string>)

  predicate WellFormedChat(c: ChatPart) {
    match c
    case Channel(d) => IsDigitString(d)
    case Username(u) => |u| > 0 && forall k | 0 <= k < |u| :: u[k] != '/'
  }

  predicate WellFormed(l: LinkParts) {
    && WellFormedChat(l.chat)
    && IsDigitString(l.msg)
    && (l.topic.Some? ==> IsDigitString(l.topic.value))
  }

  function Scheme(secure: bool): string {
    if secure then "https" else "http"
  }

  function ChatText(c: ChatPart): string {
    match c
    case Channel(d) => "c/" + d
    case Username(u) => u
  }

  function TopicText(t: Option<string>): string {
    match t
    case None => ""
    case Some(x) => "/" + x
  }

  /** The part after the chat: `/<message>` and, with a topic, `/<topic>`. */
  function TailText(msg: string, topic: Option<string>): string {
    "/" + msg + TopicText(topic)
  }

  function Render(l: LinkParts): string {
    Scheme(l.secure) + Host + ChatText(l.chat) + TailText(l.msg, l.topic)
  }

  /** The greedy run stops exactly at the first non-digit: all digits before it. */
  lemma {:induction false} DigitEndSpec(s: string, i: nat)
    requires i <= |s|
    ensures forall k | i <= k < DigitEnd(s, i) :: IsDigit(s[k])
    ensures DigitEnd(s, i) == |s| || !IsDigit(s[DigitEnd(s, i)])
    decreases |s| - i
  {
    if i < |s| && IsDigit(s[i]) {
      DigitEndSpec(s, i + 1);
    }
  }

  /** The greedy run stops exactly at the first '/'. */
  lemma {:induction false} NonSlashEndSpec(s: string, i: nat)
    requires i <= |s|
    ensures forall k | i <= k < NonSlashEnd(s, i) :: s[k] != '/'
    ensures NonSlashEnd(s, i) == |s| || s[NonSlashEnd(s, i)] == '/'
    decreases |s| - i
  {
    if i < |s| && s[i] != '/' {
      NonSlashEndSpec(s, i + 1);
    }
  }

  /** Conversely, a run of digits from i that stops at j is what the greedy run reads. */
  lemma {:induction false} DigitEndAt(s: string, i: nat, j: nat)
    requires i <= j <= |s|
    requires forall k | i <= k < j :: IsDigit(s[k])
    requires j == |s| || !IsDigit(s[j])
    ensures DigitEnd(s, i) == j
    decreases j - i
  {
    if i < j {
      DigitEndAt(s, i + 1, j);
    }
  }

  lemma {:induction false} NonSlashEndAt(s: string, i: nat, j: nat)
    requires i <= j <= |s|
    requires forall k | i <= k < j :: s[k] != '/'
    requires j == |s| || s[j] == '/'
    ensures NonSlashEnd(s, i) == j
    decreases j - i
  {
    if i < j {
      NonSlashEndAt(s, i + 1, j);
    }
  }

  /** Matches lying within [p, n), in order and without overlap. */
  predicate Ordered(ms: seq<LinkMatch>, p: nat, n: nat) {
    && (forall k | 0 <= k < |ms| :: p <= ms[k].start < ms[k].end <= n)
    && (forall k | 0 <= k < |ms| - 1 :: ms[k].end <= ms[k + 1].start)
  }

  lemma OrderedCons(m: LinkMatch, rest: seq<LinkMatch>, p: nat, n: nat)
    requires p <= m.start < m.end <= n && Ordered(rest, m.end, n)
    ensures Ordered([m] + rest, p, n)
  {
    var ms := [m] + rest;
    assert forall k | 1 <= k < |ms| :: ms[k] == rest[k - 1];
  }

  /** The scan's matches lie within the text, after p, in order and without overlap. */
  lemma {:induction false} FindAllOrdered(s: string, p: nat)
    requires p <= |s|
    ensures Ordered(FindAll(s, p), p, |s|)
    decreases |s| - p
  {
    if p < |s| {
      match MatchAt(s, p)
      case Some(m) =>
        FindAllOrdered(s, m.end);
        OrderedCons(m, FindAll(s, m.end), p, |s|);
      case None =>
        FindAllOrdered(s, p + 1);
    }
  }

  /** `x` occurs in `s` at index i. */
  predicate SliceIs(s: string, i: nat, x: string) {
    i + |x| <= |s| && s[i..i + |x|] == x
  }

  /** Index j of `s` cannot extend a link: it is the end, or neither a digit nor '/'. */
  predicate Stops(s: string, j: nat) {
    j <= |s| && (j == |s| || (!IsDigit(s[j]) && s[j] != '/'))
  }

  lemma SliceSplit(s: string, i: nat, x: string, y: string)
    requires SliceIs(s, i, x + y)
    ensures SliceIs(s, i, x) && SliceIs(s, i + |x|, y)
  {
    assert s[i..i + |x|] == s[i..i + |x + y|][..|x|];
    assert s[i + |x|..i + |x + y|] == s[i..i + |x + y|][|x|..];
  }

  lemma SliceJoin(s: string, i: nat, x: string, y: string)
    requires SliceIs(s, i, x) && SliceIs(s, i + |x|, y)
    ensures SliceIs(s, i, x + y)
  {
    assert s[i..i + |x| + |y|] == s[i..i + |x|] + s[i + |x|..i + |x| + |y|];
  }

  lemma SliceChar(s: string, i: nat, c: char)
    requires SliceIs(s, i, [c])
    ensures i < |s| && s[i] == c
  {
    assert s[i] == s[i..i + 1][0];
  }

  /** A run of digits followed by a non-digit (or the end) is exactly what `\d+` consumes. */
  lemma DigitRun(s: string, i: nat, d: string)
    requires SliceIs(s, i, d) && AllDigits(d)
    requires i + |d| == |s| || !IsDigit(s[i + |d|])
    ensures DigitEnd(s, i) == i + |d|
  {
    forall k | i <= k < i + |d| ensures IsDigit(s[k]) {
      assert s[k] == s[i..i + |d|][k - i];
    }
    DigitEndAt(s, i, i + |d|);
  }

  /** A slash-free run followed by '/' is exactly what `[^/]+` consumes. */
  lemma NonSlashRun(s: string, i: nat, u: string)
    requires SliceIs(s, i, u) && forall k | 0 <= k < |u| :: u[k] != '/'
    requires i + |u| < |s| && s[i + |u|] == '/'
    ensures NonSlashEnd(s, i) == i + |u|
  {
    forall k | i <= k < i + |u| ensures s[k] != '/' {
      assert s[k] == s[i..i + |u|][k - i];
    }
    NonSlashEndAt(s, i, i + |u|);
  }

  lemma SliceOne(s: string, i: nat)
    requires i < |s|
    ensures SliceIs(s, i, [s[i]])
  {
  }

  lemma DigitsSlice(s: string, i: nat, j: nat)
    requires i <= j <= |s|
    requires forall k | i <= k < j :: IsDigit(s[k])
    ensures AllDigits(s[i..j])
  {
    forall k | 0 <= k < j - i ensures IsDigit(s[i..j][k]) {
      assert s[i..j][k] == s[i + k];
    }
  }

  lemma NonSlashSlice(s: string, i: nat, j: nat)
    requires i <= j <= |s|
    requires forall k | i <= k < j :: s[k] != '/'
    ensures forall k | 0 <= k < j - i :: s[i..j][k] != '/'
  {
    forall k | 0 <= k < j - i ensures s[i..j][k] != '/' {
      assert s[i..j][k] == s[i + k];
    }
  }

  /** The digits a greedy `\d+` read. */
  lemma DigitEndSlice(s: string, i: nat)
    requires i <= |s|
    ensures AllDigits(s[i..DigitEnd(s, i)])
  {
    DigitEndSpec(s, i);
    DigitsSlice(s, i, DigitEnd(s, i));
  }

  /** The characters a greedy `[^/]+` read. */
  lemma NonSlashEndSlice(s: string, i: nat)
    requires i <= |s|
    ensures forall k | 0 <= k < NonSlashEnd(s, i) - i :: s[i..NonSlashEnd(s, i)][k] != '/'
  {
    NonSlashEndSpec(s, i);
    NonSlashSlice(s, i, NonSlashEnd(s, i));
  }

  /** A match whose tail is well formed and lies in `s` from index i on. */
  predicate TailRead(s: string, i: nat, chat: ChatPart, m: LinkMatch) {
    && m.chat == chat
    && IsDigitString(m.msg)
    && (m.topic.Some? ==> IsDigitString(m.topic.value))
    && SliceIs(s, i, TailText(m.msg, m.topic))
    && m.end == i + |TailText(m.msg, m.topic)|
  }

  /** What a successful tail consumed: a slash, the message digits and the optional topic. */
  lemma TailSound(s: string, i: nat, start: nat, chat: ChatPart)
    requires start <= i <= |s|
    requires Tail(s, i, start, chat).Some?
    ensures TailRead(s, i, chat, Tail(s, i, start, chat).value)
  {
    var me := DigitEnd(s, i + 1);
    if me < |s| && s[me] == '/' && DigitEnd(s, me + 1) > me + 1 {
      var te := DigitEnd(s, me + 1);
      assert Tail(s, i, start, chat) == Some(LinkMatch(start, te, chat, s[i + 1..me], Some(s[me + 1..te])));
      TailReadTopic(s, i, me, te, start, chat);
    } else {
      assert Tail(s, i, start, chat) == Some(LinkMatch(start, me, chat, s[i + 1..me], None));
      TailReadPlain(s, i, me, start, chat);
    }
  }

  lemma TailReadPlain(s: string, i: nat, me: nat, start: nat, chat: ChatPart)
    requires i < |s| && s[i] == '/' && me == DigitEnd(s, i + 1) && me > i + 1
    ensures TailRead(s, i, chat, LinkMatch(start, me, chat, s[i + 1..me], None))
  {
    SlashDigits(s, i, me);
    assert TailText(s[i + 1..me], None) == "/" + s[i + 1..me];
  }

  lemma TailReadTopic(s: string, i: nat, me: nat, te: nat, start: nat, chat: ChatPart)
    requires i < |s| && s[i] == '/' && me == DigitEnd(s, i + 1) && me > i + 1
    requires me < |s| && s[me] == '/' && te == DigitEnd(s, me + 1) && te > me + 1
    ensures TailRead(s, i, chat, LinkMatch(start, te, chat, s[i + 1..me], Some(s[me + 1..te])))
  {
    var msg, t := s[i + 1..me], s[me + 1..te];
    SlashDigits(s, i, me);
    SlashDigits(s, me, te);
    SliceJoin(s, i, "/" + msg, "/" + t);
    assert TailText(msg, Some(t)) == ("/" + msg) + ("/" + t);
  }

  /** A '/' at i followed by the digits a greedy `\d+` reads up to j. */
  lemma SlashDigits(s: string, i: nat, j: nat)
    requires i < |s| && s[i] == '/' && j == DigitEnd(s, i + 1) && j > i + 1
    ensures IsDigitString(s[i + 1..j]) && SliceIs(s, i, "/" + s[i + 1..j])
  {
    DigitEndSlice(s, i + 1);
    SliceOne(s, i);
    SliceJoin(s, i, "/", s[i + 1..j]);
  }

  /** A match whose chat part and tail are well formed and lie in `s` from index h on. */
  predicate Consumed(s: string, h: nat, m: LinkMatch) {
    && WellFormedChat(m.chat) && IsDigitString(m.msg) && (m.topic.Some? ==> IsDigitString(m.topic.value))
    && SliceIs(s, h, ChatText(m.chat))
    && SliceIs(s, h + |ChatText(m.chat)|, TailText(m.msg, m.topic))
    && m.end == h + |ChatText(m.chat)| + |TailText(m.msg, m.topic)|
  }

  /** What a successful channel alternative consumed. */
  lemma ChannelSound(s: string, p: nat, h: nat)
    requires p <= h && h + 2 <= |s|
    requires StartsWith(s[h..], "c/")
    requires ChannelAt(s, p, h).Some?
    ensures Consumed(s, h, ChannelAt(s, p, h).value)
  {
    var de := DigitEnd(s, h + 2);
    var d := s[h + 2..de];
    assert ChannelAt(s, p, h) == Tail(s, de, p, Channel(d));
    TailSound(s, de, p, Channel(d));
    assert s[h..h + 2] == "c/" by { assert s[h..][..2] == s[h..h + 2]; }
    DigitEndSlice(s, h + 2);
    SliceJoin(s, h, "c/", d);
  }

  /** What a successful username alternative consumed. */
  lemma UsernameSound(s: string, p: nat, h: nat)
    requires p <= h <= |s|
    requires UsernameAt(s, p, h).Some?
    ensures Consumed(s, h, UsernameAt(s, p, h).value)
  {
    var ue := NonSlashEnd(s, h);
    NonSlashEndSlice(s, h);
    TailSound(s, ue, p, Username(s[h..ue]));
  }

  /** The scheme and host at p, when the text there starts a match. */
  lemma HeadSound(s: string, p: nat)
    requires p <= |s|
    requires MatchAt(s, p).Some?
    ensures p + 4 < |s|
    ensures var secure := s[p + 4] == 's';
      && SliceIs(s, p, Scheme(secure) + Host)
      && MatchAt(s, p) == AfterHost(s, p, p + |Scheme(secure)| + 8)
  {
    var secure := s[p + 4] == 's';
    var q := if secure then p + 5 else p + 4;
    assert s[p..p + 4] == "http" by { assert s[p..][..4] == s[p..p + 4]; }
    assert s[q..q + 8] == Host by { assert s[q..][..8] == s[q..q + 8]; }
    if secure {
      SliceOne(s, p + 4);
      SliceJoin(s, p, "http", "s");
      assert "http" + "s" == Scheme(secure);
    }
    SliceJoin(s, p, Scheme(secure), Host);
  }

  /** What a successful match consumed after the host. */
  lemma AfterHostSound(s: string, p: nat, h: nat)
    requires p <= h <= |s|
    requires AfterHost(s, p, h).Some?
    ensures Consumed(s, h, AfterHost(s, p, h).value)
  {
    if StartsWith(s[h..], "c/") && ChannelAt(s, p, h).Some? {
      ChannelSound(s, p, h);
    } else {
      UsernameSound(s, p, h);
    }
  }

  lemma SliceJoin3(s: string, i: nat, x: string, y: string, z: string)
    requires SliceIs(s, i, x) && SliceIs(s, i + |x|, y) && SliceIs(s, i + |x| + |y|, z)
    ensures SliceIs(s, i, x + y + z)
  {
    SliceJoin(s, i, x, y);
    SliceJoin(s, i, x + y, z);
  }

  /** Soundness: every match is an instance of the grammar, read off the text it spans. */
  lemma {:induction false} MatchSound(s: string, p: nat)
    requires p <= |s|
    requires MatchAt(s, p).Some?
    ensures p + 4 < |s|
    ensures var m := MatchAt(s, p).value;
      var l := LinkParts(s[p + 4] == 's', m.chat, m.msg, m.topic);
      WellFormed(l) && SliceIs(s, p, Render(l)) && m.end == p + |Render(l)|
  {
    HeadSound(s, p);
    var secure := s[p + 4] == 's';
    var h := p + |Scheme(secure)| + 8;
    AfterHostSound(s, p, h);
    RenderFromPieces(s, p, secure, AfterHost(s, p, h).value);
  }

  /** A head at p followed by a consumed chat part and tail is one rendered link. */
  lemma RenderFromPieces(s: string, p: nat, secure: bool, m: LinkMatch)
    requires SliceIs(s, p, Scheme(secure) + Host) && Consumed(s, p + |Scheme(secure)| + 8, m)
    ensures var l := LinkParts(secure, m.chat, m.msg, m.topic);
      WellFormed(l) && SliceIs(s, p, Render(l)) && m.end == p + |Render(l)|
  {
    SliceJoin3(s, p, Scheme(secure) + Host, ChatText(m.chat), TailText(m.msg, m.topic));
  }

  /** A reported match spans exactly the rendering of a well-formed link built from its groups. */
  predicate ReadsAs(s: string, m: LinkMatch) {
    && m.start + 4 < |s|
    && var l := LinkParts(s[m.start + 4] == 's', m.chat, m.msg, m.topic);
      WellFormed(l) && SliceIs(s, m.start, Render(l)) && m.end == m.start + |Render(l)|
  }

  /** Soundness of the scan: every match it reports is a well-formed link read off the text. */
  lemma {:induction false} FindAllSound(s: string, p: nat)
    requires p <= |s|
    ensures forall k | 0 <= k < |FindAll(s, p)| :: ReadsAs(s, FindAll(s, p)[k])
    decreases |s| - p
  {
    if p < |s| {
      match MatchAt(s, p)
      case Some(m) =>
        MatchReadsAs(s, p);
        FindAllSound(s, m.end);
        SoundCons(s, m, FindAll(s, m.end));
      case None =>
        FindAllSound(s, p + 1);
    }
  }

  lemma MatchReadsAs(s: string, p: nat)
    requires p <= |s| && MatchAt(s, p).Some?
    ensures ReadsAs(s, MatchAt(s, p).value)
  {
    MatchSound(s, p);
  }

  lemma SoundCons(s: string, m: LinkMatch, rest: seq<LinkMatch>)
    requires ReadsAs(s, m) && forall k | 0 <= k < |rest| :: ReadsAs(s, rest[k])
    ensures forall k | 0 <= k < |[m] + rest| :: ReadsAs(s, ([m] + rest)[k])
  {
    assert forall k | 1 <= k < |[m] + rest| :: ([m] + rest)[k] == rest[k - 1];
  }

  /** The tail of a rendered link, followed by a character that cannot extend it, is read back exactly. */
  lemma TailAt(s: string, i: nat, msg: string, topic: Option<string>, start: nat, chat: ChatPart)
    requires start <= i
    requires IsDigitString(msg) && (topic.Some? ==> IsDigitString(topic.value))
    requires SliceIs(s, i, TailText(msg, topic)) && Stops(s, i + |TailText(msg, topic)|)
    ensures Tail(s, i, start, chat) == Some(LinkMatch(start, i + |TailText(msg, topic)|, chat, msg, topic))
  {
    SliceSplit(s, i, "/" + msg, TopicText(topic));
    SliceSplit(s, i, "/", msg);
    SliceChar(s, i, '/');
    match topic {
      case None => TailAtNoTopic(s, i, msg, start, chat);
      case Some(t) => TailAtTopic(s, i, msg, t, start, chat);
    }
  }

  lemma TailAtNoTopic(s: string, i: nat, msg: string, start: nat, chat: ChatPart)
    requires start <= i && IsDigitString(msg)
    requires i < |s| && s[i] == '/' && SliceIs(s, i + 1, msg) && Stops(s, i + 1 + |msg|)
    ensures Tail(s, i, start, chat) == Some(LinkMatch(start, i + 1 + |msg|, chat, msg, None))
  {
    DigitRun(s, i + 1, msg);
  }

  lemma TailAtTopic(s: string, i: nat, msg: string, t: string, start: nat, chat: ChatPart)
    requires start <= i && IsDigitString(msg) && IsDigitString(t)
    requires i < |s| && s[i] == '/' && SliceIs(s, i + 1, msg) && SliceIs(s, i + 1 + |msg|, "/" + t)
    requires Stops(s, i + 2 + |msg| + |t|)
    ensures Tail(s, i, start, chat) == Some(LinkMatch(start, i + 2 + |msg| + |t|, chat, msg, Some(t)))
  {
    var me := i + 1 + |msg|;
    SliceSplit(s, me, "/", t);
    SliceChar(s, me, '/');
    DigitRun(s, i + 1, msg);
    DigitRun(s, me + 1, t);
    TailWithTopic(s, i, start, chat, me, me + 1 + |t|);
  }

  /** Tail's topic branch, once both digit runs are known. */
  lemma TailWithTopic(s: string, i: nat, start: nat, chat: ChatPart, me: nat, te: nat)
    requires start <= i < |s| && s[i] == '/' && me == DigitEnd(s, i + 1) && me > i + 1
    requires me < |s| && s[me] == '/' && te == DigitEnd(s, me + 1) && te > me + 1
    ensures Tail(s, i, start, chat) == Some(LinkMatch(start, te, chat, s[i + 1..me], Some(s[me + 1..te])))
  {
  }

  /** A rendered channel alternative is read back by the `c/` branch. */
  lemma ChannelAtRendered(s: string, p: nat, h: nat, d: string, msg: string, topic: Option<string>, m: nat, e: nat)
    requires p <= h && m == h + 2 + |d| && e == m + |TailText(msg, topic)|
    requires IsDigitString(d) && IsDigitString(msg) && (topic.Some? ==> IsDigitString(topic.value))
    requires SliceIs(s, h, "c/" + d) && SliceIs(s, m, TailText(msg, topic)) && Stops(s, e)
    ensures h + 2 <= |s| && StartsWith(s[h..], "c/")
    ensures ChannelAt(s, p, h) == Some(LinkMatch(p, e, Channel(d), msg, topic))
  {
    TailAt(s, m, msg, topic, p, Channel(d));
    TailStartsWithSlash(s, m, msg, topic);
    ChannelPrefix(s, h, d);
    DigitRun(s, h + 2, d);
    ChannelAtDigits(s, p, h, d, m);
  }

  /** The text "c/" + d at h: the `c/` prefix, then the digits two places on. */
  lemma ChannelPrefix(s: string, h: nat, d: string)
    requires SliceIs(s, h, "c/" + d)
    ensures h + 2 <= |s| && StartsWith(s[h..], "c/") && SliceIs(s, h + 2, d)
  {
    SliceSplit(s, h, "c/", d);
    assert s[h..][..2] == s[h..h + 2];
  }

  lemma TailStartsWithSlash(s: string, i: nat, msg: string, topic: Option<string>)
    requires SliceIs(s, i, TailText(msg, topic))
    ensures i < |s| && s[i] == '/'
  {
    assert s[i] == s[i..i + |TailText(msg, topic)|][0];
  }

  lemma ChannelAtDigits(s: string, p: nat, h: nat, d: string, m: nat)
    requires p <= h && |d| > 0 && m == h + 2 + |d|
    requires SliceIs(s, h + 2, d) && DigitEnd(s, h + 2) == m
    ensures ChannelAt(s, p, h) == Tail(s, m, p, Channel(d))
  {
  }

  /** A rendered username alternative is read back by the `[^/]+` branch. */
  lemma UsernameAtRendered(s: string, p: nat, h: nat, u: string, msg: string, topic: Option<string>, m: nat, e: nat)
    requires p <= h && m == h + |u| && e == m + |TailText(msg, topic)|
    requires WellFormedChat(Username(u)) && IsDigitString(msg) && (topic.Some? ==> IsDigitString(topic.value))
    requires SliceIs(s, h, u) && SliceIs(s, m, TailText(msg, topic)) && Stops(s, e)
    ensures UsernameAt(s, p, h) == Some(LinkMatch(p, e, Username(u), msg, topic))
  {
    TailAt(s, m, msg, topic, p, Username(u));
    TailStartsWithSlash(s, m, msg, topic);
    NonSlashRun(s, h, u);
  }

  /** A username "c" with no topic, followed by a character that cannot extend it, fails the `c/` branch. */
  lemma ChannelRejectsUsernameC(s: string, p: nat, h: nat, msg: string)
    requires p <= h
    requires IsDigitString(msg)
    requires SliceIs(s, h, "c") && SliceIs(s, h + 1, TailText(msg, None)) && Stops(s, h + 2 + |msg|)
    ensures h + 2 <= |s|
    ensures ChannelAt(s, p, h).None?
  {
    assert TailText(msg, None) == "/" + msg;
    SliceSplit(s, h + 1, "/", msg);
    DigitRun(s, h + 2, msg);
  }

  lemma SliceIndex(s: string, i: nat, x: string, k: nat)
    requires SliceIs(s, i, x) && k < |x|
    ensures s[i + k] == x[k]
  {
    assert s[i + k] == s[i..i + |x|][k];
  }

  lemma SliceStartsWith(s: string, i: nat, x: string)
    requires SliceIs(s, i, x)
    ensures i <= |s| && StartsWith(s[i..], x)
  {
    assert s[i..][..|x|] == s[i..i + |x|];
  }

  /** The scheme and host of a rendered link lead to the alternatives right after the host. */
  lemma HeadAt(s: string, p: nat, secure: bool, h: nat)
    requires SliceIs(s, p, Scheme(secure) + Host) && h == p + |Scheme(secure)| + 8
    ensures MatchAt(s, p) == AfterHost(s, p, h)
  {
    var q := p + |Scheme(secure)|;
    SliceSplit(s, p, Scheme(secure), Host);
    SliceSplit(s, p, "http", Scheme(secure)[4..]);
    SliceStartsWith(s, p, "http");
    SliceStartsWith(s, q, Host);
    if secure {
      SliceIndex(s, p, Scheme(secure), 4);
    } else {
      SliceIndex(s, q, Host, 0);
    }
  }

  /** After the host, a rendered channel link is read by the `c/` alternative. */
  lemma AfterHostChannel(s: string, p: nat, h: nat, d: string, msg: string, topic: Option<string>, m: nat, e: nat)
    requires p <= h && m == h + 2 + |d| && e == m + |TailText(msg, topic)|
    requires IsDigitString(d) && IsDigitString(msg) && (topic.Some? ==> IsDigitString(topic.value))
    requires SliceIs(s, h, "c/" + d) && SliceIs(s, m, TailText(msg, topic)) && Stops(s, e)
    ensures AfterHost(s, p, h) == Some(LinkMatch(p, e, Channel(d), msg, topic))
  {
    ChannelAtRendered(s, p, h, d, msg, topic, m, e);
  }

  /** After the host, a rendered username link is read by the `[^/]+` alternative, the `c/` one failing first. */
  lemma AfterHostUsername(s: string, p: nat, h: nat, u: string, msg: string, topic: Option<string>, m: nat, e: nat)
    requires p <= h && m == h + |u| && e == m + |TailText(msg, topic)|
    requires WellFormedChat(Username(u)) && IsDigitString(msg) && (topic.Some? ==> IsDigitString(topic.value))
    requires !(u == "c" && topic.Some?)
    requires SliceIs(s, h, u) && SliceIs(s, m, TailText(msg, topic)) && Stops(s, e)
    ensures AfterHost(s, p, h) == Some(LinkMatch(p, e, Username(u), msg, topic))
  {
    UsernameAtRendered(s, p, h, u, msg, topic, m, e);
    if StartsWith(s[h..], "c/") {
      SlashEndsUsername(s, h, u);
      ChannelRejectsUsernameC(s, p, h, msg);
    }
  }

  /** A username laid out where the text reads "c/" can only be "c". */
  lemma SlashEndsUsername(s: string, h: nat, u: string)
    requires WellFormedChat(Username(u)) && SliceIs(s, h, u)
    requires h <= |s| && StartsWith(s[h..], "c/")
    ensures u == "c"
  {
    assert s[h] == 'c' && s[h + 1] == '/' by {
      assert s[h] == s[h..][..2][0] && s[h + 1] == s[h..][..2][1];
    }
    SliceIndex(s, h, u, 0);
    if |u| >= 2 {
      SliceIndex(s, h, u, 1);
      assert false;
    }
  }

  /** A well-formed link laid out at p, and not extended by the next character, is matched exactly there. */
  lemma {:induction false} RenderedAt(s: string, p: nat, l: LinkParts, h: nat, e: nat)
    requires WellFormed(l) && !(l.chat == Username("c") && l.topic.Some?)
    requires h == p + |Scheme(l.secure)| + 8 && e == h + |ChatText(l.chat)| + |TailText(l.msg, l.topic)|
    requires SliceIs(s, p, Scheme(l.secure) + Host)
    requires SliceIs(s, h, ChatText(l.chat)) && SliceIs(s, h + |ChatText(l.chat)|, TailText(l.msg, l.topic))
    requires Stops(s, e)
    ensures MatchAt(s, p) == Some(LinkMatch(p, e, l.chat, l.msg, l.topic))
  {
    HeadAt(s, p, l.secure, h);
    var m := h + |ChatText(l.chat)|;
    AfterHostRendered(s, p, h, l, m, e);
  }

  /** After the host, the chat part and tail of a well-formed link are read back exactly. */
  lemma {:induction false} AfterHostRendered(s: string, p: nat, h: nat, l: LinkParts, m: nat, e: nat)
    requires p <= h && m == h + |ChatText(l.chat)| && e == m + |TailText(l.msg, l.topic)|
    requires WellFormed(l) && !(l.chat == Username("c") && l.topic.Some?)
    requires SliceIs(s, h, ChatText(l.chat)) && SliceIs(s, m, TailText(l.msg, l.topic)) && Stops(s, e)
    ensures AfterHost(s, p, h) == Some(LinkMatch(p, e, l.chat, l.msg, l.topic))
  {
    if l.chat.Channel? {
      var d := l.chat.digits;
      ChatTextChannel(l.chat, d);
      AfterHostChannel(s, p, h, d, l.msg, l.topic, m, e);
    } else {
      AfterHostUsername(s, p, h, l.chat.name, l.msg, l.topic, m, e);
    }
  }

  lemma ChatTextChannel(c: ChatPart, d: string)
    requires c == Channel(d)
    ensures ChatText(c) == "c/" + d && |ChatText(c)| == 2 + |d|
  {
  }

  /** The pieces of a link that occurs at p, each at its own offset. */
  lemma LaidOut(s: string, p: nat, l: LinkParts)
    requires SliceIs(s, p, Render(l))
    ensures var h := p + |Scheme(l.secure)| + 8;
      && SliceIs(s, p, Scheme(l.secure) + Host)
      && SliceIs(s, h, ChatText(l.chat))
      && SliceIs(s, h + |ChatText(l.chat)|, TailText(l.msg, l.topic))
      && p + |Render(l)| == h + |ChatText(l.chat)| + |TailText(l.msg, l.topic)|
  {
    var head := Scheme(l.secure) + Host;
    var ct := ChatText(l.chat);
    SliceSplit(s, p, head + ct, TailText(l.msg, l.topic));
    SliceSplit(s, p, head, ct);
  }

  /**
   * Completeness: a well-formed link occurring at p, followed by the end of the
   * text or by a character that is neither a digit nor '/', is matched exactly
   * there, parts and all. The one exception is a username "c" with a topic,
   * which reads as a channel link.
   */
  lemma MatchRendered(s: string, p: nat, l: LinkParts)
    requires WellFormed(l) && !(l.chat == Username("c") && l.topic.Some?)
    requires SliceIs(s, p, Render(l)) && Stops(s, p + |Render(l)|)
    ensures MatchAt(s, p) == Some(LinkMatch(p, p + |Render(l)|, l.chat, l.msg, l.topic))
  {
    LaidOut(s, p, l);
    var h := p + |Scheme(l.secure)| + 8;
    RenderedAt(s, p, l, h, p + |Render(l)|);
  }

  /** A rendered text in context: it occurs at its offset, and what follows it is the context's next character. */
  lemma InContext(pre: string, r: string, post: string)
    requires post == [] || (!IsDigit(post[0]) && post[0] != '/')
    ensures SliceIs(pre + r + post, |pre|, r)
    ensures Stops(pre + r + post, |pre| + |r|)
  {
    var s := pre + r + post;
    assert s[|pre|..|pre| + |r|] == r;
    if post != [] {
      assert s[|pre| + |r|] == post[0];
    }
  }

  /** The exception: `https://t.me/c/<m>/<t>` is always read as channel m, message t. */
  lemma UsernameCWithTopicReadsAsChannel(l: LinkParts)
    requires WellFormed(l) && l.chat == Username("c") && l.topic.Some?
    ensures MatchAt(Render(l), 0).Some?
    ensures MatchAt(Render(l), 0).value.chat == Channel(l.msg)
    ensures MatchAt(Render(l), 0).value.msg == l.topic.value
  {
    var l' := LinkParts(l.secure, Channel(l.msg), l.topic.value, None);
    assert Render(l') == Render(l);
    MatchRendered(Render(l), 0, l');
  }

  /** A position that does not hold an 'h' starts no match. */
  lemma NoMatchWithoutH(s: string, k: nat)
    requires k < |s| && s[k] != 'h'
    ensures MatchAt(s, k).None?
  {
    assert s[k..][0] == s[k];
  }

  /** The scan passes over positions that do not hold an 'h'. */
  lemma {:induction false} SkipWithoutH(s: string, p: nat, q: nat)
    requires p <= q <= |s|
    requires forall k | p <= k < q :: s[k] != 'h'
    ensures FindAll(s, p) == FindAll(s, q)
    decreases q - p
  {
    if p < q {
      NoMatchWithoutH(s, p);
      SkipWithoutH(s, p + 1, q);
    }
  }

  lemma NoHAt(s: string, p: nat, x: string)
    requires SliceIs(s, p, x)
    requires forall k | 0 <= k < |x| :: x[k] != 'h'
    ensures forall k | p <= k < p + |x| :: s[k] != 'h'
  {
    forall k | p <= k < p + |x| ensures s[k] != 'h' {
      SliceIndex(s, p, x, k - p);
    }
  }

  /** The scan passes over a stretch of text without an 'h'. */
  lemma ScanPast(s: string, p: nat, x: string, q: nat)
    requires SliceIs(s, p, x) && q == p + |x|
    requires forall k | 0 <= k < |x| :: x[k] != 'h'
    ensures FindAll(s, p) == FindAll(s, q)
  {
    NoHAt(s, p, x);
    SkipWithoutH(s, p, q);
  }

  /** Where a match starts, the scan reports it and resumes at its end. */
  lemma FindAllAt(s: string, p: nat, m: LinkMatch)
    requires p <= |s| && MatchAt(s, p) == Some(m)
    ensures FindAll(s, p) == [m] + FindAll(s, m.end)
  {
  }

  /** The scan reports a well-formed link at p and resumes right after it, at e. */
  lemma ScanLink(s: string, p: nat, l: LinkParts, e: nat)
    requires WellFormed(l) && !(l.chat == Username("c") && l.topic.Some?)
    requires e == p + |Render(l)|
    requires SliceIs(s, p, Render(l)) && Stops(s, e)
    ensures FindAll(s, p) == [LinkMatch(p, e, l.chat, l.msg, l.topic)] + FindAll(s, e)
  {
    MatchRendered(s, p, l);
    FindAllAt(s, p, LinkMatch(p, e, l.chat, l.msg, l.topic));
  }

  /** A text consisting of one well-formed link yields exactly that link. */
  lemma FindAllRendered(l: LinkParts)
    requires WellFormed(l) && !(l.chat == Username("c") && l.topic.Some?)
    ensures FindAll(Render(l), 0) == [LinkMatch(0, |Render(l)|, l.chat, l.msg, l.topic)]
  {
    var s := Render(l);
    var e := |s|;
    ScanLink(s, 0, l, e);
    assert FindAll(s, e) == [];
  }

  /** Two well-formed links, each after a stretch of text without an 'h', are both found, in order. */
  lemma TwoLinksAt(s: string, a: string, l1: LinkParts, b: string, l2: LinkParts, p1: nat, e1: nat, p2: nat)
    requires WellFormed(l1) && !(l1.chat == Username("c") && l1.topic.Some?)
    requires WellFormed(l2) && !(l2.chat == Username("c") && l2.topic.Some?)
    requires forall k | 0 <= k < |a| :: a[k] != 'h'
    requires forall k | 0 <= k < |b| :: b[k] != 'h'
    requires p1 == |a| && e1 == p1 + |Render(l1)| && p2 == e1 + |b| && |s| == p2 + |Render(l2)|
    requires SliceIs(s, 0, a) && SliceIs(s, p1, Render(l1)) && SliceIs(s, e1, b) && Stops(s, e1)
    requires SliceIs(s, p2, Render(l2))
    ensures FindAll(s, 0) == [
        LinkMatch(p1, e1, l1.chat, l1.msg, l1.topic),
        LinkMatch(p2, |s|, l2.chat, l2.msg, l2.topic)]
  {
    var n := |s|;
    var m1 := LinkMatch(p1, e1, l1.chat, l1.msg, l1.topic);
    var m2 := LinkMatch(p2, n, l2.chat, l2.msg, l2.topic);
    var z := FindAll(s, n);
    assert z == [];
    ScanPast(s, 0, a, p1);
    ScanLink(s, p1, l1, e1);
    ScanPast(s, e1, b, p2);
    ScanLink(s, p2, l2, n);
    assert [m1] + ([m2] + z) == [m1, m2];
  }

  /** Where the four pieces of a concatenation lie in it. */
  lemma Pieces4(a: string, x: string, b: string, y: string)
    ensures var s := a + x + b + y;
      && SliceIs(s, 0, a) && SliceIs(s, |a|, x)
      && SliceIs(s, |a| + |x|, b) && SliceIs(s, |a| + |x| + |b|, y)
  {
    var s := a + x + b + y;
    assert SliceIs(s, 0, s);
    SliceSplit(s, 0, a + x + b, y);
    SliceSplit(s, 0, a + x, b);
    SliceSplit(s, 0, a, x);
  }

  lemma FindAllTwoLinks(a: string, l1: LinkParts, b: string, l2: LinkParts)
    requires WellFormed(l1) && !(l1.chat == Username("c") && l1.topic.Some?)
    requires WellFormed(l2) && !(l2.chat == Username("c") && l2.topic.Some?)
    requires forall k | 0 <= k < |a| :: a[k] != 'h'
    requires forall k | 0 <= k < |b| :: b[k] != 'h'
    requires b != [] && !IsDigit(b[0]) && b[0] != '/'
    ensures var s := a + Render(l1) + b + Render(l2);
      var e1 := |a| + |Render(l1)|;
      FindAll(s, 0) == [
        LinkMatch(|a|, e1, l1.chat, l1.msg, l1.topic),
        LinkMatch(e1 + |b|, |s|, l2.chat, l2.msg, l2.topic)]
  {
    var r1 := Render(l1);
    var r2 := Render(l2);
    var s := a + r1 + b + r2;
    var p1 := |a|;
    var e1 := p1 + |r1|;
    var p2 := e1 + |b|;
    Pieces4(a, r1, b, r2);
    SliceIndex(s, e1, b, 0);
    TwoLinksAt(s, a, l1, b, l2, p1, e1, p2);
  }

  lemma SampleRenders()
    ensures Render(LinkParts(true, Channel("555"), "10", None)) == "https://t.me/c/555/10"
    ensures Render(LinkParts(true, Username("alice"), "20", Some("3"))) == "https://t.me/alice/20/3"
  {
  }

  /** The two links of a sample text are found in order with their groups. */
  lemma FindAllSample()
    ensures FindAll("see " + "https://t.me/c/555/10" + " and " + "https://t.me/alice/20/3", 0) == [
      LinkMatch(4, 25, Channel("555"), "10", None),
      LinkMatch(30, 53, Username("alice"), "20", Some("3"))]
  {
    SampleRenders();
    FindAllTwoLinks("see ", LinkParts(true, Channel("555"), "10", None),
                    " and ", LinkParts(true, Username("alice"), "20", Some("3")));
  }
}

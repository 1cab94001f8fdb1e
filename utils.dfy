/** Chat-id normalisation and the text helpers shared by the pipeline. */
module Utils {
  import opened Wrappers
  import opened Strings
  import opened Telegram

  /**
   * The rule-table keys to probe for a chat, in order. An id carrying the
   * supergroup prefix "-100" also yields its stripped and single-minus forms;
   * any other id also yields the prefixed form of its digits.
   */
  function NormalizeChatId(s: string): (r: seq<string>)
    ensures |r| == 2 || |r| == 3
    ensures r[0] == s
    ensures |r| == 3 <==> StartsWith(s, "-100")
  {
    if StartsWith(s, "-100") then [s, s[4..], "-" + s[4..]]
    else [s, "-100" + StripLeadingMinus(s)]
  }

  /** The candidates of an id are pairwise distinct: no key is probed twice. */
  lemma NormalizeDistinct(s: string)
    ensures var r := NormalizeChatId(s);
      forall i, j | 0 <= i < j < |r| :: r[i] != r[j]
  {
    var r := NormalizeChatId(s);
    if StartsWith(s, "-100") {
      assert |r[1]| < |r[2]| < |r[0]|;
    } else {
      assert StartsWith(r[1], "-100");
    }
  }

  /**
   * The three spellings of one supergroup reach each other: the prefixed form
   * expands to the bare and single-minus forms, and the bare and single-minus
   * forms expand to the prefixed one (the latter unless the single-minus form
   * itself happens to start with "-100").
   */
  lemma {:induction false} NormalizeRelatesForms(d: string)
    requires IsDigitString(d)
    ensures NormalizeChatId("-100" + d) == ["-100" + d, d, "-" + d]
    ensures NormalizeChatId(d) == [d, "-100" + d]
    ensures !StartsWith("-" + d, "-100") ==> NormalizeChatId("-" + d) == ["-" + d, "-100" + d]
  {
    assert ("-100" + d)[..4] == "-100";
    assert ("-100" + d)[4..] == d;
    assert !StartsWith(d, "-100") by { assert d[0] != '-'; }
    assert StripLeadingMinus(d) == d by { assert d[0] != '-'; }
    var m := "-" + d;
    assert m[1..] == d;
    assert StripLeadingMinus(m) == StripLeadingMinus(d);
  }

  /** The single-minus form of a small id can itself look prefixed; then the prefixed form is not probed. */
  lemma NormalizeShortPrefixedForm()
    ensures NormalizeChatId("-1005") == ["-1005", "5", "-5"]
    ensures "-1001005" !in NormalizeChatId("-1005")
  {
    assert "-1005"[..4] == "-100";
    assert "-1005"[4..] == "5";
    assert StartsWith("-1005", "-100");
    assert "-" + "5" == "-5";
  }

  /** The first non-empty string of a list, or "" when all are empty. */
  function FirstNonEmpty(xs: seq<string>): (r: string)
    ensures r == "" <==> forall i | 0 <= i < |xs| :: xs[i] == ""
    ensures r != "" ==> exists i | 0 <= i < |xs| :: xs[i] == r && forall j | 0 <= j < i :: xs[j] == ""
  {
    if xs == [] then ""
    else if xs[0] != "" then xs[0]
    else
      var r := FirstNonEmpty(xs[1..]);
      assert forall i | 1 <= i < |xs| :: xs[i] == xs[1..][i - 1];
      if r != "" then
        var k :| 0 <= k < |xs[1..]| && xs[1..][k] == r && forall j | 0 <= j < k :: xs[1..][j] == "";
        assert xs[k + 1] == r && forall j | 0 <= j < k + 1 :: xs[j] == "";
        r
      else r
  }

  /** The first non-empty entry is the one that every earlier entry, all empty, leads up to. */
  lemma FirstNonEmptyAt(xs: seq<string>, i: nat)
    requires i < |xs| && xs[i] != ""
    requires forall j | 0 <= j < i :: xs[j] == ""
    ensures FirstNonEmpty(xs) == xs[i]
  {
    var r := FirstNonEmpty(xs);
    var k :| 0 <= k < |xs| && xs[k] == r && forall j | 0 <= j < k :: xs[j] == "";
    assert k == i;
  }

  /** The text of a message: the first of `message`, `text`, `raw_text` that is present and non-empty, else "". */
  function ExtractMessageText(m: Message): string {
    if Truthy(m.message) then TextOf(m.message)
    else if Truthy(m.text) then TextOf(m.text)
    else if Truthy(m.rawText) then TextOf(m.rawText)
    else ""
  }

  /** Extraction is first-success over the three text attributes, in order. */
  lemma ExtractIsFirstNonEmpty(m: Message)
    ensures ExtractMessageText(m) == FirstNonEmpty([TextOf(m.message), TextOf(m.text), TextOf(m.rawText)])
    ensures ExtractMessageText(m) == "" <==> !Truthy(m.message) && !Truthy(m.text) && !Truthy(m.rawText)
  {
    var xs := [TextOf(m.message), TextOf(m.text), TextOf(m.rawText)];
    assert xs[1..] == [TextOf(m.text), TextOf(m.rawText)];
    assert xs[1..][1..] == [TextOf(m.rawText)];
    assert xs[1..][1..][1..] == [];
    assert FirstNonEmpty(xs[1..][1..][1..]) == "";
    assert FirstNonEmpty(xs[1..][1..]) == TextOf(m.rawText);
    assert FirstNonEmpty(xs[1..]) == if TextOf(m.text) != "" then TextOf(m.text) else TextOf(m.rawText);
  }

  const MediaPrefix := "MessageMedia"

  /** The readable name of a media type: None without media, else the type name with "MessageMedia" removed. */
  function MediaTypeName(media: Option<Media>): (r: Option<string>)
    ensures r.None? <==> media.None?
    ensures r.Some? ==> |r.value| <= |media.value.typeName|
  {
    match media
    case None => None
    case Some(md) => Some(RemoveAll(md.typeName, MediaPrefix))
  }

  /** A Telethon media class name loses its prefix: `MessageMediaPhoto` reads `Photo`. */
  lemma MediaTypeNamePhoto(isWebPage: bool)
    ensures MediaTypeName(Some(Media("MessageMediaPhoto", isWebPage))) == Some("Photo")
  {
    RemoveAllPrefix(MediaPrefix, "Photo");
    RemoveAllAbsent("Photo", MediaPrefix);
  }
}

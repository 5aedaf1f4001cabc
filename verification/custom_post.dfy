/**
 * `generateTwitterFromCustom`: the short companion post made from a custom
 * LinkedIn text — its first non-blank line, cut at 200 characters, with the
 * project's hashtags added when the text has none of its own.
 */
module CustomPost {
  import opened Text
  import opened Collections

  /** The stand-in when no line of the text has content. */
  const Placeholder: string := "LinkedIn post content"

  /** What is appended when the text carries no hashtag. */
  const Hashtags: string := "\n\n#HAXTheWeb #OpenSource"

  /** The longest first line kept whole. */
  const MaxLead: nat := 200

  /** `customContent.split('\n').filter(line => line.trim())`. */
  function ContentLines(content: string): (lines: seq<string>)
    ensures forall l :: l in lines <==> l in Split(content, '\n') && HasContent(l)
    ensures forall k :: 0 <= k < |lines| ==> '\n' !in lines[k]
  {
    Filter(Split(content, '\n'), HasContent)
  }

  /** `lines[0] || 'LinkedIn post content'`: a kept line is never empty, so it always wins. */
  function FirstLine(content: string): (first: string)
    ensures '\n' !in first
    ensures first == Placeholder || (first in Split(content, '\n') && HasContent(first))
  {
    var lines := ContentLines(content);
    if |lines| > 0 then lines[0] else Placeholder
  }

  /** The first line is the first line of the text that has content... */
  lemma {:induction false} FirstLineIsFirst(content: string, i: nat)
    requires i < |Split(content, '\n')| && HasContent(Split(content, '\n')[i])
    requires forall j :: 0 <= j < i ==> !HasContent(Split(content, '\n')[j])
    ensures FirstLine(content) == Split(content, '\n')[i]
  {
    FilterFirst(Split(content, '\n'), HasContent, i);
  }

  /** ...and the stand-in is taken only when no line has content. */
  lemma {:induction false} FirstLineStandIn(content: string)
    requires forall k :: 0 <= k < |Split(content, '\n')| ==> !HasContent(Split(content, '\n')[k])
    ensures FirstLine(content) == Placeholder
  {
    FilterNone(Split(content, '\n'), HasContent);
  }

  /** `if (twitterPost.length > 200) twitterPost = twitterPost.substring(0, 200) + '...'`. */
  function Shorten(line: string): (short: string)
    ensures |line| <= MaxLead ==> short == line
    ensures |line| > MaxLead ==> |short| == MaxLead + 3 && short[..MaxLead] == line[..MaxLead] && short[MaxLead..] == "..."
    ensures forall c :: c in short ==> c in line || c == '.'
  {
    if |line| > MaxLead then line[..MaxLead] + "..." else line
  }

  /** `generateTwitterFromCustom`: the shortened first line, then the hashtags when `customContent.includes('#')` fails. */
  function TwitterFromCustom(content: string): (post: string)
    ensures |post| <= MaxLead + 3 + |Hashtags|
    ensures '\n' in post <==> '#' !in content
    ensures '#' !in content ==> |post| >= |Hashtags| && post[|post| - |Hashtags|..] == Hashtags
    ensures |post| >= |Shorten(FirstLine(content))|
    ensures post[..|Shorten(FirstLine(content))|] == Shorten(FirstLine(content))
  {
    var lead := Shorten(FirstLine(content));
    ContainsChar(content, '#');
    assert '\n' !in lead;
    if !Contains(content, "#") then
      assert Hashtags[0] == '\n';
      assert (lead + Hashtags)[|lead|] == '\n';
      lead + Hashtags
    else
      lead
  }

  /** A hashtag anywhere in the text, even on a later line, keeps the hashtags off. */
  lemma {:induction false} HashtagsOnlyWithoutHash(content: string)
    ensures '#' in content ==> TwitterFromCustom(content) == Shorten(FirstLine(content))
    ensures '#' !in content ==> TwitterFromCustom(content) == Shorten(FirstLine(content)) + Hashtags
  {
    ContainsChar(content, '#');
  }

  /** A single short line without a hashtag comes back whole, followed by the hashtags. */
  lemma {:induction false} OneShortLine(content: string)
    requires '\n' !in content && '#' !in content
    requires HasContent(content) && |content| <= MaxLead
    ensures TwitterFromCustom(content) == content + Hashtags
  {
    SplitPrefix(content, "", '\n');
    assert content + "" == content;
    assert Split(content, '\n') == [content];
    FirstLineIsFirst(content, 0);
    ContainsChar(content, '#');
  }

  /** A text made only of blank lines gives the stand-in. */
  lemma {:induction false} BlankText(content: string)
    requires forall k :: 0 <= k < |content| ==> IsSpace(content[k])
    ensures FirstLine(content) == Placeholder
  {
    var parts := Split(content, '\n');
    forall k | 0 <= k < |parts|
      ensures !HasContent(parts[k])
    {
      JoinSplit(content, '\n');
      JoinedPieceWithin(parts, k, '\n');
      forall i | 0 <= i < |parts[k]|
        ensures IsSpace(parts[k][i])
      {
        assert parts[k][i] in content;
      }
    }
    FirstLineStandIn(content);
  }

  /** Every character of a piece of a join is a character of the join. */
  lemma {:induction false} JoinedPieceWithin(parts: seq<string>, k: nat, sep: char)
    requires k < |parts|
    ensures forall c :: c in parts[k] ==> c in Join(parts, sep)
    decreases |parts|
  {
    if |parts| > 1 {
      var rest := Join(parts[1..], sep);
      assert Join(parts, sep) == parts[0] + [sep] + rest;
      if k > 0 {
        JoinedPieceWithin(parts[1..], k - 1, sep);
      }
    }
  }
}

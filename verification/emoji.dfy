/** The emoji codecs of the triggerer: as raw reactions, as stored lists and as Slack renders them. */
module Emoji {
  import opened Text
  import opened Splitting

  const EMOJI_DELIMITER := ","
  const RENDER_DELIMITER := ", "

  /** A character of [\w_-]. */
  predicate IsNameChar(c: char) {
    'a' <= c <= 'z' || 'A' <= c <= 'Z' || IsDigit(c) || c == '_' || c == '-'
  }

  predicate IsName(s: string) {
    s != "" && forall c <- s :: IsNameChar(c)
  }

  /** The length of the longest prefix of name characters. */
  function NameLength(s: string): (n: nat)
    ensures n <= |s| && (forall c <- s[..n] :: IsNameChar(c)) && (n < |s| ==> !IsNameChar(s[n]))
  {
    if s == "" || !IsNameChar(s[0]) then 0
    else
      assert s[..1 + NameLength(s[1..])] == [s[0]] + s[1..][..NameLength(s[1..])];
      1 + NameLength(s[1..])
  }

  /** The length of the name if the text starts with an emoji, zero otherwise. */
  function EmojiAt(s: string): (n: nat)
    ensures n > 0 ==> n + 2 <= |s| && IsName(s[1..n + 1])
  {
    if s == "" || s[0] != ':' then 0
    else
      var n := NameLength(s[1..]);
      if n + 1 < |s| && s[n + 1] == ':' then
        assert s[1..n + 1] == s[1..][..n];
        n
      else 0
  }

  /** parseAllEmojis: the matches of :([\w_-]+): from left to right, none overlapping. */
  function ParseAllEmojis(s: string): seq<string>
    decreases |s|
  {
    if s == "" then []
    else
      var n := EmojiAt(s);
      if n > 0 then [s[1..n + 1]] + ParseAllEmojis(s[n + 2..]) else ParseAllEmojis(s[1..])
  }

  function RenderSlackEmoji(name: string): string {
    ":" + name + ":"
  }

  function Rendered(names: seq<string>): (r: seq<string>)
    ensures |r| == |names| && forall i | 0 <= i < |r| :: r[i] == RenderSlackEmoji(names[i])
  {
    if names == [] then [] else [RenderSlackEmoji(names[0])] + Rendered(names[1..])
  }

  method RenderSlackEmojis(names: seq<string>) returns (s: string)
    ensures s == Join(Rendered(names), RENDER_DELIMITER)
  {
    var renderedEmojis: seq<string> := [];
    for i := 0 to |names|
      invariant |renderedEmojis| == i && forall j | 0 <= j < i :: renderedEmojis[j] == RenderSlackEmoji(names[j])
    {
      renderedEmojis := renderedEmojis + [RenderSlackEmoji(names[i])];
    }
    assert renderedEmojis == Rendered(names);
    s := Join(renderedEmojis, RENDER_DELIMITER);
  }

  function ParseEmojiList(encoded: string): seq<string> {
    Split(encoded, EMOJI_DELIMITER)
  }

  function EncodeEmojis(names: seq<string>): string {
    Join(names, EMOJI_DELIMITER)
  }

  /** An emoji reaction without emojis is an error. */
  function EncodeEmojiReaction(raw: string): Option<string> {
    var names := ParseAllEmojis(raw);
    if |names| == 0 then None else Some(EncodeEmojis(names))
  }

  function RenderEmojiReaction(encoded: string): string {
    Join(Rendered(ParseEmojiList(encoded)), RENDER_DELIMITER)
  }

  // ---- The stored list ----

  lemma CommaUnbordered()
    ensures Unbordered(EMOJI_DELIMITER)
  {
  }

  /** Splitting undoes joining exactly for the non-empty lists of names without a comma. */
  lemma ListRoundTrip(names: seq<string>)
    ensures ParseEmojiList(EncodeEmojis(names)) == names <==>
      names != [] && forall name <- names :: IsFree(name, EMOJI_DELIMITER)
  {
    PartsAreFree(EncodeEmojis(names), EMOJI_DELIMITER);
    CommaUnbordered();
    if names != [] && forall name <- names :: IsFree(name, EMOJI_DELIMITER) {
      SplitJoin(names, EMOJI_DELIMITER);
    }
  }

  lemma CommaAt(s: string, i: nat)
    requires OccursAt(s, EMOJI_DELIMITER, i)
    ensures ',' in s
  {
    assert s[i..i + 1][0] == s[i] == ',';
  }

  lemma NamesAreFree(name: string)
    requires IsName(name)
    ensures IsFree(name, EMOJI_DELIMITER)
  {
    forall i: nat
      ensures !OccursAt(name, EMOJI_DELIMITER, i)
    {
      if OccursAt(name, EMOJI_DELIMITER, i) {
        CommaAt(name, i);
      }
    }
  }

  // ---- The scanner ----

  lemma {:induction false} ParsedAreNames(s: string)
    ensures forall name <- ParseAllEmojis(s) :: IsName(name)
    decreases |s|
  {
    if s != "" {
      var n := EmojiAt(s);
      if n > 0 {
        ParsedAreNames(s[n + 2..]);
      } else {
        ParsedAreNames(s[1..]);
      }
    }
  }

  /** Somewhere a name stands between two colons. */
  ghost predicate HoldsEmoji(s: string) {
    exists i: nat, name: string | IsName(name) :: OccursAt(s, RenderSlackEmoji(name), i)
  }

  lemma {:induction false} NameLengthIs(name: string, rest: string)
    requires (forall c <- name :: IsNameChar(c)) && rest != "" && !IsNameChar(rest[0])
    ensures NameLength(name + rest) == |name|
  {
    if name != "" {
      assert name[0] in name && (name + rest)[1..] == name[1..] + rest;
      NameLengthIs(name[1..], rest);
    } else {
      assert name + rest == rest;
    }
  }

  lemma EmojiAtStart(name: string, rest: string)
    requires IsName(name)
    ensures EmojiAt(RenderSlackEmoji(name) + rest) == |name|
  {
    var s := RenderSlackEmoji(name) + rest;
    assert s[1..] == name + (":" + rest);
    NameLengthIs(name, ":" + rest);
  }

  /** The scanner finds an emoji exactly when the text holds one. */
  lemma {:induction false} FindsEmoji(s: string)
    ensures ParseAllEmojis(s) != [] <==> HoldsEmoji(s)
    decreases |s|
  {
    if s != "" {
      var n := EmojiAt(s);
      if n > 0 {
        assert s[0..0 + |RenderSlackEmoji(s[1..n + 1])|] == RenderSlackEmoji(s[1..n + 1]);
        assert OccursAt(s, RenderSlackEmoji(s[1..n + 1]), 0);
      } else {
        FindsEmoji(s[1..]);
        HoldsLater(s);
      }
    }
  }

  lemma HoldsLater(s: string)
    requires s != "" && EmojiAt(s) == 0
    ensures HoldsEmoji(s) <==> HoldsEmoji(s[1..])
  {
    if i: nat, name: string :| IsName(name) && OccursAt(s, RenderSlackEmoji(name), i) {
      if i == 0 {
        NoEmojiAtStart(s, name);
      } else {
        OccursInTail(s, RenderSlackEmoji(name), i - 1);
        assert OccursAt(s[1..], RenderSlackEmoji(name), i - 1);
      }
    }
    if i: nat, name: string :| IsName(name) && OccursAt(s[1..], RenderSlackEmoji(name), i) {
      OccursInTail(s, RenderSlackEmoji(name), i);
      assert OccursAt(s, RenderSlackEmoji(name), i + 1);
    }
  }

  lemma NoEmojiAtStart(s: string, name: string)
    requires IsName(name) && EmojiAt(s) == 0
    ensures !OccursAt(s, RenderSlackEmoji(name), 0)
  {
    var r := RenderSlackEmoji(name);
    if OccursAt(s, r, 0) {
      assert s == r + s[|r|..];
      EmojiAtStart(name, s[|r|..]);
    }
  }

  lemma ParseOne(name: string, rest: string)
    requires IsName(name)
    ensures ParseAllEmojis(RenderSlackEmoji(name) + rest) == [name] + ParseAllEmojis(rest)
  {
    var s := RenderSlackEmoji(name) + rest;
    EmojiAtStart(name, rest);
    assert s[1..|name| + 1] == name && s[|name| + 2..] == rest;
  }

  lemma SkipDelimiter(rest: string)
    ensures ParseAllEmojis(RENDER_DELIMITER + rest) == ParseAllEmojis(rest)
  {
    var s := RENDER_DELIMITER + rest;
    assert s[0] == ',' && s[1..][0] == ' ' && s[1..][1..] == rest;
    assert EmojiAt(s) == 0 && EmojiAt(s[1..]) == 0;
  }

  /** What is rendered is the first emoji, then a delimiter and the other ones, if any. */
  lemma RenderedFirst(names: seq<string>)
    requires names != []
    ensures Join(Rendered(names), RENDER_DELIMITER) == RenderSlackEmoji(names[0])
      + if |names| == 1 then "" else RENDER_DELIMITER + Join(Rendered(names[1..]), RENDER_DELIMITER)
  {
    JoinFirst(RenderSlackEmoji(names[0]), Rendered(names[1..]), RENDER_DELIMITER);
  }

  /** Scanning a rendered list of names gives the list back. */
  lemma {:induction false} ScanRendered(names: seq<string>)
    requires forall name <- names :: IsName(name)
    ensures ParseAllEmojis(Join(Rendered(names), RENDER_DELIMITER)) == names
  {
    if names != [] {
      var rest := names[1..];
      ScanRendered(rest);
      RenderedFirst(names);
      assert IsName(names[0]) && names == [names[0]] + rest;
      if rest == [] {
        ParseOne(names[0], "");
      } else {
        var tail := Join(Rendered(rest), RENDER_DELIMITER);
        ParseOne(names[0], RENDER_DELIMITER + tail);
        SkipDelimiter(tail);
      }
    }
  }

  /** Decoding an encoded reaction gives its emojis. */
  lemma DecodeEncoded(raw: string)
    requires HoldsEmoji(raw)
    ensures EncodeEmojiReaction(raw).Some? && EncodeEmojiReaction(raw).value != ""
    ensures ParseEmojiList(EncodeEmojiReaction(raw).value) == ParseAllEmojis(raw)
  {
    var names := ParseAllEmojis(raw);
    FindsEmoji(raw);
    ParsedAreNames(raw);
    forall name <- names
      ensures IsFree(name, EMOJI_DELIMITER)
    {
      NamesAreFree(name);
    }
    ListRoundTrip(names);
    assert IsName(names[0]);
  }

  /** A reaction is an error when it holds no emoji; otherwise what Slack shows of it encodes to what is stored. */
  lemma RenderedEncodesAgain(raw: string)
    ensures EncodeEmojiReaction(raw).Some? <==> HoldsEmoji(raw)
    ensures EncodeEmojiReaction(raw).Some? ==>
      EncodeEmojiReaction(RenderEmojiReaction(EncodeEmojiReaction(raw).value)) == EncodeEmojiReaction(raw)
  {
    FindsEmoji(raw);
    if HoldsEmoji(raw) {
      DecodeEncoded(raw);
      ParsedAreNames(raw);
      ScanRendered(ParseAllEmojis(raw));
    }
  }
}

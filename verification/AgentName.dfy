/**
 The agent name derived from a pack id. Names are path segments of the REST
 API, so the sanitizer confines them to a conservative subset.

 `lower` is the platform's rune-wise lowercasing, of which only the behaviour
 on ASCII is pinned down.
 */
module AgentName {

  const MAX_AGENT_NAME_LENGTH := 63
  const FALLBACK_AGENT_NAME := "agent"

  predicate Letter(c: char) { 'a' <= c <= 'z' }

  predicate Digit(c: char) { '0' <= c <= '9' }

  predicate Alnum(c: char) { Letter(c) || Digit(c) }

  predicate Separator(c: char) { c == '-' || c == '_' || c == '.' || c == ' ' }

  /** What every theorem needs of the lowercasing: it fixes what is already legal. */
  ghost predicate KeepsLegal(lower: char -> char) {
    forall c :: Alnum(c) || c == '-' ==> lower(c) == c
  }

  /** The names the adapter is willing to send. */
  ghost predicate Legal(name: string) {
    && 1 <= |name| <= 63
    && (forall i :: 0 <= i < |name| ==> 'a' <= name[i] <= 'z' || '0' <= name[i] <= '9' || name[i] == '-')
    && (forall i :: 0 < i < |name| ==> !(name[i] == '-' && name[i - 1] == '-'))
    && 'a' <= name[0] <= 'z' && name[|name| - 1] != '-'
  }

  /** Alphanumerics and single hyphens, none of them leading. */
  ghost predicate Hyphenated(s: string) {
    && (forall i :: 0 <= i < |s| ==> Alnum(s[i]) || s[i] == '-')
    && (forall i :: 0 < i < |s| ==> !(s[i] == '-' && s[i - 1] == '-'))
    && (s != "" ==> s[0] != '-')
  }

  // ------------------------------------------------- what sanitizing means

  function Lowered(s: string, lower: char -> char): string {
    seq(|s|, i requires 0 <= i < |s| => lower(s[i]))
  }

  /** Split at every separator; whatever is neither separator nor alphanumeric is dropped. */
  function Segments(s: string): (segments: seq<string>)
    ensures |segments| > 0
  {
    if s == "" then [""]
    else
      var before, c := Segments(s[..|s| - 1]), s[|s| - 1];
      var last := |before| - 1;
      if Separator(c) then before + [""]
      else if Alnum(c) then before[last := before[last] + [c]]
      else before
  }

  function NonEmpty(segments: seq<string>): seq<string> {
    if segments == [] then []
    else
      var before, s := NonEmpty(segments[..|segments| - 1]), segments[|segments| - 1];
      if s == "" then before else before + [s]
  }

  function Join(words: seq<string>): string {
    if |words| == 0 then ""
    else if |words| == 1 then words[0]
    else Join(words[..|words| - 1]) + "-" + words[|words| - 1]
  }

  /** The words of an id, joined by single hyphens. */
  function Slug(s: string): string {
    Join(NonEmpty(Segments(s)))
  }

  function Capped(name: string): string {
    if |name| > MAX_AGENT_NAME_LENGTH then TrimRight(name[..MAX_AGENT_NAME_LENGTH]) else name
  }

  function Sanitized(s: string, lower: char -> char): string {
    var slug := Slug(Lowered(s, lower));
    if slug == "" then FALLBACK_AGENT_NAME
    else Capped(if Digit(slug[0]) then "a" + slug else slug)
  }

  // ------------------------------------------------------------- the code

  function TrimRight(s: string): string {
    if s != "" && s[|s| - 1] == '-' then TrimRight(s[..|s| - 1]) else s
  }

  function TrimLeft(s: string): string {
    if s != "" && s[0] == '-' then TrimLeft(s[1..]) else s
  }

  /** The folded text: the slug, with a hyphen kept open after a trailing separator. */
  function Folded(s: string): string {
    if Pending(s) then Slug(s) + "-" else Slug(s)
  }

  /** A separator has been written and no word has started since. */
  predicate Pending(s: string) {
    Slug(s) != "" && Segments(s)[|Segments(s)| - 1] == ""
  }

  method FoldAgentNameChars(s: string, lower: char -> char) returns (b: string)
    ensures b == Folded(Lowered(s, lower))
  {
    hide Slug, Segments, Folded, Pending;
    b := "";
    var lastHyphen := false;
    ghost var low := Lowered(s, lower);
    FoldEmpty();
    for i := 0 to |s|
      invariant b == Folded(low[..i])
      invariant lastHyphen == Pending(low[..i])
    {
      var r := lower(s[i]);
      assert low[..i + 1] == low[..i] + [r];
      if Alnum(r) {
        FoldAlnum(low[..i], r);
        b := b + [r];
        lastHyphen := false;
      } else if Separator(r) {
        FoldSeparator(low[..i], r);
        if !lastHyphen && |b| > 0 {
          b := b + "-";
          lastHyphen := true;
        }
      } else {
        FoldDropped(low[..i], r);
      }
    }
    assert low[..|s|] == low;
  }

  lemma FoldEmpty()
    ensures Folded("") == "" && !Pending("")
  {
  }

  method SanitizeAgentName(s: string, lower: char -> char) returns (name: string)
    ensures name == Sanitized(s, lower)
  {
    var folded := FoldAgentNameChars(s, lower);
    name := TrimRight(TrimLeft(folded));
    TrimmedFold(Lowered(s, lower));
    SlugShape(Lowered(s, lower));
    if name == "" {
      return FALLBACK_AGENT_NAME;
    }
    if '0' <= name[0] <= '9' {
      name := "a" + name;
    }
    if |name| > MAX_AGENT_NAME_LENGTH {
      TrimmedStart(name[..MAX_AGENT_NAME_LENGTH]);
      name := TrimRight(name[..MAX_AGENT_NAME_LENGTH]);
    }
    if name == "" {
      assert false;  // the second fallback cannot be reached
    }
  }

  // ------------------------------------------------------------- proofs

  /** A segment list whose entries are words or empty. */
  ghost predicate Words(words: seq<string>) {
    forall w :: w in words ==> forall i :: 0 <= i < |w| ==> Alnum(w[i])
  }

  lemma {:induction false} SegmentsAreWords(s: string)
    ensures Words(Segments(s))
  {
    if s != "" {
      SegmentsAreWords(s[..|s| - 1]);
    }
  }

  lemma {:induction false} NonEmptyWords(segments: seq<string>)
    requires Words(segments)
    ensures Words(NonEmpty(segments)) && "" !in NonEmpty(segments)
  {
    if segments != [] {
      NonEmptyWords(segments[..|segments| - 1]);
    }
  }

  /** Joined words start and end alphanumeric and never double a hyphen. */
  lemma {:induction false} JoinShape(words: seq<string>)
    requires Words(words) && "" !in words
    ensures Hyphenated(Join(words))
    ensures words != [] ==> Join(words) != "" && Alnum(Join(words)[|Join(words)| - 1])
  {
    if |words| > 1 {
      var before, w := words[..|words| - 1], words[|words| - 1];
      assert w in words;
      JoinShape(before);
    } else if |words| == 1 {
      assert words[0] in words;
    }
  }

  lemma SlugShape(s: string)
    ensures Hyphenated(Slug(s))
    ensures Slug(s) != "" ==> Alnum(Slug(s)[|Slug(s)| - 1])
  {
    SegmentsAreWords(s);
    NonEmptyWords(Segments(s));
    JoinShape(NonEmpty(Segments(s)));
  }

  /** The slug of a split whose last segment is `last`. */
  lemma JoinLast(before: seq<string>, last: string)
    ensures NonEmpty(before + [last]) == if last == "" then NonEmpty(before) else NonEmpty(before) + [last]
    ensures last != "" ==> Join(NonEmpty(before + [last])) ==
                           if NonEmpty(before) == [] then last else Join(NonEmpty(before)) + "-" + last
  {
    assert (before + [last])[..|before|] == before;
    var words := NonEmpty(before) + [last];
    assert words[..|words| - 1] == NonEmpty(before);
  }

  /** Words join to nothing only when there are none. */
  lemma SlugIsEmpty(s: string)
    ensures Slug(s) == "" <==> NonEmpty(Segments(s)) == []
  {
    SegmentsAreWords(s);
    NonEmptyWords(Segments(s));
    JoinShape(NonEmpty(Segments(s)));
  }

  lemma FoldAlnum(s: string, c: char)
    requires Alnum(c)
    ensures Folded(s + [c]) == Folded(s) + [c] && !Pending(s + [c])
  {
    hide Join, NonEmpty;
    var t, segs := s + [c], Segments(s);
    assert t[..|t| - 1] == s && t[|t| - 1] == c;
    var init, last := segs[..|segs| - 1], segs[|segs| - 1];
    assert segs == init + [last];
    assert Segments(t) == init + [last + [c]];
    JoinLast(init, last);
    JoinLast(init, last + [c]);
    SlugIsEmpty(s);
  }

  lemma FoldSeparator(s: string, c: char)
    requires Separator(c)
    ensures Folded(s + [c]) == if Folded(s) != "" && !Pending(s) then Folded(s) + "-" else Folded(s)
    ensures Pending(s + [c]) == (Folded(s) != "")
    ensures Pending(s) ==> Folded(s) != ""
  {
    var t := s + [c];
    assert t[..|t| - 1] == s && t[|t| - 1] == c;
    assert Segments(t) == Segments(s) + [""];
    JoinLast(Segments(s), "");
  }

  lemma FoldDropped(s: string, c: char)
    requires !Alnum(c) && !Separator(c)
    ensures Folded(s + [c]) == Folded(s) && Pending(s + [c]) == Pending(s)
  {
    var t := s + [c];
    assert t[..|t| - 1] == s && t[|t| - 1] == c;
    assert Segments(t) == Segments(s);
  }

  lemma {:induction false} TrimmedStart(s: string)
    requires s != "" && s[0] != '-'
    ensures TrimRight(s) != "" && TrimRight(s) <= s
    ensures TrimRight(s)[|TrimRight(s)| - 1] != '-'
  {
    if s[|s| - 1] == '-' {
      TrimmedStart(s[..|s| - 1]);
    }
  }

  /** Trimming the folded text leaves exactly the slug. */
  lemma TrimmedFold(s: string)
    ensures TrimRight(TrimLeft(Folded(s))) == Slug(s)
  {
    SlugShape(s);
    if Slug(s) != "" {
      assert TrimRight(Slug(s)) == Slug(s);
      assert (Slug(s) + "-")[..|Slug(s)|] == Slug(s);
    }
  }

  /** Cutting a well-formed name and trimming what the cut exposes keeps it well-formed. */
  lemma CappedIsLegal(name: string)
    requires Hyphenated(name) && name != "" && Letter(name[0]) && Alnum(name[|name| - 1])
    ensures Legal(Capped(name))
  {
    hide TrimRight;
    if |name| > MAX_AGENT_NAME_LENGTH {
      TrimmedStart(name[..MAX_AGENT_NAME_LENGTH]);
    }
  }

  lemma PrefixKeepsShape(slug: string)
    requires Hyphenated(slug) && slug != "" && Alnum(slug[|slug| - 1])
    ensures Hyphenated("a" + slug) && Alnum(("a" + slug)[|slug|])
  {
  }

  /** Every name sent is legal, whatever the pack id. */
  lemma SanitizedIsLegal(s: string, lower: char -> char)
    ensures Legal(Sanitized(s, lower))
  {
    hide Slug, Lowered, Capped, Hyphenated;
    var slug := Slug(Lowered(s, lower));
    SlugShape(Lowered(s, lower));
    if slug == "" {
      FallbackIsLegal();
    } else {
      PrefixKeepsShape(slug);
      SlugStart(slug);
      CappedIsLegal(if Digit(slug[0]) then "a" + slug else slug);
    }
  }

  lemma FallbackIsLegal()
    ensures Legal(FALLBACK_AGENT_NAME)
  {
  }

  lemma SlugStart(slug: string)
    requires Hyphenated(slug) && slug != ""
    ensures Alnum(slug[0])
  {
  }

  lemma {:induction false} TrimsAtMostOne(s: string)
    requires forall i :: 0 < i < |s| ==> !(s[i] == '-' && s[i - 1] == '-')
    ensures TrimRight(s) == if s != "" && s[|s| - 1] == '-' then s[..|s| - 1] else s
  {
    if s != "" && s[|s| - 1] == '-' {
      TrimsAtMostOne(s[..|s| - 1]);
    }
  }

  /**
   What is sent, in terms of the joined words: "agent" when there is none, an "a"
   in front of a digit, and of a longer name its first 63 characters without a
   hyphen at the end.
   */
  lemma SanitizedMeans(s: string, lower: char -> char)
    ensures
      var slug, name := Slug(Lowered(s, lower)), Sanitized(s, lower);
      if slug == "" then name == "agent"
      else
        var full := if '0' <= slug[0] <= '9' then "a" + slug else slug;
        name == if |full| <= 63 then full else if full[62] == '-' then full[..62] else full[..63]
  {
    hide Slug, Lowered, TrimRight;
    var slug := Slug(Lowered(s, lower));
    SlugShape(Lowered(s, lower));
    if slug != "" {
      var full := if Digit(slug[0]) then "a" + slug else slug;
      PrefixKeepsShape(slug);
      if |full| > 63 {
        TrimsAtMostOne(full[..63]);
      }
    }
  }

  /**
   How one character is read: four separate words, letters and digits belong to
   them, and everything else is dropped.
   */
  lemma CharacterByCharacter(c: char)
    ensures Slug("a" + [c] + "b") ==
            if c in ['-', '_', '.', ' '] then "a-b"
            else if 'a' <= c <= 'z' || '0' <= c <= '9' then "a" + [c] + "b"
            else "ab"
  {
    hide Join, NonEmpty, Segments, Slug;
    SpellA();
    var before := Slug("a" + [c]);
    if Separator(c) {
      FoldSeparator("a", c);
    } else if Alnum(c) {
      FoldAlnum("a", c);
    } else {
      FoldDropped("a", c);
    }
    FoldAlnum("a" + [c], 'b');
    assert "a" + [c] + ['b'] == "a" + [c] + "b";
  }

  /** Letters are lowered before they are judged. */
  lemma LettersAreLowered(c: char, lower: char -> char)
    requires 'a' <= lower(c) <= 'z'
    ensures Sanitized([c], lower) == [lower(c)]
  {
    hide Slug;
    FoldEmpty();
    FoldAlnum("", lower(c));
    assert Lowered([c], lower) == "" + [lower(c)];
    SanitizedMeans([c], lower);
  }

  lemma SpellA()
    ensures Folded("a") == "a" && !Pending("a") && Slug("a") == "a"
  {
    FoldEmpty();
    FoldAlnum("", 'a');
    assert "" + ['a'] == "a";
  }

  lemma {:induction false} HyphenatedIsFixed(s: string)
    requires Hyphenated(s)
    ensures Folded(s) == s
  {
    if s != "" {
      var before, c := s[..|s| - 1], s[|s| - 1];
      HyphenatedIsFixed(before);
      assert s == before + [c];
      assert Pending(before) ==> before[|before| - 1] == '-';
      if c == '-' {
        FoldSeparator(before, c);
      } else {
        FoldAlnum(before, c);
      }
    }
  }

  /** The sanitizer leaves exactly the legal names alone. */
  lemma FixedExactlyWhenLegal(name: string, lower: char -> char)
    requires KeepsLegal(lower)
    ensures Sanitized(name, lower) == name <==> Legal(name)
  {
    SanitizedIsLegal(name, lower);
    if Legal(name) {
      assert Lowered(name, lower) == name;
      HyphenatedIsFixed(name);
      assert name[|name| - 1] != '-';
    }
  }

  lemma SanitizingTwice(s: string, lower: char -> char)
    requires KeepsLegal(lower)
    ensures Sanitized(Sanitized(s, lower), lower) == Sanitized(s, lower)
  {
    SanitizedIsLegal(s, lower);
    FixedExactlyWhenLegal(Sanitized(s, lower), lower);
  }
}

/** The simulated generator's pure parts (app.js:277-339): the three fixed
    sets of ten title templates with one of them picked at random, and the
    hashtag line; plus the shape of the generated content the save handler
    reads. */
module Generation {
  import opened Text

  /** What `generateAllContent` returns (app.js:378-393) and the save handler
      reads back as `lastGeneratedContent`. */
  datatype Content = Content(
    topic: string, tone: string, audience: string, keywords: string, videoType: string,
    titles: seq<string>, description: string, hashtags: string,
    thumbnails: seq<string>, script: string)

  /** One piece of a title template: fixed text or one of the four values the
      template literal interpolates. */
  datatype Part = Lit(text: string) | Base | Tone | Audience | VideoType

  type Template = seq<Part>

  /** The text one part contributes. */
  function PartText(p: Part, base: string, tone: string, audience: string, videoType: string): string {
    match p
    case Lit(s) => s
    case Base => base
    case Tone => tone
    case Audience => audience
    case VideoType => videoType
  }

  /** The template literal's value: the parts' texts in order, so it is at
      least as long as the text of any one part. */
  function Render(t: Template, base: string, tone: string, audience: string, videoType: string): (r: string)
    ensures t == [] ==> r == ""
    ensures forall i :: 0 <= i < |t| ==> |PartText(t[i], base, tone, audience, videoType)| <= |r|
  {
    if t == [] then ""
    else
      var rest := Render(t[1..], base, tone, audience, videoType);
      assert forall i :: 1 <= i < |t| ==> t[i] == t[1..][i - 1];
      PartText(t[0], base, tone, audience, videoType) + rest
  }

  /** Rendering two templates one after the other renders their
      concatenation. */
  lemma {:induction false} RenderAppend(t1: Template, t2: Template, base: string, tone: string, audience: string, videoType: string)
    ensures Render(t1 + t2, base, tone, audience, videoType)
      == Render(t1, base, tone, audience, videoType) + Render(t2, base, tone, audience, videoType)
  {
    if t1 == [] {
      assert t1 + t2 == t2;
    } else {
      assert (t1 + t2)[0] == t1[0];
      assert (t1 + t2)[1..] == t1[1..] + t2;
      RenderAppend(t1[1..], t2, base, tone, audience, videoType);
    }
  }

  ghost predicate Occurs(needle: string, hay: string) {
    exists k :: 0 <= k <= |hay| && needle <= hay[k..]
  }

  /** A template that interpolates the base renders to a text containing it. */
  lemma {:induction false} RenderContainsBase(t: Template, base: string, tone: string, audience: string, videoType: string)
    requires Base in t
    ensures Occurs(base, Render(t, base, tone, audience, videoType))
  {
    var r := Render(t, base, tone, audience, videoType);
    var rest := Render(t[1..], base, tone, audience, videoType);
    if t[0] == Base {
      assert r == base + rest;
      assert base <= r[0..];
    } else {
      assert Base in t[1..];
      RenderContainsBase(t[1..], base, tone, audience, videoType);
      var k :| 0 <= k <= |rest| && base <= rest[k..];
      var head := r[..|r| - |rest|];
      assert r == head + rest;
      assert r[|head| + k..] == rest[k..];
    }
  }

  /** `pre${base}post`. */
  function Around(pre: string, post: string): Template { [Lit(pre), Base, Lit(post)] }

  const Dash: string := " \U{2013} "

  /** The `variations` array of `generateTitles` (app.js:279-316). */
  const Variations: seq<seq<Template>> := [
    [
      [Base, Lit(Dash + "Complete "), Tone, Lit(" Guide for "), Audience],
      Around("How I Mastered ", " (Step-by-Step Tutorial)"),
      Around("", ": Everything You Need to Know in 2024"),
      Around("The Ultimate ", " Strategy That Actually Works"),
      [Base, Lit(" Explained in 10 Minutes ("), VideoType, Lit(")")],
      Around("Stop Doing ", " Wrong" + Dash + "Here's the Right Way"),
      Around("", ": From Beginner to Pro in 30 Days"),
      Around("I Tried ", " for 90 Days" + Dash + "Here's What Happened"),
      Around("", " Secrets Nobody Tells You About"),
      Around("The Only ", " Video You'll Ever Need")
    ],
    [
      [Base, Lit(Dash + "The "), Tone, Lit(" Approach That Changed Everything")],
      Around("Master ", " in Record Time (Proven Method)"),
      [Base, Lit(": The 2024 Blueprint for "), Audience],
      Around("Why ", " is Easier Than You Think"),
      [Base, Lit(" Tutorial" + Dash), VideoType, Lit(" Edition")],
      Around("The ", " Mistakes Costing You Success"),
      Around("", ": Zero to Hero in 60 Days"),
      Around("My ", " Journey" + Dash + "Results After 6 Months"),
      Around("Hidden ", " Techniques Pros Use Daily"),
      Around("Everything About ", " in One Video")
    ],
    [
      [Base, Lit(Dash), Tone, Lit(" Masterclass for "), Audience],
      Around("The ", " System That Actually Works"),
      Around("", ": Advanced Strategies for 2024"),
      Around("How to Dominate ", " Like a Pro"),
      [Base, Lit(" Crash Course ("), VideoType, Lit(")")],
      Around("Common ", " Errors and How to Fix Them"),
      Around("", ": Complete Transformation Guide"),
      Around("I Tested ", " for 3 Months" + Dash + "Shocking Results"),
      Around("", " Hacks Nobody Talks About"),
      Around("The Definitive ", " Tutorial")
    ]
  ]

  lemma EveryTemplateHasBase()
    ensures |Variations| == 3
    ensures forall k :: 0 <= k < 3 ==> |Variations[k]| == 10
    ensures forall k, i :: 0 <= k < 3 && 0 <= i < 10 ==> Base in Variations[k][i]
  {
  }

  /** `Math.floor(random * n)` for a `random` in [0, 1): always an index
      below `n`, and the one whose slice [k/n, (k+1)/n) holds `random`. */
  function RandomIndex(random: real, n: nat): (k: nat)
    requires 0.0 <= random < 1.0
    requires n > 0
    ensures k < n
    ensures k as real <= random * (n as real) < k as real + 1.0
  {
    assert random * (n as real) < n as real;
    (random * (n as real)).Floor as nat
  }

  /** Every index below `n` is drawn: by the start of its slice, `k / n`. */
  lemma RandomIndexReaches(k: nat, n: nat)
    requires k < n
    ensures 0.0 <= (k as real) / (n as real) < 1.0
    ensures RandomIndex((k as real) / (n as real), n) == k
  {
    var x := (k as real) / (n as real);
    assert x * (n as real) == k as real;
  }

  /** `generateTitles(topic, tone, audience, videoType)`, with the value of
      `Math.random()` as the parameter `random`: ten titles from the picked set,
      each mentioning the topic, or "Your YouTube video" when the topic is
      empty. */
  function GenerateTitles(topic: string, tone: string, audience: string, videoType: string, random: real): (titles: seq<string>)
    requires 0.0 <= random < 1.0
    ensures |titles| == 10
    ensures forall i :: 0 <= i < 10 ==> Occurs(Or(topic, "Your YouTube video"), titles[i])
    ensures exists k :: 0 <= k < |Variations| && forall i :: 0 <= i < 10 ==>
      titles[i] == Render(Variations[k][i], Or(topic, "Your YouTube video"), tone, audience, videoType)
  {
    var base := Or(topic, "Your YouTube video");
    var set_ := Variations[RandomIndex(random, |Variations|)];
    EveryTemplateHasBase();
    var titles := seq(10, i requires 0 <= i < 10 => Render(set_[i], base, tone, audience, videoType));
    assert forall i :: 0 <= i < 10 ==> Occurs(base, titles[i]) by {
      forall i | 0 <= i < 10 ensures Occurs(base, titles[i]) {
        RenderContainsBase(set_[i], base, tone, audience, videoType);
      }
    }
    titles
  }

  /** The fifteen tags every hashtag line starts with (app.js:328-333). */
  const FixedTags: seq<string> := [
    "#youtube", "#contentcreator", "#youtubetips", "#youtubegrowth",
    "#videomarketing", "#socialmedia", "#contentcreation", "#youtuber",
    "#digitalmarketing", "#youtubechannel", "#contentmarketing", "#videocontent",
    "#youtubestrategy", "#growyourchannel", "#youtubealgorithm"
  ]

  /** `"#" + s.toLowerCase().replace(/\s+/g, "")`: a `#`, then the characters
      of `s` that are not white space, lower-cased, in their order (see
      `TagAppend` and `TagChar`). */
  function Tag(s: string): (tag: string)
    ensures |tag| >= 1 && tag[0] == '#'
    ensures NoWhitespace(tag)
    ensures forall i :: 0 <= i < |tag| ==> !IsAsciiUpper(tag[i])
    ensures s == "" ==> tag == "#"
    ensures NoWhitespace(s) && (forall i :: 0 <= i < |s| ==> !IsAsciiUpper(s[i])) ==> tag == "#" + s
  {
    var body := RemoveWhitespace(ToLowerAscii(s));
    assert forall i :: 0 <= i < |body| ==> !IsAsciiUpper(body[i]) by {
      var lower := ToLowerAscii(s);
      forall i | 0 <= i < |body| ensures !IsAsciiUpper(body[i]) {
        assert body[i] in multiset(body);
        assert body[i] in multiset(lower);
      }
    }
    assert (forall i :: 0 <= i < |s| ==> !IsAsciiUpper(s[i])) ==> ToLowerAscii(s) == s;
    "#" + body
  }

  /** The tag of a one-character text: just `#` for white space, else `#`
      and the character lower-cased. */
  lemma TagChar(c: char)
    ensures Tag([c]) == if IsJsWhitespace(c) then "#" else ['#', LowerChar(c)]
  {
    assert ToLowerAscii([c]) == [LowerChar(c)];
    RemoveWhitespaceChar(LowerChar(c));
    assert IsJsWhitespace(LowerChar(c)) == IsJsWhitespace(c);
  }

  /** The tag of a concatenation is the first tag followed by the body of the
      second: characters are kept in order. */
  lemma TagAppend(a: string, b: string)
    ensures Tag(a + b) == Tag(a) + Tag(b)[1..]
  {
    ToLowerAsciiAppend(a, b);
    RemoveWhitespaceAppend(ToLowerAscii(a), ToLowerAscii(b));
  }

  /** The tag list of `generateHashtags` before it is sliced and joined. */
  function HashtagList(topic: string, audience: string): (tags: seq<string>)
    ensures 15 <= |tags| <= 17
    ensures tags[..15] == FixedTags
  {
    var extra := (if topic != "" then [Tag(topic)] else []) + (if audience != "" then [Tag(audience)] else []);
    assert |FixedTags| == 15;
    assert (FixedTags + extra)[..15] == FixedTags;
    FixedTags + extra
  }

  /** A tag as the hashtag line holds it: a `#` first and no space anywhere. */
  predicate WellFormedTag(t: string) {
    |t| >= 1 && t[0] == '#' && ' ' !in t
  }

  lemma FixedTagsWellFormed()
    ensures |FixedTags| == 15
    ensures forall i :: 0 <= i < 15 ==> WellFormedTag(FixedTags[i])
  {
  }

  lemma TagWellFormed(s: string)
    ensures WellFormedTag(Tag(s))
  {
    var t := Tag(s);
    forall j | 0 <= j < |t| ensures t[j] != ' ' {
      assert !IsJsWhitespace(t[j]);
    }
  }

  /** The list holds the fixed tags, then a tag for a non-empty topic, then a
      tag for a non-empty audience: at most 17 tags, all well formed. */
  lemma HashtagListShape(topic: string, audience: string)
    ensures var tags := HashtagList(topic, audience);
      && |tags| == 15 + (if topic != "" then 1 else 0) + (if audience != "" then 1 else 0)
      && tags[..15] == FixedTags
      && (topic != "" ==> tags[15] == Tag(topic))
      && (audience != "" ==> tags[|tags| - 1] == Tag(audience))
      && (forall i :: 0 <= i < |tags| ==> WellFormedTag(tags[i]))
  {
    var extra := (if topic != "" then [Tag(topic)] else []) + (if audience != "" then [Tag(audience)] else []);
    var tags := FixedTags + extra;
    assert HashtagList(topic, audience) == tags;
    FixedTagsWellFormed();
    TagWellFormed(topic);
    TagWellFormed(audience);
    assert forall i :: 0 <= i < |extra| ==> WellFormedTag(extra[i]);
    assert forall i :: 0 <= i < |tags| ==> WellFormedTag(tags[i]) by {
      forall i | 0 <= i < |tags| ensures WellFormedTag(tags[i]) {
        if i < 15 { assert tags[i] == FixedTags[i]; } else { assert tags[i] == extra[i - 15]; }
      }
    }
  }

  /** `generateHashtags(topic, audience, keywords)` (app.js:327-339); the
      keywords are not used. Splitting the line at single spaces gives back
      the whole tag list: `slice(0, 20)` never drops a tag. */
  function GenerateHashtags(topic: string, audience: string, keywords: string): (line: string)
    ensures Split(line, ' ') == HashtagList(topic, audience)
  {
    var tags := HashtagList(topic, audience);
    HashtagListShape(topic, audience);
    var kept := tags[..Min(|tags|, 20)];
    assert kept == tags;
    SplitJoin(kept, ' ');
    Join(kept, ' ')
  }
}

/** The saved history record: the length-capped payload the save handler
    builds from the generated content (app.js:563-583), and the identity
    `addToLocalStorage` gives a record when there is no data service
    (app.js:172-181). */
module Records {
  import opened Text
  import opened Generation
  import opened Wrappers

  /** Length caps of the payload fields. */
  const TopicCap: nat := 200
  const KeywordsCap: nat := 200
  const TitleCap: nat := 300
  const DescriptionCap: nat := 1000
  const HashtagsCap: nat := 500
  const ThumbnailCap: nat := 300
  const ScriptCap: nat := 2000

  /** The `payload` object of the save handler. */
  datatype Payload = Payload(
    topic: string, tone: string, audience: string, keywords: string, videoType: string,
    title1: string, title2: string, title3: string, description: string, hashtags: string,
    thumbnail1: string, thumbnail2: string, script: string, createdAt: string)

  /** A stored record: a payload and its `__backendId`. */
  datatype Record = Record(fields: Payload, backendId: string)

  /** `xs[i] || ""`: an index past the end reads as `undefined`, which is falsy. */
  function ItemOrEmpty(xs: seq<string>, i: nat): (r: string)
    ensures i < |xs| ==> r == xs[i]
    ensures i >= |xs| ==> r == ""
  {
    if i < |xs| then xs[i] else ""
  }

  /** The save handler's payload, with `createdAt` standing for
      `new Date().toISOString()`. Each capped field is the longest prefix
      within its cap of the content's value (or of its fallback when that value
      is empty); tone, audience and video type take their fallbacks and are not
      capped. */
  function BuildPayload(c: Content, createdAt: string): (p: Payload)
    ensures CappedPrefix(p.topic, Or(c.topic, "Untitled"), TopicCap)
    ensures c.topic == "" ==> p.topic == "Untitled"
    ensures p.tone == Or(c.tone, "Motivational")
    ensures p.audience == Or(c.audience, "Everyone")
    ensures CappedPrefix(p.keywords, c.keywords, KeywordsCap)
    ensures p.videoType == Or(c.videoType, "Long Video")
    ensures CappedPrefix(p.title1, ItemOrEmpty(c.titles, 0), TitleCap)
    ensures CappedPrefix(p.title2, ItemOrEmpty(c.titles, 1), TitleCap)
    ensures CappedPrefix(p.title3, ItemOrEmpty(c.titles, 2), TitleCap)
    ensures CappedPrefix(p.description, c.description, DescriptionCap)
    ensures CappedPrefix(p.hashtags, c.hashtags, HashtagsCap)
    ensures CappedPrefix(p.thumbnail1, ItemOrEmpty(c.thumbnails, 0), ThumbnailCap)
    ensures CappedPrefix(p.thumbnail2, ItemOrEmpty(c.thumbnails, 1), ThumbnailCap)
    ensures CappedPrefix(p.script, c.script, ScriptCap)
    ensures p.createdAt == createdAt
  {
    Payload(
      topic := Truncate(Or(c.topic, "Untitled"), TopicCap),
      tone := Or(c.tone, "Motivational"),
      audience := Or(c.audience, "Everyone"),
      keywords := Truncate(Or(c.keywords, ""), KeywordsCap),
      videoType := Or(c.videoType, "Long Video"),
      title1 := Truncate(ItemOrEmpty(c.titles, 0), TitleCap),
      title2 := Truncate(ItemOrEmpty(c.titles, 1), TitleCap),
      title3 := Truncate(ItemOrEmpty(c.titles, 2), TitleCap),
      description := Truncate(Or(c.description, ""), DescriptionCap),
      hashtags := Truncate(Or(c.hashtags, ""), HashtagsCap),
      thumbnail1 := Truncate(ItemOrEmpty(c.thumbnails, 0), ThumbnailCap),
      thumbnail2 := Truncate(ItemOrEmpty(c.thumbnails, 1), ThumbnailCap),
      script := Truncate(Or(c.script, ""), ScriptCap),
      createdAt := createdAt)
  }

  /** Every capped field of a payload is within its cap. */
  ghost predicate WithinCaps(p: Payload) {
    && |p.topic| <= TopicCap && |p.keywords| <= KeywordsCap
    && |p.title1| <= TitleCap && |p.title2| <= TitleCap && |p.title3| <= TitleCap
    && |p.description| <= DescriptionCap && |p.hashtags| <= HashtagsCap
    && |p.thumbnail1| <= ThumbnailCap && |p.thumbnail2| <= ThumbnailCap
    && |p.script| <= ScriptCap
  }

  /** Whatever the generated content holds, the payload respects every cap,
      and a field already within its cap is stored unchanged. */
  lemma PayloadWithinCaps(c: Content, createdAt: string)
    ensures WithinCaps(BuildPayload(c, createdAt))
    ensures |c.script| <= ScriptCap ==> BuildPayload(c, createdAt).script == c.script
    ensures |c.description| <= DescriptionCap ==> BuildPayload(c, createdAt).description == c.description
    ensures 0 < |c.topic| <= TopicCap ==> BuildPayload(c, createdAt).topic == c.topic
  {
  }

  /** `'local_' + Date.now() + '_' + Math.random().toString(36).substr(2, 9)`,
      with `millis` standing for `Date.now()` and `randomText` for the base-36
      text of the random number. */
  function LocalId(millis: nat, randomText: string): (id: string)
    ensures |id| == 7 + |Decimal(millis)| + |Substr(randomText, 2, 9)|
    ensures id[..6] == "local_"
    ensures id[6..6 + |Decimal(millis)|] == Decimal(millis)
    ensures id[6 + |Decimal(millis)|] == '_'
    ensures id[7 + |Decimal(millis)|..] == Substr(randomText, 2, 9)
  {
    "local_" + Decimal(millis) + "_" + Substr(randomText, 2, 9)
  }

  /** The shape `local_<digits>_<at most nine characters>`. */
  ghost predicate IsLocalIdShape(id: string) {
    && |id| > 7 && id[..6] == "local_"
    && exists d :: 7 <= d < |id| && IsDigits(id[6..d]) && id[d] == '_' && |id| - d - 1 <= 9
  }

  lemma LocalIdShape(millis: nat, randomText: string)
    ensures IsLocalIdShape(LocalId(millis, randomText))
  {
    var id := LocalId(millis, randomText);
    var digits := Decimal(millis);
    var d := 6 + |digits|;
    assert id[6..d] == digits;
    assert id[d] == '_';
  }

  /** Reads the clock value back out of a locally made identity: the digits
      between `local_` and the next `_`. */
  function LocalIdMillis(id: string): Option<nat> {
    if |id| < 6 || id[..6] != "local_" then None
    else
      var rest := id[6..];
      var k := IndexOf(rest, '_');
      if k == 0 || k == |rest| || !IsDigits(rest[..k]) then None
      else Some(DecimalValue(rest[..k]))
  }

  /** The identity records the clock value it was made from. */
  lemma {:induction false} LocalIdMillisRoundTrip(millis: nat, randomText: string)
    ensures LocalIdMillis(LocalId(millis, randomText)) == Some(millis)
  {
    var id := LocalId(millis, randomText);
    var digits := Decimal(millis);
    var tail := Substr(randomText, 2, 9);
    assert id[6..] == digits + "_" + tail;
    IndexOfAfterDigits(digits, tail);
    assert id[6..][..|digits|] == digits;
    DecimalRoundTrip(millis);
  }

  /** Two identities made at different clock values differ, whatever their
      random parts. */
  lemma LocalIdsDistinct(m1: nat, r1: string, m2: nat, r2: string)
    ensures LocalId(m1, r1) == LocalId(m2, r2) ==> m1 == m2
  {
    LocalIdMillisRoundTrip(m1, r1);
    LocalIdMillisRoundTrip(m2, r2);
  }
}

# Creator's Intelligence: history store and save path

A Dafny model of the one piece of logic in `app.js`, the script of a
client-side widget that fills title, description, hashtag and script templates
for YouTube creators and keeps a history of what the user saved. The model covers:

- the history store (module `Storage`). It holds `currentRecords` (the list on
  the history screen), the flags `dataSdkReady` and `useLocalStorage`, and the
  browser's persisted slot under the key `creator_intelligence_history`. Its
  operations are `initDataSdk`, `dataHandler.onDataChanged`,
  `loadFromLocalStorage`, `saveToLocalStorage`, `addToLocalStorage` and the
  "Save to History" click handler. The store is a class whose methods update
  these four fields.
- the save payload (module `Records`): the save handler's `truncate` helper,
  the field fallbacks and length caps, and the `local_<millis>_<random>`
  identity it gives a record in local mode.
- the pure generators the save path stores (module `Generation`):
  `generateTitles`, with its three fixed sets of ten templates, and
  `generateHashtags`.
- the configuration merge `{ ...defaultConfig, ...config }` of
  `applyConfigToUI` (module `Config`).
- the JavaScript string operations these rely on (module `Text`).

Time, randomness and the outside world are parameters:
- `millis` stands for `Date.now()`;
- `randomText` stands for `Math.random().toString(36)`;
- `random` stands for the number `generateTitles` draws;
- `createdAt` stands for `new Date().toISOString()`;
- `writeSucceeds` says whether `localStorage.setItem` returns or throws;
- `SdkInit` and `CreateResult` are what the data service's `init` and
  `create` returned or threw.

Three behaviours of the code that the model keeps as they are:
- a local-mode save whose write fails is still reported as a success
  (`SavedLocal`). The write's `false` result is dropped at app.js:179. The list
  is then reloaded from the unchanged slot, so memory stays equal to the slot.
- the records are not de-duplicated.
- the history limit is checked against the in-memory list. The record is
  appended to the list read back from the slot. The bound of 999 after a save
  therefore holds when the two agree (`InSync`). `InitDataSdk` establishes
  that agreement and `Save` keeps it. `OnDataChanged` does not: the service
  holds `dataHandler` from app.js:203 on. If it calls back after
  `initDataSdk` has fallen back to local mode, memory takes the service's
  list while the slot keeps its own.

## Model

| member | source | states |
|---|---|---|
| `Text.Or` | app.js:569-573 | the `or` fallback of JavaScript on strings: the fallback exactly when the string is empty |
| `Text.Truncate` | app.js:563-566 | the result is the prefix of `s` of length min(length of s, n), so never longer than `n`; an input already within `n` comes back unchanged, and "" gives "" |
| `Text.TruncateTwice` | app.js:563-566 | truncating to `m` then `n` is truncating to min(m, n); truncating twice to one length equals truncating once |
| `Text.Substr` | app.js:176 | `substr(start, length)`: at most `length` characters, taken from `start`; empty when `start` is past the end |
| `Text.ToLowerAscii` | app.js:335-336 | same length; each upper-case ASCII letter becomes its lower-case letter (code plus 32) in place; every other character kept in place |
| `Text.ToLowerAsciiAppend` | app.js:335-336 | lower-casing a concatenation lower-cases each piece |
| `Text.RemoveWhitespace` | app.js:335-336 | `replace(/\s+/g, "")`: no white space left, every non-white-space character kept with its count, a string without white space unchanged |
| `Text.RemoveWhitespaceAppend` | app.js:335-336 | removing white space from a concatenation removes it from each piece, so kept characters stay in order |
| `Text.RemoveWhitespaceChar` | app.js:335-336 | one white space character is dropped; any other character is kept |
| `Text.Join` | app.js:338 | `join(sep)` starts with the first piece; for pieces free of the separator it holds exactly one separator fewer than there are pieces |
| `Text.SplitJoin` | app.js:338 | splitting a `join(" ")` at spaces gives the pieces back when none contains a space |
| `Text.Decimal` | app.js:176 | the decimal text of `Date.now()` is non-empty, all digits, no leading zero |
| `Text.DecimalRoundTrip` | app.js:176 | reading the decimal text back gives the number |
| `Config.Merge` | app.js:24 | every key of defaults or config is present; config's values win; other keys keep their defaults |
| `Config.MergeDefinesUiSettings` | app.js:24-52 | every setting `applyConfigToUI` reads is defined after the merge; an empty config gives the defaults |
| `Generation.Render` | app.js:279-316 | a template literal's text: "" for no parts, and at least as long as the text of each of its parts |
| `Generation.RenderAppend` | app.js:279-316 | rendering a concatenation of templates is rendering each in turn |
| `Generation.RenderContainsBase` | app.js:279-316 | a template that interpolates `${base}` renders to a text containing `base` |
| `Generation.EveryTemplateHasBase` | app.js:279-316 | three sets of ten templates, each interpolating `${base}` |
| `Generation.RandomIndex` | app.js:318 | `Math.floor(r * n)` for r in [0, 1) is an index below `n`, the k with k <= r * n < k + 1 |
| `Generation.RandomIndexReaches` | app.js:318 | every index below `n` is drawn, by the value k / n |
| `Generation.GenerateTitles` | app.js:277-320 | ten titles, each containing the topic, or "Your YouTube video" for an empty topic; together they are one of the three fixed sets, rendered in order |
| `Generation.Tag` | app.js:335-336 | a tag starts with `#`, holds no white space and no upper-case ASCII letter; "" gives "#"; a text with no white space and no upper-case letter is kept whole after the `#` |
| `Generation.TagChar` | app.js:335-336 | the tag of one character is `#` alone for white space, else `#` and the character lower-cased |
| `Generation.TagAppend` | app.js:335-336 | the tag of a concatenation is the first tag followed by the second's body, so characters keep their order |
| `Generation.HashtagList` | app.js:327-336 | fifteen to seventeen tags, the fifteen fixed tags first |
| `Generation.FixedTagsWellFormed` | app.js:328-333 | the fifteen fixed tags start with `#` and contain no space |
| `Generation.TagWellFormed` | app.js:335-336 | a tag made from any text starts with `#` and contains no space |
| `Generation.HashtagListShape` | app.js:327-336 | fifteen fixed tags, then the topic tag if the topic is non-empty, then the audience tag if the audience is non-empty: at most 17 tags |
| `Generation.GenerateHashtags` | app.js:327-339 | the line split at single spaces is exactly the whole tag list, in order, so `slice(0, 20)` drops nothing |
| `Records.ItemOrEmpty` | app.js:574-580 | an element or "": the element when it exists, "" past the end |
| `Records.BuildPayload` | app.js:568-583 | each capped field is the longest prefix within its cap (topic and keywords 200, titles 300, description 1000, hashtags 500, thumbnails 300, script 2000); an empty topic becomes "Untitled"; tone, audience and video type fall back to "Motivational", "Everyone" and "Long Video" and are not cut |
| `Records.PayloadWithinCaps` | app.js:568-583 | every capped field of every payload is within its cap; a script, description or non-empty topic already within its cap is stored unchanged |
| `Records.LocalId` | app.js:176 | `local_`, the decimal clock value, `_`, then the random text from its third character, at most nine characters |
| `Records.LocalIdShape` | app.js:176 | a local identity has the shape `local_<digits>_<at most nine characters>` |
| `Records.LocalIdMillisRoundTrip` | app.js:176 | the digits after `local_` read back as the clock value the identity was made from |
| `Records.LocalIdsDistinct` | app.js:176 | identities made at different clock values differ |
| `Storage.Load` | app.js:152-160 | a persisted list reads back as itself; a missing or unparsable slot reads as [] |
| `Storage.SaveGuard` | app.js:543-556 | the save goes ahead exactly when there is content, storage is ready and fewer than 999 records are held; otherwise the first failing guard, in source order |
| `Storage.RemoteOutcome` | app.js:593-603 | only a created record is a success; a failed create shows "Failed to save: " and its message, or "Unknown error" when that is missing or empty; a thrown error shows "Error saving: " and its message |
| `Storage.HistoryStore.constructor` | app.js:144-147 | empty list, not ready, not in local mode, over whatever the slot holds |
| `Storage.HistoryStore.LoadFromLocalStorage` | app.js:152-160 | returns the slot's list, or [] when it is missing or unparsable |
| `Storage.HistoryStore.SaveToLocalStorage` | app.js:162-170 | a successful write stores the list and returns true; a failed one leaves the slot and returns false |
| `Storage.HistoryStore.AddToLocalStorage` | app.js:172-181 | the slot becomes the old list plus the record with a `local_` identity, earlier records unchanged and in order; unchanged when the write fails |
| `Storage.HistoryStore.OnDataChanged` | app.js:185-188 | the list becomes the service's list, or [] for null/undefined |
| `Storage.HistoryStore.InitDataSdk` | app.js:191-222 | every path ends ready; local mode unless `init` resolved with `isOk`; every fallback loads memory from the slot, leaving memory and slot in agreement |
| `Storage.HistoryStore.Save` | app.js:542-607 | a rejected save changes nothing; a local save appends exactly the payload with its identity to the slot (when the write succeeds) and reloads memory from it, so memory equals the slot and holds at most 999 records; a remote save changes neither |
| `Storage.SaveThenReload` | app.js:585-589 | with no data service, one save and then a reload over the same slot shows the same single record, with its topic and `local_` identity |

## Left out

- DOM rendering, navigation, toasts, themes, progress timers and button
  states are user-interface side effects. This covers `renderOutput`,
  `renderHistoryList`, `showHistoryDetail` and `navigateToScreen`.
- `generateDescription`, `generateScript`, `generateThumbnails` and
  `generateAllContent` fill fixed template text. The content they produce is
  an input (`Content`), and the save path treats it as opaque.
- The form submit and regenerate handlers are left out: timers and UI.
- The `window.elementSdk` wiring (app.js:55-139) is left out. So are the edit
  panel's merge and the font and colour settings of `applyConfigToUI`. These
  are calls into a foreign SDK and the page's style.
- Export through a Blob and copying through `execCommand` are browser I/O.
- `async`/`await` is not modelled. Each awaited result is an input.
  - An `init` that never resolves (so the store never becomes ready) is not
    modelled. Neither is an `onDataChanged` call from the service
    interleaved with `init` or with a save.
- Storage.HistoryStore.OnDataChanged: not proved to keep `InSync`, because it
  does not. A service callback after a local-mode fallback leaves memory and
  slot apart, and the 999 bound of `Save` then does not follow.
- Writes to the slot from another tab or page are not modelled. `InSync`
  and the 999 bound assume the store is the slot's only writer.
- Config.MergeDefinesUiSettings: holds for defined values only. `Value` has no
  `undefined` or `null`. In JavaScript a config key set to `undefined`
  overrides the default with `undefined`.
- `JSON.parse`/`JSON.stringify` are not modelled.
  - The slot is a parsed list, missing, or corrupt (the parse throws).
  - Valid JSON that is not an array, such as `null`, is not modelled.
- Text.Truncate: counts Unicode scalar values. JavaScript's `length` and
  `substring` count UTF-16 code units, so for text outside the Basic
  Multilingual Plane (emoji) the caps differ. The JavaScript can also cut a
  surrogate pair in half.
- Text.ToLowerAscii: lowers ASCII letters only. `toLowerCase` also lowers
  other scripts' letters.
- Generation.RandomIndex: uses exact real arithmetic in place of
  floating-point `Math.random() * 3`.
- Records.LocalId: accepts any `randomText`. The base-36 alphabet of
  `toString(36)` is not modelled, so the random part is not proved
  alphanumeric.
- A local identity is not proved unique between two saves in the same
  millisecond. The random part is a parameter, and nothing makes two values of
  it differ.

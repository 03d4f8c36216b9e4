# Song metadata checker: the reconciliation engine, in Dafny

The song metadata checker is a Dify workflow. It checks a NetEase Cloud
Music song's metadata against Spotify and QQ Music, and it asks Gemini
Vision to compare the cover art. This project models its code nodes, each
of which is a Python function run by Dify:

- `find_match` picks the best search result by a weighted title and artist
  score.
- `normalize_data` canonicalises strings, artist lists and credit roles.
- `consolidate` compares each field against the two secondary sources and
  gives it a status: 确认 (confirmed), 存疑 (questionable) or 未查到 (not
  found). It compares lyrics after cleaning them, and durations within a
  tolerance. It reads Gemini's cover verdict, compares every credit role,
  counts the statuses and builds the final report.
- Four adapter nodes unwrap API replies:
  - QQ Music search results;
  - QQ Music track details;
  - Gemini's cover comparison;
  - Gemini's OCR of the credits, which is merged into the song's metadata
    in place.

The model keeps the nodes' structure. Pure code is modelled as datatypes
and functions. Code that builds its result step by step is modelled as
methods with loops, each proved against a specification function:
`compare_field`, `compare_lyrics`, `compare_duration`, `compare_credits`,
`main`, `normalize_artists`, `normalize_credits`, the match scan and the
OCR extraction. The in-place updates are classes: the status counter of
`main` and the metadata the OCR node updates.

Parsed JSON is the datatype `Json.Json`. A dict keeps its entries in
insertion order, as a Python dict does. A Python exception is `None` or a
failure constructor, at the point where the source would raise.
`SequenceMatcher.ratio()` is the parameter `sim`. `json.loads` is the
parameter `parse` and `str()` the parameter `show`. Properties that need the
ratio to lie in [0, 1], or a string to score 1 against itself, say so in
their requirements.

Modules:

| module | file | models |
|---|---|---|
| Wrappers, Json, Strings | wrappers.dfy, json.dfy, strings.dfy | `Option`, parsed JSON with dict access and Python truthiness, the string operations used |
| Similarity | similarity.dfy | the two `similarity_ratio` functions |
| Platforms | platforms.dfy | the source names Spotify and QQ Music |
| Normalize | normalize.dfy | normalize_data.py |
| FindMatch | find_match.dfy | find_match.py |
| FieldCheck | field_check.dfy | `compare_field` of consolidate.py |
| Lyrics | lyrics.dfy | `compare_lyrics` of consolidate.py |
| Duration | duration.dfy | `compare_duration` of consolidate.py |
| Cover | cover.dfy | `parse_cover_comparison_json` of consolidate.py and the cover block of `main` |
| Credits | credits.dfy | `compare_credits` of consolidate.py |
| Consolidate | consolidate.dfy | `main` and `count_status` of consolidate.py |
| QQSearch | qq_search.dfy | find_qqmusic_match.py |
| QQTrack | qq_track.dfy | parse_qqmusic_response.py |
| GeminiResponse | gemini.dfy | parse_gemini_response.py |
| OcrCredits | ocr.dfy | parse_ocr_json.py |

## Model

| member | source | states |
|---|---|---|
| Json.LookupFound | dify-workflow/nodes/code-nodes/parse_qqmusic_response.py:36-37 | a key is found exactly when the dict has it, and what is found is one of the dict's entries |
| Json.GetReads | dify-workflow/nodes/code-nodes/find_qqmusic_match.py:51 | on a dict, `.get` reads the value of an entry with the key when there is one, and the default otherwise |
| Json.FirstIsFirstVisited | dify-workflow/nodes/code-nodes/parse_gemini_response.py:37-39 | `x[0]` of a list or a string is the first element a `for` loop over it visits, and it raises exactly when there is none |
| Json.IterateVisits | dify-workflow/nodes/code-nodes/find_match.py:47-52 | a `for` loop over a dict visits its keys in order, so a string is visited exactly when it is a key; over a string it visits each character |
| Json.SetKeyReads | dify-workflow/nodes/code-nodes/parse_ocr_json.py:90 | after `d[key] = value`, `key` reads `value` |
| Json.SetKeyKeeps | dify-workflow/nodes/code-nodes/parse_ocr_json.py:90 | after `d[key] = value`, every other key reads as before |
| Json.SetKeyShape | dify-workflow/nodes/code-nodes/parse_ocr_json.py:90 | an existing key keeps its place and a new key is appended, as in a Python dict |
| Strings.Sort | dify-workflow/nodes/code-nodes/normalize_data.py:47-54 | `sorted` returns a sorted permutation of its input |
| Strings.SplitOnPieces | dify-workflow/nodes/code-nodes/normalize_data.py:96 | no piece of `re.split` on a character class holds a separator |
| Strings.JoinSplit | dify-workflow/nodes/code-nodes/consolidate.py:157 | splitting on a character and joining with it gives the text back |
| Similarity.GuardedRatio | dify-workflow/nodes/code-nodes/consolidate.py:16-20 | 0 when either string is empty; otherwise the ratio of the lower-cased strings, in [0, 1] when the ratio is |
| Similarity.GuardedRatioSelf | dify-workflow/nodes/code-nodes/consolidate.py:16-20 | a non-empty string scores 1 against itself when the ratio does |
| Similarity.StrippedRatio | dify-workflow/nodes/code-nodes/find_match.py:20-27 | the ratio of the lower-cased, stripped strings, with no empty-string guard; in [0, 1] when the ratio is |
| FieldCheck.SetOverlap | dify-workflow/nodes/code-nodes/consolidate.py:85 | `set(xs) & set(ys)` is the elements common to both lists; it raises exactly when an element is a list or dict |
| FieldCheck.StringSource | dify-workflow/nodes/code-nodes/consolidate.py:42-58 | a present source is recorded under its key; its flag is set at ratio 0.95; below that, at 0.8, a near-match note is set only if no note exists yet |
| FieldCheck.ListSource | dify-workflow/nodes/code-nodes/consolidate.py:82-99 | a present list is recorded; it matches when it holds every NetEase element; a partial overlap sets a note only if none exists yet; it raises exactly on unhashable elements |
| FieldCheck.ConfirmingSources | dify-workflow/nodes/code-nodes/consolidate.py:63-67 | `confirmed_by` lists the matching sources, Spotify first |
| FieldCheck.CompareStrings | dify-workflow/nodes/code-nodes/consolidate.py:38-72 | the string variant's steps yield the declarative report `StringSpec` |
| FieldCheck.CompareLists | dify-workflow/nodes/code-nodes/consolidate.py:75-107 | the list variant's steps yield the declarative report `ListSpec`, or an exception |
| FieldCheck.CompareField | dify-workflow/nodes/code-nodes/consolidate.py:23-114 | `compare_field` step by step equals the declarative report `FieldSpec` |
| FieldCheck.OverlapIsAllIffCovers | dify-workflow/nodes/code-nodes/consolidate.py:85-86 | `overlap == set(netease)` exactly when the other list contains every NetEase element |
| FieldCheck.FalsyPrimaryNotFound | dify-workflow/nodes/code-nodes/consolidate.py:30-35 | a falsy NetEase value is 未查到 with no sources, note or `confirmed_by` |
| FieldCheck.NoSecondaryNotFound | dify-workflow/nodes/code-nodes/consolidate.py:109-112 | with no secondary value the field is 未查到 with the "no source found it" note, in both variants |
| FieldCheck.NoSecondaryString | dify-workflow/nodes/code-nodes/consolidate.py:109-112 | the string variant with no secondary value is exactly 未查到 with that note and no sources |
| FieldCheck.NoSecondaryList | dify-workflow/nodes/code-nodes/consolidate.py:109-112 | the list variant with no secondary value is exactly 未查到 with that note and no sources |
| FieldCheck.StringFieldStatus | dify-workflow/nodes/code-nodes/consolidate.py:38-72 | 确认 exactly when some source reaches 0.95, with `confirmed_by` in order; 存疑 exactly when none does but one is near or both are present; 未查到 otherwise |
| FieldCheck.SpotifyNoteWins | dify-workflow/nodes/code-nodes/consolidate.py:47-58 | a QQ Music near-match never replaces Spotify's near-match note |
| FieldCheck.BothLowInconsistent | dify-workflow/nodes/code-nodes/consolidate.py:69-72 | two present values both below 0.8 make the field 存疑 with the "sources disagree" note |
| FieldCheck.SingleLowNotFound | dify-workflow/nodes/code-nodes/consolidate.py:42-72 | a single present value below 0.8 leaves the field 未查到 with no note |
| FieldCheck.IdenticalStringConfirms | dify-workflow/nodes/code-nodes/consolidate.py:42-46 | a secondary value equal to the NetEase value confirms it, when a string scores 1 against itself |
| FieldCheck.IdenticalTextConfirms | dify-workflow/nodes/code-nodes/consolidate.py:42-46 | a non-empty NetEase string repeated by Spotify confirms the field, Spotify first, when `str` is the identity on strings and a string scores 1 against itself |
| FieldCheck.ListFieldStatus | dify-workflow/nodes/code-nodes/consolidate.py:75-107 | the list variant raises only on unhashable elements; it is 确认 exactly when a list covers the NetEase elements, 存疑 exactly when none does but one overlaps, and it has no disagreement rule |
| FieldCheck.ListSpotifyNoteWins | dify-workflow/nodes/code-nodes/consolidate.py:88-99 | the first partial overlap writes the note; a QQ Music overlap never replaces Spotify's |
| FieldCheck.SupersetConfirms | dify-workflow/nodes/code-nodes/consolidate.py:82-87 | a list with every NetEase element and more confirms |
| FindMatch.ArtistsMatch | dify-workflow/nodes/code-nodes/find_match.py:30-39 | the nested loop with early return computes the row-by-row scan `PairScan` |
| FindMatch.RowScanMeaning | dify-workflow/nodes/code-nodes/find_match.py:35-38 | a row scan that hits has found a name at least 0.8 similar; one that misses saw only strings and none similar |
| FindMatch.PairScanMeaning | dify-workflow/nodes/code-nodes/find_match.py:30-39 | `artists_match` is true exactly when some pair of names is at least 0.8 similar; it can raise only when a candidate name is not a string |
| FindMatch.NoArtistsNoMatch | dify-workflow/nodes/code-nodes/find_match.py:35-39 | an empty artist list on either side gives no artist match |
| FindMatch.CompositeScore | dify-workflow/nodes/code-nodes/find_match.py:59-60 | the score is 0.7 of the title similarity plus 0.3 for an artist match, in [0, 1] when the similarity is |
| FindMatch.AcceptanceNeeds | dify-workflow/nodes/code-nodes/find_match.py:59-67 | a score reaches 0.6 exactly when the title similarity reaches 3/7 with an artist match, or 6/7 without one |
| FindMatch.ItemTitle | dify-workflow/nodes/code-nodes/find_match.py:51 | a candidate's title is read with default "" and must be a string |
| FindMatch.NamesOf | dify-workflow/nodes/code-nodes/find_match.py:54 | the artist names are each element's `name`, in order, and every element must be a dict |
| FindMatch.ItemScoreInUnit | dify-workflow/nodes/code-nodes/find_match.py:49-60 | every candidate score lies in [0, 1] when the ratio does |
| FindMatch.ScoreItem | dify-workflow/nodes/code-nodes/find_match.py:50-60 | one candidate's score, computed with the artist loop, is the declarative `ItemScore` |
| FindMatch.RunningBestStep | dify-workflow/nodes/code-nodes/find_match.py:62-64 | a new candidate replaces the running best exactly when its score is strictly greater |
| FindMatch.RunningBestIsFirstMax | dify-workflow/nodes/code-nodes/find_match.py:46-64 | there is no best exactly when no score is positive; otherwise the best is a maximum, and every earlier candidate scored strictly less |
| FindMatch.SelectBest | dify-workflow/nodes/code-nodes/find_match.py:46-64 | the selection loop yields the index and score `BestOf`, or the exception a candidate raises |
| FindMatch.FindBest | dify-workflow/nodes/code-nodes/find_match.py:42-80 | the shared body of both finders yields the declarative outcome `FindOutcome` |
| FindMatch.FindSpotifyMatch | dify-workflow/nodes/code-nodes/find_match.py:42-80 | `find_spotify_match` is `FindOutcome` on Spotify's `tracks.items` |
| FindMatch.FindQQMusicMatch | dify-workflow/nodes/code-nodes/find_match.py:83-123 | `find_qqmusic_match` is `FindOutcome` on QQ Music's `data.song.list` |
| FindMatch.MatchedIsFirstBest | dify-workflow/nodes/code-nodes/find_match.py:62-74 | an accepted match is the first candidate with the maximum score; that score is at least 0.6, and the id is the platform's id |
| FindMatch.LowScoresNoMatch | dify-workflow/nodes/code-nodes/find_match.py:66-80 | when every candidate scores below 0.6 nothing is accepted |
| FindMatch.MatchSearchResults | dify-workflow/nodes/code-nodes/find_match.py:126-163 | unparsable results are a JSON error; otherwise the platform is dispatched on its lower-cased name, and an unknown platform is unsupported |
| FindMatch.PlatformCaseInsensitive | dify-workflow/nodes/code-nodes/find_match.py:135-137 | a platform name is dispatched to Spotify, or to QQ Music, exactly when it spells that name letter by letter in either ASCII case |
| Normalize.NormalizeCanonical | dify-workflow/nodes/code-nodes/normalize_data.py:18-28 | `normalize_string` gives "" for "" and otherwise a lower-case, stripped, single-spaced string |
| Normalize.NormalizeIdempotent | dify-workflow/nodes/code-nodes/normalize_data.py:18-28 | `normalize_string` is idempotent |
| Normalize.NormalizeValueCanonical | dify-workflow/nodes/code-nodes/normalize_data.py:18-28 | a value `normalize_string` accepts becomes a lower-case, stripped, single-spaced string that a second normalisation leaves unchanged |
| Normalize.NormalizeValuesSpec | dify-workflow/nodes/code-nodes/normalize_data.py:93 | normalising a list succeeds exactly when every element does, element by element |
| Normalize.FirstSeparator | dify-workflow/nodes/code-nodes/normalize_data.py:52-53 | the separator used is one that occurs; none is used only when no separator occurs |
| Normalize.FirstSeparatorIsFirst | dify-workflow/nodes/code-nodes/normalize_data.py:52-54 | the separator used is the earliest of `/ , 、 ;` that occurs: every separator before it in that order is absent |
| Normalize.NormalizeArtists | dify-workflow/nodes/code-nodes/normalize_data.py:31-58 | falsy or unsupported input gives []; a list gives the sorted names of its string and dict elements; a string is split on the first separator present; every result is sorted |
| Normalize.CollectArtistNames | dify-workflow/nodes/code-nodes/normalize_data.py:41-46 | the loop over a list collects `ArtistNames`, in order |
| Normalize.ArtistNamesRaises | dify-workflow/nodes/code-nodes/normalize_data.py:41-46 | once an element raises, the whole list raises |
| Normalize.MatchIndex | dify-workflow/nodes/code-nodes/normalize_data.py:88-90 | the index is the first credit entry whose normalised key is one of the aliases |
| Normalize.NormalizeCredits | dify-workflow/nodes/code-nodes/normalize_data.py:61-100 | falsy or non-dict credits give {}; otherwise each standard role in turn is decided by `CreditsOf` |
| Normalize.AssignRoles | dify-workflow/nodes/code-nodes/normalize_data.py:87-98 | the role loop records the outcomes of the roles in mapping order |
| Normalize.AssignNext | dify-workflow/nodes/code-nodes/normalize_data.py:87-98 | one pass records the next role; if it raises, the whole loop raises |
| Normalize.AssignRole | dify-workflow/nodes/code-nodes/normalize_data.py:88-98 | the inner loop stops at the first alias key and assigns the role from that key's value |
| Normalize.NoCreditsAfterRaise | dify-workflow/nodes/code-nodes/normalize_data.py:87-98 | once a role raises, the whole call raises |
| Normalize.KeysFromOutcomes | dify-workflow/nodes/code-nodes/normalize_data.py:87-98 | the result holds only roles whose outcome was recorded |
| Normalize.CreditsKeysStandard | dify-workflow/nodes/code-nodes/normalize_data.py:70-100 | only the six standard roles ever appear in the result |
| Normalize.RoleAbsent | dify-workflow/nodes/code-nodes/normalize_data.py:87-98 | a role no outcome names is absent |
| Normalize.RoleAsDecided | dify-workflow/nodes/code-nodes/normalize_data.py:87-98 | with distinct role names, each role ends up as its outcome says: exactly its names, or absent |
| Normalize.FieldMappingDistinct | dify-workflow/nodes/code-nodes/normalize_data.py:70-83 | the six standard role names are distinct |
| Normalize.FirstKeyWins | dify-workflow/nodes/code-nodes/normalize_data.py:87-98 | the first matching entry, in dict order, decides each role: a list or string gives its sorted, normalised names; no match, or any other value, leaves the role absent |
| Normalize.CreditsFirstKeyWins | dify-workflow/nodes/code-nodes/normalize_data.py:61-100 | `normalize_credits` decides each of the six standard roles by the first matching key |
| Lyrics.StampLengthOf | dify-workflow/nodes/code-nodes/consolidate.py:155 | three non-empty digit runs in the `[d:d.d]` layout form a time stamp of exactly that length |
| Lyrics.StampRemoved | dify-workflow/nodes/code-nodes/consolidate.py:155 | a `[d+:d+.d+]` stamp at the head of the text is removed |
| Lyrics.StampSkipped | dify-workflow/nodes/code-nodes/consolidate.py:155 | removal continues after the stamp the text starts with |
| Lyrics.NoBracketNoStamps | dify-workflow/nodes/code-nodes/consolidate.py:155 | a text without `[` is unchanged by stamp removal |
| Lyrics.CleanLinesGood | dify-workflow/nodes/code-nodes/consolidate.py:157 | the kept lines are non-empty and stripped |
| Lyrics.JoinGoodLines | dify-workflow/nodes/code-nodes/consolidate.py:157 | joining the kept lines gives a stripped text without blank or untrimmed lines, empty exactly when no line is kept |
| Lyrics.UnifyPunctuationShape | dify-workflow/nodes/code-nodes/consolidate.py:159-164 | after unification no full-width `，。！？` remains and no whitespace moved |
| Lyrics.LowerShape | dify-workflow/nodes/code-nodes/consolidate.py:165 | lower-casing keeps whitespace in place and adds no full-width mark |
| Lyrics.PreprocessShape | dify-workflow/nodes/code-nodes/consolidate.py:151-165 | `preprocess_lyrics` yields a text with no surrounding whitespace, no blank or untrimmed line, no upper case and no full-width punctuation; the final strip changes nothing |
| Lyrics.PreviewShape | dify-workflow/nodes/code-nodes/consolidate.py:174-178 | the preview is the text itself up to 100 characters, otherwise its first 100 characters and "..." |
| Lyrics.MaxWith | dify-workflow/nodes/code-nodes/consolidate.py:183 | the running maximum is at least the old maximum and at least the new ratio, and is one of them |
| Lyrics.SourceStepEffect | dify-workflow/nodes/code-nodes/consolidate.py:173-210 | one source step records the preview, raises the best ratio, appends the source at 0.95, or sets 存疑 with a note at 0.8 |
| Lyrics.BothSources | dify-workflow/nodes/code-nodes/consolidate.py:172-210 | after both sources, the state holds both previews and what the final table needs |
| Lyrics.LyricsSource | dify-workflow/nodes/code-nodes/consolidate.py:173-210 | one source raises exactly when its value is neither falsy nor a string; otherwise it performs `SourceStep` |
| Lyrics.CompareLyrics | dify-workflow/nodes/code-nodes/consolidate.py:117-224 | `compare_lyrics` step by step equals the declarative `LyricsSpec` |
| Lyrics.CompareSources | dify-workflow/nodes/code-nodes/consolidate.py:169-224 | the two comparisons and the final status yield `SourcesReport` |
| Lyrics.FinishLyrics | dify-workflow/nodes/code-nodes/consolidate.py:212-224 | settling the state after both sources completes `SourcesReport` |
| Lyrics.SettleLyrics | dify-workflow/nodes/code-nodes/consolidate.py:212-224 | the final table: 确认 with `confirmed_by` and the score, or 未查到 when no source has lyrics, and the score when positive |
| Lyrics.NoPrimaryNotFound | dify-workflow/nodes/code-nodes/consolidate.py:134-148 | without NetEase lyrics the field is 未查到 with the "no NetEase lyrics" note and nothing compared |
| Lyrics.RaisesWhenNotText | dify-workflow/nodes/code-nodes/consolidate.py:173-203 | the node raises exactly when a text is neither falsy nor a string |
| Lyrics.LyricsStatus | dify-workflow/nodes/code-nodes/consolidate.py:185-219 | 确认 exactly when some source reaches 0.95, with Spotify listed first; 存疑 exactly when none does and one lies in [0.8, 0.95); 未查到 otherwise; the QQ Music near-match note replaces Spotify's |
| Lyrics.NoSecondaryLyrics | dify-workflow/nodes/code-nodes/consolidate.py:217-222 | with no secondary lyrics the field is 未查到 with the "no other platform has lyrics" note and no score |
| Lyrics.ScoreIsBest | dify-workflow/nodes/code-nodes/consolidate.py:183-222 | `similarity_score` is the largest ratio of a present source, attached exactly when it is positive; a confirmed field always carries it |
| Lyrics.LyricsSourcesRecorded | dify-workflow/nodes/code-nodes/consolidate.py:173-200 | each present source is recorded as a preview under its key, Spotify first |
| Lyrics.IdenticalLyricsConfirm | dify-workflow/nodes/code-nodes/consolidate.py:179-186 | lyrics equal to NetEase's that clean to a non-empty text confirm the field with score 1 |
| Lyrics.StampIgnored | dify-workflow/nodes/code-nodes/consolidate.py:151-165 | a time stamp at the head of a text does not change its cleaned form |
| Duration.DurationSource | dify-workflow/nodes/code-nodes/consolidate.py:249-267 | one source raises exactly on a present non-integer value; otherwise its formatted duration is recorded, and it is either a match or recorded with its difference |
| Duration.GatherBoth | dify-workflow/nodes/code-nodes/consolidate.py:247-267 | the two sources, Spotify then QQ Music, gather their entries and matches |
| Duration.DurationSpecOutcome | dify-workflow/nodes/code-nodes/consolidate.py:227-279 | with usable values the report is the outcome table on the two durations |
| Duration.SettleDuration | dify-workflow/nodes/code-nodes/consolidate.py:269-277 | 确认 on a match, else 存疑 when some source has a duration, else 未查到 |
| Duration.CompareDuration | dify-workflow/nodes/code-nodes/consolidate.py:227-279 | `compare_duration` step by step equals the declarative `DurationSpec` |
| Duration.NoPrimaryDurationNotFound | dify-workflow/nodes/code-nodes/consolidate.py:234-245 | without a NetEase duration the field is 未查到, formatted "0:00", with the "NetEase has no duration" note |
| Duration.DurationStatus | dify-workflow/nodes/code-nodes/consolidate.py:247-277 | 确认 exactly when some source is within 2 s, listing those sources Spotify first; 存疑 exactly when none is but some has a duration; 未查到 otherwise |
| Duration.DiffRecorded | dify-workflow/nodes/code-nodes/consolidate.py:249-267 | a present source is recorded formatted, and a `_diff` entry follows exactly when it is more than 2 s off |
| Duration.ToleranceBounds | dify-workflow/nodes/code-nodes/consolidate.py:232 | the tolerance is symmetric and inclusive: 2000 ms either way matches, 2001 ms does not |
| Duration.Pad2Length | dify-workflow/nodes/code-nodes/consolidate.py:236 | the `:02d` seconds field has two characters |
| Duration.MinutesSeconds | dify-workflow/nodes/code-nodes/consolidate.py:236 | minutes and the seconds field split the whole seconds, with the seconds below 60 |
| Duration.FormatReadsBack | dify-workflow/nodes/code-nodes/consolidate.py:236 | a duration is formatted as minutes, ":" and two digits, which read back give the whole seconds |
| Cover.FirstFromFacts | dify-workflow/nodes/code-nodes/consolidate.py:292 | the forward search finds the first `{` at or after a position, or there is none |
| Cover.LastBelowFacts | dify-workflow/nodes/code-nodes/consolidate.py:292 | the backward search finds the last `}` below a position, or there is none |
| Cover.BraceSpanShape | dify-workflow/nodes/code-nodes/consolidate.py:292-293 | `\{.*\}` with DOTALL matches exactly when some `{` precedes some `}`, and the match runs from the first `{` to the last `}` |
| Cover.ParsedStatus | dify-workflow/nodes/code-nodes/consolidate.py:294-304 | on the JSON path the status is 确认 exactly when `is_same` is truthy and `confidence` exceeds 0.8, else 存疑; comparing raises exactly when `is_same` is truthy and `confidence` is not a number; the fields are passed on as parsed |
| Cover.ParsedDefaults | dify-workflow/nodes/code-nodes/consolidate.py:295-303 | a parsed dict without the four keys reads as 存疑, confidence 0.0, no differences, empty notes, not the same |
| Cover.ConfidentSameConfirms | dify-workflow/nodes/code-nodes/consolidate.py:295-300 | `is_same: true` with a confidence above 0.8 confirms with that confidence |
| Cover.FallbackTable | dify-workflow/nodes/code-nodes/consolidate.py:305-332 | without a parsed dict the keywords decide in order: a same-keyword gives 确认 at 0.9, else a different-keyword 存疑 at 0.5, else 未查到 at 0.0, with the raw response as notes and no `differences` |
| Cover.NegationContainsSame | dify-workflow/nodes/code-nodes/consolidate.py:309-318 | every text containing 不相同 contains 相同 |
| Cover.NegationReadsAsSame | dify-workflow/nodes/code-nodes/consolidate.py:309-321 | the fallback reads a reply saying 不相同 ("not the same") as 确认 at 0.9, because 相同 is tested first |
| Cover.CoverReading | dify-workflow/nodes/code-nodes/consolidate.py:414-434 | an empty reply is 未查到 without parsing; otherwise the reading fails exactly when the parser raises |
| Cover.CoverReadingKeepsVerdict | dify-workflow/nodes/code-nodes/consolidate.py:414-434 | an empty reply is 未查到; otherwise `cover_art` fails exactly when the parser raises, and keeps the parser's status, `is_same` and confidence and records the raw reply |
| Credits.RoleNames | dify-workflow/nodes/code-nodes/consolidate.py:344-348 | a name is among a dict's role names exactly when the dict has that key |
| Credits.CompareCredits | dify-workflow/nodes/code-nodes/consolidate.py:335-359 | `compare_credits` raises exactly when an input is not a dict or some role's comparison raises; otherwise its result holds one entry per role of the union of the three key sets, each that role's `compare_field(..., "list")` |
| Credits.ProgressStep | dify-workflow/nodes/code-nodes/consolidate.py:350-357 | comparing one more role of the union keeps the loop's state |
| Credits.ProgressDone | dify-workflow/nodes/code-nodes/consolidate.py:350-359 | when no role remains, the result is complete and nothing raised |
| Credits.RoleRaises | dify-workflow/nodes/code-nodes/consolidate.py:355-357 | one role whose comparison raises makes the whole comparison raise |
| Credits.AllRolesCompared | dify-workflow/nodes/code-nodes/consolidate.py:350-359 | a result comparing every role of the union means nothing raised |
| Credits.RolesSnoc | dify-workflow/nodes/code-nodes/consolidate.py:355 | adding an entry adds its role to the result's roles |
| Credits.ExtendResult | dify-workflow/nodes/code-nodes/consolidate.py:355 | adding an entry for a new role keeps the roles distinct |
| Credits.ResultCoversUnion | dify-workflow/nodes/code-nodes/consolidate.py:344-359 | the result has exactly as many entries as the union has roles |
| Credits.DistinctCard | dify-workflow/nodes/code-nodes/consolidate.py:355 | a result with distinct roles has as many entries as role names |
| Credits.SecondaryOnlyRoleNotFound | dify-workflow/nodes/code-nodes/consolidate.py:351-357 | a role only a secondary source names reads NetEase's `None` and is 未查到 with nothing compared |
| Consolidate.CountedAllStep | dify-workflow/nodes/code-nodes/consolidate.py:467-468 | counting one more value of a dict adds its count |
| Consolidate.StatusCounter.constructor | dify-workflow/nodes/code-nodes/consolidate.py:443-446 | the four counters start at 0 |
| Consolidate.StatusCounter.Count | dify-workflow/nodes/code-nodes/consolidate.py:449-468 | `count_status` adds to the counters exactly what the declarative count of the node gives: a dict with `status` counts once and is not entered, a dict without one is walked value by value, anything else adds nothing |
| Consolidate.StatusCounter.Tick | dify-workflow/nodes/code-nodes/consolidate.py:455-464 | a node with `status` adds one field and one to its category, none for an unknown label |
| Consolidate.CountedSplit | dify-workflow/nodes/code-nodes/consolidate.py:455-468 | the three categories never exceed the total, and add up to it exactly when every status is one of the three labels |
| Consolidate.CountedAllSplit | dify-workflow/nodes/code-nodes/consolidate.py:466-471 | the same for a sequence of values |
| Consolidate.LeavesCountOnce | dify-workflow/nodes/code-nodes/consolidate.py:455-456 | a dict of status-bearing reports counts each of them once |
| Consolidate.KnownLeaves | dify-workflow/nodes/code-nodes/consolidate.py:457-464 | reports whose statuses are all labels leave nothing uncategorised |
| Consolidate.ScoreInUnitInterval | dify-workflow/nodes/code-nodes/consolidate.py:478-480 | `confidence_score` lies in [0, 1] and is 0 when nothing was counted |
| Consolidate.RatioInUnitInterval | dify-workflow/nodes/code-nodes/consolidate.py:478-480 | a count divided by a larger positive count lies in [0, 1] |
| Consolidate.ReportTotal | dify-workflow/nodes/code-nodes/consolidate.py:381-471 | without a role named `status`, the walk counts the six fields and each credit role once, and the categories add up to the total |
| Consolidate.Snoc | dify-workflow/nodes/code-nodes/consolidate.py:470-471 | counting a sequence with one more value at its end |
| Consolidate.CompareFields | dify-workflow/nodes/code-nodes/consolidate.py:381-441 | the field comparisons of `main`, in its order, raise exactly when one of them raises, and otherwise give each field the comparison of the three records' values with `main`'s defaults |
| Consolidate.Integrate | dify-workflow/nodes/code-nodes/consolidate.py:362-490 | `main` fails exactly when an input is not a dict or a comparison raises; otherwise the report carries the song id (default ""), the source "NetEase Cloud Music", the compared fields and the summary of their statuses |
| Consolidate.Summarize | dify-workflow/nodes/code-nodes/consolidate.py:443-481 | the summary is the declarative count of the fields with fresh counters and its score |
| Consolidate.ReportSummary | dify-workflow/nodes/code-nodes/consolidate.py:443-481 | a report counts six fields plus one per role of the union of the three credit dicts, its categories add up to the total, and its score lies in [0, 1] |
| QQSearch.ResultsReadsSongList | dify-workflow/nodes/code-nodes/find_qqmusic_match.py:51-56 | the results are the list under `song`, `[]` without `song`, and the node raises when the response or its `song` is not a dict |
| QQSearch.FindMatchWellFormed | dify-workflow/nodes/code-nodes/find_qqmusic_match.py:22-91 | every output is either found with an empty error, or not found with an error and every match field "" |
| QQSearch.MissingSongIsEmpty | dify-workflow/nodes/code-nodes/find_qqmusic_match.py:51-72 | a response without `song` is the "搜索无结果" record |
| QQSearch.EmptyListIsEmpty | dify-workflow/nodes/code-nodes/find_qqmusic_match.py:56-72 | a `song` whose `list` is missing or empty gives the "搜索无结果" record |
| QQSearch.FirstResultChosen | dify-workflow/nodes/code-nodes/find_qqmusic_match.py:74-85 | a non-empty result list selects its first element's `songmid`, `songname` and `albumname`, whatever the NetEase title and artist |
| QQSearch.MissingFieldIsEmpty | dify-workflow/nodes/code-nodes/find_qqmusic_match.py:79 | a chosen result without `songmid` has `match_id` "" |
| QQSearch.InvalidJsonFails | dify-workflow/nodes/code-nodes/find_qqmusic_match.py:36-91 | a string that is not JSON gives the failure record |
| QQSearch.ParsedInputAgrees | dify-workflow/nodes/code-nodes/find_qqmusic_match.py:36-39 | a JSON string and the value it parses to give the same record |
| QQTrack.SuccessOrFailure | dify-workflow/nodes/code-nodes/parse_qqmusic_response.py:30-96 | a record succeeds exactly when it has no error, and a failed record is exactly the `except` record |
| QQTrack.BodyUnwrapped | dify-workflow/nodes/code-nodes/parse_qqmusic_response.py:32-41 | a string wrapped in an HTTP node's `body` reads like the string itself |
| QQTrack.DictIsData | dify-workflow/nodes/code-nodes/parse_qqmusic_response.py:42-44 | a dict without `body` is the parsed data itself |
| QQTrack.OtherInputFails | dify-workflow/nodes/code-nodes/parse_qqmusic_response.py:45-46 | an input that is neither a string nor a dict gives the failure record |
| QQTrack.NewShapeWins | dify-workflow/nodes/code-nodes/parse_qqmusic_response.py:51-53 | a top-level `track_info` is used, even when the old nesting is present too |
| QQTrack.OldShapeFollowed | dify-workflow/nodes/code-nodes/parse_qqmusic_response.py:54-61 | without `track_info`, a `response` key is followed down `response.songinfo.data.track_info` |
| QQTrack.OldPathReads | dify-workflow/nodes/code-nodes/parse_qqmusic_response.py:56-61 | when every level of the old nesting is a dict, the innermost `track_info` is reached |
| QQTrack.UnknownShapeDefaults | dify-workflow/nodes/code-nodes/parse_qqmusic_response.py:62-80 | a dict of neither shape succeeds with every field at its default and the data passed through |
| QQTrack.SuccessReadsTrack | dify-workflow/nodes/code-nodes/parse_qqmusic_response.py:51-80 | a successful record flattens the selected `track_info` and its `album` dict, each field defaulting when missing |
| QQTrack.IntervalPassedThrough | dify-workflow/nodes/code-nodes/parse_qqmusic_response.py:77 | `interval` is the track's own value, unconverted, and 0 when missing |
| GeminiResponse.SpaceEnd | dify-workflow/nodes/code-nodes/parse_gemini_response.py:45 | the greedy `\s*` after "```json" takes the whole run of whitespace and stops before a non-space |
| GeminiResponse.BodyFromShape | dify-workflow/nodes/code-nodes/parse_gemini_response.py:45-47 | when the whitespace run gives back characters so that a newline, the lazy group and a closing fence can follow, the group found starts after a newline of the run and ends at the first newline-and-fence after it |
| GeminiResponse.FenceShape | dify-workflow/nodes/code-nodes/parse_gemini_response.py:45-47 | whatever the search returns is the group of a match of "```json", whitespace, a newline, the lazy group and "\n```" |
| GeminiResponse.FenceWrapped | dify-workflow/nodes/code-nodes/parse_gemini_response.py:44-47 | for the usual reply "```json\n" + JSON + "\n```" the group is exactly the JSON, when it has no backticks and does not start with whitespace |
| GeminiResponse.FencedContentParsed | dify-workflow/nodes/code-nodes/parse_gemini_response.py:45-53 | when the text has a fenced block, the string parsed is that block's group |
| GeminiResponse.SuccessOrFailure | dify-workflow/nodes/code-nodes/parse_gemini_response.py:28-82 | a record succeeds exactly when it has no error, and a failed record is exactly the `except` record |
| GeminiResponse.SuccessReadsParsed | dify-workflow/nodes/code-nodes/parse_gemini_response.py:30-70 | a successful record came from the text at `candidates[0].content.parts[0].text`; `raw_json` is the fenced block when there is one and the whole text otherwise; it parses to a dict whose four fields the record carries with their defaults |
| GeminiResponse.NoCandidatesFails | dify-workflow/nodes/code-nodes/parse_gemini_response.py:36-53 | a reply without `candidates` reads the text "", which does not parse, so the node fails |
| GeminiResponse.EmptyCandidatesFails | dify-workflow/nodes/code-nodes/parse_gemini_response.py:37-41 | an empty `candidates` list raises `IndexError`, so the node fails |
| GeminiResponse.ReadsVerdict | dify-workflow/nodes/code-nodes/parse_gemini_response.py:56-69 | a parsed `is_same` and `confidence` are passed on as they are, with `raw_json` the parsed string |
| GeminiResponse.MissingFieldsDefault | dify-workflow/nodes/code-nodes/parse_gemini_response.py:56-69 | a dict without the four keys reads False, 0.0, [] and "" |
| OcrCredits.BraceMatches | dify-workflow/nodes/code-nodes/parse_ocr_json.py:38-39 | `findall` of the greedy brace pattern yields at most one span |
| OcrCredits.ExtractJson | dify-workflow/nodes/code-nodes/parse_ocr_json.py:17-47 | `extract_json_from_text` tries the whole text, then the first fenced block, then the brace span, returning the first that parses, or `None` when none does |
| OcrCredits.SkipFailed | dify-workflow/nodes/code-nodes/parse_ocr_json.py:41-45 | attempts that fail to parse are passed over |
| OcrCredits.FirstParseIsFirst | dify-workflow/nodes/code-nodes/parse_ocr_json.py:22-47 | the result is the parse of the first attempt that parses, every earlier attempt failed, and it is `None` exactly when none parses |
| OcrCredits.AttemptsBound | dify-workflow/nodes/code-nodes/parse_ocr_json.py:22-45 | at most three strings are tried, the whole text first |
| OcrCredits.WholeTextFirst | dify-workflow/nodes/code-nodes/parse_ocr_json.py:22-26 | a text that parses as a whole is returned as parsed |
| OcrCredits.BlockBeforeSpan | dify-workflow/nodes/code-nodes/parse_ocr_json.py:28-35 | otherwise a fenced block that parses wins over the brace span |
| OcrCredits.SpanLast | dify-workflow/nodes/code-nodes/parse_ocr_json.py:37-47 | with no fenced block, a text that does not parse falls back to the brace span |
| OcrCredits.CodeBlockWrapped | dify-workflow/nodes/code-nodes/parse_ocr_json.py:29-30 | for "```json", a body with no backticks and "```", the block found is the body without its surrounding whitespace |
| OcrCredits.Metadata.constructor | dify-workflow/nodes/code-nodes/parse_ocr_json.py:50 | the caller's metadata object holds the value it is given |
| OcrCredits.ParseOcr | dify-workflow/nodes/code-nodes/parse_ocr_json.py:50-115 | `main` returns the caller's own metadata object, reports success and error as the reply table says, and sets `credits` in place exactly when it succeeds |
| OcrCredits.SuccessIff | dify-workflow/nodes/code-nodes/parse_ocr_json.py:79-102 | `main` succeeds exactly when credits were extracted and the metadata is a dict, and exactly when it reports no error |
| OcrCredits.BadMetadataFails | dify-workflow/nodes/code-nodes/parse_ocr_json.py:89-102 | credits read into metadata that is not a dict fail with the bad-metadata error and change nothing |
| OcrCredits.FailureKeepsMetadata | dify-workflow/nodes/code-nodes/parse_ocr_json.py:60-115 | every failure leaves the metadata as it was |
| OcrCredits.OnlyCreditsChange | dify-workflow/nodes/code-nodes/parse_ocr_json.py:89-96 | on success `credits` holds the extracted value and every other key reads as before |
| OcrCredits.FalsyCreditsMerged | dify-workflow/nodes/code-nodes/parse_ocr_json.py:81-96 | a falsy extracted value other than `None`, such as `{}`, is still merged |
| OcrCredits.ResponseNotJsonFails | dify-workflow/nodes/code-nodes/parse_ocr_json.py:56 | a reply that is not JSON fails with the JSON-decoding error |
| OcrCredits.NoCandidatesFails | dify-workflow/nodes/code-nodes/parse_ocr_json.py:59-65 | a reply with no or empty `candidates` fails with the no-candidates error |
| OcrCredits.NoPartsFails | dify-workflow/nodes/code-nodes/parse_ocr_json.py:67-74 | a first candidate without `parts` fails with the no-text error |
| OcrCredits.NothingParsesFails | dify-workflow/nodes/code-nodes/parse_ocr_json.py:79-86 | a text from which no attempt parses fails with the not-valid-JSON error |

## Left out

- `SequenceMatcher.ratio()` is the parameter `sim`: its matching-block algorithm is not modelled, and properties that need the ratio in [0, 1], or a string scoring 1 against itself, require it.
- `json.loads`, `json.dumps` and `str()` are the parameters `parse` and `show`; a decoding error is `parse` returning `None`.
- Duplicate keys in a JSON object are not modelled: a dict lookup reads the first entry with the key, and `SetKey` replaces that entry.
- Python's set semantics are modelled on `Json` values. The hash equality of `1`, `1.0` and `True` is not modelled.
- `str.lower()` is modelled on ASCII letters only.
- Lyrics.StampRemoved, Lyrics.StampLengthOf, Lyrics.StampSkipped and Lyrics.StampIgnored: `\d` in the time-stamp pattern is modelled as the ASCII digits 0-9. Python's `\d` on a `str` pattern also matches other Unicode decimal digits, so a stamp in full-width digits, which Python removes, is kept by the model.
- `\s` and `str.strip()` are modelled by `IsSpace`, the characters Python's `isspace` accepts.
- Floating-point rounding is not modelled: scores, ratios and confidences are `real`.
- The note texts are not rendered as strings. A note is the datatype `Note`, which records which note it is, the source, and the ratio or overlap it would print (`{ratio:.2%}` and the overlap list).
- Exception messages are not modelled: a caught exception is a failure constructor (`Raised`, `IntegrationFailed`, `OcrFailed`, the `raised` flag of the adapter records).
- The `verification_timestamp` of the report is always `None` and is not part of `Consolidate.FinalReport`.
- `confidence_score` is `real`. When no field is counted the source returns the integer `0` rather than `0.0`; the model does not tell them apart.
- Credits.CompareCredits: `compare_credits` walks a Python set, whose order depends on string hashing. The model picks the roles in an arbitrary order, so its contract states the result for every possible order and does not fix one.
- Credits.CompareCredits is stated for any per-role comparison (`RoleCompare`); `compare_field(..., "list")` is `Credits.ListCompare`.
- Lyrics: the per-source comparison is stated for any cleaning function (`Cleaner`); `compare_lyrics` passes `preprocess_lyrics`.
- The debug `print` calls of find_qqmusic_match.py are left out. The `len(results)` of one debug line is kept, because it raises on a value without a length.
- find_qqmusic_match.py accepts `netease_title` and `netease_artist` but never reads them. `QQSearch.FirstResultChosen` states that the result does not depend on them.
- The output TypedDicts of models.py perform no validation. They are modelled as the record datatypes.
- The JSON plumbing of normalize_data.py is left out: `parse_spotify_data`, `parse_qqmusic_data` and `main`.
- The other nodes are not part of this model: URL parsing, cover URL lookup, initial structuring, cover download and encoding.
- The QQ Music proxy services are not part of this model.
- The bundling, API validation and workflow test scripts are not part of this model.
- The workflow's own wiring and its HTTP calls to Spotify, QQ Music and Gemini are not modelled.
- In the fallback of `parse_cover_comparison_json`, a reply saying 不相同 ("not the same") reads as 确认, because 相同 is tested first (`Cover.NegationReadsAsSame`). The model follows the code here. A test expects 存疑 for such a reply and disagrees with it.
- `parse_cover_comparison_json` does not catch a `TypeError`. When `is_same` is truthy and `confidence` is not a number, comparing it with 0.8 raises, and `main` then fails. The model follows the code in this too.
- `parse_cover_comparison_json` takes the brace span of the whole reply, with no preference for a fenced block.

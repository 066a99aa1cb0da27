# Release metadata core of the JPS auto-uploader

This project models, in Dafny, the part of `autoupload.py` that turns a
directory of tagged FLAC or MP3 files into the release record that is
posted. The model covers these parts:

- **Hangul dictionary.** The category → term → translation-or-null store.
  `add_to_hangul_dict` is its one writer. It is modelled as the class
  `DictionaryStore`, whose field holds the JSON file's contents.
- **Term resolver.** `translate` turns a display name into a
  `[native, latin]` pair. It may record what it learns in the dictionary.
  `Resolve` is the specification function and `Translate` is the
  procedure on the store, proved equal to it.
- **Tag normalisation.** `readflac` and `readmp3` produce the `tags`
  record the script works with: the first DATE, a TRACKNUMBER padded to
  two digits, the "/total" part cut off, GROUPING falling back to
  CONTENTGROUP, and the required-tag exit. The audio library itself is
  replaced by the field map it would return.
- **Tracklist.** The tracklist line of each file and the text
  `generatelog` builds from those lines.
- **Directory walk.** The walk that `gatherdata` performs:
  - tags are read per file and genres are split at `;`;
  - the running lists are appended to;
  - format and bitrate are chosen, and a release that mixes FLAC and MP3
    is refused;
  - media is "CD" when a log file is present.
- **Release record.** The rest of `gatherdata`:
  - extra genres are added, and genres and album artists are resolved;
  - the distinct values are joined with commas;
  - the album and release descriptions are built;
  - the release type comes from the grouping tag or from the operator;
  - the record fields are set;
  - a title or artist that `detectlanguage` finds Korean is replaced by
    the operator's answer.

Every way the script can stop is a `Result` error. This covers `sys.exit`
on a missing tag or mixed formats, a `KeyError`, `TypeError` or
`IndexError` that ends the run, and end of input at a prompt.

Set iteration order, which Python leaves unspecified, is modelled by
arbitrary choice (`:|`). Every contract therefore holds for every order
the interpreter might use.

Behaviour of the code that is easy to misread, modelled as written:

- **Both halves Hangul.** Lines 264-269 record the text before the
  parenthesis twice, with a null translation. The alias in parentheses is
  never recorded.
- **Two Latin halves.** The "both English" branch (lines 270-273) cannot
  be reached. When the text before the parenthesis is ASCII, the
  classification at lines 245-251 always yields "English first". So
  "IU (Lee Jieun)" gives `["Lee Jieun", "IU"]` and records
  "Lee Jieun" → "IU"; it does not give `[null, "IU"]`.
- **An all-ASCII name.** Lines 297-302 compare the name with the KEYS of
  the category and return `[stored value, name]`. They do not look for a
  matching translation.
  - A non-empty category without that key gives `[name, name]`, whatever
    the order of the scan.
  - An empty category leaves the result None, which later raises
    `TypeError` when indexed.
- **Album artists.** Lines 406-412 do not resolve each distinct album
  artist. Each pass resolves the first album artist of the last file
  read, so at most one value reaches the record.
- **Genres.** The genre string keeps position 0 of the resolver's answer,
  the native form (line 402), not the Latin one.
- **Entries that are not audio files.** The accumulation at lines 358-367
  runs for every directory entry, audio or not. So a cover image or a
  log file counts the previous file's tags a second time. An entry listed
  before any audio file raises, because `tags` is not yet bound.
- **Known categories.** The list of categories at line 179 is never
  consulted. A category is known exactly when the dictionary file has it.

## Model

| member | source | states |
|---|---|---|
| HangulDictionary.PyStr | autoupload.py:176-177 | `str()` of a missing translation is the text "None"; a present one passes through unchanged |
| HangulDictionary.Upserted | autoupload.py:194-210 | the categories stay the same and the term joins its category. A real translation is stored. The text "None" leaves an existing term as it was and records a new term as null. Every other category and term is unchanged |
| HangulDictionary.UpsertIdempotent | autoupload.py:194-210 | upserting the same entry twice leaves the dictionary as upserting it once |
| HangulDictionary.UpsertGrows | autoupload.py:194-210 | an upsert never removes a category or term and never turns a translation back into null |
| HangulDictionary.CopyDictionary | autoupload.py:185-192 | the category-by-category, entry-by-entry copy equals the loaded dictionary, whatever the iteration order |
| HangulDictionary.DictionaryStore.AddToHangulDict | autoupload.py:175-214 | an unknown category raises before anything is written; otherwise the stored dictionary becomes exactly the upsert of the `str()`-ed arguments |
| TermResolver.ScanCategory | autoupload.py:296-302 | the result is `[stored, name]` for a key equal to the name, `[name, name]` for any other non-empty category, and None for an empty one, for every scan order |
| TermResolver.ResolveParenthesised | autoupload.py:231-275 | "X (Y)" always yields a pair with a native side |
| TermResolver.ResolvePlain | autoupload.py:277-302 | a returned pair for a name without parentheses never has both sides missing |
| TermResolver.RecordParenthesised | autoupload.py:231-275 | splitting, classifying and recording "X (Y)" on the store returns exactly the pair and leaves exactly the dictionary `ResolveParenthesised` specifies |
| TermResolver.LookUpPlain | autoupload.py:277-302 | looking up a name on the store returns exactly the pair and leaves exactly the dictionary `ResolvePlain` specifies |
| TermResolver.Translate | autoupload.py:216-304 | the returned pair and the dictionary left behind are exactly those of `Resolve`; an unknown category raises and writes nothing |
| TermResolver.ResolveFails | autoupload.py:222-224 | resolution fails if and only if the category is missing, and then with that category's `KeyError` |
| TermResolver.ParenthesisedSplits | autoupload.py:225-237 | "X (Y)" with plain X and Y survives `strip()`, takes the parenthesis branch and splits into exactly X and Y |
| TermResolver.ResolveNativeFirst | autoupload.py:241-257 | Hangul X with ASCII Y gives `[X, Y]` and the dictionary afterwards is the upsert of X → Y |
| TermResolver.ResolveLatinFirst | autoupload.py:245-263 | ASCII X gives `[Y, X]` and records Y → X whatever the script of Y |
| TermResolver.ResolveBothNative | autoupload.py:241-269 | Hangul X and Y give `[X, None]`. Only X is recorded, as a null that never overwrites a known translation, and Y stays unrecorded |
| TermResolver.ResolveNativePlain | autoupload.py:281-293 | a known Hangul term returns its stored translation, possibly null, and writes nothing; an unknown one returns `[term, None]` and records the term as null |
| TermResolver.ResolveLatinPlain | autoupload.py:296-302 | an all-ASCII name only reads the dictionary: `[stored, name]` for a key, `[name, name]` for another name in a non-empty category, None for an empty one |
| TermResolver.ResolveIdempotent | autoupload.py:216-304 | resolving the same input again at once returns the same pair and writes nothing new |
| TermResolver.ResolveGrows | autoupload.py:216-304 | a resolution never removes a category or term and never nulls a translation |
| TermResolver.ResolveNeverBothNull | autoupload.py:227-302 | a returned pair never has both sides missing |
| TermResolver.BlackpinkExample | autoupload.py:253-257 | "블랙핑크 (BLACKPINK)" gives `["블랙핑크", "BLACKPINK"]` and records that translation |
| TermResolver.BothLatinExample | autoupload.py:245-273 | "IU (Lee Jieun)" goes through the English-first branch: it gives `["Lee Jieun", "IU"]` and records "Lee Jieun" → "IU" |
| Text.Strip | autoupload.py:225 | `strip()` removes whitespace at both ends only; the result is a slice with no whitespace at either end |
| Text.StripIdempotent | autoupload.py:236-237 | stripping a stripped text changes nothing |
| Text.SplitOnPieces | autoupload.py:235 | no piece of a `split` on one character holds the separator, and there are several pieces exactly when the separator occurs |
| Text.JoinSplit | autoupload.py:359-360 | joining the pieces of a split with the separator gives the text back |
| Text.SplitJoin | autoupload.py:145 | splitting a newline-join of separator-free lines gives the lines back |
| Text.RemoveChar | autoupload.py:237 | `replace(")", "")` leaves no ")" in the text |
| Text.RemoveCharAbsent | autoupload.py:237 | removing a character that does not occur changes nothing |
| Text.DigitsOnly | autoupload.py:472 | the release date keeps only digits |
| Text.DigitsOnlyConcat | autoupload.py:472 | the digits of a concatenation are the digits of each part, in order |
| Text.DigitsOnlyDropsSeparator | autoupload.py:472 | a date separator disappears and the digits on both sides are kept |
| Text.DigitsOnlyOfDigits | autoupload.py:472 | a date made of digits is kept as it is |
| Text.ZFill | autoupload.py:96 | `zfill(width)` pads with zeros on the left to the width, after a leading sign, and leaves a long enough text unchanged |
| Text.DropSlashRuns | autoupload.py:130-131 | the substitution leaves no "/" in the text |
| Text.DropSlashRunsSingleLine | autoupload.py:130-131 | on one line, the substitution keeps exactly the text before the first "/" |
| LanguageGate.Split | autoupload.py:510-511 | `split(word)` gives one one-character string per character, in order |
| LanguageGate.ConcatSplit | autoupload.py:510-511 | `"".join(split(word))` gives the word back |
| LanguageGate.DetectLanguage | autoupload.py:513-530 | the answer is True if and only if no character is classified "ko"; characters whose detection raises are skipped |
| LanguageGate.KoreanAnywhereFails | autoupload.py:525-528 | one character classified "ko" anywhere fails the whole string |
| LanguageGate.FailedDetectionIgnored | autoupload.py:519-523 | a character whose detection raises does not change the verdict |
| TagReader.FrameText | autoupload.py:125-131 | `str()` of a missing frame is "None", of a present frame its rendering |
| TagReader.FrameValues | autoupload.py:122-129 | `read.get` of a frame is present exactly when the frame is, with the frame's text values |
| TagReader.GroupingOrContentGroup | autoupload.py:100-104 | GROUPING is kept when present and replaced by CONTENTGROUP when missing |
| TagReader.RequireTags | autoupload.py:107-112 | the record passes if and only if ALBUM and ALBUMARTIST are present; otherwise the first missing one, in record order, ends the run |
| TagReader.ReadFlac | autoupload.py:84-114 | a missing DATE or TRACKNUMBER raises; otherwise the record passes exactly when ALBUM and ALBUMARTIST exist. It holds the first DATE, the zero-padded TRACKNUMBER, GROUPING or else CONTENTGROUP, and the DISCNUMBER list; a file that cannot be read fails |
| TagReader.ReadMp3 | autoupload.py:117-140 | a missing TCON raises; otherwise the record passes exactly when TALB and TPE2 exist. It holds `str()` of TDRC, TRCK with its "/total" removed and zero-padded, TPOS with its "/total" removed, and TIT1 as grouping |
| TagReader.Mp3TrackNumber | autoupload.py:130 | "n/total" on one line becomes n padded to two digits; a missing frame becomes "None" |
| TagReader.TracklistEntry | autoupload.py:331-350 | the line is "[b]disc-track[/b]. title", or has no disc when the disc is absent. It exists exactly when the title and a listed disc value can be indexed |
| TagReader.DiscPrefix | autoupload.py:331-350 | a disc of None (FLAC) or "None" (MP3) adds nothing; any other disc adds "disc-" |
| TagReader.GenerateLogLines | autoupload.py:143-149 | the generated text splits into the header line, the tracklist lines in order, and the closing indentation |
| DirectoryScan.FlacNotMp3 | autoupload.py:326-342 | no entry name ends in both ".flac" and ".mp3" |
| DirectoryScan.NormalizeGenres | autoupload.py:359-360 | a single genre value is split at ";" so that joining the pieces gives it back; other lists are unchanged; a single result holds no ";" |
| DirectoryScan.NormalizeGenresIdempotent | autoupload.py:359-360 | splitting the split genres again changes nothing |
| DirectoryScan.NormalizeGenresOfNormal | autoupload.py:359-360 | genres that are already split come through unchanged |
| DirectoryScan.ReadAudio | autoupload.py:326-356 | an audio entry sets the current tags, marks its format and adds one tracklist line; any other entry leaves the state unchanged |
| DirectoryScan.ReadEntryTags | autoupload.py:326-356 | reading one entry computes exactly the step `ReadAudio` specifies |
| DirectoryScan.Accumulate | autoupload.py:358-367 | with no tags read yet the run ends. Otherwise the album artists, track artists, first album and split genres of the current tags are appended, and the tracklist and flags are unchanged |
| DirectoryScan.Classify | autoupload.py:370-387 | the step fails exactly when both formats are present. Format and bitrate follow the flags, the log flag latches, and media is "CD" exactly when the flag is set |
| DirectoryScan.ScanEntry | autoupload.py:326-387 | one pass latches the flags, never leaves both formats present, adds one tracklist line per audio file and leaves usable, split tags; a non-audio entry with no tags yet fails |
| DirectoryScan.ScanDirectory | autoupload.py:324-387 | the loop computes exactly the walk `Scan` over the listing, stopping at the first failure |
| DirectoryScan.ScanErrorPersists | autoupload.py:324-387 | once the walk has failed, later entries do not change the outcome |
| DirectoryScan.ScanConsistent | autoupload.py:324-387 | after a successful walk, each flag holds exactly when such an entry exists and the tracklist has one line per audio file. Format and bitrate match the one format present, media is "CD" exactly when a ".log" entry exists, and the last tags are usable |
| DirectoryScan.MixedFormatRefused | autoupload.py:371-379 | a listing with both a ".flac" and a ".mp3" entry never yields a result |
| DirectoryScan.NoAudioFails | autoupload.py:358-361 | a non-empty listing without audio files fails because the tags are used before any were read |
| DirectoryScan.ScanRecountsPrevious | autoupload.py:358-367 | a non-audio entry appends the last file's album and genres again and adds no tracklist line |
| Aggregator.WithAdditionalTags | autoupload.py:394-398 | the extra tags are appended after the genres and join back, with commas, to the option's text |
| Aggregator.JoinSet | autoupload.py:415-417 | joining a set gives its members once each, in some order, separated by commas |
| Aggregator.JoinSingleton | autoupload.py:415-417 | a one-member set joins to that member |
| Aggregator.Present | autoupload.py:415-417 | a None among the values makes the join raise; otherwise the joined values are exactly the present ones |
| Aggregator.PresentValues | autoupload.py:415-417 | without a None, the join gets exactly the values that are present |
| Aggregator.EnumeratesAppend | autoupload.py:401-403 | a walk of one set followed by a walk of a disjoint set is a walk of their union |
| Aggregator.GenreTranslationOutcome | autoupload.py:401-402 | one genre fails if and only if the "genres" category is missing (`KeyError`) or is empty while the genre is only looked up (`TypeError` on the None answer). A failure writes nothing. A look-up-only genre in a non-empty category gives its stored translation, or itself when it is not a key, and writes nothing |
| Aggregator.GenreTranslationGrows | autoupload.py:401-402 | translating one genre never removes a term or nulls a translation |
| Aggregator.TranslateGenre | autoupload.py:402 | the value and the dictionary are those of `Resolve` in the "genres" category: an unknown category raises with no write, a None answer raises `TypeError` after the resolver's writes, and otherwise the value is position 0 of the answer |
| Aggregator.TranslatedGenresSnoc | autoupload.py:401-403 | one more genre after a successful walk adds its value and the dictionary its resolution leaves, or stops the walk with its error |
| Aggregator.TranslatedGenresStop | autoupload.py:401-403 | once a genre has failed, the genres after it change neither the outcome nor the dictionary |
| Aggregator.TranslatedGenresGrows | autoupload.py:401-403 | the genre loop never removes a term or nulls a translation |
| Aggregator.TranslatedGenresUnknown | autoupload.py:401-403 | without a "genres" category the first genre raises `KeyError` and nothing is written |
| Aggregator.TranslatedGenresSucceed | autoupload.py:401-403 | with a non-empty "genres" category every genre gets an answer, so the loop completes and the category stays non-empty |
| Aggregator.LookupOnlyGenresInOrder | autoupload.py:401-403 | genres that are only looked up, taken in any order, give exactly their looked-up values and write nothing |
| Aggregator.ImagesInOrderMembers | autoupload.py:401-403 | the values collected along a walk are exactly the values of its members |
| Aggregator.ImagesOfWalk | autoupload.py:401-403 | collecting along any walk of a set gives the values of the whole set |
| Aggregator.LookupOnlyGenres | autoupload.py:401-403 | a set of look-up-only genres translates to the same values whatever order Python walks it in |
| Aggregator.FailedWalk | autoupload.py:401-403 | a walk that fails part-way has the outcome of a walk of the whole set |
| Aggregator.TranslateGenres | autoupload.py:400-403 | the loop returns exactly what the genre-by-genre fold gives for one order of the set: each genre is resolved against the dictionary the earlier ones left, and the first failure ends the loop with the writes made so far |
| Aggregator.TranslateAlbumArtists | autoupload.py:405-412 | no album artists means no values. Otherwise the last file's first album artist decides: "Various Artists" gives "V.A." and writes nothing, and any other name gives the Latin side of its resolution, with the dictionary that resolution leaves |
| Aggregator.AlbumArtistsJoinToOneName | autoupload.py:405-415 | the single translated album artist joins to exactly that name |
| Aggregator.AlbumArtistTranslationFacts | autoupload.py:405-412 | at most one album-artist value comes out, and a failure is a missing ALBUMARTIST, an unknown "artist" category or a None answer |
| Aggregator.AlbumArtistTranslationGrows | autoupload.py:405-412 | translating the album artists never removes a term or nulls a translation |
| Aggregator.AlbumDescription | autoupload.py:424-429 | the description is the generated tracklist text, or the saved log named by the first comment; a missing log or comment ends the run |
| Aggregator.ReleaseDescription | autoupload.py:431-441 | with the option on and a first comment, the text is the Bugs link around that comment; otherwise it is empty |
| Aggregator.FirstAccepted | autoupload.py:455-463 | it finds the first "Album" or "Single" answer from a position, and every answer it skips is neither |
| Aggregator.Settled | autoupload.py:455-463 | an accepted guess is kept and nothing is read. Otherwise the type is the first "Album" or "Single" answer and the answers up to it are read. End of input comes exactly when neither the guess nor any later answer is accepted |
| Aggregator.SettleReleaseType | autoupload.py:455-463 | the loop returns exactly the type and the next unread answer that `Settled` gives |
| Aggregator.ReleaseTypeChoice | autoupload.py:447-463 | the dictionary only grows and any type returned is accepted. An empty grouping raises `IndexError`, and an unknown "release_types" category raises `KeyError`, both with no write and no prompt. A first grouping value that translates to "Album" or "Single" is the type, with no prompt. Running out of answers means no answer was accepted. A grouping that is not empty, a known category when it is consulted, and one accepted answer make the choice succeed |
| Aggregator.ChooseReleaseType | autoupload.py:447-463 | the type, the dictionary and the next unread answer are exactly those of `ReleaseTypeChoice` |
| Aggregator.LanguageChecked | autoupload.py:484-505 | the checks fail if and only if fewer answers remain than the title and artist that fail the Korean check. A failing title is replaced by the next answer and kept as `titlejp`, and a failing artist by the answer after it. Anything that passes, and every other field, is unchanged |
| Aggregator.ApplyLanguageGate | autoupload.py:484-505 | the checks return exactly the record and the next unread answer that `LanguageChecked` gives |
| Aggregator.ResolveNames | autoupload.py:394-417 | for one order of the genre set: the genres are translated first, then the album artists, then the album-artist, track-artist and genre sets are joined, in that order. The first failure is the outcome, and the dictionary is what the steps before it left |
| Aggregator.NamesDict | autoupload.py:400-412 | the dictionary after the names is the one the genres leave when they fail, and the one the album artists leave otherwise |
| Aggregator.NamesGrow | autoupload.py:400-412 | resolving the names never removes a term or nulls a translation |
| Aggregator.VariousArtistsNamed | autoupload.py:406-415 | a "Various Artists" release is posted as "V.A." |
| Aggregator.AlbumArtistNamed | autoupload.py:406-415 | any other release is posted under the Latin side of the resolver's answer for the last file's first album artist, taken against the dictionary the genres left |
| Aggregator.LookupOnlyGenresNamed | autoupload.py:401-417 | look-up-only genres are posted as their stored translations, or as themselves when the category does not hold them, joined with commas in some order |
| Aggregator.AssembleRecord | autoupload.py:443-482 | the title is the album, `artistjp` is set exactly when the track artists differ from the album artists, and the release date holds only digits |
| Aggregator.Completed | autoupload.py:419-505 | the dictionary only grows and no tags means no record with no write. A record holds an accepted type, the walk's format, bitrate and media, the digits of DATE, both descriptions, the joined genres as tags, the freeleech switch, and `artistjp` exactly when the track artists differ. The album is the title unless it reads as Korean, when it becomes `titlejp`; album artists that pass the check are the artist |
| Aggregator.CompleteRecord | autoupload.py:419-505 | the record and the dictionary are exactly those `Completed` gives |
| Aggregator.BuildRecord | autoupload.py:389-507 | the record and the dictionary are those of joining the names for one order of the genre set and then completing the record: a failure in the names is the outcome, with the names' writes |
| Aggregator.GatherData | autoupload.py:306-507 | a failed walk is the outcome and writes nothing. Otherwise the record and the dictionary are exactly those `BuildRecord` promises for the walk's result |
| Aggregator.BuildsGrow | autoupload.py:389-507 | building a record never removes a term or nulls a translation |
| Aggregator.NamesJoined | autoupload.py:401-417 | the names are joined when the genres are only looked up to present values and the album artist translates to a name; the dictionary is then the one the album artists leave |
| Aggregator.CompletedOk | autoupload.py:419-505 | the record is completed when the album description can be had, the release type settles and two answers remain for the language checks |
| Aggregator.RecordBuilt | autoupload.py:389-507 | a record is posted when nothing stops it: look-up-only genres with present translations, an album artist that translates to a name, an album description, a release type that settles, and two answers left |
| Aggregator.GatheredRecord | autoupload.py:306-507 | a posted record has an accepted type, the format and bitrate of the one format listed, and media "CD" exactly when a log is listed. It holds the digits of DATE, the release description, the freeleech switch and, with the tracklist option on, the generated tracklist as album description. The album is the title unless it reads as Korean, when it becomes `titlejp` |

## Left out

- **Network and uploading.** Torrent creation, the login and upload
  requests, the FTP transfer and the local file moves are not part of
  this model. They are I/O outside the metadata core.
- **Command-line arguments and the configuration file.** They become the
  fields of `Config`, plus the `additionalTags` and `freeleech` switches.
- **Audio decoding.** The mutagen library is not modelled. A file's
  content is the field map it would return (`FileContent`), and what
  `str()` gives for an ID3 frame is supplied with the frame.
- **Language detection.** The langdetect classifier is not modelled. It
  is a function parameter that returns None where the call raises.
- **Operator prompts.** Each `input()` is the next element of an answer
  sequence. Running out of answers models EOFError.
- **Dictionary file I/O.** JSON parsing and writing are modelled as
  reading and assigning the store's `entries` field. A corrupt file is
  not modelled.
- **Log files.** `readlog` is a lookup in `Config.savedLogs`; a missing
  file is `LogNotFound`. For `generatelog`, the optional write-and-read-back
  of the saved tracklist returns the text unchanged, so the file itself is
  not modelled.
- **Debug output.** The debug prints and `asciiart` are not modelled.
- **Unused values.** `unique_album` (line 418) and the log file name built
  at line 425 are computed but never reach the record. Only the indexing
  that line 425 performs is kept, because it can raise.
- **File system order.** The order of `os.listdir` is the order of the
  `entries` sequence.
- Aggregator.RecordBuilt: success is characterised by the functional
  specification (`Builds`) and by this sufficient condition. Its
  hypotheses on the genres are stronger than needed; genres that are
  recorded by the resolver can succeed too, which `Builds` covers but no
  lemma restates.

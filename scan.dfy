/** The directory walk at the start of `gatherdata` (lines 324-387): every
    entry of the release directory, in listing order, may read an audio
    file's tags, and then feeds the most recently read tags into the
    running lists and decides format, bitrate and media.

    `Scan` states the result of the walk over a listing as a value, one
    entry at a time; `ScanDirectory` is the loop itself, proved to compute
    exactly that; the lemmas state what a finished walk guarantees. */
module DirectoryScan {
  import opened Outcomes
  import opened Text
  import opened TagReader

  /** One name returned by `os.listdir`, with what the audio library would
      make of the file. */
  datatype DirEntry = DirEntry(name: string, content: FileContent)

  /** The local variables of `gatherdata` that the walk updates. `tags` is
      None until an audio file has been read; `format`, `bitrate` and
      `media` are None while still unassigned. */
  datatype ScanState = ScanState(
    tags: Option<TagRecord>,
    tracklist: seq<string>,
    albumArtists: seq<string>,
    trackArtists: seq<string>,
    albums: seq<string>,
    genres: seq<string>,
    flacPresent: bool,
    mp3Present: bool,
    logAvailable: bool,
    format: Option<string>,
    bitrate: Option<string>,
    media: Option<string>)

  const Initial := ScanState(None, [], [], [], [], [], false, false, false, None, None, None)

  predicate IsFlac(name: string) { EndsWith(name, ".flac") }
  predicate IsMp3(name: string) { EndsWith(name, ".mp3") }
  predicate IsLog(name: string) { EndsWith(name, ".log") }
  predicate IsAudio(name: string) { IsFlac(name) || IsMp3(name) }

  /** No name ends in both ".flac" and ".mp3". */
  lemma FlacNotMp3(name: string)
    ensures IsFlac(name) ==> !IsMp3(name)
  {
    if IsFlac(name) {
      assert name[|name| - 1] == 'c';
    }
  }

  /** Lines 359-360: a single genre value is split at ";" into several. */
  function NormalizeGenres(genres: seq<string>): (r: seq<string>)
    ensures |genres| != 1 ==> r == genres
    ensures |genres| == 1 ==> Join(r, ";") == genres[0]
    ensures |r| == 1 ==> ';' !in r[0]
  {
    if |genres| == 1 then
      JoinSplit(genres[0], ';');
      SplitOnPieces(genres[0], ';');
      SplitOn(genres[0], ';')
    else genres
  }

  /** Genres that the splitting leaves as they are. */
  predicate GenresNormal(genres: seq<string>) {
    |genres| == 1 ==> ';' !in genres[0]
  }

  /** Splitting the genres again (as the next entry of the walk does) changes nothing. */
  lemma NormalizeGenresIdempotent(genres: seq<string>)
    ensures GenresNormal(NormalizeGenres(genres))
    ensures NormalizeGenres(NormalizeGenres(genres)) == NormalizeGenres(genres)
  {
    var g := NormalizeGenres(genres);
    if |g| == 1 {
      SplitWithoutSeparator(g[0], ';');
    }
  }

  /** Genres that are already split come through unchanged. */
  lemma NormalizeGenresOfNormal(genres: seq<string>)
    requires GenresNormal(genres)
    ensures NormalizeGenres(genres) == genres
  {
    if |genres| == 1 {
      SplitWithoutSeparator(genres[0], ';');
    }
  }

  /** Lines 326-356: a ".flac" or ".mp3" entry is read, becomes the current
      tags, marks its format present and adds its tracklist line; any other
      entry leaves the state alone. */
  function ReadAudio(st: ScanState, e: DirEntry): (r: Result<ScanState>)
    ensures !IsAudio(e.name) ==> r == Ok(st)
    ensures r.Ok? && IsAudio(e.name) ==>
      && r.value.tags.Some?
      && |r.value.tracklist| == |st.tracklist| + 1
      && r.value.flacPresent == (st.flacPresent || IsFlac(e.name))
      && r.value.mp3Present == (st.mp3Present || IsMp3(e.name))
    ensures r.Ok? ==> r.value.logAvailable == st.logAvailable
  {
    if IsFlac(e.name) then
      var tags :- ReadFlac(e.name, e.content);
      var entry :- TracklistEntry(tags);
      FlacNotMp3(e.name);
      Ok(st.(tags := Some(tags), flacPresent := true, tracklist := st.tracklist + [entry]))
    else if IsMp3(e.name) then
      var tags :- ReadMp3(e.name, e.content);
      var entry :- TracklistEntry(tags);
      Ok(st.(tags := Some(tags), mp3Present := true, tracklist := st.tracklist + [entry]))
    else Ok(st)
  }

  /** Lines 359-367: the current tags (whichever file they were read from)
      have their genres split and are appended to the running lists. */
  function Accumulate(st: ScanState): (r: Result<ScanState>)
    ensures st.tags.None? ==> r == Err(NoTagsRead)
    ensures r.Ok? ==>
      var t := st.tags.value;
      && t.genre.Some? && t.albumArtist.Some? && t.artist.Some? && HasFirst(t.album)
      && r.value.tags == Some(t.(genre := Some(NormalizeGenres(t.genre.value))))
      && r.value.albumArtists == st.albumArtists + t.albumArtist.value
      && r.value.trackArtists == st.trackArtists + t.artist.value
      && r.value.albums == st.albums + [t.album.value[0]]
      && r.value.genres == st.genres + NormalizeGenres(t.genre.value)
      && r.value.tracklist == st.tracklist
      && r.value.flacPresent == st.flacPresent && r.value.mp3Present == st.mp3Present
      && r.value.logAvailable == st.logAvailable
  {
    if st.tags.None? then Err(NoTagsRead)
    else
      var t := st.tags.value;
      if t.genre.None? then Err(TagUnavailable("GENRE"))
      else
        var genre := NormalizeGenres(t.genre.value);
        if t.albumArtist.None? then Err(TagUnavailable("ALBUMARTIST"))
        else if t.artist.None? then Err(TagUnavailable("ARTIST"))
        else if !HasFirst(t.album) then Err(TagUnavailable("ALBUM"))
        else
          Ok(st.(tags := Some(t.(genre := Some(genre))),
                 albumArtists := st.albumArtists + t.albumArtist.value,
                 trackArtists := st.trackArtists + t.artist.value,
                 albums := st.albums + [t.album.value[0]],
                 genres := st.genres + genre))
  }

  /** Lines 371-387: format and bitrate follow the formats seen so far, a
      directory holding both ends the run, a ".log" entry latches the log
      flag, and media follows the flag. */
  function Classify(st: ScanState, name: string): (r: Result<ScanState>)
    ensures r.Ok? <==> !(st.flacPresent && st.mp3Present)
    ensures r.Err? ==> r == Err(MixedFormat)
    ensures r.Ok? ==>
      && r.value.logAvailable == (st.logAvailable || IsLog(name))
      && r.value.media == Some(if r.value.logAvailable then "CD" else "WEB")
      && r.value.format == (if st.flacPresent then Some("FLAC") else if st.mp3Present then Some("MP3") else st.format)
      && r.value.bitrate == (if st.flacPresent then Some("Lossless") else if st.mp3Present then Some("320") else st.bitrate)
      && r.value.tags == st.tags && r.value.tracklist == st.tracklist
      && r.value.albums == st.albums && r.value.genres == st.genres
  {
    var st1 := if st.flacPresent then st.(format := Some("FLAC"), bitrate := Some("Lossless")) else st;
    var st2 := if st1.mp3Present then st1.(format := Some("MP3"), bitrate := Some("320")) else st1;
    if st2.flacPresent && st2.mp3Present then Err(MixedFormat)
    else
      var log := st2.logAvailable || IsLog(name);
      Ok(st2.(logAvailable := log, media := Some(if log then "CD" else "WEB")))
  }

  /** One pass of the loop body: the flags latch, at most one format is
      ever present, the tracklist grows by one line per audio file, format,
      bitrate and media follow the flags, and the current tags are usable. */
  function ScanEntry(st: ScanState, e: DirEntry): (r: Result<ScanState>)
    ensures st.tags.None? && !IsAudio(e.name) ==> r == Err(NoTagsRead)
    ensures r.Ok? ==>
      && r.value.flacPresent == (st.flacPresent || IsFlac(e.name))
      && r.value.mp3Present == (st.mp3Present || IsMp3(e.name))
      && r.value.logAvailable == (st.logAvailable || IsLog(e.name))
      && !(r.value.flacPresent && r.value.mp3Present)
      && |r.value.tracklist| == |st.tracklist| + (if IsAudio(e.name) then 1 else 0)
      && r.value.format == (if r.value.flacPresent then Some("FLAC") else if r.value.mp3Present then Some("MP3") else st.format)
      && r.value.bitrate == (if r.value.flacPresent then Some("Lossless") else if r.value.mp3Present then Some("320") else st.bitrate)
      && r.value.media == Some(if r.value.logAvailable then "CD" else "WEB")
      && r.value.tags.Some?
      && r.value.tags.value.genre.Some? && GenresNormal(r.value.tags.value.genre.value)
      && r.value.tags.value.albumArtist.Some? && r.value.tags.value.artist.Some? && HasFirst(r.value.tags.value.album)
  {
    var st1 :- ReadAudio(st, e);
    var st2 :- Accumulate(st1);
    NormalizeGenresIdempotent(st1.tags.value.genre.value);
    Classify(st2, e.name)
  }

  /** The walk over a whole listing; the first failure ends it. */
  function Scan(entries: seq<DirEntry>): Result<ScanState>
    decreases |entries|
  {
    if entries == [] then Ok(Initial)
    else
      var st :- Scan(entries[..|entries| - 1]);
      ScanEntry(st, entries[|entries| - 1])
  }

  /** Once the walk has failed, the entries after that point change nothing. */
  lemma {:induction false} ScanErrorPersists(entries: seq<DirEntry>, n: nat)
    requires n <= |entries|
    requires Scan(entries[..n]).Err?
    ensures Scan(entries) == Scan(entries[..n])
    decreases |entries| - n
  {
    if n < |entries| {
      var longer := entries[..n + 1];
      assert longer[..n] == entries[..n];
      assert Scan(longer) == Scan(entries[..n]);
      ScanErrorPersists(entries, n + 1);
    } else {
      assert entries[..n] == entries;
    }
  }

  /** The walk over one more entry is one more pass of the loop body; a
      failing pass is the outcome of the whole walk. */
  lemma ScanStep(entries: seq<DirEntry>, i: nat, before: ScanState)
    requires i < |entries|
    requires Scan(entries[..i]) == Ok(before)
    ensures Scan(entries[..i + 1]) == ScanEntry(before, entries[i])
    ensures ScanEntry(before, entries[i]).Err? ==> Scan(entries) == ScanEntry(before, entries[i])
  {
    assert entries[..i + 1][..i] == entries[..i];
    if ScanEntry(before, entries[i]).Err? {
      ScanErrorPersists(entries, i + 1);
    }
  }

  /** Lines 326-356: reading the tags of one directory entry, if it is an
      audio file, and adding its tracklist line. */
  method ReadEntryTags(st: ScanState, e: DirEntry) returns (r: Result<ScanState>)
    ensures r == ReadAudio(st, e)
  {
    var state := st;
    if IsFlac(e.name) {
      var read := ReadFlac(e.name, e.content);
      if read.Err? {
        return Err(read.error);
      }
      state := state.(tags := Some(read.value), flacPresent := true);
      var entry := TracklistEntry(read.value);
      if entry.Err? {
        return Err(entry.error);
      }
      state := state.(tracklist := state.tracklist + [entry.value]);
    }
    if IsMp3(e.name) {
      FlacNotMp3(e.name);
      var read := ReadMp3(e.name, e.content);
      if read.Err? {
        return Err(read.error);
      }
      state := state.(tags := Some(read.value), mp3Present := true);
      var entry := TracklistEntry(read.value);
      if entry.Err? {
        return Err(entry.error);
      }
      state := state.(tracklist := state.tracklist + [entry.value]);
    }
    r := Ok(state);
  }

  /** Lines 324-387, the loop over `os.listdir(directory)`. */
  method ScanDirectory(entries: seq<DirEntry>) returns (r: Result<ScanState>)
    ensures r == Scan(entries)
  {
    var state := Initial;
    var i := 0;
    while i < |entries|
      invariant 0 <= i <= |entries|
      invariant Scan(entries[..i]) == Ok(state)
    {
      var e := entries[i];
      ScanStep(entries, i, state);
      var read := ReadEntryTags(state, e);
      if read.Err? {
        return Err(read.error);
      }
      state := read.value;
      ghost var afterRead := state;
      // the tags of the latest audio file, even when this entry is not one
      if state.tags.None? {
        return Err(NoTagsRead);
      }
      var tags := state.tags.value;
      if tags.genre.None? {
        return Err(TagUnavailable("GENRE"));
      }
      tags := tags.(genre := Some(NormalizeGenres(tags.genre.value)));
      if tags.albumArtist.None? {
        return Err(TagUnavailable("ALBUMARTIST"));
      }
      if tags.artist.None? {
        return Err(TagUnavailable("ARTIST"));
      }
      if !HasFirst(tags.album) {
        return Err(TagUnavailable("ALBUM"));
      }
      state := state.(tags := Some(tags),
                      albumArtists := state.albumArtists + tags.albumArtist.value,
                      trackArtists := state.trackArtists + tags.artist.value,
                      albums := state.albums + [tags.album.value[0]],
                      genres := state.genres + tags.genre.value);
      assert Accumulate(afterRead) == Ok(state);
      ghost var afterAcc := state;
      if state.flacPresent {
        state := state.(format := Some("FLAC"), bitrate := Some("Lossless"));
      }
      if state.mp3Present {
        state := state.(format := Some("MP3"), bitrate := Some("320"));
      }
      if state.flacPresent && state.mp3Present {
        return Err(MixedFormat);
      }
      if IsLog(e.name) {
        state := state.(logAvailable := true);
      }
      state := state.(media := Some(if state.logAvailable then "CD" else "WEB"));
      assert Classify(afterAcc, e.name) == Ok(state);
      i := i + 1;
    }
    assert entries[..i] == entries;
    r := Ok(state);
  }

  /** Some entry of the listing has a name with property `p`. */
  ghost predicate AnyEntry(es: seq<DirEntry>, p: string -> bool) {
    exists k :: 0 <= k < |es| && p(es[k].name)
  }

  lemma AnyEntrySnoc(es: seq<DirEntry>, e: DirEntry, p: string -> bool)
    ensures AnyEntry(es + [e], p) <==> AnyEntry(es, p) || p(e.name)
  {
    if AnyEntry(es, p) {
      var k :| 0 <= k < |es| && p(es[k].name);
      assert (es + [e])[k] == es[k];
    }
    if p(e.name) {
      assert (es + [e])[|es|] == e;
    }
  }

  /** The number of ".flac" and ".mp3" entries. */
  function AudioCount(es: seq<DirEntry>): nat {
    if es == [] then 0
    else AudioCount(es[..|es| - 1]) + (if IsAudio(es[|es| - 1].name) then 1 else 0)
  }

  /** What a successful walk over `es` has established. */
  ghost predicate Consistent(es: seq<DirEntry>, st: ScanState) {
    && (st.flacPresent <==> AnyEntry(es, IsFlac))
    && (st.mp3Present <==> AnyEntry(es, IsMp3))
    && (st.logAvailable <==> AnyEntry(es, IsLog))
    && !(st.flacPresent && st.mp3Present)
    && |st.tracklist| == AudioCount(es)
    && st.format == (if st.flacPresent then Some("FLAC") else if st.mp3Present then Some("MP3") else None)
    && st.bitrate == (if st.flacPresent then Some("Lossless") else if st.mp3Present then Some("320") else None)
    && (es != [] ==>
          && AudioCount(es) > 0
          && (st.flacPresent || st.mp3Present)
          && st.media == Some(if st.logAvailable then "CD" else "WEB")
          && st.tags.Some?
          && st.tags.value.genre.Some? && GenresNormal(st.tags.value.genre.value)
          && st.tags.value.albumArtist.Some? && st.tags.value.artist.Some? && HasFirst(st.tags.value.album))
  }

  /** A walk that gets through the whole listing has seen one format only,
      one tracklist line per audio file, format and bitrate matching that
      format, media "CD" exactly when a ".log" entry is present, and usable
      tags from the last audio file. */
  lemma {:induction false} ScanConsistent(es: seq<DirEntry>)
    requires Scan(es).Ok?
    ensures Consistent(es, Scan(es).value)
    decreases |es|
  {
    if es != [] {
      var pre, e := es[..|es| - 1], es[|es| - 1];
      assert es == pre + [e];
      ScanConsistent(pre);
      AnyEntrySnoc(pre, e, IsFlac);
      AnyEntrySnoc(pre, e, IsMp3);
      AnyEntrySnoc(pre, e, IsLog);
      assert Scan(es) == ScanEntry(Scan(pre).value, e);
    }
  }

  /** Line 381: a listing with both a ".flac" and a ".mp3" file is refused. */
  lemma MixedFormatRefused(es: seq<DirEntry>, i: nat, j: nat)
    requires i < |es| && j < |es|
    requires IsFlac(es[i].name) && IsMp3(es[j].name)
    ensures Scan(es).Err?
  {
    if Scan(es).Ok? {
      ScanConsistent(es);
      assert AnyEntry(es, IsFlac) && AnyEntry(es, IsMp3);
    }
  }

  /** A listing with entries but no audio file fails on its first entry:
      the tags are used before any were read. */
  lemma {:induction false} NoAudioFails(es: seq<DirEntry>)
    requires es != []
    requires AudioCount(es) == 0
    ensures Scan(es) == Err(NoTagsRead)
    decreases |es|
  {
    var pre, e := es[..|es| - 1], es[|es| - 1];
    if pre == [] {
      assert Scan(pre) == Ok(Initial);
    } else {
      NoAudioFails(pre);
    }
  }

  /** A non-audio entry counts the last audio file's album, artists and
      genres a second time. */
  lemma ScanRecountsPrevious(es: seq<DirEntry>, e: DirEntry)
    requires Scan(es).Ok? && es != []
    requires !IsAudio(e.name)
    ensures var st := Scan(es).value;
      var t := st.tags.value;
      && Scan(es + [e]).Ok?
      && Scan(es + [e]).value.albums == st.albums + [t.album.value[0]]
      && Scan(es + [e]).value.genres == st.genres + t.genre.value
      && Scan(es + [e]).value.tracklist == st.tracklist
  {
    ScanConsistent(es);
    var st := Scan(es).value;
    assert (es + [e])[..|es|] == es;
    NormalizeGenresOfNormal(st.tags.value.genre.value);
    assert ReadAudio(st, e) == Ok(st);
    var st1 := Accumulate(st).value;
    assert Scan(es + [e]) == Classify(st1, e.name);
  }
}

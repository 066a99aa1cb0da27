/** `readflac` and `readmp3`: what the script does with the tag values the
    audio library returns, and the tracklist text built from them
    (`gatherdata` lines 331-350 and `generatelog`). The library itself is
    not modelled: a file's content is given as the field map it yields. */
module TagReader {
  import opened Outcomes
  import opened Text

  /** An ID3 frame: its text values (what indexing and iterating the frame
      give) and what `str()` of the frame gives. */
  datatype Frame = Frame(text: seq<string>, rendered: string)

  /** What the audio library returns for one file. */
  datatype FileContent =
    | VorbisComments(fields: map<string, seq<string>>)  // a FLAC file: field -> values
    | Id3Frames(frames: map<string, Frame>)             // an MP3 file: frame id -> frame
    | Unparsable                                        // the library raises

  /** DISCNUMBER: a FLAC file keeps the value list (or None); an MP3 file
      keeps the text with the "/total" part removed ("None" when absent). */
  datatype Disc = DiscValues(values: Option<seq<string>>) | DiscText(text: string)

  /** The `tags` dict both readers return. */
  datatype TagRecord = TagRecord(
    album: Option<seq<string>>,
    albumArtist: Option<seq<string>>,
    artist: Option<seq<string>>,
    date: string,
    genre: Option<seq<string>>,
    title: Option<seq<string>>,
    comment: Option<seq<string>>,
    grouping: Option<seq<string>>,
    trackNumber: string,
    discNumber: Disc)

  /** `read.get(key)`. */
  function Get<V>(m: map<string, V>, key: string): (r: Option<V>)
    ensures r.Some? <==> key in m
    ensures key in m ==> r.value == m[key]
  {
    if key in m then Some(m[key]) else None
  }

  /** `str(read.get(key))` for an ID3 frame. */
  function FrameText(frames: map<string, Frame>, key: string): (s: string)
    ensures key !in frames ==> s == "None"
    ensures key in frames ==> s == frames[key].rendered
  {
    if key in frames then frames[key].rendered else "None"
  }

  /** Lines 100-104: GROUPING falls back to CONTENTGROUP when it is missing. */
  function GroupingOrContentGroup(grouping: Option<seq<string>>, contentGroup: Option<seq<string>>): (r: Option<seq<string>>)
    ensures grouping.Some? ==> r == grouping
    ensures grouping.None? ==> r == contentGroup
  {
    if grouping.None? then contentGroup else grouping
  }

  /** Lines 107-112 and 133-138: the first required tag (in the record's
      order) that is None ends the run. DATE and TRACKNUMBER are strings by
      the time the check runs, so only ALBUM and ALBUMARTIST can be None. */
  function RequireTags(tags: TagRecord): (r: Result<TagRecord>)
    ensures r.Ok? <==> tags.album.Some? && tags.albumArtist.Some?
    ensures r.Ok? ==> r.value == tags
    ensures tags.album.None? ==> r == Err(MissingRequiredTag("ALBUM"))
    ensures tags.album.Some? && tags.albumArtist.None? ==> r == Err(MissingRequiredTag("ALBUMARTIST"))
  {
    if tags.album.None? then Err(MissingRequiredTag("ALBUM"))
    else if tags.albumArtist.None? then Err(MissingRequiredTag("ALBUMARTIST"))
    else Ok(tags)
  }

  /** A value list that can be indexed with [0]. */
  predicate HasFirst(v: Option<seq<string>>) {
    v.Some? && v.value != []
  }

  /** `readflac`: DATE is the first date value, TRACKNUMBER the first track
      value padded to two digits, GROUPING falls back to CONTENTGROUP, and a
      missing ALBUM or ALBUMARTIST ends the run. Indexing a missing DATE or
      TRACKNUMBER raises before the check is reached. */
  function ReadFlac(file: string, content: FileContent): (r: Result<TagRecord>)
    ensures !content.VorbisComments? ==> r == Err(UnreadableAudio(file))
    ensures content.VorbisComments? ==>
      var f := content.fields;
      && (!HasFirst(Get(f, "date")) ==> r == Err(TagUnavailable("DATE")))
      && (HasFirst(Get(f, "date")) && !HasFirst(Get(f, "tracknumber")) ==> r == Err(TagUnavailable("TRACKNUMBER")))
      && (HasFirst(Get(f, "date")) && HasFirst(Get(f, "tracknumber")) ==>
            && (r.Ok? <==> "album" in f && "albumartist" in f)
            && ("album" !in f ==> r == Err(MissingRequiredTag("ALBUM")))
            && (r.Ok? ==>
                  && r.value.album == Some(f["album"]) && r.value.albumArtist == Some(f["albumartist"])
                  && r.value.artist == Get(f, "artist") && r.value.genre == Get(f, "genre")
                  && r.value.title == Get(f, "title") && r.value.comment == Get(f, "comment")
                  && r.value.date == f["date"][0]
                  && r.value.trackNumber == ZFill(f["tracknumber"][0], 2)
                  && r.value.grouping == (if "grouping" in f then Some(f["grouping"]) else Get(f, "contentgroup"))
                  && r.value.discNumber == DiscValues(Get(f, "discnumber"))))
  {
    match content
    case VorbisComments(f) =>
      var date := Get(f, "date");
      var track := Get(f, "tracknumber");
      if !HasFirst(date) then Err(TagUnavailable("DATE"))
      else if !HasFirst(track) then Err(TagUnavailable("TRACKNUMBER"))
      else
        RequireTags(TagRecord(
          Get(f, "album"), Get(f, "albumartist"), Get(f, "artist"),
          date.value[0], Get(f, "genre"), Get(f, "title"), Get(f, "comment"),
          GroupingOrContentGroup(Get(f, "grouping"), Get(f, "contentgroup")),
          ZFill(track.value[0], 2), DiscValues(Get(f, "discnumber"))))
    case _ => Err(UnreadableAudio(file))
  }

  /** `readmp3`: DATE is `str()` of the TDRC frame ("None" when absent),
      TRACKNUMBER and DISCNUMBER are `str()` of their frames with every "/…"
      removed, TRACKNUMBER then padded to two digits; GENRE reads the
      TCON frame's text, which raises when the frame is absent. */
  function ReadMp3(file: string, content: FileContent): (r: Result<TagRecord>)
    ensures !content.Id3Frames? ==> r == Err(UnreadableAudio(file))
    ensures content.Id3Frames? ==>
      var fr := content.frames;
      && ("TCON" !in fr ==> r == Err(TagUnavailable("GENRE")))
      && ("TCON" in fr ==>
            && (r.Ok? <==> "TALB" in fr && "TPE2" in fr)
            && ("TALB" !in fr ==> r == Err(MissingRequiredTag("ALBUM")))
            && (r.Ok? ==>
                  && r.value.album == Some(fr["TALB"].text) && r.value.albumArtist == Some(fr["TPE2"].text)
                  && r.value.artist == FrameValues(fr, "TPE1") && r.value.genre == Some(fr["TCON"].text)
                  && r.value.title == FrameValues(fr, "TIT2") && r.value.comment == FrameValues(fr, "COMM::eng")
                  && r.value.date == FrameText(fr, "TDRC")
                  && r.value.trackNumber == ZFill(DropSlashRuns(FrameText(fr, "TRCK")), 2)
                  && r.value.discNumber == DiscText(DropSlashRuns(FrameText(fr, "TPOS")))
                  && r.value.grouping == FrameValues(fr, "TIT1")))
  {
    match content
    case Id3Frames(fr) =>
      if "TCON" !in fr then Err(TagUnavailable("GENRE"))
      else
        RequireTags(TagRecord(
          FrameValues(fr, "TALB"), FrameValues(fr, "TPE2"), FrameValues(fr, "TPE1"),
          FrameText(fr, "TDRC"), Some(fr["TCON"].text), FrameValues(fr, "TIT2"),
          FrameValues(fr, "COMM::eng"), FrameValues(fr, "TIT1"),
          ZFill(DropSlashRuns(FrameText(fr, "TRCK")), 2),
          DiscText(DropSlashRuns(FrameText(fr, "TPOS")))))
    case _ => Err(UnreadableAudio(file))
  }

  /** `read.get(key)` for an ID3 frame, seen as its list of text values. */
  function FrameValues(frames: map<string, Frame>, key: string): (r: Option<seq<string>>)
    ensures r.Some? <==> key in frames
    ensures key in frames ==> r.value == frames[key].text
  {
    if key in frames then Some(frames[key].text) else None
  }

  /** An MP3 track number "n/total" on one line becomes n, padded to two digits;
      a missing TRCK frame gives "None". */
  lemma Mp3TrackNumber(frames: map<string, Frame>)
    requires "TRCK" in frames ==> '\n' !in frames["TRCK"].rendered
    ensures "TRCK" in frames ==>
      ZFill(DropSlashRuns(FrameText(frames, "TRCK")), 2) == ZFill(SplitOn(frames["TRCK"].rendered, '/')[0], 2)
    ensures "TRCK" !in frames ==> ZFill(DropSlashRuns(FrameText(frames, "TRCK")), 2) == "None"
  {
    if "TRCK" in frames {
      DropSlashRunsSingleLine(frames["TRCK"].rendered);
    } else {
      SplitWithoutSeparator("None", '/');
      DropSlashRunsSingleLine("None");
    }
  }

  const TracklistHeader := "[size=5][b]Tracklist[/b][/size]"

  /** Lines 331-334 and 347-350: "[b]disc-track[/b]. title", or
      "[b]track[/b]. title" when the disc number is absent (None for a FLAC
      file, the text "None" for an MP3 file). The disc value is indexed
      before the title. */
  function TracklistEntry(tags: TagRecord): (r: Result<string>)
    ensures r.Ok? <==>
      && HasFirst(tags.title)
      && (tags.discNumber.DiscValues? && tags.discNumber.values.Some? ==> tags.discNumber.values.value != [])
    ensures r.Ok? ==> r.value == "[b]" + DiscPrefix(tags.discNumber) + tags.trackNumber + "[/b]. " + tags.title.value[0]
  {
    match tags.discNumber
    case DiscValues(values) =>
      if values.Some? && values.value == [] then Err(TagUnavailable("DISCNUMBER"))
      else if !HasFirst(tags.title) then Err(TagUnavailable("TITLE"))
      else Ok("[b]" + DiscPrefix(tags.discNumber) + tags.trackNumber + "[/b]. " + tags.title.value[0])
    case DiscText(_) =>
      if !HasFirst(tags.title) then Err(TagUnavailable("TITLE"))
      else Ok("[b]" + DiscPrefix(tags.discNumber) + tags.trackNumber + "[/b]. " + tags.title.value[0])
  }

  /** "disc-" in front of the track number, or nothing when the disc is absent. */
  function DiscPrefix(disc: Disc): (p: string)
    requires disc.DiscValues? && disc.values.Some? ==> disc.values.value != []
    ensures disc == DiscValues(None) || disc == DiscText("None") ==> p == ""
    ensures disc.DiscValues? && disc.values.Some? ==> p == disc.values.value[0] + "-"
    ensures disc.DiscText? && disc.text != "None" ==> p == disc.text + "-"
  {
    match disc
    case DiscValues(values) => if values.None? then "" else values.value[0] + "-"
    case DiscText(text) => if text == "None" then "" else text + "-"
  }

  /** `generatelog`: the header, then one tracklist entry per line. Writing
      the text to the log file and reading it back returns it unchanged, so
      the file round trip is not modelled. */
  function GenerateLog(trackTitles: seq<string>): string {
    TracklistHeader + "\n" + Join(trackTitles, "\n") + "\n    "
  }

  /** The tracklist can be read back line by line: the header, the entries
      in order, and the indentation that closes the text. */
  lemma GenerateLogLines(trackTitles: seq<string>)
    requires trackTitles != []
    requires forall k :: 0 <= k < |trackTitles| ==> '\n' !in trackTitles[k]
    ensures SplitOn(GenerateLog(trackTitles), '\n') == [TracklistHeader] + trackTitles + ["    "]
  {
    var header, body, tail := TracklistHeader, Join(trackTitles, "\n"), "    ";
    assert GenerateLog(trackTitles) == header + ['\n'] + body + ['\n'] + tail;
    assert '\n' !in header;
    assert '\n' !in tail;
    SplitBetween(header, body, tail, '\n');
    SplitJoin(trackTitles, '\n');
  }

  /** Text framed by two separators splits into the frame and the pieces of the text. */
  lemma SplitBetween(header: string, body: string, tail: string, sep: char)
    requires sep !in header && sep !in tail
    ensures SplitOn(header + [sep] + body + [sep] + tail, sep) == [header] + SplitOn(body, sep) + [tail]
  {
    assert header + [sep] + body + [sep] + tail == header + [sep] + (body + [sep] + tail);
    SplitConcat(header, body + [sep] + tail, sep);
    SplitConcat(body, tail, sep);
    SplitWithoutSeparator(header, sep);
    SplitWithoutSeparator(tail, sep);
  }
}

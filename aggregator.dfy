/** The rest of `gatherdata` (lines 389-507): the running lists of the
    directory walk become the release record that is posted. Genres and
    album artists go through the resolver (which may write to the
    dictionary), duplicate values collapse into sets joined with commas in
    whatever order the sets yield, the album description is generated or
    read from a saved log, the release type comes from the grouping tag or
    from the operator, and a title or artist that reads as Korean is
    replaced by the operator's answer.

    The operator's answers are a sequence consumed in order; running out
    of answers is EOFError. */
module Aggregator {
  import opened Outcomes
  import opened Text
  import opened HangulDictionary
  import opened TermResolver
  import opened LanguageGate
  import opened TagReader
  import opened DirectoryScan

  /** Command-line switches and local preferences. `savedLogs` stands for
      the log directory: file name (without ".log") -> contents. */
  datatype Config = Config(
    generateTracklist: bool,
    enableReleaseDescription: bool,
    freeleech: bool,
    additionalTags: Option<string>,
    savedLogs: map<string, string>)

  /** `releasedata`. `titleJp` and `artistJp` are None when the key is not
      set; `freeleech` stands for the presence of the "freeleech" key. */
  datatype ReleaseRecord = ReleaseRecord(
    submit: string,
    releaseType: string,
    title: string,
    titleJp: Option<string>,
    artist: string,
    artistJp: Option<string>,
    releaseDate: string,
    format: string,
    bitrate: string,
    media: string,
    albumDesc: string,
    releaseDesc: string,
    tags: string,
    freeleech: bool)

  /** Lines 395-398: the extra genres given with `--tags`, split at commas. */
  function WithAdditionalTags(genres: seq<string>, additionalTags: Option<string>): (r: seq<string>)
    ensures additionalTags.None? ==> r == genres
    ensures additionalTags.Some? ==> |genres| <= |r| && r[..|genres|] == genres && Join(r[|genres|..], ",") == additionalTags.value
  {
    match additionalTags
    case None => genres
    case Some(extra) =>
      JoinSplit(extra, ',');
      assert (genres + SplitOn(extra, ','))[|genres|..] == SplitOn(extra, ',');
      genres + SplitOn(extra, ',')
  }

  /** `order` lists the members of `s` once each. */
  ghost predicate Enumerates(order: seq<string>, s: set<string>) {
    && (forall i, j :: 0 <= i < j < |order| ==> order[i] != order[j])
    && (forall x :: x in s <==> x in order)
  }

  /** `','.join(s)` for a set of strings: the members in some order, once each. */
  method JoinSet(s: set<string>) returns (joined: string)
    ensures exists order :: Enumerates(order, s) && joined == Join(order, ",")
  {
    var order: seq<string> := [];
    var remaining := s;
    while remaining != {}
      invariant remaining <= s
      invariant forall i, j :: 0 <= i < j < |order| ==> order[i] != order[j]
      invariant forall x :: x in order <==> x in s && x !in remaining
      decreases remaining
    {
      var x :| x in remaining;
      order := order + [x];
      remaining := remaining - {x};
    }
    joined := Join(order, ",");
  }

  /** A one-member set joins to that member. */
  lemma JoinSingleton(order: seq<string>, a: string)
    requires Enumerates(order, {a})
    ensures Join(order, ",") == a
  {
    assert a in order;
    assert forall k :: 0 <= k < |order| ==> order[k] in order;
  }

  /** The values of a set the script joins; a None in it raises TypeError. */
  function Present(s: set<Option<string>>): (r: Result<set<string>>)
    ensures None in s <==> r == Err(NullInJoin)
    ensures r.Ok? ==> forall x :: x in r.value <==> Some(x) in s
  {
    if None in s then Err(NullInJoin)
    else
      var values := set x | x in s :: x.value;
      assert forall x :: x in values <==> Some(x) in s by {
        forall x
          ensures x in values <==> Some(x) in s
        {
          if x in values {
            var y :| y in s && y.value == x;
            assert y == Some(x);
          }
          if Some(x) in s {
            assert Some(x).value in values;
          }
        }
      }
      Ok(values)
  }

  /** `','.join(s)` can give `joined`: the members of `s` once each, in
      some order, separated by commas. */
  ghost predicate Joins(s: set<string>, joined: string) {
    exists order :: Enumerates(order, s) && joined == Join(order, ",")
  }

  /** Some order in which a set can be walked. */
  ghost function SomeOrder(s: set<string>): (order: seq<string>)
    ensures Enumerates(order, s)
    decreases s
  {
    if s == {} then []
    else
      var x :| x in s;
      var rest := SomeOrder(s - {x});
      assert x !in rest;
      [x] + rest
  }

  /** Two walks of disjoint sets, one after the other, walk their union. */
  lemma EnumeratesAppend(a: seq<string>, b: seq<string>, s: set<string>, t: set<string>)
    requires Enumerates(a, s) && Enumerates(b, t) && s !! t
    ensures Enumerates(a + b, s + t)
  {
    forall i, j | 0 <= i < j < |a + b|
      ensures (a + b)[i] != (a + b)[j]
    {
      if j < |a| {
        assert (a + b)[i] == a[i] && (a + b)[j] == a[j];
      } else if i >= |a| {
        assert (a + b)[i] == b[i - |a|] && (a + b)[j] == b[j - |a|];
      } else {
        assert (a + b)[i] == a[i] && (a + b)[j] == b[j - |a|];
        assert a[i] in s && b[j - |a|] in t;
      }
    }
  }

  /** What one step leaves behind: its outcome and the dictionary after it.
      Every write made before a failure has already reached the file. */
  datatype Pass<T> = Pass(outcome: Result<T>, dict: Dict)

  /** A genre the resolver only looks up: after `strip()` it is all ASCII,
      has no parenthesised part and is not "Various Artists". */
  predicate LookupOnly(g: string) {
    var s := Strip(g);
    s != "Various Artists" && !HasParenGroup(s) && !HasNonAscii(s)
  }

  /** Position 0 of the answer for a look-up-only name in a non-empty
      category: the stored translation of a key, the name itself otherwise. */
  function LookedUp(c: Category, g: string): Option<string> {
    var s := Strip(g);
    if s in c then c[s] else Some(s)
  }

  /** The images under `f` of the members of `s`. */
  function Images(f: string -> Option<string>, s: set<string>): set<Option<string>> {
    set g | g in s :: f(g)
  }

  /** The images under `f` of the members of `order`, collected from the front. */
  function ImagesInOrder(f: string -> Option<string>, order: seq<string>): set<Option<string>>
    decreases |order|
  {
    if order == [] then {}
    else ImagesInOrder(f, order[..|order| - 1]) + {f(order[|order| - 1])}
  }

  /** The looked-up values of the genres taken in `order`. */
  function LookedUpInOrder(c: Category, order: seq<string>): set<Option<string>> {
    ImagesInOrder(g => LookedUp(c, g), order)
  }

  /** The looked-up values of a set of genres. */
  function LookedUpAll(c: Category, genres: set<string>): set<Option<string>> {
    Images(g => LookedUp(c, g), genres)
  }

  /** Line 402 for one genre: position 0 of the resolver's answer in the
      "genres" category; indexing a None answer raises TypeError. */
  function GenreTranslation(d: Dict, g: string): Pass<Option<string>> {
    match Resolve(d, g, "genres")
    case Err(e) => Pass(Err(e), d)
    case Ok(res) =>
      if res.output.None? then Pass(Err(UnsubscriptableTranslation), res.dict)
      else Pass(Ok(res.output.value.native), res.dict)
  }

  /** One genre fails exactly when the category is missing (KeyError) or is
      empty and the genre is only looked up (TypeError); a failure writes
      nothing, and a look-up-only genre gives its looked-up value. */
  lemma GenreTranslationOutcome(d: Dict, g: string)
    ensures var p := GenreTranslation(d, g);
      && (p.outcome.Err? <==> "genres" !in d || (d["genres"] == map[] && LookupOnly(g)))
      && (p.outcome.Err? ==> p.dict == d)
      && ("genres" !in d ==> p.outcome == Err(UnknownCategory("genres")))
      && ("genres" in d && p.outcome.Err? ==> p.outcome == Err(UnsubscriptableTranslation))
      && ("genres" in d && d["genres"] != map[] && LookupOnly(g) ==> p == Pass(Ok(LookedUp(d["genres"], g)), d))
  {
    ResolveFails(d, g, "genres");
  }

  /** One genre never removes a term or nulls a translation. */
  lemma GenreTranslationGrows(d: Dict, g: string)
    ensures Grows(d, GenreTranslation(d, g).dict)
  {
    if Resolve(d, g, "genres").Ok? {
      ResolveGrows(d, g, "genres");
    } else {
      GrowsReflexive(d);
    }
  }

  /** Line 402, `translate(g, "genres")[0]`, on the store. */
  method TranslateGenre(store: DictionaryStore, g: string) returns (r: Result<Option<string>>)
    modifies store
    ensures GenreTranslation(old(store.entries), g) == Pass(r, store.entries)
  {
    var answer := Translate(store, g, "genres");
    if answer.Err? {
      return Err(answer.error);
    }
    if answer.value.None? {
      return Err(UnsubscriptableTranslation);
    }
    r := Ok(answer.value.value.native);
  }

  /** Lines 401-403 with the genres taken in `order`: each answer is taken
      against the dictionary as the earlier genres left it, and the first
      failure ends the loop. */
  function TranslatedGenres(d: Dict, order: seq<string>): Pass<set<Option<string>>>
    decreases |order|
  {
    if order == [] then Pass(Ok({}), d)
    else
      var earlier := TranslatedGenres(d, order[..|order| - 1]);
      if earlier.outcome.Err? then earlier
      else
        var step := GenreTranslation(earlier.dict, order[|order| - 1]);
        if step.outcome.Err? then Pass(Err(step.outcome.error), step.dict)
        else Pass(Ok(earlier.outcome.value + {step.outcome.value}), step.dict)
  }

  /** One more genre after a walk that succeeded so far. */
  lemma TranslatedGenresSnoc(d: Dict, order: seq<string>, g: string, earlier: set<Option<string>>)
    requires TranslatedGenres(d, order).outcome == Ok(earlier)
    ensures var step := GenreTranslation(TranslatedGenres(d, order).dict, g);
      TranslatedGenres(d, order + [g])
        == if step.outcome.Err? then Pass(Err(step.outcome.error), step.dict)
           else Pass(Ok(earlier + {step.outcome.value}), step.dict)
  {
    assert (order + [g])[..|order|] == order;
  }

  /** A failure before the last genre is the outcome of the whole walk. */
  lemma FailureCarriesOver(d: Dict, order: seq<string>)
    requires order != [] && TranslatedGenres(d, order[..|order| - 1]).outcome.Err?
    ensures TranslatedGenres(d, order) == TranslatedGenres(d, order[..|order| - 1])
  {
  }

  /** Once a genre has failed, the genres after it change nothing. */
  lemma {:induction false} TranslatedGenresStop(d: Dict, order: seq<string>, rest: seq<string>)
    requires TranslatedGenres(d, order).outcome.Err?
    ensures TranslatedGenres(d, order + rest) == TranslatedGenres(d, order)
    decreases |rest|
  {
    if rest != [] {
      var o, pre := order + rest, order + rest[..|rest| - 1];
      assert o[..|o| - 1] == pre;
      TranslatedGenresStop(d, order, rest[..|rest| - 1]);
      FailureCarriesOver(d, o);
    } else {
      assert order + rest == order;
    }
  }

  /** Translating genres never removes a term or nulls a translation. */
  lemma {:induction false} TranslatedGenresGrows(d: Dict, order: seq<string>)
    ensures Grows(d, TranslatedGenres(d, order).dict)
    decreases |order|
  {
    if order == [] {
      GrowsReflexive(d);
    } else {
      var earlier := TranslatedGenres(d, order[..|order| - 1]);
      TranslatedGenresGrows(d, order[..|order| - 1]);
      if earlier.outcome.Ok? {
        GenreTranslationGrows(earlier.dict, order[|order| - 1]);
        GrowsTransitive(d, earlier.dict, GenreTranslation(earlier.dict, order[|order| - 1]).dict);
      }
    }
  }

  /** Without a "genres" category the first genre raises KeyError and
      nothing is written. */
  lemma {:induction false} TranslatedGenresUnknown(d: Dict, order: seq<string>)
    requires "genres" !in d && order != []
    ensures TranslatedGenres(d, order) == Pass(Err(UnknownCategory("genres")), d)
    decreases |order|
  {
    if |order| > 1 {
      TranslatedGenresUnknown(d, order[..|order| - 1]);
    }
  }

  /** A non-empty "genres" category never empties, so no genre's answer
      is None and the loop gets through every genre. */
  lemma {:induction false} TranslatedGenresSucceed(d: Dict, order: seq<string>)
    requires "genres" in d && d["genres"] != map[]
    ensures TranslatedGenres(d, order).outcome.Ok?
    ensures var d' := TranslatedGenres(d, order).dict; "genres" in d' && d'["genres"] != map[]
    decreases |order|
  {
    if order != [] {
      var earlier := TranslatedGenres(d, order[..|order| - 1]);
      TranslatedGenresSucceed(d, order[..|order| - 1]);
      var d1 := earlier.dict;
      var k :| k in d1["genres"];
      GenreTranslationOutcome(d1, order[|order| - 1]);
      GenreTranslationGrows(d1, order[|order| - 1]);
      var d2 := GenreTranslation(d1, order[|order| - 1]).dict;
      assert k in d2["genres"];
    }
  }

  /** A look-up-only genre after a walk that left the dictionary alone adds
      its looked-up value and leaves the dictionary alone too. */
  lemma LookupOnlyStep(d: Dict, order: seq<string>, earlier: set<Option<string>>)
    requires "genres" in d && d["genres"] != map[]
    requires order != [] && LookupOnly(order[|order| - 1])
    requires TranslatedGenres(d, order[..|order| - 1]) == Pass(Ok(earlier), d)
    ensures TranslatedGenres(d, order) == Pass(Ok(earlier + {LookedUp(d["genres"], order[|order| - 1])}), d)
  {
    GenreTranslationOutcome(d, order[|order| - 1]);
  }

  /** Genres that are only looked up leave the dictionary as it was and give
      exactly their looked-up values, in whatever order they are taken. */
  lemma {:induction false} LookupOnlyGenresInOrder(d: Dict, order: seq<string>)
    requires "genres" in d && d["genres"] != map[]
    requires forall i :: 0 <= i < |order| ==> LookupOnly(order[i])
    ensures TranslatedGenres(d, order) == Pass(Ok(LookedUpInOrder(d["genres"], order)), d)
    decreases |order|
  {
    if order != [] {
      var pre, g, c := order[..|order| - 1], order[|order| - 1], d["genres"];
      assert forall i :: 0 <= i < |pre| ==> pre[i] == order[i];
      LookupOnlyGenresInOrder(d, pre);
      LookupOnlyStep(d, order, LookedUpInOrder(c, pre));
    }
  }

  /** The images collected along `order` are those of its members. */
  lemma {:induction false} ImagesInOrderMembers(f: string -> Option<string>, order: seq<string>)
    ensures forall x :: x in ImagesInOrder(f, order) <==> exists i :: 0 <= i < |order| && x == f(order[i])
    decreases |order|
  {
    if order != [] {
      var pre := order[..|order| - 1];
      ImagesInOrderMembers(f, pre);
      forall x
        ensures x in ImagesInOrder(f, order) <==> exists i :: 0 <= i < |order| && x == f(order[i])
      {
        if x in ImagesInOrder(f, pre) {
          var i :| 0 <= i < |pre| && x == f(pre[i]);
          assert order[i] == pre[i];
        }
        if i :| 0 <= i < |order| && x == f(order[i]) {
          if i < |pre| {
            assert order[i] == pre[i];
          }
        }
      }
    }
  }

  /** Collecting along any walk of a set gives the images of the set. */
  lemma ImagesOfWalk(f: string -> Option<string>, order: seq<string>, s: set<string>)
    requires Enumerates(order, s)
    ensures ImagesInOrder(f, order) == Images(f, s)
  {
    ImagesInOrderMembers(f, order);
    forall x | x in Images(f, s)
      ensures x in ImagesInOrder(f, order)
    {
      var g :| g in s && x == f(g);
      var i :| 0 <= i < |order| && order[i] == g;
    }
  }

  /** The order-free form: a set of look-up-only genres translates to their
      looked-up values for every order Python may walk the set in. */
  lemma LookupOnlyGenres(d: Dict, genres: set<string>, order: seq<string>)
    requires "genres" in d && d["genres"] != map[]
    requires forall g :: g in genres ==> LookupOnly(g)
    requires Enumerates(order, genres)
    ensures TranslatedGenres(d, order) == Pass(Ok(LookedUpAll(d["genres"], genres)), d)
  {
    var c := d["genres"];
    assert forall i :: 0 <= i < |order| ==> order[i] in genres;
    LookupOnlyGenresInOrder(d, order);
    ImagesOfWalk(g => LookedUp(c, g), order, genres);
  }

  /** A walk that failed part-way is the outcome of a walk of the whole set. */
  lemma FailedWalk(d: Dict, order: seq<string>, genres: set<string>, remaining: set<string>)
    requires remaining <= genres && Enumerates(order, genres - remaining)
    requires TranslatedGenres(d, order).outcome.Err?
    ensures exists all :: Enumerates(all, genres) && TranslatedGenres(d, all) == TranslatedGenres(d, order)
  {
    var rest := SomeOrder(remaining);
    TranslatedGenresStop(d, order, rest);
    EnumeratesAppend(order, rest, genres - remaining, remaining);
    assert genres - remaining + remaining == genres;
  }

  /** Lines 401-403: every distinct genre is resolved in the "genres"
      category and position 0 of the answer is kept. The set is walked in an
      order Python leaves open; the result is that of `TranslatedGenres` for
      one such order. */
  method TranslateGenres(store: DictionaryStore, genres: set<string>) returns (r: Result<set<Option<string>>>)
    modifies store
    ensures exists order :: Enumerates(order, genres) && TranslatedGenres(old(store.entries), order) == Pass(r, store.entries)
  {
    ghost var d0 := store.entries;
    var translated: set<Option<string>> := {};
    var remaining := genres;
    ghost var order: seq<string> := [];
    while remaining != {}
      invariant remaining <= genres
      invariant Enumerates(order, genres - remaining)
      invariant TranslatedGenres(d0, order) == Pass(Ok(translated), store.entries)
      decreases remaining
    {
      var g :| g in remaining;
      var native := TranslateGenre(store, g);
      TranslatedGenresSnoc(d0, order, g, translated);
      EnumeratesAppend(order, [g], genres - remaining, {g});
      order := order + [g];
      remaining := remaining - {g};
      if native.Err? {
        FailedWalk(d0, order, genres, remaining);
        return Err(native.error);
      }
      translated := translated + {native.value};
    }
    r := Ok(translated);
    assert genres - remaining == genres;
  }

  /** Lines 406-412: the loop runs once per distinct album artist, but
      every pass resolves the album artist of the LAST file read; "Various
      Artists" becomes "V.A.", anything else position 1 of the answer in
      the "artist" category. Resolving the same name again returns the same
      answer and writes nothing new, so the result has at most one member. */
  method TranslateAlbumArtists(store: DictionaryStore, albumArtists: set<string>, lastAlbumArtist: seq<string>)
    returns (r: Result<set<Option<string>>>)
    modifies store
    ensures Grows(old(store.entries), store.entries)
    ensures albumArtists == {} ==> r == Ok({}) && store.entries == old(store.entries)
    ensures albumArtists != {} && lastAlbumArtist == [] ==>
      r == Err(TagUnavailable("ALBUMARTIST")) && store.entries == old(store.entries)
    ensures albumArtists != {} && lastAlbumArtist != [] && lastAlbumArtist[0] == "Various Artists" ==>
      r == Ok({Some("V.A.")}) && store.entries == old(store.entries)
    ensures albumArtists != {} && lastAlbumArtist != [] && lastAlbumArtist[0] != "Various Artists" ==>
      var res := Resolve(old(store.entries), lastAlbumArtist[0], "artist");
      && (res.Err? ==> r == Err(res.error) && store.entries == old(store.entries))
      && (res.Ok? && res.value.output.None? ==> r == Err(UnsubscriptableTranslation) && store.entries == res.value.dict)
      && (res.Ok? && res.value.output.Some? ==>
            r == Ok({res.value.output.value.latin}) && store.entries == res.value.dict)
  {
    ghost var d0 := store.entries;
    GrowsReflexive(d0);
    var translated: set<Option<string>> := {};
    var remaining := albumArtists;
    while remaining != {}
      invariant remaining <= albumArtists
      invariant Grows(d0, store.entries)
      invariant remaining == albumArtists ==> translated == {} && store.entries == d0
      invariant remaining != albumArtists ==> lastAlbumArtist != []
      invariant remaining != albumArtists && lastAlbumArtist[0] == "Various Artists" ==>
        translated == {Some("V.A.")} && store.entries == d0
      invariant remaining != albumArtists && lastAlbumArtist[0] != "Various Artists" ==>
        var res := Resolve(d0, lastAlbumArtist[0], "artist");
        res.Ok? && res.value.output.Some?
        && translated == {res.value.output.value.latin} && store.entries == res.value.dict
      decreases remaining
    {
      var a :| a in remaining;
      if |lastAlbumArtist| == 0 {
        return Err(TagUnavailable("ALBUMARTIST"));
      }
      if lastAlbumArtist[0] == "Various Artists" {
        translated := translated + {Some("V.A.")};
      } else {
        if remaining != albumArtists {
          ResolveIdempotent(d0, lastAlbumArtist[0], "artist");
        }
        ghost var before := store.entries;
        var answer := Translate(store, lastAlbumArtist[0], "artist");
        if answer.Ok? {
          ResolveGrows(before, lastAlbumArtist[0], "artist");
          GrowsTransitive(d0, before, store.entries);
        }
        if answer.Err? {
          return Err(answer.error);
        }
        if answer.value.None? {
          return Err(UnsubscriptableTranslation);
        }
        translated := translated + {answer.value.value.latin};
      }
      remaining := remaining - {a};
    }
    r := Ok(translated);
  }

  /** The album artist of the last file is all that reaches the record:
      one artist name (not "Various Artists") with a latin side joins to
      exactly that side, and "Various Artists" joins to "V.A.". */
  lemma AlbumArtistsJoinToOneName(translated: set<Option<string>>, name: string, order: seq<string>)
    requires translated == {Some(name)}
    requires Present(translated).Ok?
    requires Enumerates(order, Present(translated).value)
    ensures Join(order, ",") == name
  {
    assert Present(translated).value == {name} by {
      forall x
        ensures x in Present(translated).value <==> x == name
      {
      }
    }
    JoinSingleton(order, name);
  }

  /** Lines 405-412 as a value: what `TranslateAlbumArtists` returns and the
      dictionary it leaves behind. */
  function AlbumArtistTranslation(d: Dict, albumArtists: set<string>, lastAlbumArtist: seq<string>): Pass<set<Option<string>>> {
    if albumArtists == {} then Pass(Ok({}), d)
    else if lastAlbumArtist == [] then Pass(Err(TagUnavailable("ALBUMARTIST")), d)
    else if lastAlbumArtist[0] == "Various Artists" then Pass(Ok({Some("V.A.")}), d)
    else
      match Resolve(d, lastAlbumArtist[0], "artist")
      case Err(e) => Pass(Err(e), d)
      case Ok(res) =>
        if res.output.None? then Pass(Err(UnsubscriptableTranslation), res.dict)
        else Pass(Ok({res.output.value.latin}), res.dict)
  }

  /** However many album artists there are, at most one value comes out,
      and a failure is a missing ALBUMARTIST, an unknown "artist" category
      or a None answer. */
  lemma AlbumArtistTranslationFacts(d: Dict, albumArtists: set<string>, lastAlbumArtist: seq<string>)
    ensures var p := AlbumArtistTranslation(d, albumArtists, lastAlbumArtist);
      && (p.outcome.Ok? ==> forall x, y :: x in p.outcome.value && y in p.outcome.value ==> x == y)
      && (p.outcome.Err? ==>
            p.outcome.error in {TagUnavailable("ALBUMARTIST"), UnknownCategory("artist"), UnsubscriptableTranslation})
  {
    if albumArtists != {} && lastAlbumArtist != [] && lastAlbumArtist[0] != "Various Artists" {
      ResolveFails(d, lastAlbumArtist[0], "artist");
    }
  }

  /** Translating the album artists never removes a term or nulls a translation. */
  lemma AlbumArtistTranslationGrows(d: Dict, albumArtists: set<string>, lastAlbumArtist: seq<string>)
    ensures Grows(d, AlbumArtistTranslation(d, albumArtists, lastAlbumArtist).dict)
  {
    if albumArtists != {} && lastAlbumArtist != [] && lastAlbumArtist[0] != "Various Artists"
       && Resolve(d, lastAlbumArtist[0], "artist").Ok? {
      ResolveGrows(d, lastAlbumArtist[0], "artist");
    } else {
      GrowsReflexive(d);
    }
  }

  /** Lines 424-429: the album description is the generated tracklist, or
      the saved log named by the first comment of the last file read. */
  function AlbumDescription(config: Config, tags: Option<TagRecord>, tracklist: seq<string>): (r: Result<string>)
    ensures tags.None? ==> r == Err(NoTagsRead)
    ensures tags.Some? && config.generateTracklist ==>
      (r.Ok? <==> HasFirst(tags.value.album)) && (r.Ok? ==> r.value == GenerateLog(tracklist))
    ensures tags.Some? && !config.generateTracklist ==>
      && (r.Ok? <==> HasFirst(tags.value.comment) && tags.value.comment.value[0] in config.savedLogs)
      && (r.Ok? ==> r.value == config.savedLogs[tags.value.comment.value[0]])
      && (HasFirst(tags.value.comment) && r.Err? ==> r == Err(LogNotFound(tags.value.comment.value[0])))
  {
    match tags
    case None => Err(NoTagsRead)
    case Some(t) =>
      if config.generateTracklist then
        if !HasFirst(t.album) then Err(TagUnavailable("ALBUM"))
        else Ok(GenerateLog(tracklist))
      else if !HasFirst(t.comment) then Err(TagUnavailable("COMMENT"))
      else
        var name := t.comment.value[0];
        if name in config.savedLogs then Ok(config.savedLogs[name]) else Err(LogNotFound(name))
  }

  const BugsPrefix := "Sourced from [url=https://music.bugs.co.kr/album/"
  const BugsSuffix := "]Bugs[/url]"

  /** Lines 433-441: a link to the album page named by the first comment,
      or nothing when the option is off or the comment cannot be indexed. */
  function ReleaseDescription(config: Config, tags: TagRecord): (r: string)
    ensures !config.enableReleaseDescription || !HasFirst(tags.comment) ==> r == ""
    ensures config.enableReleaseDescription && HasFirst(tags.comment) ==>
      && |r| == |BugsPrefix| + |tags.comment.value[0]| + |BugsSuffix|
      && r[..|BugsPrefix|] == BugsPrefix
      && r[|BugsPrefix|..|r| - |BugsSuffix|] == tags.comment.value[0]
      && EndsWith(r, BugsSuffix)
  {
    if config.enableReleaseDescription && HasFirst(tags.comment) then
      var r := BugsPrefix + tags.comment.value[0] + BugsSuffix;
      assert r[..|BugsPrefix|] == BugsPrefix;
      assert r[|BugsPrefix|..|r| - |BugsSuffix|] == tags.comment.value[0];
      r
    else ""
  }

  predicate IsAcceptedType(t: string) {
    t == "Album" || t == "Single"
  }

  /** The position of the first accepted answer at or after `from`. */
  function FirstAccepted(answers: seq<string>, from: nat): (k: Option<nat>)
    requires from <= |answers|
    ensures k.Some? ==> from <= k.value < |answers| && IsAcceptedType(answers[k.value])
    ensures k.Some? ==> forall j :: from <= j < k.value ==> !IsAcceptedType(answers[j])
    ensures k.None? ==> forall j :: from <= j < |answers| ==> !IsAcceptedType(answers[j])
    decreases |answers| - from
  {
    if from == |answers| then None
    else if IsAcceptedType(answers[from]) then Some(from)
    else FirstAccepted(answers, from + 1)
  }

  /** Lines 455-463 as a value: the type settled on and the first answer
      left unread. A guess that is "Album" or "Single" is kept; otherwise the
      operator is asked until one of the two is given. */
  function Settled(guess: Option<string>, answers: seq<string>, next: nat): (s: (Result<string>, nat))
    requires next <= |answers|
    ensures next <= s.1 <= |answers|
    ensures s.0.Ok? ==> IsAcceptedType(s.0.value)
    ensures s.0.Err? ==> s.0 == Err(EndOfInput) && s.1 == |answers|
    ensures s.0.Err? <==>
      !(guess.Some? && IsAcceptedType(guess.value)) && forall j :: next <= j < |answers| ==> !IsAcceptedType(answers[j])
    ensures guess.Some? && IsAcceptedType(guess.value) ==> s == (Ok(guess.value), next)
    ensures s.0.Ok? && !(guess.Some? && IsAcceptedType(guess.value)) ==> next < s.1 && s.0.value == answers[s.1 - 1]
  {
    if guess.Some? && IsAcceptedType(guess.value) then (Ok(guess.value), next)
    else
      match FirstAccepted(answers, next)
      case Some(k) => (Ok(answers[k]), k + 1)
      case None => (Err(EndOfInput), |answers|)
  }

  /** Lines 455-463: a release type that is not "Album" or "Single" (or is
      missing) is asked for again until the operator gives one of the two.
      `next` is the first unread answer; `after` the first one left. */
  method SettleReleaseType(guess: Option<string>, answers: seq<string>, next: nat) returns (r: Result<string>, after: nat)
    requires next <= |answers|
    ensures (r, after) == Settled(guess, answers, next)
  {
    if guess.Some? && IsAcceptedType(guess.value) {
      return Ok(guess.value), next;
    }
    after := next;
    while true
      invariant next <= after <= |answers|
      invariant FirstAccepted(answers, next) == FirstAccepted(answers, after)
      decreases |answers| - after
    {
      if after == |answers| {
        return Err(EndOfInput), after;
      }
      var answer := answers[after];
      after := after + 1;
      if IsAcceptedType(answer) {
        return Ok(answer), after;
      }
    }
  }

  /** A release type, the dictionary after it was looked up, and the first
      answer left unread. */
  datatype Asked = Asked(outcome: Result<string>, dict: Dict, after: nat)

  /** Line 454 and what follows: the operator is asked for the type, and
      asked again until "Album" or "Single" is given. */
  function Prompted(d: Dict, answers: seq<string>): Asked {
    if answers == [] then Asked(Err(EndOfInput), d, 0)
    else
      var s := Settled(Some(answers[0]), answers, 1);
      Asked(s.0, d, s.1)
  }

  /** The first grouping value is "Album" or "Single" once translated. */
  ghost predicate GroupingAccepted(d: Dict, grouping: Option<seq<string>>) {
    && HasFirst(grouping)
    && var res := Resolve(d, grouping.value[0], "release_types");
    && res.Ok? && res.value.output.Some? && res.value.output.value.native.Some?
    && IsAcceptedType(res.value.output.value.native.value)
  }

  /** Lines 448-463 as a value: the release type is position 0 of the
      resolver's answer for the first grouping value; a missing grouping or
      a None answer (TypeError) asks the operator instead, an empty grouping
      raises IndexError, and anything but "Album" or "Single" is asked for
      again. */
  function ReleaseTypeChoice(d: Dict, grouping: Option<seq<string>>, answers: seq<string>): (c: Asked)
    ensures c.after <= |answers|
    ensures Grows(d, c.dict)
    ensures c.outcome.Ok? ==> IsAcceptedType(c.outcome.value)
    ensures grouping == Some([]) ==> c == Asked(Err(TagUnavailable("GROUPING")), d, 0)
    ensures HasFirst(grouping) && "release_types" !in d ==> c == Asked(Err(UnknownCategory("release_types")), d, 0)
    ensures GroupingAccepted(d, grouping) ==>
      c.outcome == Ok(Resolve(d, grouping.value[0], "release_types").value.output.value.native.value) && c.after == 0
    ensures c.outcome == Err(EndOfInput) ==> forall j :: 0 <= j < |answers| ==> !IsAcceptedType(answers[j])
    ensures (&& grouping != Some([])
             && (HasFirst(grouping) ==> "release_types" in d)
             && exists j :: 0 <= j < |answers| && IsAcceptedType(answers[j])) ==> c.outcome.Ok?
  {
    match grouping
    case None =>
      GrowsReflexive(d);
      Prompted(d, answers)
    case Some(values) =>
      if values == [] then
        GrowsReflexive(d);
        Asked(Err(TagUnavailable("GROUPING")), d, 0)
      else
        ResolveFails(d, values[0], "release_types");
        match Resolve(d, values[0], "release_types")
        case Err(e) =>
          GrowsReflexive(d);
          Asked(Err(e), d, 0)
        case Ok(res) =>
          ResolveGrows(d, values[0], "release_types");
          if res.output.None? then Prompted(res.dict, answers)
          else
            var s := Settled(res.output.value.native, answers, 0);
            Asked(s.0, res.dict, s.1)
  }

  /** Lines 448-463 on the store. */
  method ChooseReleaseType(store: DictionaryStore, grouping: Option<seq<string>>, answers: seq<string>)
    returns (r: Result<string>, after: nat)
    modifies store
    ensures Asked(r, store.entries, after) == ReleaseTypeChoice(old(store.entries), grouping, answers)
  {
    var next := 0;
    var guess: Option<string>;
    if grouping.None? {
      if next == |answers| {
        return Err(EndOfInput), next;
      }
      guess := Some(answers[next]);
      next := next + 1;
    } else if grouping.value == [] {
      return Err(TagUnavailable("GROUPING")), next;
    } else {
      var answer := Translate(store, grouping.value[0], "release_types");
      if answer.Err? {
        return Err(answer.error), next;
      }
      if answer.value.None? {
        if next == |answers| {
          return Err(EndOfInput), next;
        }
        guess := Some(answers[next]);
        next := next + 1;
      } else {
        guess := answer.value.value.native;
      }
    }
    r, after := SettleReleaseType(guess, answers, next);
  }

  /** How many of the title and the artist fail the language check, and so
      how many answers the checks read. */
  ghost function Questions(record: ReleaseRecord, detect: string -> Option<string>): nat {
    (if PassesGate(record.title, detect) then 0 else 1) + (if PassesGate(record.artist, detect) then 0 else 1)
  }

  /** Lines 486-505 as a value: a title or artist in which a character is
      classified as Korean is replaced by the operator's next answer, the
      title keeping the original as `titleJp`; the second component is the
      first answer left unread. */
  ghost function LanguageChecked(record: ReleaseRecord, detect: string -> Option<string>, answers: seq<string>, next: nat)
    : (g: (Result<ReleaseRecord>, nat))
    requires next <= |answers|
    ensures next <= g.1 <= |answers|
    ensures g.0.Err? <==> |answers| - next < Questions(record, detect)
    ensures g.0.Err? ==> g.0 == Err(EndOfInput) && g.1 == |answers|
    ensures g.0.Ok? ==> g.1 == next + Questions(record, detect)
    ensures g.0.Ok? ==> g.0.value == record.(title := g.0.value.title, titleJp := g.0.value.titleJp, artist := g.0.value.artist)
    ensures g.0.Ok? && PassesGate(record.title, detect) ==> g.0.value.title == record.title && g.0.value.titleJp == record.titleJp
    ensures g.0.Ok? && !PassesGate(record.title, detect) ==>
      g.0.value.title == answers[next] && g.0.value.titleJp == Some(record.title)
    ensures g.0.Ok? && PassesGate(record.artist, detect) ==> g.0.value.artist == record.artist
    ensures g.0.Ok? && !PassesGate(record.artist, detect) ==> g.0.value.artist == answers[g.1 - 1]
  {
    var titlePasses := PassesGate(record.title, detect);
    if !titlePasses && next == |answers| then (Err(EndOfInput), next)
    else
      var titled := if titlePasses then record else record.(titleJp := Some(record.title), title := answers[next]);
      var k := if titlePasses then next else next + 1;
      if PassesGate(record.artist, detect) then (Ok(titled), k)
      else if k == |answers| then (Err(EndOfInput), k)
      else (Ok(titled.(artist := answers[k])), k + 1)
  }

  /** Lines 486-505: the language checks, asking the operator as they go. */
  method ApplyLanguageGate(record: ReleaseRecord, detect: string -> Option<string>, answers: seq<string>, next: nat)
    returns (r: Result<ReleaseRecord>, after: nat)
    requires next <= |answers|
    ensures (r, after) == LanguageChecked(record, detect, answers, next)
  {
    var result := record;
    after := next;
    var en := DetectLanguage(result.title, detect);
    if !en {
      if after == |answers| {
        return Err(EndOfInput), after;
      }
      result := result.(titleJp := Some(result.title), title := answers[after]);
      after := after + 1;
    }
    en := DetectLanguage(result.artist, detect);
    if !en {
      if after == |answers| {
        return Err(EndOfInput), after;
      }
      result := result.(artist := answers[after]);
      after := after + 1;
    }
    r := Ok(result);
  }

  /** The three comma-joined values of the record. */
  datatype Names = Names(albumArtists: string, trackArtists: string, genres: string)

  /** The three sets lines 415-417 join. */
  datatype NameSets = NameSets(albumArtists: set<string>, trackArtists: set<string>, genres: set<string>)

  /** The distinct genres, the extra ones included. */
  function GenreSet(genres: seq<string>, additionalTags: Option<string>): set<string> {
    set g | g in WithAdditionalTags(genres, additionalTags)
  }

  function AlbumArtistSet(st: ScanState): set<string> {
    set a | a in st.albumArtists
  }

  function TrackArtistSet(st: ScanState): set<string> {
    set a | a in st.trackArtists
  }

  /** `tags['ALBUMARTIST']` of the last file read. */
  function LastAlbumArtist(st: ScanState): seq<string> {
    if st.tags.Some? && st.tags.value.albumArtist.Some? then st.tags.value.albumArtist.value else []
  }

  /** Album artists were collected and the last file read names "Various Artists". */
  predicate VariousArtistsRelease(st: ScanState) {
    st.albumArtists != [] && LastAlbumArtist(st) != [] && LastAlbumArtist(st)[0] == "Various Artists"
  }

  /** Lines 394-417 up to the joins, with the genres taken in `order`: the
      genres are translated, then the album artists, then the album-artist,
      track-artist and genre sets are joined in that order, a None in a
      joined set raising TypeError. */
  function NamesToJoin(d: Dict, st: ScanState, order: seq<string>): Pass<NameSets> {
    var genres := TranslatedGenres(d, order);
    if genres.outcome.Err? then Pass(Err(genres.outcome.error), genres.dict)
    else
      var artists := AlbumArtistTranslation(genres.dict, AlbumArtistSet(st), LastAlbumArtist(st));
      Pass(SetsToJoin(genres.outcome.value, artists.outcome, TrackArtistSet(st)), artists.dict)
  }

  /** Lines 412-417 once the genres are translated: a failed album-artist
      translation, then a None among the album artists, then a None among
      the genres. */
  function SetsToJoin(genres: set<Option<string>>, albumArtists: Result<set<Option<string>>>,
                      trackArtists: set<string>): Result<NameSets> {
    if albumArtists.Err? then Err(albumArtists.error)
    else
      var albumArtistValues := Present(albumArtists.value);
      var genreValues := Present(genres);
      if albumArtistValues.Err? then Err(albumArtistValues.error)
      else if genreValues.Err? then Err(genreValues.error)
      else Ok(NameSets(albumArtistValues.value, trackArtists, genreValues.value))
  }

  /** `names` and the dictionary `d'` are what lines 394-417 give when the
      genre set is walked in `order`. */
  ghost predicate NamesFrom(d: Dict, st: ScanState, additionalTags: Option<string>, order: seq<string>,
                            names: Result<Names>, d': Dict) {
    && Enumerates(order, GenreSet(st.genres, additionalTags))
    && var p := NamesToJoin(d, st, order);
    && d' == p.dict
    && (p.outcome.Err? ==> names == Err(p.outcome.error))
    && (p.outcome.Ok? ==>
          && names.Ok?
          && Joins(p.outcome.value.albumArtists, names.value.albumArtists)
          && Joins(p.outcome.value.trackArtists, names.value.trackArtists)
          && Joins(p.outcome.value.genres, names.value.genres))
  }

  /** Lines 394-417: extra genres are added, the genres and then the album
      artists are resolved, and the three sets are joined. */
  method ResolveNames(store: DictionaryStore, st: ScanState, additionalTags: Option<string>) returns (r: Result<Names>)
    modifies store
    ensures exists order :: NamesFrom(old(store.entries), st, additionalTags, order, r, store.entries)
  {
    ghost var d0 := store.entries;
    var genreSet := GenreSet(st.genres, additionalTags);
    var genres := TranslateGenres(store, genreSet);
    ghost var order :| Enumerates(order, genreSet) && TranslatedGenres(d0, order) == Pass(genres, store.entries);
    if genres.Err? {
      r := Err(genres.error);
      assert NamesFrom(d0, st, additionalTags, order, r, store.entries);
      return;
    }
    ghost var d1 := store.entries;
    var albumArtists := TranslateAlbumArtists(store, AlbumArtistSet(st), LastAlbumArtist(st));
    assert AlbumArtistTranslation(d1, AlbumArtistSet(st), LastAlbumArtist(st)) == Pass(albumArtists, store.entries);
    if albumArtists.Err? {
      r := Err(albumArtists.error);
      assert NamesFrom(d0, st, additionalTags, order, r, store.entries);
      return;
    }
    var albumArtistValues := Present(albumArtists.value);
    if albumArtistValues.Err? {
      r := Err(albumArtistValues.error);
      assert NamesFrom(d0, st, additionalTags, order, r, store.entries);
      return;
    }
    var albumArtistsJoined := JoinSet(albumArtistValues.value);
    var trackArtistsJoined := JoinSet(TrackArtistSet(st));
    var genreValues := Present(genres.value);
    if genreValues.Err? {
      r := Err(genreValues.error);
      assert NamesFrom(d0, st, additionalTags, order, r, store.entries);
      return;
    }
    var genresJoined := JoinSet(genreValues.value);
    r := Ok(Names(albumArtistsJoined, trackArtistsJoined, genresJoined));
    assert NamesFrom(d0, st, additionalTags, order, r, store.entries);
  }

  /** Resolving the names never removes a term or nulls a translation. */
  lemma NamesGrow(d: Dict, st: ScanState, order: seq<string>)
    ensures Grows(d, NamesToJoin(d, st, order).dict)
  {
    var genres := TranslatedGenres(d, order);
    TranslatedGenresGrows(d, order);
    NamesDict(d, st, order);
    if genres.outcome.Ok? {
      var artists := AlbumArtistTranslation(genres.dict, AlbumArtistSet(st), LastAlbumArtist(st));
      AlbumArtistTranslationGrows(genres.dict, AlbumArtistSet(st), LastAlbumArtist(st));
      GrowsTransitive(d, genres.dict, artists.dict);
    }
  }

  /** The dictionary the names leave: that of the genres when they fail,
      that of the album artists otherwise. */
  lemma NamesDict(d: Dict, st: ScanState, order: seq<string>)
    ensures var genres := TranslatedGenres(d, order);
      NamesToJoin(d, st, order).dict
        == if genres.outcome.Err? then genres.dict
           else AlbumArtistTranslation(genres.dict, AlbumArtistSet(st), LastAlbumArtist(st)).dict
  {
  }

  /** A "Various Artists" release is posted as "V.A.". */
  lemma VariousArtistsNamed(d: Dict, st: ScanState, additionalTags: Option<string>, order: seq<string>,
                            names: Result<Names>, d': Dict)
    requires NamesFrom(d, st, additionalTags, order, names, d')
    requires names.Ok? && VariousArtistsRelease(st)
    ensures names.value.albumArtists == "V.A."
  {
    var genres := TranslatedGenres(d, order);
    assert st.albumArtists[0] in AlbumArtistSet(st);
    assert AlbumArtistTranslation(genres.dict, AlbumArtistSet(st), LastAlbumArtist(st)).outcome == Ok({Some("V.A.")});
    var p := NamesToJoin(d, st, order);
    var joinOrder :| Enumerates(joinOrder, p.outcome.value.albumArtists) && names.value.albumArtists == Join(joinOrder, ",");
    AlbumArtistsJoinToOneName({Some("V.A.")}, "V.A.", joinOrder);
  }

  /** Any other release is posted under position 1 of the resolver's answer
      for the last file's album artist, taken once the genres are resolved. */
  lemma AlbumArtistNamed(d: Dict, st: ScanState, additionalTags: Option<string>, order: seq<string>,
                         names: Result<Names>, d': Dict)
    requires NamesFrom(d, st, additionalTags, order, names, d')
    requires names.Ok? && st.albumArtists != [] && !VariousArtistsRelease(st)
    ensures LastAlbumArtist(st) != []
    ensures var res := Resolve(TranslatedGenres(d, order).dict, LastAlbumArtist(st)[0], "artist");
      && res.Ok? && res.value.output.Some? && res.value.output.value.latin.Some?
      && names.value.albumArtists == res.value.output.value.latin.value
  {
    var genres := TranslatedGenres(d, order);
    assert st.albumArtists[0] in AlbumArtistSet(st);
    var artists := AlbumArtistTranslation(genres.dict, AlbumArtistSet(st), LastAlbumArtist(st));
    var res := Resolve(genres.dict, LastAlbumArtist(st)[0], "artist");
    var name := res.value.output.value.latin;
    assert artists.outcome == Ok({name});
    assert name.Some?;
    var p := NamesToJoin(d, st, order);
    var joinOrder :| Enumerates(joinOrder, p.outcome.value.albumArtists) && names.value.albumArtists == Join(joinOrder, ",");
    AlbumArtistsJoinToOneName({name}, name.value, joinOrder);
  }

  /** The present values of a set. */
  function Values(v: set<Option<string>>): set<string> {
    set x | x in v && x.Some? :: x.value
  }

  /** Without a None, the join gets exactly the present values. */
  lemma PresentValues(v: set<Option<string>>)
    requires None !in v
    ensures Present(v) == Ok(Values(v))
  {
    forall x
      ensures x in Values(v) <==> Some(x) in v
    {
      if x in Values(v) {
        var y :| y in v && y.Some? && y.value == x;
        assert y == Some(x);
      }
      if Some(x) in v {
        assert Some(x).value in Values(v);
      }
    }
    assert Present(v).value == Values(v);
  }

  /** The posted form of look-up-only genres: the stored translation, or
      the genre itself when the category does not hold it. */
  function PostedGenres(c: Category, genres: set<string>): set<string> {
    Values(LookedUpAll(c, genres))
  }

  /** Genres that are only looked up are posted as their stored
      translations (a genre the category does not hold as itself), joined
      in some order. */
  lemma LookupOnlyGenresNamed(d: Dict, st: ScanState, additionalTags: Option<string>, order: seq<string>,
                              names: Result<Names>, d': Dict)
    requires NamesFrom(d, st, additionalTags, order, names, d')
    requires names.Ok?
    requires "genres" in d && d["genres"] != map[]
    requires forall g :: g in GenreSet(st.genres, additionalTags) ==> LookupOnly(g)
    ensures forall g :: g in GenreSet(st.genres, additionalTags) ==> LookedUp(d["genres"], g).Some?
    ensures Joins(PostedGenres(d["genres"], GenreSet(st.genres, additionalTags)), names.value.genres)
  {
    var genreSet, c := GenreSet(st.genres, additionalTags), d["genres"];
    LookupOnlyGenres(d, genreSet, order);
    var p := NamesToJoin(d, st, order);
    assert p.outcome.Ok?;
    assert Present(LookedUpAll(c, genreSet)).Ok?;
    forall g | g in genreSet
      ensures LookedUp(c, g).Some?
    {
      assert LookedUp(c, g) in LookedUpAll(c, genreSet);
    }
    assert None !in LookedUpAll(c, genreSet);
    PresentValues(LookedUpAll(c, genreSet));
  }

  /** Lines 445-482: the record before the language checks. The title is
      the album; the track artists are posted as `artistjp` only when they
      join to a different text than the album artists; the release date
      keeps only the digits of DATE. */
  function AssembleRecord(releaseType: string, album: string, names: Names, date: string,
                          format: string, bitrate: string, media: string,
                          albumDesc: string, releaseDesc: string, freeleech: bool): (r: ReleaseRecord)
    ensures r.submit == "true" && r.releaseType == releaseType
    ensures r.title == album && r.titleJp.None?
    ensures r.artist == names.albumArtists && r.tags == names.genres
    ensures r.artistJp.Some? <==> names.albumArtists != names.trackArtists
    ensures r.artistJp.Some? ==> r.artistJp.value == names.trackArtists
    ensures forall k :: 0 <= k < |r.releaseDate| ==> IsDigit(r.releaseDate[k])
    ensures r.releaseDate == DigitsOnly(date)
    ensures r.format == format && r.bitrate == bitrate && r.media == media
    ensures r.albumDesc == albumDesc && r.releaseDesc == releaseDesc && r.freeleech == freeleech
  {
    ReleaseRecord(
      "true", releaseType, album, None, names.albumArtists,
      if names.albumArtists != names.trackArtists then Some(names.trackArtists) else None,
      DigitsOnly(date), format, bitrate, media, albumDesc, releaseDesc, names.genres, freeleech)
  }

  /** What the directory walk leaves for the record: the tags of the last
      file read can be indexed, and format, bitrate and media are set
      whenever tags were read. */
  predicate Usable(st: ScanState) {
    st.tags.Some? ==> HasFirst(st.tags.value.album) && st.format.Some? && st.bitrate.Some? && st.media.Some?
  }

  /** Lines 419-505 once the names are joined: the album description, the
      release description, the release type, the record and the language
      checks. */
  ghost function Completed(d: Dict, st: ScanState, config: Config, detect: string -> Option<string>,
                           answers: seq<string>, names: Names): (p: Pass<ReleaseRecord>)
    requires Usable(st)
    ensures Grows(d, p.dict)
    ensures st.tags.None? ==> p == Pass(Err(NoTagsRead), d)
    ensures p.outcome.Ok? ==>
      var tags := st.tags.value;
      var record := p.outcome.value;
      && st.tags.Some?
      && AlbumDescription(config, st.tags, st.tracklist).Ok?
      && record.submit == "true"
      && IsAcceptedType(record.releaseType)
      && record.format == st.format.value && record.bitrate == st.bitrate.value && record.media == st.media.value
      && record.releaseDate == DigitsOnly(tags.date)
      && record.albumDesc == AlbumDescription(config, st.tags, st.tracklist).value
      && record.releaseDesc == ReleaseDescription(config, tags)
      && record.tags == names.genres
      && record.freeleech == config.freeleech
      && (record.artistJp.Some? <==> names.albumArtists != names.trackArtists)
      && (record.artistJp.Some? ==> record.artistJp.value == names.trackArtists)
      && (PassesGate(tags.album.value[0], detect) ==> record.title == tags.album.value[0] && record.titleJp.None?)
      && (!PassesGate(tags.album.value[0], detect) ==> record.titleJp == Some(tags.album.value[0]))
      && (PassesGate(names.albumArtists, detect) ==> record.artist == names.albumArtists)
  {
    match AlbumDescription(config, st.tags, st.tracklist)
    case Err(e) =>
      GrowsReflexive(d);
      Pass(Err(e), d)
    case Ok(albumDesc) =>
      var tags := st.tags.value;
      var choice := ReleaseTypeChoice(d, tags.grouping, answers);
      if choice.outcome.Err? then Pass(Err(choice.outcome.error), choice.dict)
      else
        var record := AssembleRecord(choice.outcome.value, tags.album.value[0], names, tags.date,
                                     st.format.value, st.bitrate.value, st.media.value,
                                     albumDesc, ReleaseDescription(config, tags), config.freeleech);
        Pass(LanguageChecked(record, detect, answers, choice.after).0, choice.dict)
  }

  /** Lines 419-505 on the store. */
  method CompleteRecord(store: DictionaryStore, st: ScanState, config: Config,
                        detect: string -> Option<string>, answers: seq<string>, names: Names)
    returns (r: Result<ReleaseRecord>)
    requires Usable(st)
    modifies store
    ensures Completed(old(store.entries), st, config, detect, answers, names) == Pass(r, store.entries)
  {
    var albumDesc := AlbumDescription(config, st.tags, st.tracklist);
    if albumDesc.Err? {
      return Err(albumDesc.error);
    }
    var tags := st.tags.value;
    var releaseDesc := ReleaseDescription(config, tags);
    var releaseType, next := ChooseReleaseType(store, tags.grouping, answers);
    if releaseType.Err? {
      return Err(releaseType.error);
    }
    var record := AssembleRecord(releaseType.value, tags.album.value[0], names, tags.date,
                                 st.format.value, st.bitrate.value, st.media.value,
                                 albumDesc.value, releaseDesc, config.freeleech);
    r, next := ApplyLanguageGate(record, detect, answers, next);
  }

  /** `r` and the dictionary `d'` are what lines 389-505 give for the walk
      `st`, for one order of each set Python walks. */
  ghost predicate Builds(d: Dict, st: ScanState, config: Config, detect: string -> Option<string>,
                         answers: seq<string>, r: Result<ReleaseRecord>, d': Dict) {
    && Usable(st)
    && exists order, names, dNames ::
      && NamesFrom(d, st, config.additionalTags, order, names, dNames)
      && (names.Err? ==> r == Err(names.error) && d' == dNames)
      && (names.Ok? ==> Completed(dNames, st, config, detect, answers, names.value) == Pass(r, d'))
  }

  /** Lines 389-507: everything after the directory walk. */
  method BuildRecord(store: DictionaryStore, st: ScanState, config: Config,
                     detect: string -> Option<string>, answers: seq<string>)
    returns (r: Result<ReleaseRecord>)
    requires Usable(st)
    modifies store
    ensures Builds(old(store.entries), st, config, detect, answers, r, store.entries)
  {
    ghost var d0 := store.entries;
    var names := ResolveNames(store, st, config.additionalTags);
    ghost var order :| NamesFrom(d0, st, config.additionalTags, order, names, store.entries);
    ghost var dNames := store.entries;
    if names.Err? {
      return Err(names.error);
    }
    r := CompleteRecord(store, st, config, detect, answers, names.value);
  }

  /** `gatherdata(directory)`: the directory walk, then the record. */
  method GatherData(store: DictionaryStore, entries: seq<DirEntry>, config: Config,
                    detect: string -> Option<string>, answers: seq<string>)
    returns (r: Result<ReleaseRecord>)
    modifies store
    ensures Scan(entries).Err? ==> r == Err(Scan(entries).error) && store.entries == old(store.entries)
    ensures Scan(entries).Ok? ==> Builds(old(store.entries), Scan(entries).value, config, detect, answers, r, store.entries)
  {
    var scanned := ScanDirectory(entries);
    if scanned.Err? {
      return Err(scanned.error);
    }
    ScanConsistent(entries);
    r := BuildRecord(store, scanned.value, config, detect, answers);
  }

  /** Building a record never removes a term or nulls a translation. */
  lemma BuildsGrow(d: Dict, st: ScanState, config: Config, detect: string -> Option<string>,
                   answers: seq<string>, r: Result<ReleaseRecord>, d': Dict)
    requires Builds(d, st, config, detect, answers, r, d')
    ensures Grows(d, d')
  {
    var order, names, dNames :| NamesFrom(d, st, config.additionalTags, order, names, dNames)
      && (names.Err? ==> r == Err(names.error) && d' == dNames)
      && (names.Ok? ==> Completed(dNames, st, config, detect, answers, names.value) == Pass(r, d'));
    NamesGrow(d, st, order);
    if names.Ok? {
      GrowsTransitive(d, dNames, d');
    }
  }

  /** A release is posted when nothing stops it: the genres are ASCII names
      the "genres" category does not hold as null, the album artist
      translates to a name, the album description can be had, the release
      type settles, and two answers remain for the language checks. */
  lemma RecordBuilt(d: Dict, st: ScanState, config: Config, detect: string -> Option<string>,
                    answers: seq<string>, r: Result<ReleaseRecord>, d': Dict)
    requires Builds(d, st, config, detect, answers, r, d')
    requires "genres" in d && d["genres"] != map[]
    requires forall g :: g in GenreSet(st.genres, config.additionalTags) ==> LookupOnly(g) && LookedUp(d["genres"], g).Some?
    requires var artists := AlbumArtistTranslation(d, AlbumArtistSet(st), LastAlbumArtist(st));
      artists.outcome.Ok? && None !in artists.outcome.value
    requires AlbumDescription(config, st.tags, st.tracklist).Ok?
    requires var choice := ReleaseTypeChoice(AlbumArtistTranslation(d, AlbumArtistSet(st), LastAlbumArtist(st)).dict,
                                             st.tags.value.grouping, answers);
      choice.outcome.Ok? && choice.after + 2 <= |answers|
    ensures r.Ok?
  {
    var order, names, dNames :| NamesFrom(d, st, config.additionalTags, order, names, dNames)
      && (names.Err? ==> r == Err(names.error) && d' == dNames)
      && (names.Ok? ==> Completed(dNames, st, config, detect, answers, names.value) == Pass(r, d'));
    NamesJoined(d, st, config.additionalTags, order);
    CompletedOk(dNames, st, config, detect, answers, names.value);
  }

  /** The names are joined when the genres are only looked up to present
      values and the album artists translate to a name; the dictionary is
      then the one the album artists leave. */
  lemma NamesJoined(d: Dict, st: ScanState, additionalTags: Option<string>, order: seq<string>)
    requires Enumerates(order, GenreSet(st.genres, additionalTags))
    requires "genres" in d && d["genres"] != map[]
    requires forall g :: g in GenreSet(st.genres, additionalTags) ==> LookupOnly(g) && LookedUp(d["genres"], g).Some?
    requires var artists := AlbumArtistTranslation(d, AlbumArtistSet(st), LastAlbumArtist(st));
      artists.outcome.Ok? && None !in artists.outcome.value
    ensures NamesToJoin(d, st, order).outcome.Ok?
    ensures NamesToJoin(d, st, order).dict == AlbumArtistTranslation(d, AlbumArtistSet(st), LastAlbumArtist(st)).dict
  {
    var genreSet := GenreSet(st.genres, additionalTags);
    LookupOnlyGenres(d, genreSet, order);
    assert None !in LookedUpAll(d["genres"], genreSet);
  }

  /** The record is completed when the album description can be had, the
      release type settles and two answers remain for the language checks. */
  lemma CompletedOk(d: Dict, st: ScanState, config: Config, detect: string -> Option<string>,
                    answers: seq<string>, names: Names)
    requires Usable(st)
    requires AlbumDescription(config, st.tags, st.tracklist).Ok?
    requires var choice := ReleaseTypeChoice(d, st.tags.value.grouping, answers);
      choice.outcome.Ok? && choice.after + 2 <= |answers|
    ensures Completed(d, st, config, detect, answers, names).outcome.Ok?
  {
  }

  /** What a posted record says about the listing it came from: one format,
      its bitrate, media "CD" exactly when a log is present, and the date,
      title and descriptions of the last audio file. */
  lemma GatheredRecord(entries: seq<DirEntry>, d: Dict, config: Config, detect: string -> Option<string>,
                       answers: seq<string>, r: Result<ReleaseRecord>, d': Dict)
    requires Scan(entries).Ok?
    requires Builds(d, Scan(entries).value, config, detect, answers, r, d')
    requires r.Ok?
    ensures entries != [] && Scan(entries).value.tags.Some? && HasFirst(Scan(entries).value.tags.value.album)
    ensures var tags := Scan(entries).value.tags.value;
      var record := r.value;
      && record.submit == "true"
      && IsAcceptedType(record.releaseType)
      && record.format == (if AnyEntry(entries, IsFlac) then "FLAC" else "MP3")
      && record.bitrate == (if AnyEntry(entries, IsFlac) then "Lossless" else "320")
      && record.media == (if AnyEntry(entries, IsLog) then "CD" else "WEB")
      && record.releaseDate == DigitsOnly(tags.date)
      && record.releaseDesc == ReleaseDescription(config, tags)
      && record.freeleech == config.freeleech
      && (config.generateTracklist ==> record.albumDesc == GenerateLog(Scan(entries).value.tracklist))
      && (PassesGate(tags.album.value[0], detect) ==> record.title == tags.album.value[0] && record.titleJp.None?)
      && (!PassesGate(tags.album.value[0], detect) ==> record.titleJp == Some(tags.album.value[0]))
  {
    var st := Scan(entries).value;
    ScanConsistent(entries);
    var order, names, dNames :| NamesFrom(d, st, config.additionalTags, order, names, dNames)
      && (names.Err? ==> r == Err(names.error) && d' == dNames)
      && (names.Ok? ==> Completed(dNames, st, config, detect, answers, names.value) == Pass(r, d'));
  }
}

/** `translate(string, category)`: turns a display string into a
    `[native, latin]` pair, consulting the Hangul dictionary and recording
    what it learns there.

    `Resolve` states the whole effect of one call as a value (the pair and
    the dictionary afterwards); `Translate` is the step-by-step procedure on
    the store, proved to have exactly that effect; the lemmas below state
    what a call promises in each of its cases. */
module TermResolver {
  import opened Outcomes
  import opened Text
  import opened HangulDictionary

  /** `[native, latin]`; either side may be None. */
  datatype Pair = Pair(native: Option<string>, latin: Option<string>)

  /** What one call returns (None when nothing was assigned to `output`)
      and the dictionary it leaves behind. */
  datatype Resolution = Resolution(output: Option<Pair>, dict: Dict)

  /** How lines 241-251 classify the two halves of a parenthesised name. */
  datatype Script = Korean | English

  /** Lines 235-237: the text before the first `(`, and the piece after it
      up to the next `(` with every `)` removed; both stripped. */
  function ParenParts(s: string): (string, string)
    requires '(' in s
  {
    SplitOnPieces(s, '(');
    var pieces := SplitOn(s, '(');
    (Strip(pieces[0]), Strip(RemoveChar(pieces[1], ')')))
  }

  /** The effect of `translate(input, category)` on dictionary `d`. */
  function Resolve(d: Dict, input: string, category: string): Result<Resolution> {
    if category !in d then Err(UnknownCategory(category))
    else
      var s := Strip(input);
      if s == "Various Artists" then Ok(Resolution(Some(Pair(Some("Various Artists"), None)), d))
      else if HasParenGroup(s) then Ok(ResolveParenthesised(d, s, category))
      else Ok(ResolvePlain(d, s, category))
  }

  /** Lines 231-275: "X (Y)". The half that is not ASCII is the native form
      and the other its translation; two Hangul halves record the text before
      the parenthesis (twice) with no translation. */
  function ResolveParenthesised(d: Dict, s: string, category: string): (r: Resolution)
    requires category in d && '(' in s
    ensures r.output.Some? && r.output.value.native.Some?
  {
    var (pre, inner) := ParenParts(s);
    if HasNonAscii(pre) && HasNonAscii(inner) then
      var d1 := Upserted(d, category, pre, "None");
      Resolution(Some(Pair(Some(pre), None)), Upserted(d1, category, pre, "None"))
    else if HasNonAscii(pre) then
      Resolution(Some(Pair(Some(pre), Some(inner))), Upserted(d, category, pre, inner))
    else
      Resolution(Some(Pair(Some(inner), Some(pre))), Upserted(d, category, inner, pre))
  }

  /** Lines 277-302: a name without a parenthesised part. A Hangul name is
      looked up and recorded when new; an ASCII name is only looked up. */
  function ResolvePlain(d: Dict, s: string, category: string): (r: Resolution)
    requires category in d
    ensures r.output.Some? ==> r.output.value.native.Some? || r.output.value.latin.Some?
  {
    if HasNonAscii(s) then
      if s in d[category] then Resolution(Some(Pair(Some(s), d[category][s])), d)
      else Resolution(Some(Pair(Some(s), None)), Upserted(d, category, s, "None"))
    else
      var search := d[category];
      if s in search then Resolution(Some(Pair(search[s], Some(s))), d)
      else if search == map[] then Resolution(None, d)
      else Resolution(Some(Pair(Some(s), Some(s))), d)
  }

  /** Lines 297-302: the scan of a category for an all-ASCII term. The loop
      may visit the keys in any order; the outcome is the same for all of
      them, because at most one key equals the term. */
  method ScanCategory(search: Category, s: string) returns (output: Option<Pair>)
    ensures s in search ==> output == Some(Pair(search[s], Some(s)))
    ensures s !in search && search != map[] ==> output == Some(Pair(Some(s), Some(s)))
    ensures search == map[] ==> output == None
  {
    output := None;
    var remaining := search.Keys;
    while remaining != {}
      invariant remaining <= search.Keys
      invariant s in search ==> s in remaining
      invariant remaining == search.Keys ==> output == None
      invariant remaining != search.Keys ==> output == Some(Pair(Some(s), Some(s)))
      decreases remaining
    {
      var key :| key in remaining;
      if key == s {
        output := Some(Pair(search[key], Some(s)));
        break;
      } else {
        output := Some(Pair(Some(s), Some(s)));
      }
      remaining := remaining - {key};
    }
  }

  /** Lines 231-275 on the store: split "X (Y)", decide which half is the
      native form, and record it. */
  method RecordParenthesised(store: DictionaryStore, s: string, category: string) returns (output: Pair)
    requires category in store.entries && '(' in s
    modifies store
    ensures var res := ResolveParenthesised(old(store.entries), s, category);
      res.output == Some(output) && store.entries == res.dict
  {
    SplitOnPieces(s, '(');
    var parenthesis := SplitOn(s, '(');
    var prePart := Strip(parenthesis[0]);
    var inPart := Strip(RemoveChar(parenthesis[1], ')'));
    var first: Script, second: Script;
    if HasNonAscii(prePart) && HasNonAscii(inPart) {
      first, second := Korean, Korean;
    } else if HasNonAscii(prePart) {
      first, second := Korean, English;
    } else {
      first, second := English, Korean;
    }
    var hangul: Option<string>, english: Option<string>;
    if first == Korean && second == English {
      hangul, english := Some(prePart), Some(inPart);
      var _ := store.AddToHangulDict(prePart, english, category);
    } else if first == English && second == Korean {
      hangul, english := Some(inPart), Some(prePart);
      var _ := store.AddToHangulDict(inPart, english, category);
    } else if first == Korean && second == Korean {
      hangul, english := Some(prePart), None;
      var _ := store.AddToHangulDict(prePart, None, category);
      var _ := store.AddToHangulDict(prePart, None, category);
    } else {
      // both English: the classification above never produces this case
      assert false;
      hangul, english := None, Some(prePart);
    }
    output := Pair(hangul, english);
  }

  /** Lines 277-302 on the store: look a name up, recording a new Hangul name. */
  method LookUpPlain(store: DictionaryStore, s: string, category: string) returns (output: Option<Pair>)
    requires category in store.entries
    modifies store
    ensures var res := ResolvePlain(old(store.entries), s, category);
      res.output == output && store.entries == res.dict
  {
    var search := store.entries[category];
    if HasNonAscii(s) {
      if s in search {
        output := Some(Pair(Some(s), search[s]));
      } else {
        output := Some(Pair(Some(s), None));
        var _ := store.AddToHangulDict(s, None, category);
      }
    } else {
      output := ScanCategory(search, s);
    }
  }

  /** `translate(input, category)` on the dictionary held by `store`. */
  method Translate(store: DictionaryStore, input: string, category: string) returns (r: Result<Option<Pair>>)
    modifies store
    ensures var res := Resolve(old(store.entries), input, category);
      && (res.Err? ==> r == Err(res.error) && store.entries == old(store.entries))
      && (res.Ok? ==> r == Ok(res.value.output) && store.entries == res.value.dict)
  {
    if category !in store.entries {
      return Err(UnknownCategory(category));
    }
    var s := Strip(input);
    var output: Option<Pair>;
    if s == "Various Artists" {
      output := Some(Pair(Some("Various Artists"), None));
    } else if HasParenGroup(s) {
      var pair := RecordParenthesised(store, s, category);
      output := Some(pair);
    } else {
      output := LookUpPlain(store, s, category);
    }
    r := Ok(output);
  }

  /** A name with nothing around it and no parenthesis of its own. */
  predicate IsPlainName(x: string) {
    x != [] && IsStripped(x) && '(' !in x
  }

  /** An alias that can sit between the parentheses of "X (Y)". */
  predicate IsPlainAlias(y: string) {
    IsStripped(y) && '(' !in y && ')' !in y && '\n' !in y
  }

  /** "X (Y)" is left alone by `strip()`, is not "Various Artists" and
      matches the parenthesis search. */
  lemma ParenthesisedIsGroup(x: string, y: string)
    requires IsPlainName(x) && IsPlainAlias(y)
    ensures var s := x + " (" + y + ")";
      Strip(s) == s && s != "Various Artists" && HasParenGroup(s) && '(' in s
  {
    var s := x + " (" + y + ")";
    assert s[0] == x[0] && s[|s| - 1] == ')';
    StripOfStripped(s);
    var i, j := |x| + 1, |s| - 1;
    assert s[i] == '(' && s[j] == ')';
    assert forall k :: i < k < j ==> s[k] == y[k - i - 1];
    assert NoNewlineBetween(s, i, j);
    assert '(' !in "Various Artists";
  }

  /** Splitting "X (Y)" at `(` gives "X " and "Y)". */
  lemma ParenthesisedPieces(x: string, y: string)
    requires '(' !in x && '(' !in y
    ensures SplitOn(x + " (" + y + ")", '(') == [x + [' '], y + [')']]
  {
    assert x + " (" + y + ")" == (x + [' ']) + ['('] + (y + [')']);
    SplitConcat(x + [' '], y + [')'], '(');
    SplitWithoutSeparator(x + [' '], '(');
    SplitWithoutSeparator(y + [')'], '(');
  }

  /** Removing the closing parenthesis from "Y)" and stripping gives Y. */
  lemma ClosingRemoved(y: string)
    requires IsPlainAlias(y)
    ensures Strip(RemoveChar(y + [')'], ')')) == y
  {
    FilterConcat(y, [')'], c => c != ')');
    RemoveCharAbsent(y, ')');
    assert RemoveChar(y + [')'], ')') == y;
    StripOfStripped(y);
  }

  /** "X (Y)" takes the parenthesis branch and splits into exactly X and Y. */
  lemma ParenthesisedSplits(x: string, y: string)
    requires IsPlainName(x) && IsPlainAlias(y)
    ensures var s := x + " (" + y + ")";
      && Strip(s) == s && s != "Various Artists" && HasParenGroup(s)
      && '(' in s && ParenParts(s) == (x, y)
  {
    ParenthesisedIsGroup(x, y);
    ParenthesisedPieces(x, y);
    StripTrailingSpace(x);
    ClosingRemoved(y);
  }

  /** Native first, "블랙핑크 (BLACKPINK)": the pair is [X, Y] and the
      dictionary now maps X to Y. */
  lemma ResolveNativeFirst(d: Dict, category: string, x: string, y: string)
    requires category in d
    requires IsPlainName(x) && IsPlainAlias(y)
    requires HasNonAscii(x) && !HasNonAscii(y)
    ensures var r := Resolve(d, x + " (" + y + ")", category);
      && r.Ok?
      && r.value.output == Some(Pair(Some(x), Some(y)))
      && r.value.dict == Upserted(d, category, x, y)
      && (y != "None" ==> r.value.dict[category][x] == Some(y))
  {
    ParenthesisedSplits(x, y);
  }

  /** Latin first: whatever the script of Y, the pair is [Y, X] and the
      dictionary now maps Y to X. */
  lemma ResolveLatinFirst(d: Dict, category: string, x: string, y: string)
    requires category in d
    requires IsPlainName(x) && IsPlainAlias(y)
    requires !HasNonAscii(x)
    ensures var r := Resolve(d, x + " (" + y + ")", category);
      && r.Ok?
      && r.value.output == Some(Pair(Some(y), Some(x)))
      && r.value.dict == Upserted(d, category, y, x)
      && (x != "None" ==> r.value.dict[category][y] == Some(x))
  {
    ParenthesisedSplits(x, y);
  }

  /** Both halves Hangul: the pair is [X, None]; only X is recorded, as a
      null that never overwrites a translation X already has, and Y is not
      recorded at all. */
  lemma ResolveBothNative(d: Dict, category: string, x: string, y: string)
    requires category in d
    requires IsPlainName(x) && IsPlainAlias(y)
    requires HasNonAscii(x) && HasNonAscii(y)
    ensures var r := Resolve(d, x + " (" + y + ")", category);
      && r.Ok?
      && r.value.output == Some(Pair(Some(x), None))
      && r.value.dict == Upserted(d, category, x, "None")
      && x in r.value.dict[category]
      && (x in d[category] ==> r.value.dict == d)
      && (y != x && y !in d[category] ==> y !in r.value.dict[category])
  {
    ParenthesisedSplits(x, y);
    UpsertIdempotent(d, category, x, "None");
  }

  /** A Hangul term without parentheses: a known term comes back with its
      stored translation (possibly None) and nothing is written; an unknown
      one comes back untranslated and is recorded with a null. */
  lemma ResolveNativePlain(d: Dict, category: string, input: string)
    requires category in d
    requires !HasParenGroup(Strip(input)) && HasNonAscii(Strip(input))
    ensures var s := Strip(input);
      var r := Resolve(d, input, category);
      && r.Ok?
      && (s in d[category] ==> r.value == Resolution(Some(Pair(Some(s), d[category][s])), d))
      && (s !in d[category] ==>
            r.value == Resolution(Some(Pair(Some(s), None)), d[category := d[category][s := None]]))
  {
    VariousArtistsIsAscii();
  }

  lemma VariousArtistsIsAscii()
    ensures !HasNonAscii("Various Artists")
  {
    var s := "Various Artists";
    assert forall k :: 0 <= k < |s| ==> IsAscii(s[k]);
  }

  /** An all-ASCII term without parentheses is only looked up: [stored, s]
      for a key, [s, s] for any other term of a non-empty category, None
      for an empty category; the dictionary is never written. */
  lemma ResolveLatinPlain(d: Dict, category: string, input: string)
    requires category in d
    requires !HasParenGroup(Strip(input)) && !HasNonAscii(Strip(input))
    requires Strip(input) != "Various Artists"
    ensures var s := Strip(input);
      var r := Resolve(d, input, category);
      && r.Ok? && r.value.dict == d
      && (s in d[category] ==> r.value.output == Some(Pair(d[category][s], Some(s))))
      && (s !in d[category] && d[category] != map[] ==> r.value.output == Some(Pair(Some(s), Some(s))))
      && (d[category] == map[] ==> r.value.output == None)
  {
  }

  /** Resolving the same string again right away returns the same pair and
      writes nothing new. */
  lemma ResolveIdempotent(d: Dict, input: string, category: string)
    requires Resolve(d, input, category).Ok?
    ensures var r1 := Resolve(d, input, category).value;
      Resolve(r1.dict, input, category) == Ok(Resolution(r1.output, r1.dict))
  {
    var s := Strip(input);
    if s != "Various Artists" && HasParenGroup(s) {
      var (pre, inner) := ParenParts(s);
      if HasNonAscii(pre) && HasNonAscii(inner) {
        UpsertIdempotent(d, category, pre, "None");
      } else if HasNonAscii(pre) {
        UpsertIdempotent(d, category, pre, inner);
      } else {
        UpsertIdempotent(d, category, inner, pre);
      }
    }
  }

  /** A call never removes a category or a term and never nulls a translation. */
  lemma ResolveGrows(d: Dict, input: string, category: string)
    requires Resolve(d, input, category).Ok?
    ensures Grows(d, Resolve(d, input, category).value.dict)
  {
    var s := Strip(input);
    if s != "Various Artists" && HasParenGroup(s) {
      var (pre, inner) := ParenParts(s);
      if HasNonAscii(pre) && HasNonAscii(inner) {
        var d1 := Upserted(d, category, pre, "None");
        UpsertGrows(d, category, pre, "None");
        UpsertGrows(d1, category, pre, "None");
        GrowsTransitive(d, d1, Upserted(d1, category, pre, "None"));
      } else if HasNonAscii(pre) {
        UpsertGrows(d, category, pre, inner);
      } else {
        UpsertGrows(d, category, inner, pre);
      }
    } else if s != "Various Artists" && HasNonAscii(s) && s !in d[category] {
      UpsertGrows(d, category, s, "None");
    }
  }

  /** The only failure is an unknown category. */
  lemma ResolveFails(d: Dict, input: string, category: string)
    ensures Resolve(d, input, category).Err? <==> category !in d
    ensures Resolve(d, input, category).Err? ==> Resolve(d, input, category).error == UnknownCategory(category)
  {
  }

  /** A returned pair never has both sides missing. */
  lemma ResolveNeverBothNull(d: Dict, input: string, category: string)
    requires Resolve(d, input, category).Ok?
    requires Resolve(d, input, category).value.output.Some?
    ensures var p := Resolve(d, input, category).value.output.value;
      p.native.Some? || p.latin.Some?
  {
  }

  lemma BlackpinkExample(d: Dict)
    requires "artist" in d
    ensures var r := Resolve(d, "블랙핑크" + " (" + "BLACKPINK" + ")", "artist");
      && r.Ok?
      && r.value.output == Some(Pair(Some("블랙핑크"), Some("BLACKPINK")))
      && r.value.dict == Upserted(d, "artist", "블랙핑크", "BLACKPINK")
    ensures Upserted(d, "artist", "블랙핑크", "BLACKPINK")["artist"]["블랙핑크"] == Some("BLACKPINK")
  {
    var x, y := "블랙핑크", "BLACKPINK";
    assert HasNonAscii(x) by { assert !IsAscii(x[0]); }
    assert !HasNonAscii(y) by { assert forall k :: 0 <= k < |y| ==> IsAscii(y[k]); }
    assert IsPlainName(x) by { assert x[0] == '블' && x[|x| - 1] == '크'; }
    assert IsPlainAlias(y);
    assert y != "None";
    ResolveNativeFirst(d, "artist", x, y);
  }

  /** Two Latin halves: the alias in parentheses is taken as the native form
      and recorded with the outer name as its translation. */
  lemma BothLatinExample(d: Dict)
    requires "artist" in d
    ensures var r := Resolve(d, "IU" + " (" + "Lee Jieun" + ")", "artist");
      && r.Ok?
      && r.value.output == Some(Pair(Some("Lee Jieun"), Some("IU")))
      && r.value.dict == Upserted(d, "artist", "Lee Jieun", "IU")
    ensures Upserted(d, "artist", "Lee Jieun", "IU")["artist"]["Lee Jieun"] == Some("IU")
  {
    var x, y := "IU", "Lee Jieun";
    assert forall k :: 0 <= k < |x| ==> IsAscii(x[k]);
    ResolveLatinFirst(d, "artist", x, y);
  }
}

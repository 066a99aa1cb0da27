/** The persistent Hangul dictionary: category -> (native term -> translation
    or null), and `add_to_hangul_dict`, the one operation that writes it.
    The JSON file is modelled as the field `entries` of a store object; the
    reload at the start of the operation and the rewrite at its end become
    a copy of that field and an assignment back to it. */
module HangulDictionary {
  import opened Outcomes

  /** term -> translation, where None is the JSON `null` ("no translation yet"). */
  type Category = map<string, Option<string>>
  type Dict = map<string, Category>

  /** Python's `str()` on a translation argument: None becomes the text "None". */
  function PyStr(v: Option<string>): (s: string)
    ensures v.Some? ==> s == v.value
    ensures v.None? ==> s == "None"
  {
    match v
    case Some(x) => x
    case None => "None"
  }

  /** The dictionary after upserting `term` with the (already `str()`-ed)
      `english` into an existing category. The text "None" stands for "no
      translation": it inserts an explicit null for an absent term and is
      otherwise ignored. */
  function Upserted(d: Dict, category: string, term: string, english: string): (d': Dict)
    requires category in d
    ensures d'.Keys == d.Keys
    ensures d'[category].Keys == d[category].Keys + {term}
    ensures english != "None" ==> d'[category][term] == Some(english)
    ensures english == "None" && term in d[category] ==> d' == d
    ensures english == "None" && term !in d[category] ==> d'[category][term] == None
    ensures forall c :: c in d && c != category ==> d'[c] == d[c]
    ensures forall t :: t in d[category] && t != term ==> d'[category][t] == d[category][t]
  {
    var cat := d[category];
    if term in cat then
      if cat[term].None? then
        if english != "None" then d[category := cat[term := Some(english)]] else d
      else
        // only update if an English word has been supplied
        if english != "None" then d[category := cat[term := Some(english)]] else d
    else
      if english == "None" then d[category := cat[term := None]]
      else d[category := cat[term := Some(english)]]
  }

  /** Upserting the same entry again changes nothing. */
  lemma UpsertIdempotent(d: Dict, category: string, term: string, english: string)
    requires category in d
    ensures Upserted(Upserted(d, category, term, english), category, term, english)
         == Upserted(d, category, term, english)
  {
    var d1 := Upserted(d, category, term, english);
    if english != "None" {
      assert d1[category][term] == Some(english);
      assert d1[category][term := Some(english)] == d1[category];
      assert d1[category := d1[category]] == d1;
    }
  }

  /** The store only ever grows: no category or term disappears and no
      recorded translation is turned back into null. */
  ghost predicate Grows(d: Dict, d': Dict) {
    && d.Keys <= d'.Keys
    && (forall c :: c in d ==> d[c].Keys <= d'[c].Keys)
    && (forall c, t :: c in d && t in d[c] && d[c][t].Some? ==> d'[c][t].Some?)
  }

  lemma GrowsReflexive(d: Dict)
    ensures Grows(d, d)
  {
  }

  lemma GrowsTransitive(d1: Dict, d2: Dict, d3: Dict)
    requires Grows(d1, d2) && Grows(d2, d3)
    ensures Grows(d1, d3)
  {
  }

  lemma UpsertGrows(d: Dict, category: string, term: string, english: string)
    requires category in d
    ensures Grows(d, Upserted(d, category, term, english))
  {
  }

  /** Lines 185-192: the freshly loaded dictionary is copied, category by
      category and entry by entry, into a new one. The iteration order of the
      two Python loops is left open: every order yields the same copy. */
  method CopyDictionary(d: Dict) returns (copy: Dict)
    ensures copy == d
  {
    copy := map[];
    var cats := d.Keys;
    while cats != {}
      invariant cats <= d.Keys
      invariant copy.Keys == d.Keys - cats
      invariant forall c :: c in copy ==> copy[c] == d[c]
      decreases cats
    {
      var c :| c in cats;
      var inner: Category := map[];
      var keys := d[c].Keys;
      while keys != {}
        invariant keys <= d[c].Keys
        invariant inner.Keys == d[c].Keys - keys
        invariant forall t :: t in inner ==> inner[t] == d[c][t]
        decreases keys
      {
        var t :| t in keys;
        inner := inner[t := d[c][t]];
        keys := keys - {t};
      }
      copy := copy[c := inner];
      cats := cats - {c};
    }
  }

  /** The dictionary file, held in memory. */
  class DictionaryStore {
    var entries: Dict

    constructor (initial: Dict)
      ensures entries == initial
    {
      entries := initial;
    }

    /** `add_to_hangul_dict(hangul, english, category)`. Both arguments go
        through `str()`, so a None translation arrives as the text "None".
        An unknown category raises before anything is written. */
    method AddToHangulDict(hangul: string, english: Option<string>, category: string) returns (r: Result<()>)
      modifies this
      ensures category !in old(entries) ==> r == Err(UnknownCategory(category)) && entries == old(entries)
      ensures category in old(entries) ==>
        r == Ok(()) && entries == Upserted(old(entries), category, hangul, PyStr(english))
    {
      var englishText := PyStr(english);
      var loaded := CopyDictionary(entries);
      if category !in loaded {
        return Err(UnknownCategory(category));
      }
      var cat := loaded[category];
      if hangul in cat {
        if cat[hangul].None? {
          if englishText != "None" {
            cat := cat[hangul := Some(englishText)];
          }
        } else {
          if englishText != "None" {
            cat := cat[hangul := Some(englishText)];
          }
        }
      } else {
        if englishText == "None" {
          cat := cat[hangul := None];
        } else {
          cat := cat[hangul := Some(englishText)];
        }
      }
      entries := loaded[category := cat];
      r := Ok(());
    }
  }
}

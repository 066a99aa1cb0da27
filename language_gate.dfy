/** `detectlanguage`: the check that keeps Korean text out of the title and
    artist fields. Each character is classified on its own by a language
    detector; the detector is a parameter (`detect`), where None stands for
    a call that raised. */
module LanguageGate {
  import opened Outcomes
  import opened Text

  /** `split(word)`: the characters of `word`, each as a one-character string. */
  function Split(word: string): (chars: seq<string>)
    ensures |chars| == |word|
    ensures forall i :: 0 <= i < |word| ==> chars[i] == [word[i]]
  {
    if word == [] then [] else [[word[0]]] + Split(word[1..])
  }

  /** Gluing the characters back together (`"".join`) gives the word. */
  lemma {:induction false} ConcatSplit(word: string)
    ensures Join(Split(word), "") == word
  {
    if |word| > 1 {
      ConcatSplit(word[1..]);
      assert Split(word)[1..] == Split(word[1..]);
      assert word == [word[0]] + word[1..];
    }
  }

  /** The verdict `detectlanguage` reaches: no character is classified as Korean. */
  ghost predicate PassesGate(s: string, detect: string -> Option<string>) {
    forall i :: 0 <= i < |s| ==> detect([s[i]]) != Some("ko")
  }

  /** Lines 513-530: classify every character, skip those whose detection
      raises, and answer True exactly when "ko" was never returned. */
  method DetectLanguage(s: string, detect: string -> Option<string>) returns (en: bool)
    ensures en <==> PassesGate(s, detect)
  {
    var characters := Split(s);
    var languageList: seq<string> := [];
    for i := 0 to |characters|
      invariant "ko" in languageList <==> exists j :: 0 <= j < i && detect(characters[j]) == Some("ko")
    {
      var language := detect(characters[i]);
      if language.Some? {
        languageList := languageList + [language.value];
      }
    }
    en := "ko" !in languageList;
  }

  /** One character classified as Korean anywhere fails the whole string. */
  lemma KoreanAnywhereFails(a: string, c: char, b: string, detect: string -> Option<string>)
    requires detect([c]) == Some("ko")
    ensures !PassesGate(a + [c] + b, detect)
  {
    assert (a + [c] + b)[|a|] == c;
  }

  /** A character whose detection raises does not change the verdict. */
  lemma FailedDetectionIgnored(a: string, c: char, b: string, detect: string -> Option<string>)
    requires detect([c]) == None
    ensures PassesGate(a + [c] + b, detect) <==> PassesGate(a + b, detect)
  {
    var s, t := a + [c] + b, a + b;
    assert forall i :: 0 <= i < |a| ==> s[i] == t[i];
    assert forall i :: |a| < i < |s| ==> s[i] == t[i - 1];
    if PassesGate(s, detect) {
      forall i | 0 <= i < |t|
        ensures detect([t[i]]) != Some("ko")
      {
        if i < |a| { assert t[i] == s[i]; } else { assert t[i] == s[i + 1]; }
      }
    }
  }
}

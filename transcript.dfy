/**
 * What the transcript screen derives from the session's state: the
 * language badge of a line, which side of an entry is the original and
 * which the translation, and when the interim row and the listening
 * indicator are shown.
 */
module Transcript {
  import opened Text
  import opened Models

  /** `languageBadge(for:)`. The `ja` test comes first, so "jaen" reads as Japanese. */
  function LanguageBadge(language: string): (r: string)
    ensures HasPrefix(language, "ja") ==> r == "JP"
    ensures !HasPrefix(language, "ja") && HasPrefix(language, "en") ==> r == "EN"
    ensures language == "" ==> r == "UNK"
    ensures !HasPrefix(language, "ja") && !HasPrefix(language, "en") && language != "" ==> r == Uppercased(language)
    ensures forall i :: 0 <= i < |r| ==> !('a' <= r[i] <= 'z')
  {
    if HasPrefix(language, "ja") then "JP"
    else if HasPrefix(language, "en") then "EN"
    else if language == "" then "UNK"
    else Uppercased(language)
  }

  /**
   * A line is badged "JP" exactly when its language starts with "ja" or is
   * "jp" in any letter case; the badge does not tell these apart.
   */
  lemma BadgeJapanese(language: string)
    ensures LanguageBadge(language) == "JP" <==>
      HasPrefix(language, "ja") || (|language| == 2 && UpperChar(language[0]) == 'J' && UpperChar(language[1]) == 'P')
  {
    if !HasPrefix(language, "ja") && !HasPrefix(language, "en") && language != "" {
      var u := Uppercased(language);
      if u == "JP" {
        assert |language| == 2 && UpperChar(language[0]) == u[0] && UpperChar(language[1]) == u[1];
      }
      if |language| == 2 && UpperChar(language[0]) == 'J' && UpperChar(language[1]) == 'P' {
        assert u == "JP";
      }
    } else if HasPrefix(language, "en") && !HasPrefix(language, "ja") && |language| == 2 {
      assert language == "en";
    }
  }

  /** An entry's two texts in reading order: the one spoken first, then its translation. */
  datatype Sides = Sides(original: string, translated: string)

  /** The original/translated choice of `entryView`. */
  function EntrySides(e: ConversationEntry): (r: Sides)
    ensures HasPrefix(e.detectedLanguage, "ja") ==> r == Sides(e.jp, e.en)
    ensures !HasPrefix(e.detectedLanguage, "ja") ==> r == Sides(e.en, e.jp)
  {
    var isJapaneseOriginal := HasPrefix(e.detectedLanguage, "ja");
    Sides(if isJapaneseOriginal then e.jp else e.en, if isJapaneseOriginal then e.en else e.jp)
  }

  /** An entry badged "JP" because its language starts with "ja" shows its Japanese text first, and an "EN" one its English text. */
  lemma BadgeAgreesWithOriginal(e: ConversationEntry)
    ensures LanguageBadge(e.detectedLanguage) == "EN" ==> EntrySides(e).original == e.en
    ensures HasPrefix(e.detectedLanguage, "ja") ==> LanguageBadge(e.detectedLanguage) == "JP" && EntrySides(e).original == e.jp
  {
    if LanguageBadge(e.detectedLanguage) == "EN" && HasPrefix(e.detectedLanguage, "ja") {
      assert false;
    }
  }

  /** Showing an entry neither loses nor invents text: the two sides are its two texts. */
  lemma SidesArePermutation(e: ConversationEntry)
    ensures multiset{EntrySides(e).original, EntrySides(e).translated} == multiset{e.jp, e.en}
  {
  }

  /** The interim row is shown while there is interim text. */
  predicate ShowsInterimRow(interimText: string) {
    interimText != ""
  }

  /** The listening indicator: listening, and nothing heard yet. */
  predicate ShowsListeningIndicator(isListening: bool, entries: seq<ConversationEntry>, interimText: string) {
    isListening && entries == [] && interimText == ""
  }

  /** The indicator and the interim row are never shown together, and the indicator goes once there is an entry. */
  lemma IndicatorExcludesContent(isListening: bool, entries: seq<ConversationEntry>, interimText: string)
    ensures ShowsListeningIndicator(isListening, entries, interimText) ==> !ShowsInterimRow(interimText)
    ensures entries != [] ==> !ShowsListeningIndicator(isListening, entries, interimText)
    ensures ShowsListeningIndicator(isListening, entries, interimText) <==>
      isListening && entries == [] && !ShowsInterimRow(interimText)
  {
  }
}

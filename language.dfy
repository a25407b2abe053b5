/**
 * Language detection and the per-language reply tables. Both variants of the
 * bot define `ARABIC_LETTERS`, `FRENCH_KEYWORDS` and `detect_language`
 * identically, so this module is shared by both.
 */
module Language {
  import opened Wrappers
  import opened Text

  const AR: string := "ar"
  const FR: string := "fr"
  const EN: string := "en"

  /** The three language tags the bot knows. */
  predicate IsTag(lang: string) {
    lang == AR || lang == FR || lang == EN
  }

  /** `ARABIC_LETTERS`, as the string the set is built from. */
  const ArabicAlphabet: string := "ابتثجحخدذرزسشصضطظعغفقكلمنهويىءئة"
  const ArabicLetters: set<char> := set c | c in ArabicAlphabet

  /** `FRENCH_KEYWORDS`, in declaration order. */
  const FrenchKeywords: seq<string> := ["ministère", "demande", "inscription", "offre", "emploi", "bonjour", "merci"]

  /** Some character of `text` is an Arabic letter. */
  ghost predicate HasArabicLetter(text: string) {
    exists i | 0 <= i < |text| :: text[i] in ArabicLetters
  }

  /** The alphabet lies in the Arabic block. */
  lemma ArabicAlphabetInBlock()
    ensures forall i | 0 <= i < |ArabicAlphabet| :: '\U{0621}' <= ArabicAlphabet[i] <= '\U{064A}'
  {
  }

  /** Every Arabic letter of the set lies in the Arabic block, above Latin-1. */
  lemma ArabicLettersInArabicBlock(c: char)
    requires c in ArabicLetters
    ensures 0x0621 <= c as int <= 0x064A
  {
    ArabicAlphabetInBlock();
  }

  /** A text whose characters all lie below the Arabic block has no Arabic letter. */
  lemma BelowArabicBlock(text: string)
    requires forall i | 0 <= i < |text| :: text[i] < '\U{0621}'
    ensures !HasArabicLetter(text)
  {
    forall i | 0 <= i < |text| ensures text[i] !in ArabicLetters {
      if text[i] in ArabicLetters { ArabicLettersInArabicBlock(text[i]); }
    }
  }

  /** Lower-casing neither creates nor removes Arabic letters: they have no case. */
  lemma LowerKeepsArabic(text: string)
    ensures HasArabicLetter(Lower(text)) <==> HasArabicLetter(text)
  {
    forall i | 0 <= i < |text|
      ensures Lower(text)[i] in ArabicLetters <==> text[i] in ArabicLetters
    {
      var c := text[i];
      if c in ArabicLetters { ArabicLettersInArabicBlock(c); }
      if LowerChar(c) in ArabicLetters { ArabicLettersInArabicBlock(LowerChar(c)); }
    }
  }

  /**
   * `detect_language`: first match over the lower-cased text. Any Arabic
   * letter gives "ar"; otherwise any French keyword gives "fr"; otherwise "en".
   */
  function DetectLanguage(text: string): (r: string)
    ensures IsTag(r)
    ensures r == AR <==> HasArabicLetter(text)
    ensures r == FR <==> !HasArabicLetter(text) && Mentions(text, FrenchKeywords)
    ensures r == EN <==> !HasArabicLetter(text) && !Mentions(text, FrenchKeywords)
    ensures text == "" ==> r == EN
  {
    var t := Lower(text);
    LowerKeepsArabic(text);
    if AnyCharIn(t, ArabicLetters) then AR
    else if ContainsAny(t, FrenchKeywords) then FR
    else EN
  }

  /** An Arabic letter anywhere decides the language, whatever surrounds it. */
  lemma ArabicLetterWins(before: string, c: char, after: string)
    requires c in ArabicLetters
    ensures DetectLanguage(before + [c] + after) == AR
  {
    assert (before + [c] + after)[|before|] == c;
  }

  /** A French keyword decides for French in a text without Arabic letters, in any letter case. */
  lemma FrenchKeywordWins(text: string, j: nat)
    requires !HasArabicLetter(text)
    requires j < |FrenchKeywords|
    requires Contains(Lower(text), FrenchKeywords[j])
    ensures DetectLanguage(text) == FR
  {
  }

  /** A table with one literal per language, as the bot's reply dictionaries are. */
  datatype Table = Table(ar: string, fr: string, en: string) {

    /** `table[lang]`; `None` is the `KeyError` an unknown tag raises. */
    function Index(lang: string): (r: Option<string>)
      ensures r.Some? <==> IsTag(lang)
      ensures lang == AR ==> r == Some(ar)
      ensures lang == FR ==> r == Some(fr)
      ensures lang == EN ==> r == Some(en)
    {
      if lang == AR then Some(ar)
      else if lang == FR then Some(fr)
      else if lang == EN then Some(en)
      else None
    }

    /** `table.get(lang, table['en'])`: the English entry stands in for an unknown tag. */
    function GetOrEnglish(lang: string): (r: string)
      ensures IsTag(lang) ==> Index(lang) == Some(r)
      ensures !IsTag(lang) ==> r == en
    {
      Index(lang).GetOr(en)
    }
  }
}

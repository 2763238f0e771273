/** The translation service around the machine translator: the same-language shortcut, the
    return-the-input fallback when the translator raises, the post-processing that writes the
    agricultural glossary's term into the translated text, batch translation, and the glossary
    lookup by language. The translator is a function parameter that returns None when it raises. */
module Translation {
  import opened Wrappers
  import opened Strings

  datatype GlossaryEntry = GlossaryEntry(term: string, translations: map<string, string>)

  /** The glossary, in its order; every term has a Hindi, Punjabi and English entry. */
  const AgriculturalTerms: seq<GlossaryEntry> := [
    GlossaryEntry("crop", map["hi" := "फसल", "pa" := "ਫਸਲ", "en" := "crop"]),
    GlossaryEntry("fertilizer", map["hi" := "उर्वरक", "pa" := "ਖਾਦ", "en" := "fertilizer"]),
    GlossaryEntry("pest", map["hi" := "कीट", "pa" := "ਕੀਟ", "en" := "pest"]),
    GlossaryEntry("irrigation", map["hi" := "सिंचाई", "pa" := "ਸਿੰਚਾਈ", "en" := "irrigation"]),
    GlossaryEntry("soil", map["hi" := "मिट्टी", "pa" := "ਮਿੱਟੀ", "en" := "soil"]),
    GlossaryEntry("weather", map["hi" := "मौसम", "pa" := "ਮੌਸਮ", "en" := "weather"]),
    GlossaryEntry("harvest", map["hi" := "फसल कटाई", "pa" := "ਫਸਲ ਕਟਾਈ", "en" := "harvest"])
  ]

  /** `get_supported_languages` */
  const LanguageCodes: map<string, string> := map["hi" := "hindi", "en" := "english", "pa" := "punjabi"]

  /** One glossary entry applied to the text: the term is replaced, case-sensitively, by its
      translation when the lower-cased text mentions the term and the translation is not already
      in the text. */
  function PostProcessStep(text: string, e: GlossaryEntry, targetLang: string): (r: string)
    requires |e.term| > 0
    ensures !(targetLang in e.translations && Contains(Lower(text), e.term)) ==> r == text
    ensures targetLang in e.translations && Contains(text, e.translations[targetLang]) ==> r == text
    ensures targetLang in e.translations && Contains(Lower(text), e.term) && Contains(text, e.term) ==>
      Contains(r, e.translations[targetLang])
  {
    if targetLang in e.translations && Contains(Lower(text), e.term) && !Contains(text, e.translations[targetLang])
    then
      ReplaceIntroduces(text, e.term, e.translations[targetLang]);
      ReplaceAll(text, e.term, e.translations[targetLang])
    else text
  }

  predicate NonEmptyTerms(entries: seq<GlossaryEntry>) {
    forall k :: 0 <= k < |entries| ==> |entries[k].term| > 0
  }

  /** The text after the glossary entries, in order, have been applied. */
  function PostProcessed(text: string, targetLang: string, entries: seq<GlossaryEntry>): string
    requires NonEmptyTerms(entries)
    decreases |entries|
  {
    if |entries| == 0 then text
    else PostProcessStep(PostProcessed(text, targetLang, entries[..|entries| - 1]), entries[|entries| - 1], targetLang)
  }

  /** `_post_process_agricultural_terms`: in Hindi or Punjabi, every glossary term present, as
      written, when its turn comes leaves its translation in the result. */
  method PostProcessAgriculturalTerms(text: string, targetLang: string) returns (result: string)
    ensures result == PostProcessed(text, targetLang, AgriculturalTerms)
    ensures forall k ::
      (0 <= k < |AgriculturalTerms| && targetLang in {"hi", "pa"} &&
       targetLang in AgriculturalTerms[k].translations &&
       Contains(PostProcessed(text, targetLang, AgriculturalTerms[..k]), AgriculturalTerms[k].term)) ==>
        Contains(result, AgriculturalTerms[k].translations[targetLang])
  {
    result := text;
    for i := 0 to |AgriculturalTerms|
      invariant result == PostProcessed(text, targetLang, AgriculturalTerms[..i])
    {
      assert AgriculturalTerms[..i + 1][..i] == AgriculturalTerms[..i];
      var entry := AgriculturalTerms[i];
      if targetLang in entry.translations {
        if Contains(Lower(result), entry.term) && !Contains(result, entry.translations[targetLang]) {
          result := ReplaceAll(result, entry.term, entry.translations[targetLang]);
        }
      }
    }
    assert AgriculturalTerms[..|AgriculturalTerms|] == AgriculturalTerms;
    GlossaryTermsTranslated(text, targetLang);
  }

  /** Entries whose translation into a language is the term itself leave every text unchanged:
      replacing a word by itself is the identity. */
  lemma {:induction false} SelfTranslationIsIdentity(text: string, targetLang: string, entries: seq<GlossaryEntry>)
    requires NonEmptyTerms(entries)
    requires forall k :: 0 <= k < |entries| ==>
      targetLang in entries[k].translations && entries[k].translations[targetLang] == entries[k].term
    ensures PostProcessed(text, targetLang, entries) == text
    decreases |entries|
  {
    if |entries| > 0 {
      SelfTranslationIsIdentity(text, targetLang, entries[..|entries| - 1]);
      var last := entries[|entries| - 1];
      ReplaceByItself(text, last.term);
    }
  }

  /** An entry without the target language leaves every text unchanged. */
  lemma {:induction false} UnknownTargetIsIdentity(text: string, targetLang: string, entries: seq<GlossaryEntry>)
    requires NonEmptyTerms(entries)
    requires forall k :: 0 <= k < |entries| ==> targetLang !in entries[k].translations
    ensures PostProcessed(text, targetLang, entries) == text
    decreases |entries|
  {
    if |entries| > 0 {
      UnknownTargetIsIdentity(text, targetLang, entries[..|entries| - 1]);
    }
  }

  /** Post-processing into English changes nothing, nor does a language the glossary lacks. */
  lemma PostProcessingIdentities(text: string, targetLang: string)
    ensures PostProcessed(text, "en", AgriculturalTerms) == text
    ensures targetLang !in {"hi", "pa", "en"} ==> PostProcessed(text, targetLang, AgriculturalTerms) == text
  {
    GlossaryEnglishIsTerm();
    SelfTranslationIsIdentity(text, "en", AgriculturalTerms);
    if targetLang !in {"hi", "pa", "en"} {
      GlossaryLanguages(targetLang);
      UnknownTargetIsIdentity(text, targetLang, AgriculturalTerms);
    }
  }

  /** A string that shares no character with the later entries' terms survives their steps. */
  lemma {:induction false} TranslationSurvives(text: string, targetLang: string, entries: seq<GlossaryEntry>,
                                               k: nat, part: string)
    requires NonEmptyTerms(entries) && k <= |entries|
    requires Contains(PostProcessed(text, targetLang, entries[..k]), part)
    requires forall j :: k <= j < |entries| ==> Disjoint(part, entries[j].term)
    ensures Contains(PostProcessed(text, targetLang, entries), part)
    decreases |entries|
  {
    if k == |entries| {
      assert entries[..k] == entries;
    } else {
      var n := |entries| - 1;
      var init := entries[..n];
      assert init[..k] == entries[..k];
      assert forall j :: k <= j < |init| ==> init[j] == entries[j];
      TranslationSurvives(text, targetLang, init, k, part);
      var before := PostProcessed(text, targetLang, init);
      var e := entries[n];
      if targetLang in e.translations && Contains(Lower(before), e.term) && !Contains(before, e.translations[targetLang]) {
        ReplaceKeeps(before, part, e.term, e.translations[targetLang]);
      }
    }
  }

  /** Glossary terms are written in lower-case Latin letters. */
  predicate LatinLower(s: string) {
    forall i :: 0 <= i < |s| ==> 'a' <= s[i] <= 'z'
  }

  /** No lower-case Latin letter occurs in the string. */
  predicate NoLatinLower(s: string) {
    forall i :: 0 <= i < |s| ==> !('a' <= s[i] <= 'z')
  }

  /** Strings in the two scripts share no character. */
  lemma ScriptsDisjoint(translation: string, term: string)
    requires NoLatinLower(translation) && LatinLower(term)
    ensures Disjoint(translation, term)
  {
    forall c | c in translation ensures c !in term {
      var i :| 0 <= i < |translation| && translation[i] == c;
      assert !('a' <= c <= 'z');
    }
  }

  /** Each glossary term is a lower-case Latin word. */
  lemma GlossaryTermScript(k: nat)
    requires k < |AgriculturalTerms|
    ensures LatinLower(AgriculturalTerms[k].term) && Lower(AgriculturalTerms[k].term) == AgriculturalTerms[k].term
  {
    var t := AgriculturalTerms[k].term;
    assert t in ["crop", "fertilizer", "pest", "irrigation", "soil", "weather", "harvest"];
    assert Lower(t) == t;
  }

  /** Each Hindi and Punjabi translation in the glossary has no Latin letter. */
  lemma GlossaryTranslationScript(targetLang: string, k: nat)
    requires targetLang in {"hi", "pa"} && k < |AgriculturalTerms|
    ensures targetLang in AgriculturalTerms[k].translations && NoLatinLower(AgriculturalTerms[k].translations[targetLang])
  {
    var m := AgriculturalTerms[k].translations;
    assert targetLang in m;
    var words := if targetLang == "hi"
      then ["फसल", "उर्वरक", "कीट", "सिंचाई", "मिट्टी", "मौसम", "फसल कटाई"]
      else ["ਫਸਲ", "ਖਾਦ", "ਕੀਟ", "ਸਿੰਚਾਈ", "ਮਿੱਟੀ", "ਮੌਸਮ", "ਫਸਲ ਕਟਾਈ"];
    assert m[targetLang] == words[k];
    assert NoLatinLower(words[k]);
  }

  /** In Hindi or Punjabi, a glossary term that occurs, as written, in the text when its turn
      comes has its translation in the post-processed text: either it was already there or the
      step wrote it in, and the later steps replace only Latin words. */
  lemma GlossaryTermTranslated(text: string, targetLang: string, k: nat)
    requires targetLang in {"hi", "pa"} && k < |AgriculturalTerms|
    requires Contains(PostProcessed(text, targetLang, AgriculturalTerms[..k]), AgriculturalTerms[k].term)
    ensures Contains(PostProcessed(text, targetLang, AgriculturalTerms), AgriculturalTerms[k].translations[targetLang])
  {
    GlossaryEnglishIsTerm();
    GlossaryTermScript(k);
    GlossaryTranslationScript(targetLang, k);
    var e := AgriculturalTerms[k];
    var before := PostProcessed(text, targetLang, AgriculturalTerms[..k]);
    var tr := e.translations[targetLang];
    LowerKeepsLowercase(before, e.term);
    assert AgriculturalTerms[..k + 1][..k] == AgriculturalTerms[..k];
    assert PostProcessed(text, targetLang, AgriculturalTerms[..k + 1]) == PostProcessStep(before, e, targetLang);
    forall j | k + 1 <= j < |AgriculturalTerms| ensures Disjoint(tr, AgriculturalTerms[j].term) {
      GlossaryTermScript(j);
      ScriptsDisjoint(tr, AgriculturalTerms[j].term);
    }
    TranslationSurvives(text, targetLang, AgriculturalTerms, k + 1, tr);
  }

  /** `GlossaryTermTranslated` for every entry at once. */
  lemma GlossaryTermsTranslated(text: string, targetLang: string)
    ensures forall k ::
      (0 <= k < |AgriculturalTerms| && targetLang in {"hi", "pa"} &&
       targetLang in AgriculturalTerms[k].translations &&
       Contains(PostProcessed(text, targetLang, AgriculturalTerms[..k]), AgriculturalTerms[k].term)) ==>
        Contains(PostProcessed(text, targetLang, AgriculturalTerms), AgriculturalTerms[k].translations[targetLang])
  {
    forall k | 0 <= k < |AgriculturalTerms| && targetLang in {"hi", "pa"} &&
      Contains(PostProcessed(text, targetLang, AgriculturalTerms[..k]), AgriculturalTerms[k].term)
    {
      GlossaryTermTranslated(text, targetLang, k);
    }
  }

  /** Detection ignores case but replacement does not: in "Crop" the term is detected, yet the
      Hindi word is not written in. */
  lemma CapitalisedTermNotReplaced()
    ensures Contains(Lower("Crop"), "crop")
    ensures PostProcessStep("Crop", AgriculturalTerms[0], "hi") == "Crop"
  {
    assert Lower("Crop") == "crop";
    assert StartsWith("crop", "crop");
    NotContained("Crop", "crop", 0);
    ReplaceAbsent("Crop", "crop", "फसल");
  }

  /** What `translate_text` returns; `translator` maps (text, source, target) to its translation. */
  function Translated(text: string, sourceLang: string, targetLang: string,
                      translator: (string, string, string) -> Option<string>): (r: string)
    ensures sourceLang == targetLang ==> r == text
    ensures sourceLang != targetLang && translator(text, sourceLang, targetLang).None? ==> r == text
    ensures sourceLang != targetLang && translator(text, sourceLang, targetLang).Some? ==>
      r == PostProcessed(translator(text, sourceLang, targetLang).value, targetLang, AgriculturalTerms)
  {
    if sourceLang == targetLang then text
    else match translator(text, sourceLang, targetLang)
      case None => text
      case Some(t) => PostProcessed(t, targetLang, AgriculturalTerms)
  }

  /** `translate_text` */
  method TranslateText(text: string, sourceLang: string, targetLang: string,
                       translator: (string, string, string) -> Option<string>) returns (result: string)
    ensures result == Translated(text, sourceLang, targetLang, translator)
  {
    if sourceLang == targetLang {
      return text;
    }
    var translated := translator(text, sourceLang, targetLang);
    if translated.None? {
      // the translator raised: the handler returns the original text
      return text;
    }
    result := PostProcessAgriculturalTerms(translated.value, targetLang);
  }

  /** `translate_batch`: the input itself for equal languages, otherwise each text translated,
      in order. */
  method TranslateBatch(texts: seq<string>, sourceLang: string, targetLang: string,
                        translator: (string, string, string) -> Option<string>) returns (results: seq<string>)
    ensures |results| == |texts|
    ensures sourceLang == targetLang ==> results == texts
    ensures forall i :: 0 <= i < |texts| ==> results[i] == Translated(texts[i], sourceLang, targetLang, translator)
  {
    if sourceLang == targetLang {
      return texts;
    }
    results := [];
    for i := 0 to |texts|
      invariant |results| == i
      invariant forall j :: 0 <= j < i ==> results[j] == Translated(texts[j], sourceLang, targetLang, translator)
    {
      var translated := TranslateText(texts[i], sourceLang, targetLang, translator);
      results := results + [translated];
    }
  }

  /** The glossary terms. */
  const TermNames: set<string> := {"crop", "fertilizer", "pest", "irrigation", "soil", "weather", "harvest"}

  /** The dictionary that `get_agricultural_terms` fills from the given entries, in order. */
  function TermsOf(language: string, entries: seq<GlossaryEntry>): map<string, string>
    decreases |entries|
  {
    if |entries| == 0 then map[]
    else
      var prev := TermsOf(language, entries[..|entries| - 1]);
      var e := entries[|entries| - 1];
      if language in e.translations then prev[e.term := e.translations[language]] else prev
  }

  /** One more entry of the loop: its term is added when it has the language. */
  lemma TermsOfStep(language: string, entries: seq<GlossaryEntry>, i: nat)
    requires i < |entries|
    ensures TermsOf(language, entries[..i + 1]) ==
      if language in entries[i].translations
      then TermsOf(language, entries[..i])[entries[i].term := entries[i].translations[language]]
      else TermsOf(language, entries[..i])
  {
    assert entries[..i + 1][..i] == entries[..i];
  }

  predicate DistinctTerms(entries: seq<GlossaryEntry>) {
    forall i, j :: 0 <= i < j < |entries| ==> entries[i].term != entries[j].term
  }

  /** With distinct terms, every entry that has the language maps its term to its translation,
      and every key is the term of such an entry. */
  lemma {:induction false} TermsOfEntries(language: string, entries: seq<GlossaryEntry>)
    requires DistinctTerms(entries)
    ensures forall k :: 0 <= k < |entries| && language in entries[k].translations ==>
      entries[k].term in TermsOf(language, entries) &&
      TermsOf(language, entries)[entries[k].term] == entries[k].translations[language]
    ensures forall t :: t in TermsOf(language, entries) ==>
      exists k :: 0 <= k < |entries| && entries[k].term == t && language in entries[k].translations
    decreases |entries|
  {
    if |entries| > 0 {
      var init := entries[..|entries| - 1];
      assert forall k :: 0 <= k < |init| ==> init[k] == entries[k];
      TermsOfEntries(language, init);
    }
  }

  /** When every entry has the language, the keys are exactly the terms. */
  lemma TermsOfAll(language: string, entries: seq<GlossaryEntry>, names: set<string>)
    requires DistinctTerms(entries)
    requires forall k :: 0 <= k < |entries| ==> language in entries[k].translations && entries[k].term in names
    requires forall t :: t in names ==> exists k :: 0 <= k < |entries| && entries[k].term == t
    ensures TermsOf(language, entries).Keys == names
  {
    TermsOfEntries(language, entries);
  }

  /** When no entry has the language, nothing is collected. */
  lemma {:induction false} TermsOfNone(language: string, entries: seq<GlossaryEntry>)
    requires forall k :: 0 <= k < |entries| ==> language !in entries[k].translations
    ensures TermsOf(language, entries) == map[]
    decreases |entries|
  {
    if |entries| > 0 {
      TermsOfNone(language, entries[..|entries| - 1]);
    }
  }

  /** Every entry of the glossary has translations into exactly Hindi, Punjabi and English. */
  lemma GlossaryLanguages(language: string)
    ensures language in {"hi", "pa", "en"} ==>
      forall k :: 0 <= k < |AgriculturalTerms| ==> language in AgriculturalTerms[k].translations
    ensures language !in {"hi", "pa", "en"} ==>
      forall k :: 0 <= k < |AgriculturalTerms| ==> language !in AgriculturalTerms[k].translations
  {
  }

  /** The English translation of every glossary term is the term itself. */
  lemma GlossaryEnglishIsTerm()
    ensures NonEmptyTerms(AgriculturalTerms)
    ensures forall k :: 0 <= k < |AgriculturalTerms| ==>
      "en" in AgriculturalTerms[k].translations && AgriculturalTerms[k].translations["en"] == AgriculturalTerms[k].term
  {
  }

  /** The glossary's terms are distinct and are exactly the term names. */
  lemma GlossaryTerms()
    ensures DistinctTerms(AgriculturalTerms)
    ensures forall k :: 0 <= k < |AgriculturalTerms| ==> AgriculturalTerms[k].term in TermNames
    ensures forall t :: t in TermNames ==> exists k :: 0 <= k < |AgriculturalTerms| && AgriculturalTerms[k].term == t
  {
    assert AgriculturalTerms[0].term == "crop" && AgriculturalTerms[1].term == "fertilizer";
    assert AgriculturalTerms[2].term == "pest" && AgriculturalTerms[3].term == "irrigation";
    assert AgriculturalTerms[4].term == "soil" && AgriculturalTerms[5].term == "weather";
    assert AgriculturalTerms[6].term == "harvest";
  }

  /** What `get_agricultural_terms` answers, as a property of the glossary: every term that has
      the language maps to its translation; all seven terms for Hindi, Punjabi and English, none
      for any other language. */
  lemma AgriculturalTermsOf(language: string)
    ensures var terms := TermsOf(language, AgriculturalTerms);
      && (forall k :: 0 <= k < |AgriculturalTerms| && language in AgriculturalTerms[k].translations ==>
            AgriculturalTerms[k].term in terms && terms[AgriculturalTerms[k].term] == AgriculturalTerms[k].translations[language])
      && (language in {"hi", "pa", "en"} ==> terms.Keys == TermNames)
      && (language !in {"hi", "pa", "en"} ==> terms == map[])
  {
    GlossaryLanguages(language);
    GlossaryTerms();
    TermsOfEntries(language, AgriculturalTerms);
    if language in {"hi", "pa", "en"} {
      TermsOfAll(language, AgriculturalTerms, TermNames);
    } else {
      TermsOfNone(language, AgriculturalTerms);
    }
  }

  /** The loop of `get_agricultural_terms` over the entries of a glossary. */
  method CollectTerms(entries: seq<GlossaryEntry>, language: string) returns (terms: map<string, string>)
    ensures terms == TermsOf(language, entries)
  {
    terms := map[];
    for i := 0 to |entries|
      invariant terms == TermsOf(language, entries[..i])
    {
      var entry := entries[i];
      TermsOfStep(language, entries, i);
      if language in entry.translations {
        terms := terms[entry.term := entry.translations[language]];
      }
    }
    assert entries[..|entries|] == entries;
  }

  /** `get_agricultural_terms` */
  method GetAgriculturalTerms(language: string) returns (terms: map<string, string>)
    ensures forall k :: 0 <= k < |AgriculturalTerms| && language in AgriculturalTerms[k].translations ==>
      AgriculturalTerms[k].term in terms && terms[AgriculturalTerms[k].term] == AgriculturalTerms[k].translations[language]
    ensures language in {"hi", "pa", "en"} ==> terms.Keys == TermNames
    ensures language !in {"hi", "pa", "en"} ==> terms == map[]
  {
    terms := CollectTerms(AgriculturalTerms, language);
    AgriculturalTermsOf(language);
  }
}

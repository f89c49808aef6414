/**
 * `get_target_language` of `scripts/translate.py`: a language name from the
 * configuration, looked up in `LANGUAGE_MAP` exactly, then loosely, then
 * defaulted.
 */
module Languages {
  import opened Wrappers
  import opened Text

  /** The target languages the table can name. */
  datatype TargetLanguage =
    | SimplifiedChinese | TraditionalChinese
    | English | EnglishUS | EnglishUK
    | Japanese | Korean | Cantonese | Thai | Vietnamese | Indonesian | Malay | Tagalog
    | French | German | Spanish | SpanishLatam | Russian | Portuguese | PortugueseBR | PortuguesePT
    | Italian | Dutch | Polish | Turkish | Greek | Czech | Swedish | Danish | Finnish | Norwegian
    | Hungarian | Romanian | Bulgarian | Ukrainian
    | Arabic | Hebrew | Persian

  /** `LANGUAGE_MAP` in definition order, which is the order the loose search walks. */
  const LanguageMap: seq<(string, TargetLanguage)> := [
    ("simplified chinese", SimplifiedChinese),
    ("traditional chinese", TraditionalChinese),
    ("简体中文", SimplifiedChinese),
    ("繁体中文", TraditionalChinese),
    ("english", English),
    ("english (us)", EnglishUS),
    ("english (uk)", EnglishUK),
    ("japanese", Japanese),
    ("日本語", Japanese),
    ("korean", Korean),
    ("韩语", Korean),
    ("cantonese", Cantonese),
    ("粤语", Cantonese),
    ("thai", Thai),
    ("vietnamese", Vietnamese),
    ("indonesian", Indonesian),
    ("malay", Malay),
    ("tagalog", Tagalog),
    ("french", French),
    ("german", German),
    ("spanish", Spanish),
    ("spanish (latam)", SpanishLatam),
    ("russian", Russian),
    ("portuguese", Portuguese),
    ("portuguese (brazil)", PortugueseBR),
    ("portuguese (portugal)", PortuguesePT),
    ("italian", Italian),
    ("dutch", Dutch),
    ("polish", Polish),
    ("turkish", Turkish),
    ("greek", Greek),
    ("czech", Czech),
    ("swedish", Swedish),
    ("danish", Danish),
    ("finnish", Finnish),
    ("norwegian", Norwegian),
    ("hungarian", Hungarian),
    ("romanian", Romanian),
    ("bulgarian", Bulgarian),
    ("ukrainian", Ukrainian),
    ("arabic", Arabic),
    ("hebrew", Hebrew),
    ("persian", Persian)]

  /** A value the table holds. */
  predicate InTable(v: TargetLanguage) {
    exists i :: 0 <= i < |LanguageMap| && LanguageMap[i].1 == v
  }

  /** The first entry from `from` on whose key is `key`. */
  function ExactFrom(key: string, from: nat): (r: Option<nat>)
    ensures r.Some? ==> from <= r.value < |LanguageMap| && LanguageMap[r.value].0 == key
    ensures r.Some? ==> forall j :: from <= j < r.value ==> LanguageMap[j].0 != key
    ensures r.None? ==> forall j :: from <= j < |LanguageMap| ==> LanguageMap[j].0 != key
    decreases |LanguageMap| - from
  {
    if from >= |LanguageMap| then None
    else if LanguageMap[from].0 == key then Some(from)
    else ExactFrom(key, from + 1)
  }

  /** The two strings overlap: either contains the other. */
  predicate Loosely(key: string, k: string) {
    Contains(k, key) || Contains(key, k)
  }

  /** The first entry from `from` on whose key contains, or is contained in, `key`. */
  function LooseFrom(key: string, from: nat): (r: Option<nat>)
    ensures r.Some? ==> from <= r.value < |LanguageMap| && Loosely(key, LanguageMap[r.value].0)
    ensures r.Some? ==> forall j :: from <= j < r.value ==> !Loosely(key, LanguageMap[j].0)
    ensures r.None? ==> forall j :: from <= j < |LanguageMap| ==> !Loosely(key, LanguageMap[j].0)
    decreases |LanguageMap| - from
  {
    if from >= |LanguageMap| then None
    else if Loosely(key, LanguageMap[from].0) then Some(from)
    else LooseFrom(key, from + 1)
  }

  /** The lookup key: lower-cased, then stripped. */
  function Key(name: string): string {
    Strip(ToLower(name))
  }

  /** The language and whether the unknown-language warning is printed. */
  datatype Choice = Choice(language: TargetLanguage, warned: bool)

  /** `get_target_language`. */
  function GetTargetLanguage(name: string): (c: Choice)
    ensures InTable(c.language)
  {
    var key := Key(name);
    match ExactFrom(key, 0)
    case Some(i) => Choice(LanguageMap[i].1, false)
    case None =>
      match LooseFrom(key, 0)
      case Some(i) => Choice(LanguageMap[i].1, false)
      case None =>
        assert LanguageMap[0].1 == SimplifiedChinese;
        Choice(SimplifiedChinese, true)
  }

  /**
   * An exact key gives its own value; failing that, the first entry in
   * definition order that overlaps the key; failing that, Simplified Chinese
   * with a warning, and only then.
   */
  lemma GetTargetLanguageMeaning(name: string)
    ensures var c := GetTargetLanguage(name);
            var key := Key(name);
            (forall i :: 0 <= i < |LanguageMap| && LanguageMap[i].0 == key && (forall j :: 0 <= j < i ==> LanguageMap[j].0 != key)
               ==> c == Choice(LanguageMap[i].1, false))
            && ((forall j :: 0 <= j < |LanguageMap| ==> LanguageMap[j].0 != key) ==>
                 forall i :: 0 <= i < |LanguageMap| && Loosely(key, LanguageMap[i].0) && (forall j :: 0 <= j < i ==> !Loosely(key, LanguageMap[j].0))
                   ==> c == Choice(LanguageMap[i].1, false))
            && (c.warned <==> forall j :: 0 <= j < |LanguageMap| ==> !Loosely(key, LanguageMap[j].0))
            && (c.warned ==> c.language == SimplifiedChinese)
  {
    var key := Key(name);
    forall i | 0 <= i < |LanguageMap| && LanguageMap[i].0 == key && (forall j :: 0 <= j < i ==> LanguageMap[j].0 != key)
      ensures GetTargetLanguage(name) == Choice(LanguageMap[i].1, false)
    {
      ExactKeyWins(name, i);
    }
    if forall j :: 0 <= j < |LanguageMap| ==> LanguageMap[j].0 != key {
      forall i | 0 <= i < |LanguageMap| && Loosely(key, LanguageMap[i].0) && (forall j :: 0 <= j < i ==> !Loosely(key, LanguageMap[j].0))
        ensures GetTargetLanguage(name) == Choice(LanguageMap[i].1, false)
      {
        LooseKeyWins(name, i);
      }
    }
    WarnedOnlyWithoutOverlap(name);
  }

  /** The first entry whose key is exactly the lookup key decides. */
  lemma ExactKeyWins(name: string, i: nat)
    requires i < |LanguageMap| && LanguageMap[i].0 == Key(name)
    requires forall j :: 0 <= j < i ==> LanguageMap[j].0 != Key(name)
    ensures GetTargetLanguage(name) == Choice(LanguageMap[i].1, false)
  {
    var e := ExactFrom(Key(name), 0);
    assert e.Some?;
    assert e.value == i;
  }

  /** With no exact key, the first overlapping entry decides. */
  lemma LooseKeyWins(name: string, i: nat)
    requires forall j :: 0 <= j < |LanguageMap| ==> LanguageMap[j].0 != Key(name)
    requires i < |LanguageMap| && Loosely(Key(name), LanguageMap[i].0)
    requires forall j :: 0 <= j < i ==> !Loosely(Key(name), LanguageMap[j].0)
    ensures GetTargetLanguage(name) == Choice(LanguageMap[i].1, false)
  {
    var e := ExactFrom(Key(name), 0);
    assert e.None?;
    var l := LooseFrom(Key(name), 0);
    assert l.Some?;
    assert l.value == i;
  }

  /** The warning, and the Simplified Chinese default, come exactly when no key overlaps the lookup key. */
  lemma WarnedOnlyWithoutOverlap(name: string)
    ensures var c := GetTargetLanguage(name);
            (c.warned <==> forall j :: 0 <= j < |LanguageMap| ==> !Loosely(Key(name), LanguageMap[j].0))
            && (c.warned ==> c.language == SimplifiedChinese)
  {
    var key := Key(name);
    var e := ExactFrom(key, 0);
    if e.Some? {
      assert Loosely(key, LanguageMap[e.value].0) by {
        assert OccursAt(key, LanguageMap[e.value].0, 0);
      }
    }
  }

  /** An empty or blank name overlaps the first key and so means Simplified Chinese, without a warning. */
  lemma BlankNameIsSimplifiedChinese(name: string)
    requires Key(name) == []
    ensures GetTargetLanguage(name) == Choice(SimplifiedChinese, false)
  {
    KeysNonEmpty();
    var e := ExactFrom([], 0);
    assert e.None?;
    assert OccursAt(LanguageMap[0].0, [], 0);
    assert Loosely([], LanguageMap[0].0);
  }

  lemma KeysNonEmpty()
    ensures forall j :: 0 <= j < |LanguageMap| ==> LanguageMap[j].0 != []
  {
  }
}

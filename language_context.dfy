/** Translation lookup of context/LanguageContext.tsx: three tables keyed by message key, the
    current language as state, and a lookup that falls back to the key itself. */
module LanguageContext {

  /** `type Language = 'en' | 'uz' | 'ru'`. */
  datatype Language = En | Uz | Ru

  /** One language's table: message key to text. */
  type Table = map<string, string>

  /** The `translations` object: one table per language. */
  datatype Translations = Translations(en: Table, uz: Table, ru: Table)

  function TableFor(translations: Translations, language: Language): Table
  {
    match language
    case En => translations.en
    case Uz => translations.uz
    case Ru => translations.ru
  }

  /** `table[key] || key`: the entry when it is defined and non-empty, otherwise the key. */
  function Lookup(table: Table, key: string): (text: string)
    ensures key in table && table[key] != "" ==> text == table[key]
    ensures key !in table || table[key] == "" ==> text == key
  {
    if key in table && table[key] != "" then table[key] else key
  }

  /** Lookup never produces an empty text for a non-empty key, and it only ever produces either
      the key or a text stored in the table. */
  lemma LookupNeverBlank(table: Table, key: string)
    ensures key != "" ==> Lookup(table, key) != ""
    ensures Lookup(table, key) == key || Lookup(table, key) in table.Values
  {
  }

  /** `useLanguage` outside a provider: the English table with the same fallback. */
  function FallbackT(translations: Translations, key: string): string
  {
    Lookup(translations.en, key)
  }

  /** The category entries of the three tables (the keys the search filter and the home screen
      translate); the other messages are display text and are not part of this model. */
  const Categories: Translations := Translations(
    map["pizza" := "Pizza", "burgers" := "Burgers", "asian" := "Asian",
        "italian" := "Italian", "mexican" := "Mexican", "healthy" := "Healthy"],
    map["pizza" := "Pitssa", "burgers" := "Burgerlar", "asian" := "Osiyo taomlari",
        "italian" := "Italyan taomlari", "mexican" := "Meksika taomlari", "healthy" := "Sog'lom ovqat"],
    map["pizza" := "Пицца", "burgers" := "Бургеры", "asian" := "Азиатская кухня",
        "italian" := "Итальянская кухня", "mexican" := "Мексиканская кухня", "healthy" := "Здоровая еда"])

  /** `LanguageProvider`: the tables are fixed, the language is state. */
  class LanguageProvider {
    const translations: Translations
    var language: Language

    /** `useState<Language>('en')`. */
    constructor (translations: Translations)
      ensures this.translations == translations && language == En
    {
      this.translations := translations;
      language := En;
    }

    /** After `setLanguage(lang)` every `t(key)` reads from that language's table. */
    method SetLanguage(lang: Language)
      modifies this
      ensures language == lang
      ensures forall key :: T(key) == Lookup(TableFor(translations, lang), key)
    {
      language := lang;
    }

    /** `t(key)`: the current language's table, with the key as fallback. */
    function T(key: string): string
      reads this
    {
      Lookup(TableFor(translations, language), key)
    }
  }

  /** A fresh provider answers exactly like the fallback outside any provider. */
  lemma FallbackAgreesWithDefault(p: LanguageProvider, key: string)
    requires p.language == En
    ensures p.T(key) == FallbackT(p.translations, key)
  {
  }
}

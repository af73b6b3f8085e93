/**
 * The English/French switch (script.js, section 8): choosing the start
 * language, applying a language's dictionary to every `[data-i18n]` element,
 * and the toggle that flips between the two languages.
 *
 * The two dictionaries are represented by a few of their keys; storage is a
 * map from key to string, and `navigator.language` an input ("" when unset).
 */
module I18n {
  import opened Wrappers

  type Dictionary = map<string, string>

  /** Some of the English dictionary. */
  const En: Dictionary := map[
    "brand.name" := "Eclipse Studio",
    "nav.about" := "About",
    "nav.contact" := "Contact",
    "hero.title" := "Eclipse Studio",
    "hero.contact" := "Contact",
    "hero.whisper" := "Space bends.",
    "about.title" := "Small studio, Big finish"
  ]

  /** The same keys in French, which has no `hero.whisper`. */
  const Fr: Dictionary := map[
    "brand.name" := "Eclipse Studio",
    "nav.about" := "À propos",
    "nav.contact" := "Contact",
    "hero.title" := "Eclipse Studio",
    "hero.contact" := "Nous Contacter",
    "about.title" := "Petit studio, grand rendu"
  ]

  /** `I18N`: the dictionaries by language code. */
  const Catalog: map<string, Dictionary> := map["en" := En, "fr" := Fr]

  /** `I18N[lang] || I18N.en`. */
  function DictionaryFor(lang: string): (d: Dictionary)
    ensures lang == "fr" ==> d == Fr
    ensures lang != "fr" ==> d == En
  {
    if lang in Catalog then Catalog[lang] else En
  }

  /** An element carrying `data-i18n = key`, with its current inner HTML. */
  datatype Element = Element(key: string, html: string)

  /** One element once a dictionary is applied: a missing key leaves it alone. */
  function Translate(e: Element, dict: Dictionary): (t: Element)
    ensures t.key == e.key
    ensures e.key in dict ==> t.html == dict[e.key]
    ensures e.key !in dict ==> t == e
  {
    if e.key in dict then e.(html := dict[e.key]) else e
  }

  /** Every element once a dictionary is applied, in document order. */
  function Translated(es: seq<Element>, dict: Dictionary): (ts: seq<Element>)
    ensures |ts| == |es|
    ensures forall i :: 0 <= i < |es| ==> ts[i].key == es[i].key
  {
    if es == [] then [] else [Translate(es[0], dict)] + Translated(es[1..], dict)
  }

  /** Applying a dictionary translates each element on its own and keeps the page's shape. */
  lemma {:induction false} TranslatedPointwise(es: seq<Element>, dict: Dictionary)
    ensures |Translated(es, dict)| == |es|
    ensures forall i :: 0 <= i < |es| ==> Translated(es, dict)[i] == Translate(es[i], dict)
  {
    if es != [] {
      TranslatedPointwise(es[1..], dict);
    }
  }

  /** Applying the same language twice changes nothing the first time did not. */
  lemma {:induction false} TranslatedIdempotent(es: seq<Element>, dict: Dictionary)
    ensures Translated(Translated(es, dict), dict) == Translated(es, dict)
  {
    if es != [] {
      TranslatedIdempotent(es[1..], dict);
    }
  }

  /** When the second dictionary has every key on the page, it alone decides the page:
      switching to French and back to English shows the English page. */
  lemma {:induction false} LastLanguageWins(es: seq<Element>, first: Dictionary, second: Dictionary)
    requires forall i :: 0 <= i < |es| ==> es[i].key in second
    ensures Translated(Translated(es, first), second) == Translated(es, second)
  {
    if es != [] {
      LastLanguageWins(es[1..], first, second);
    }
  }

  /** The whisper line has no French text, so after English then French it still reads English. */
  lemma WhisperStaysEnglish(whisper: string)
    ensures Translated(Translated([Element("hero.whisper", whisper)], En), Fr)
      == [Element("hero.whisper", "Space bends.")]
  {
  }

  /** ASCII lower-casing, the only case mapping that can produce "fr". */
  function Lower(c: char): (l: char)
    ensures 'A' <= c <= 'Z' ==> l as int == c as int + 32
    ensures !('A' <= c <= 'Z') ==> l == c
  {
    if 'A' <= c <= 'Z' then (c as int + 32) as char else c
  }

  /** `(navigator.language || "en").toLowerCase().startsWith("fr") ? "fr" : "en"`. */
  function BrowserLanguage(navigatorLanguage: string): (lang: string)
    ensures lang == "fr" || lang == "en"
    ensures lang == "fr" <==>
      |navigatorLanguage| >= 2 && navigatorLanguage[0] in {'f', 'F'} && navigatorLanguage[1] in {'r', 'R'}
  {
    var tag := if navigatorLanguage == "" then "en" else navigatorLanguage;
    if |tag| >= 2 && Lower(tag[0]) == 'f' && Lower(tag[1]) == 'r' then "fr" else "en"
  }

  /** `saved || browser`: a saved, non-empty choice wins over the browser's language. */
  function StartLanguage(saved: Option<string>, navigatorLanguage: string): (lang: string)
    ensures saved.Some? && saved.value != "" ==> lang == saved.value
    ensures saved.None? || saved.value == "" ==> lang == BrowserLanguage(navigatorLanguage)
  {
    match saved
    case Some(s) => if s != "" then s else BrowserLanguage(navigatorLanguage)
    case None => BrowserLanguage(navigatorLanguage)
  }

  /** The click handler's choice: French turns into English, anything else into French. */
  function ToggleTarget(current: string): (next: string)
    ensures next == "fr" || next == "en"
    ensures next == "en" <==> current == "fr"
  {
    var shown := if current == "fr" then "fr" else "en";
    if shown == "fr" then "en" else "fr"
  }

  /** Two toggles from English or French come back to it; from any other page language
      they end on English. */
  lemma ToggleTwice(lang: string)
    ensures lang == "en" || lang == "fr" ==> ToggleTarget(ToggleTarget(lang)) == lang
    ensures lang != "en" && lang != "fr" ==> ToggleTarget(ToggleTarget(lang)) == "en"
  {
  }

  class Page {
    const hasToggle: bool               // `#langToggle` exists
    var lang: string                    // `document.documentElement.lang`
    var toggleActive: Option<string>    // the toggle's `data-active`
    var elements: seq<Element>          // the `[data-i18n]` elements, in document order
    var storage: map<string, string>    // `localStorage`
    var listening: bool                 // the toggle's handlers are installed

    constructor (hasToggle: bool, lang: string, toggleActive: Option<string>, elements: seq<Element>,
                 storage: map<string, string>)
      ensures this.hasToggle == hasToggle && this.lang == lang && this.elements == elements
      ensures this.storage == storage && this.toggleActive == toggleActive && !listening
    {
      this.hasToggle := hasToggle;
      this.lang := lang;
      this.toggleActive := toggleActive;
      this.elements := elements;
      this.storage := storage;
      listening := false;
    }

    /** `applyLanguage(lang)`; the language is recorded even when it has no dictionary. */
    method ApplyLanguage(newLang: string)
      modifies this
      ensures lang == newLang && storage == old(storage)["lang" := newLang]
      ensures toggleActive == (if hasToggle then Some(newLang) else old(toggleActive))
      ensures elements == Translated(old(elements), DictionaryFor(newLang))
      ensures listening == old(listening)
    {
      var dict := DictionaryFor(newLang);
      lang := newLang;
      if hasToggle {
        toggleActive := Some(newLang);
      }
      TranslateElements(dict);
      storage := storage["lang" := newLang];
    }

    /** The `forEach` over the `[data-i18n]` elements: a key the dictionary lacks is skipped. */
    method TranslateElements(dict: Dictionary)
      modifies this`elements
      ensures elements == Translated(old(elements), dict)
    {
      var i := 0;
      ghost var original := elements;
      TranslatedPointwise(original, dict);
      while i < |elements|
        invariant 0 <= i <= |elements| == |original|
        invariant forall j :: 0 <= j < i ==> elements[j] == Translate(original[j], dict)
        invariant forall j :: i <= j < |elements| ==> elements[j] == original[j]
      {
        var e := elements[i];
        if e.key in dict {
          elements := elements[i := e.(html := dict[e.key])];
        }
        i := i + 1;
      }
    }

    /** `initLanguageToggle`: nothing without a toggle; otherwise apply the start language
        and install the handlers. */
    method Init(navigatorLanguage: string)
      modifies this
      ensures !hasToggle ==> unchanged(this)
      ensures hasToggle ==>
        var start := StartLanguage(if "lang" in old(storage) then Some(old(storage)["lang"]) else None,
                                   navigatorLanguage);
        && lang == start && storage == old(storage)["lang" := start]
        && toggleActive == Some(start)
        && elements == Translated(old(elements), DictionaryFor(start))
        && listening
    {
      if !hasToggle {
        return;
      }
      var saved := if "lang" in storage then Some(storage["lang"]) else None;
      ApplyLanguage(StartLanguage(saved, navigatorLanguage));
      listening := true;
    }

    /** A click on the toggle, once its handler is installed. */
    method OnToggleClick()
      modifies this
      ensures !listening ==> unchanged(this)
      ensures listening ==>
        && lang == ToggleTarget(old(lang))
        && storage == old(storage)["lang" := lang]
        && toggleActive == (if hasToggle then Some(lang) else old(toggleActive))
        && elements == Translated(old(elements), DictionaryFor(lang))
      ensures listening == old(listening)
    {
      if !listening {
        return;
      }
      ApplyLanguage(ToggleTarget(lang));
    }

    /** A key press on the toggle: Enter and Space act as a click. */
    method OnToggleKey(key: string)
      modifies this
      ensures !(listening && (key == "Enter" || key == " ")) ==> unchanged(this)
      ensures listening && (key == "Enter" || key == " ") ==>
        && lang == ToggleTarget(old(lang))
        && storage == old(storage)["lang" := lang]
        && toggleActive == (if hasToggle then Some(lang) else old(toggleActive))
        && elements == Translated(old(elements), DictionaryFor(lang))
      ensures listening == old(listening)
    {
      if listening && (key == "Enter" || key == " ") {
        OnToggleClick();
      }
    }
  }
}

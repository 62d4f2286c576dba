/** The language switch of scripts/language.js: a global `currentLanguage`, the label of
    the language button, every element carrying both `data-zh` and `data-en`, and the
    open/closed state of the dropdown. */
module Language {
  import opened Common

  /** An element of the page: its attributes and its text content. */
  datatype Element = Element(attrs: map<string, string>, text: string)

  /** One entry of `translations`. */
  datatype Translation = Translation(name: string, currentLang: string)

  /** The `translations` table: only 'zh' and 'en' are keys. */
  const Translations: map<string, Translation> := map[
    "zh" := Translation("Max Liu", "\U{4E2D}\U{6587}"),
    "en" := Translation("Max Liu", "English")]

  /** The names a plain object inherits from `Object.prototype`. `translations[name]` is
      defined for each of them but has no `currentLang`. */
  const InheritedNames: set<string> := {
    "constructor", "toString", "toLocaleString", "valueOf", "hasOwnProperty",
    "isPrototypeOf", "propertyIsEnumerable", "__proto__", "__defineGetter__",
    "__defineSetter__", "__lookupGetter__", "__lookupSetter__"}

  /** The text `translations[lang].currentLang` writes into `#current-lang`, or `None` when
      `translations[lang]` is undefined and the lookup throws. For an inherited name the
      value is `undefined`, which `textContent` turns into the empty string. */
  function LabelFor(lang: string): (r: Option<string>)
    ensures lang in Translations ==> r == Some(Translations[lang].currentLang)
    ensures lang !in Translations && lang in InheritedNames ==> r == Some("")
    ensures r.None? <==> lang !in Translations && lang !in InheritedNames
  {
    if lang in Translations then Some(Translations[lang].currentLang)
    else if lang in InheritedNames then Some("")
    else None
  }

  /** What `[data-zh][data-en]` selects. */
  predicate Translatable(e: Element)
  {
    "data-zh" in e.attrs && "data-en" in e.attrs
  }

  /** One element after `switchLanguage(lang)`: its `data-zh` text for 'zh', its `data-en`
      text for any other language; an element lacking either attribute is untouched. */
  function Translated(e: Element, lang: string): (r: Element)
    ensures r.attrs == e.attrs
    ensures Translatable(e) && lang == "zh" ==> r.text == e.attrs["data-zh"]
    ensures Translatable(e) && lang != "zh" ==> r.text == e.attrs["data-en"]
    ensures !Translatable(e) ==> r == e
  {
    if !Translatable(e) then e
    else e.(text := if lang == "zh" then e.attrs["data-zh"] else e.attrs["data-en"])
  }

  function TranslatedAll(es: seq<Element>, lang: string): (r: seq<Element>)
    ensures |r| == |es|
    ensures forall k :: 0 <= k < |r| ==> r[k] == Translated(es[k], lang)
  {
    seq(|es|, k requires 0 <= k < |es| => Translated(es[k], lang))
  }

  /** Switching to the same language twice gives the page of switching once. */
  lemma {:induction false} TranslateIdempotent(es: seq<Element>, lang: string)
    ensures TranslatedAll(TranslatedAll(es, lang), lang) == TranslatedAll(es, lang)
  {
    var once := TranslatedAll(es, lang);
    forall k | 0 <= k < |es|
      ensures TranslatedAll(once, lang)[k] == once[k]
    {
      assert Translated(Translated(es[k], lang), lang) == Translated(es[k], lang);
    }
  }

  /** The last switch decides: a switch to `b` after one to `a` shows the same page as the
      switch to `b` alone. */
  lemma {:induction false} LastSwitchWins(es: seq<Element>, a: string, b: string)
    ensures TranslatedAll(TranslatedAll(es, a), b) == TranslatedAll(es, b)
  {
    var first := TranslatedAll(es, a);
    forall k | 0 <= k < |es|
      ensures TranslatedAll(first, b)[k] == TranslatedAll(es, b)[k]
    {
      assert first[k].attrs == es[k].attrs;
    }
  }

  class LanguageSwitch {
    var currentLanguage: string
    /** The text of `#current-lang`. */
    var buttonLabel: string
    /** The page's elements in document order. */
    var elements: seq<Element>
    /** Whether `#language-dropdown` has the class `active`. */
    var dropdownOpen: bool

    /** Script load: `currentLanguage = 'en'`, then `switchLanguage('en')`. */
    constructor (page: seq<Element>, pageLabel: string, dropdown: bool)
      ensures currentLanguage == "en" && buttonLabel == "English"
      ensures elements == TranslatedAll(page, "en") && !dropdownOpen
    {
      currentLanguage := "en";
      buttonLabel := pageLabel;
      elements := page;
      dropdownOpen := dropdown;
      new;
      var ok := SwitchLanguage("en");
    }

    /** `switchLanguage(lang)`. `currentLanguage` is assigned first; a `lang` for which
        `translations[lang]` is undefined then throws at the label lookup, so `ok` is false
        and nothing else changes. */
    method SwitchLanguage(lang: string) returns (ok: bool)
      modifies this
      ensures currentLanguage == lang
      ensures ok <==> LabelFor(lang).Some?
      ensures ok ==> buttonLabel == LabelFor(lang).value && !dropdownOpen
      ensures ok ==> elements == TranslatedAll(old(elements), lang)
      ensures !ok ==> buttonLabel == old(buttonLabel) && elements == old(elements) && dropdownOpen == old(dropdownOpen)
    {
      currentLanguage := lang;
      var shownLabel := LabelFor(lang);
      if shownLabel.None? {
        return false;
      }
      buttonLabel := shownLabel.value;
      var k := 0;
      while k < |elements|
        invariant 0 <= k <= |elements| == |old(elements)|
        invariant forall j :: 0 <= j < k ==> elements[j] == Translated(old(elements)[j], lang)
        invariant forall j :: k <= j < |elements| ==> elements[j] == old(elements)[j]
        invariant currentLanguage == lang && buttonLabel == shownLabel.value
      {
        var e := elements[k];
        if Translatable(e) {
          if lang == "zh" {
            e := e.(text := e.attrs["data-zh"]);
          } else {
            e := e.(text := e.attrs["data-en"]);
          }
        }
        elements := elements[k := e];
        k := k + 1;
      }
      dropdownOpen := false;
      ok := true;
    }

    /** A click on the language button toggles the dropdown; it stops propagation, so the
        document handler does not run. */
    method ClickButton()
      modifies this`dropdownOpen
      ensures dropdownOpen == !old(dropdownOpen)
    {
      dropdownOpen := !dropdownOpen;
    }

    /** Any other click on the document closes the dropdown. */
    method ClickDocument()
      modifies this`dropdownOpen
      ensures !dropdownOpen
    {
      dropdownOpen := false;
    }

    /** A click on a language option: `switchLanguage(data-lang)`, then the click bubbles to
        the document, which closes the dropdown even when the switch threw. */
    method ClickOption(lang: string) returns (ok: bool)
      modifies this
      ensures currentLanguage == lang && !dropdownOpen
      ensures ok <==> LabelFor(lang).Some?
      ensures ok ==> buttonLabel == LabelFor(lang).value && elements == TranslatedAll(old(elements), lang)
      ensures !ok ==> buttonLabel == old(buttonLabel) && elements == old(elements)
    {
      ok := SwitchLanguage(lang);
      ClickDocument();
    }
  }
}

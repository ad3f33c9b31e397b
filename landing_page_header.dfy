/**
 * The landing page header: the language read at start-up, the search box
 * placeholder chosen from it, and the search box's submit, which navigates
 * to the search page with the encoded text as `q`.
 */
module LandingPageHeader {
  import opened Common
  import SearchResultsPage

  const Spanish: string := "Busca un plan"
  const Basque: string := "Aurkitu plan bat"

  /**
   * The start-up guard `!stored == null`: `!stored` is a boolean, and a
   * boolean is never loosely equal to null.
   */
  function StoredLangGuard(stored: Option<string>): (holds: bool) {
    var negated := !Truthy(stored);
    LooseEqualsNull(Some(negated))
  }

  /** `v == null` for a value that may itself be null: only null and undefined qualify. */
  predicate LooseEqualsNull<T>(v: Option<T>) {
    v.None?
  }

  /** Whatever is stored, the guard fails, so the stored value is always used. */
  lemma GuardNeverHolds(stored: Option<string>)
    ensures !StoredLangGuard(stored)
  {
  }

  /** The placeholder: Spanish exactly for `lang == "es"`, Basque for anything else, null included. */
  function Placeholder(lang: Option<string>): (place: string)
    ensures place == Spanish <==> lang == Some("es")
    ensures place == Spanish || place == Basque
  {
    assert Spanish != Basque by { assert Spanish[0] != Basque[0]; }
    if lang == Some("es") then Spanish else Basque
  }

  class Header {
    var lang: Option<string>
    var place: string
    /** The `lang` entry of local storage. */
    var storedLang: Option<string>
    /** The language handed to the translation service. */
    var used: Option<string>

    constructor (stored: Option<string>)
      ensures storedLang == stored && place == "" && lang == None && used == None
    {
      storedLang := stored;
      place := "";
      lang := None;
      used := None;
    }

    /** `ngOnInit` as written: the language is the stored one, missing or not. */
    method Init()
      modifies this
      ensures lang == old(storedLang) && storedLang == old(storedLang)
      ensures place == Placeholder(lang) && used == lang
    {
      if StoredLangGuard(storedLang) {
        // Spanish, stored as such: never reached.
        assert false;
      } else {
        lang := storedLang;
      }
      place := Placeholder(lang);
      used := lang;
    }

    /** The start-up the guard's body is written for: a missing language becomes and is stored as Spanish. */
    method InitIntended()
      modifies this
      ensures old(storedLang).None? ==> lang == Some("es") && storedLang == Some("es") && place == Spanish
      ensures old(storedLang).Some? ==> lang == old(storedLang) && storedLang == old(storedLang)
      ensures place == Placeholder(lang) && used == lang && lang.Some?
    {
      if storedLang.None? {
        lang := Some("es");
        storedLang := Some("es");
      } else {
        lang := storedLang;
      }
      place := Placeholder(lang);
      used := lang;
    }
  }

  /** With nothing stored, the header shows the Basque placeholder and hands on no language. */
  method NoStoredLangScenario() returns (header: Header)
    ensures header.lang == None && header.used == None && header.place == Basque
  {
    header := new Header(None);
    header.Init();
  }

  /**
   * `_onFormSearchSubmit`: the `q` the header navigates with, or None when
   * the box was never filled (`null.trim()` throws).
   */
  function SubmitQuery(input: Option<string>): (q: Option<string>)
    ensures input.None? <==> q.None?
    ensures input.Some? && Trim(input.value) == "" ==> q == Some("")
    ensures input.Some? ==> q == Some(Replace(Trim(input.value), ' ', '+'))
  {
    if input.None? then None
    else
      var q := SearchResultsPage.Encode(input.value);
      Some(q)
  }

  /** The search page reads back the trimmed input, as long as it held no `+`. */
  lemma HeaderRoundTrip(input: string)
    requires forall i :: 0 <= i < |input| ==> input[i] != '+'
    ensures SearchResultsPage.Decode(SubmitQuery(Some(input)).value) == Trim(input)
  {
    SearchResultsPage.RoundTrip(input);
  }
}

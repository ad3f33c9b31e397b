/**
 * The custom URL matchers of the resource pages and the order in which the
 * router tries them. Both matchers are modelled as written: `&&` binds
 * tighter than `||`, so the length test and the digit test each guard one
 * alternative only, and reading a segment that is not there throws.
 */
module ResourceRouting {
  import opened Common

  /** What a matcher gives back: no match, a match, or a thrown TypeError. */
  datatype MatchResult = NoMatch | Matched(consumed: seq<string>, id: Option<string>) | TypeError

  /** Where the router sends a URL inside the resource module. */
  datatype Route = ListPage | DetailPage(id: string) | RedirectHome | NavigationError

  const Plurals: seq<string> :=
    ["caves", "culturals", "events", "fairs", "localities", "museums", "naturals", "restaurants"]

  /** Singular first segments that the detail matcher accepts without a length or digit test. */
  const Singulars: seq<string> := ["cave", "cultural", "event", "fair", "locality", "museum", "natural"]

  /** `resourceListMatcher`, as written. */
  function ListMatcher(url: seq<string>): (m: MatchResult)
    ensures m == NoMatch || m == TypeError || m == Matched(url, None)
    ensures m == TypeError <==> url == []
    ensures m.Matched? <==> url != [] && ((|url| == 1 && url[0] == "accommodations") || url[0] in Plurals)
  {
    if |url| == 1 && url[0] == "accommodations" then Matched(url, None)
    else if url == [] then TypeError
    else if url[0] in Plurals then Matched(url, None)
    else NoMatch
  }

  /** `resourceDetailMatcher`, as written. */
  function DetailMatcher(url: seq<string>): (m: MatchResult)
    ensures m.Matched? ==> m.consumed == url && |url| >= 2 && m.id == Some(url[1])
    ensures url == [] ==> m == TypeError
    ensures |url| == 1 && (url[0] in Singulars || url[0] == "restaurant") ==> m == TypeError
  {
    var hit :=
      if |url| == 2 && url[0] == "accommodation" then Some(true)
      else if url == [] then None
      else if url[0] in Singulars then Some(true)
      else if url[0] != "restaurant" then Some(false)
      else if |url| < 2 then None
      else Some(AllDigits(url[1]));
    if hit.None? then TypeError
    else if !hit.value then NoMatch
    else if |url| < 2 then TypeError
    else Matched(url, Some(url[1]))
  }

  /** The route table: the list matcher, then the detail matcher, then `**` to `/`. */
  function Resolve(url: seq<string>): (r: Route)
    ensures url == [] ==> r == NavigationError
    ensures r == ListPage <==> url != [] && ((|url| == 1 && url[0] == "accommodations") || url[0] in Plurals)
    ensures r.DetailPage? ==> |url| >= 2 && r.id == url[1]
  {
    match ListMatcher(url)
    case TypeError => NavigationError
    case Matched(_, _) => ListPage
    case NoMatch =>
      match DetailMatcher(url)
      case TypeError => NavigationError
      case Matched(_, id) => DetailPage(id.value)
      case NoMatch => RedirectHome
  }

  /** `['accommodations']` is a list URL and `['accommodations', x]` is not. */
  lemma AccommodationsListOnlyAlone(x: string)
    ensures Resolve(["accommodations"]) == ListPage
    ensures ListMatcher(["accommodations", x]) == NoMatch
  {
    assert "accommodations" !in Plurals;
  }

  /** The other plural names open the list page whatever follows them. */
  lemma {:induction false} PluralsIgnoreLength(url: seq<string>)
    requires url != [] && url[0] in Plurals
    ensures Resolve(url) == ListPage
  {
  }

  /** A detail match takes the whole URL and its second segment as `id`. */
  lemma {:induction false} DetailMatchTakesSecondSegment(url: seq<string>)
    requires DetailMatcher(url).Matched?
    ensures DetailMatcher(url) == Matched(url, Some(url[1]))
  {
  }

  /** A restaurant detail URL matches exactly when its second segment is all digits. */
  lemma {:induction false} RestaurantNeedsDigits(url: seq<string>)
    requires |url| >= 2 && url[0] == "restaurant"
    ensures DetailMatcher(url).Matched? <==> AllDigits(url[1])
    ensures !DetailMatcher(url).TypeError?
  {
    assert "restaurant" !in Singulars;
  }

  /** The accommodation detail URL is checked for length and not for digits. */
  lemma {:induction false} AccommodationDetailLength(x: string, rest: seq<string>)
    ensures DetailMatcher(["accommodation", x]) == Matched(["accommodation", x], Some(x))
    ensures |rest| > 0 ==> DetailMatcher(["accommodation", x] + rest) == NoMatch
  {
    assert "accommodation" !in Singulars;
  }

  // ---------------------------------------------- the evidently intended matchers

  /** The list matcher with the length test applied to every name. */
  function ListMatcherIntended(url: seq<string>): (m: MatchResult)
    ensures m.Matched? <==> |url| == 1 && (url[0] == "accommodations" || url[0] in Plurals)
    ensures m != TypeError
  {
    if |url| == 1 && (url[0] == "accommodations" || url[0] in Plurals) then Matched(url, None) else NoMatch
  }

  /** The detail matcher with both the length and the digit test applied to every name. */
  function DetailMatcherIntended(url: seq<string>): (m: MatchResult)
    ensures m.Matched? <==> |url| == 2 && (url[0] == "accommodation" || url[0] in Singulars || url[0] == "restaurant") && AllDigits(url[1])
    ensures m.Matched? ==> m == Matched(url, Some(url[1]))
    ensures m != TypeError
  {
    if |url| == 2 && (url[0] == "accommodation" || url[0] in Singulars || url[0] == "restaurant") && AllDigits(url[1])
    then Matched(url, Some(url[1]))
    else NoMatch
  }

  function ResolveIntended(url: seq<string>): (r: Route)
    ensures r != NavigationError
    ensures r.DetailPage? ==> |url| == 2 && AllDigits(r.id)
    ensures r == ListPage ==> |url| == 1
  {
    if ListMatcherIntended(url).Matched? then ListPage
    else if DetailMatcherIntended(url).Matched? then DetailPage(url[1])
    else RedirectHome
  }

  /**
   * As written, a plural URL with extra segments opens the list page, a
   * singular URL with a non-numeric code opens the detail page, and a bare
   * singular name or an empty URL throws; the intended matchers send the first
   * two home and never throw.
   */
  lemma PrecedenceCounterexamples()
    ensures Resolve(["caves", "x", "y"]) == ListPage
    ensures ResolveIntended(["caves", "x", "y"]) == RedirectHome
    ensures Resolve(["cave", "abc"]) == DetailPage("abc")
    ensures ResolveIntended(["cave", "abc"]) == RedirectHome
    ensures Resolve(["cave"]) == NavigationError
    ensures Resolve([]) == NavigationError
  {
    assert "cave" !in Plurals;
    assert !AllDigits("abc") by { assert !IsDigit("abc"[0]); }
  }

  /** The two readings agree on every well-formed URL: one plural name, or a singular name and a numeric code. */
  lemma {:induction false} IntendedAgreesOnWellFormed(url: seq<string>)
    requires (|url| == 1 && (url[0] == "accommodations" || url[0] in Plurals))
      || (|url| == 2 && (url[0] == "accommodation" || url[0] in Singulars || url[0] == "restaurant") && AllDigits(url[1]))
    ensures Resolve(url) == ResolveIntended(url)
  {
    if |url| == 2 {
      assert url[0] !in Plurals;
      assert url[0] != "accommodations";
    }
  }
}

/**
 * The URL matchers of the plan pages: `list` opens the plan list, a single
 * all-digit segment (the empty one included) opens a plan by id, and
 * anything else is sent to `/`.
 */
module PlanRouting {
  import opened Common

  datatype Route = ListPage | DetailPage(id: string) | RedirectHome

  /** `planListMatcher`. */
  predicate ListMatcher(url: seq<string>)
    ensures ListMatcher(url) <==> url == ["list"]
  {
    |url| == 1 && url[0] == "list"
  }

  /** `planDetailMatcher`: the id it binds when it matches. */
  function DetailMatcher(url: seq<string>): (id: Option<string>)
    ensures id.Some? <==> |url| == 1 && AllDigits(url[0])
    ensures id.Some? ==> id.value == url[0]
  {
    if |url| == 1 && AllDigits(url[0]) then Some(url[0]) else None
  }

  /** The route table: the list matcher, the detail matcher, then `**` to `/`. */
  function Resolve(url: seq<string>): (r: Route)
    ensures r == ListPage <==> url == ["list"]
    ensures r.DetailPage? <==> |url| == 1 && AllDigits(url[0])
    ensures r.DetailPage? ==> r.id == url[0]
    ensures r == RedirectHome <==> |url| != 1 || (url[0] != "list" && !AllDigits(url[0]))
  {
    assert !IsDigit("list"[0]);
    if ListMatcher(url) then ListPage
    else match DetailMatcher(url)
      case Some(id) => DetailPage(id)
      case None => RedirectHome
  }

  /** `list` has letters, so no URL matches both matchers. */
  lemma MatchersDisjoint(url: seq<string>)
    ensures !(ListMatcher(url) && DetailMatcher(url).Some?)
  {
    if ListMatcher(url) {
      assert !IsDigit(url[0][0]);
    }
  }

  /** The empty segment counts as a plan id. */
  lemma EmptyIdMatches()
    ensures Resolve([""]) == DetailPage("")
  {
  }

  /** Every URL of more than one segment, or of none, goes home. */
  lemma {:induction false} OtherLengthsRedirect(url: seq<string>)
    requires |url| != 1
    ensures Resolve(url) == RedirectHome
  {
  }

  /** A single segment opens the list, a plan, or goes home, depending only on its text. */
  lemma {:induction false} SingleSegment(s: string)
    ensures Resolve([s]) == (if s == "list" then ListPage else if AllDigits(s) then DetailPage(s) else RedirectHome)
  {
    MatchersDisjoint([s]);
  }
}

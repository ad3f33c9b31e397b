/**
 * The routes of the user area: four fixed paths, a custom matcher for the
 * plan editor that binds the third segment as the plan id, and `**` to `/`.
 */
module UserRouting {
  import opened Common

  datatype Route = Account | Favourites | PlansList | PlanCreate | PlanEdit(id: string) | RedirectHome

  /** `planEditMatcher`: the id it binds when it matches. */
  function PlanEditMatcher(url: seq<string>): (id: Option<string>)
    ensures id.Some? <==> |url| == 3 && AllDigits(url[2])
    ensures id.Some? ==> id.value == url[2]
  {
    if |url| == 3 && AllDigits(url[2]) then Some(url[2]) else None
  }

  /** The route table in its declared order; a path route must use the whole URL. */
  function Resolve(url: seq<string>): (r: Route)
    ensures r.PlanEdit? <==> |url| == 3 && AllDigits(url[2])
    ensures r.PlanEdit? ==> r.id == url[2]
    ensures r == RedirectHome <==>
      url !in {["my-account"], ["my-favourites"], ["my-plans"], ["my-plans", "create"]} && !(|url| == 3 && AllDigits(url[2]))
  {
    if url == ["my-account"] then Account
    else if url == ["my-favourites"] then Favourites
    else if url == ["my-plans"] then PlansList
    else if url == ["my-plans", "create"] then PlanCreate
    else match PlanEditMatcher(url)
      case Some(id) => PlanEdit(id)
      case None => RedirectHome
  }

  /** The matcher reads only the third segment: the first two can be anything. */
  lemma {:induction false} FirstTwoIgnored(a: string, b: string, c: string, d: string, id: string)
    ensures PlanEditMatcher([a, b, id]) == PlanEditMatcher([c, d, id])
    ensures AllDigits(id) ==> Resolve([a, b, id]) == PlanEdit(id)
  {
  }

  /** Any URL that is none of the fixed paths and does not end in a numeric third segment goes home. */
  lemma {:induction false} UnmatchedRedirects(url: seq<string>)
    requires url !in [["my-account"], ["my-favourites"], ["my-plans"], ["my-plans", "create"]]
    requires !(|url| == 3 && AllDigits(url[2]))
    ensures Resolve(url) == RedirectHome
  {
  }
}

/**
 * The plan store: the public plan list, the user's plans and the plan
 * being edited, and the local list updates that follow each successful
 * request. Plans in the lists are shared objects, so a vote through
 * `plans` is seen through `userPlans` when both hold the same plan.
 */
module PlanStore {
  import opened Common

  /** A plan object as the HTTP layer hands it over; voting changes it in place. */
  class PlanObj {
    const id: int
    var votos: int

    constructor (id: int, votos: int)
      ensures this.id == id && this.votos == votos
    {
      this.id := id;
      this.votos := votos;
    }
  }

  /** A step of a plan. */
  datatype Step = Step(id: int, recurso: int)

  /** The plan being edited, with its steps when the API sent them. */
  datatype CurrentPlan = CurrentPlan(id: int, pasos: Option<seq<Step>>)

  /** `findIndex(x => key(x) === id)`: the first index whose key is `id`, or None for -1. */
  function FirstIndex<T>(xs: seq<T>, key: T -> int, id: int): (i: Option<nat>)
    ensures i.None? <==> forall j :: 0 <= j < |xs| ==> key(xs[j]) != id
    ensures i.Some? ==> (i.value < |xs| && key(xs[i.value]) == id
      && forall j :: 0 <= j < i.value ==> key(xs[j]) != id)
    decreases |xs|
  {
    if xs == [] then None
    else if key(xs[0]) == id then Some(0)
    else
      var i := FirstIndex(xs[1..], key, id);
      assert forall j :: 1 <= j < |xs| ==> xs[j] == xs[1..][j - 1];
      if i.None? then None else Some(i.value + 1)
  }

  /** `filter(x => key(x) !== id)`. */
  function Without<T>(xs: seq<T>, key: T -> int, id: int): (r: seq<T>)
    ensures |r| <= |xs|
    ensures forall i :: 0 <= i < |r| ==> r[i] in xs && key(r[i]) != id
    ensures forall i :: 0 <= i < |xs| && key(xs[i]) != id ==> xs[i] in r
    decreases |xs|
  {
    if xs == [] then []
    else (if key(xs[0]) != id then [xs[0]] else []) + Without(xs[1..], key, id)
  }

  /** Filtering distributes over concatenation, so the kept elements stay in order. */
  lemma {:induction false} WithoutAppend<T>(a: seq<T>, b: seq<T>, key: T -> int, id: int)
    ensures Without(a + b, key, id) == Without(a, key, id) + Without(b, key, id)
    decreases |a|
  {
    if a == [] {
      assert a + b == b;
    } else {
      assert (a + b)[0] == a[0] && (a + b)[1..] == a[1..] + b;
      WithoutAppend(a[1..], b, key, id);
      var h := if key(a[0]) != id then [a[0]] else [];
      assert Without(a + b, key, id) == h + Without(a[1..] + b, key, id);
    }
  }

  /** Filtering out an id twice is filtering it out once. */
  lemma {:induction false} WithoutIdempotent<T>(xs: seq<T>, key: T -> int, id: int)
    ensures Without(Without(xs, key, id), key, id) == Without(xs, key, id)
    decreases |xs|
  {
    if xs != [] {
      WithoutIdempotent(xs[1..], key, id);
      var h := if key(xs[0]) != id then [xs[0]] else [];
      WithoutAppend(h, Without(xs[1..], key, id), key, id);
      assert Without(h, key, id) == h by {
        if h != [] { assert h[1..] == []; }
      }
    }
  }

  /** When no element has the id, filtering changes nothing. */
  lemma {:induction false} WithoutAbsent<T>(xs: seq<T>, key: T -> int, id: int)
    requires forall j :: 0 <= j < |xs| ==> key(xs[j]) != id
    ensures Without(xs, key, id) == xs
    decreases |xs|
  {
    if xs != [] {
      WithoutAbsent(xs[1..], key, id);
      assert [xs[0]] + xs[1..] == xs;
    }
  }

  function PlanKey(p: PlanObj): int { p.id }

  function StepKey(s: Step): int { s.id }

  class Store {
    var plans: seq<PlanObj>
    var userPlans: seq<PlanObj>
    var currentPlan: Option<CurrentPlan>
    var loading: bool

    constructor ()
      ensures plans == [] && userPlans == [] && currentPlan == None && !loading
    {
      plans := [];
      userPlans := [];
      currentPlan := None;
      loading := false;
    }

    /** `fetchPlans`: the list takes the response; an error keeps it. */
    method FetchPlans(response: Outcome<seq<PlanObj>>)
      modifies this`plans, this`loading
      ensures plans == (if response.Ok? then response.body else old(plans))
      ensures !loading
    {
      loading := true;
      if response.Ok? {
        plans := response.body;
      }
      loading := false;
    }

    /** `fetchUserPlans`: the user's list takes the response; an error keeps it. */
    method FetchUserPlans(response: Outcome<seq<PlanObj>>)
      modifies this`userPlans, this`loading
      ensures userPlans == (if response.Ok? then response.body else old(userPlans))
      ensures !loading
    {
      loading := true;
      if response.Ok? {
        userPlans := response.body;
      }
      loading := false;
    }

    /** `fetchPlanById`: the current plan takes the response; an error keeps it. */
    method FetchPlanById(response: Outcome<CurrentPlan>)
      modifies this`currentPlan, this`loading
      ensures currentPlan == (if response.Ok? then Some(response.body) else old(currentPlan))
      ensures !loading
    {
      loading := true;
      if response.Ok? {
        currentPlan := Some(response.body);
      }
      loading := false;
    }

    /** `createPlan`: the one returned object is appended to both lists. */
    method CreatePlan(response: Outcome<PlanObj>) returns (created: Option<PlanObj>)
      modifies this`plans, this`userPlans, this`loading
      ensures response.Ok? ==> plans == old(plans) + [response.body] && userPlans == old(userPlans) + [response.body]
      ensures response.Failed? ==> plans == old(plans) && userPlans == old(userPlans)
      ensures created == (if response.Ok? then Some(response.body) else None)
      ensures !loading
    {
      loading := true;
      created := None;
      if response.Ok? {
        plans := plans + [response.body];
        userPlans := userPlans + [response.body];
        created := Some(response.body);
      }
      loading := false;
    }

    /**
     * `updatePlan(id)`: the first plan with that id is replaced by the
     * returned one; without a match nothing changes, and `userPlans` is
     * never touched.
     */
    method UpdatePlan(id: int, response: Outcome<PlanObj>)
      modifies this`plans, this`loading
      ensures var i := FirstIndex(old(plans), PlanKey, id);
        plans == (if response.Ok? && i.Some? then old(plans)[i.value := response.body] else old(plans))
      ensures |plans| == |old(plans)|
      ensures !loading
    {
      loading := true;
      if response.Ok? {
        var index := FirstIndex(plans, PlanKey, id);
        if index.Some? {
          plans := plans[index.value := response.body];
        }
      }
      loading := false;
    }

    /** `deletePlan(id)`: every plan with that id leaves the list, the others keep their order. */
    method DeletePlan(id: int, succeeded: bool)
      modifies this`plans, this`loading
      ensures plans == (if succeeded then Without(old(plans), PlanKey, id) else old(plans))
      ensures succeeded ==> forall p :: p in plans ==> p.id != id
      ensures !loading
    {
      loading := true;
      if succeeded {
        plans := Without(plans, PlanKey, id);
      }
      loading := false;
    }

    /**
     * `upvotePlan(id)` (`delta` = 1) and `downvotePlan(id)` (`delta` = -1):
     * only the votes of the first plan with that id change. The lists
     * themselves are unchanged, and the loading flag is not touched.
     */
    method Vote(id: int, delta: int, succeeded: bool)
      requires delta == 1 || delta == -1
      modifies set p | p in plans
      ensures plans == old(plans) && userPlans == old(userPlans) && currentPlan == old(currentPlan)
      ensures var i := FirstIndex(plans, PlanKey, id);
        succeeded && i.Some? ==> plans[i.value].votos == old(plans[i.value].votos) + delta
      ensures var i := FirstIndex(plans, PlanKey, id);
        forall p :: p in plans && !(succeeded && i.Some? && p == plans[i.value]) ==> p.votos == old(p.votos)
    {
      if succeeded {
        var index := FirstIndex(plans, PlanKey, id);
        if index.Some? {
          var plan := plans[index.value];
          plan.votos := plan.votos + delta;
        }
      }
    }

    /** `createStep(step, planId)`: appended only to a current plan with that id that has its steps. */
    method CreateStep(planId: int, response: Outcome<Step>)
      modifies this`currentPlan, this`loading
      ensures var c := old(currentPlan);
        currentPlan == (if response.Ok? && c.Some? && c.value.id == planId && c.value.pasos.Some?
                        then Some(c.value.(pasos := Some(c.value.pasos.value + [response.body])))
                        else c)
      ensures !loading
    {
      loading := true;
      if response.Ok? && currentPlan.Some? && currentPlan.value.id == planId && currentPlan.value.pasos.Some? {
        var c := currentPlan.value;
        currentPlan := Some(c.(pasos := Some(c.pasos.value + [response.body])));
      }
      loading := false;
    }

    /** `updateStep(stepId)`: the first step with that id is replaced, whatever the current plan's id. */
    method UpdateStep(stepId: int, response: Outcome<Step>)
      modifies this`currentPlan, this`loading
      ensures var c := old(currentPlan);
        response.Ok? && c.Some? && c.value.pasos.Some? && FirstIndex(c.value.pasos.value, StepKey, stepId).Some? ==>
          currentPlan == Some(c.value.(pasos := Some(c.value.pasos.value[FirstIndex(c.value.pasos.value, StepKey, stepId).value := response.body])))
      ensures var c := old(currentPlan);
        !(response.Ok? && c.Some? && c.value.pasos.Some? && FirstIndex(c.value.pasos.value, StepKey, stepId).Some?) ==>
          currentPlan == c
      ensures !loading
    {
      loading := true;
      if response.Ok? && currentPlan.Some? && currentPlan.value.pasos.Some? {
        var c := currentPlan.value;
        var stepIndex := FirstIndex(c.pasos.value, StepKey, stepId);
        if stepIndex.Some? {
          currentPlan := Some(c.(pasos := Some(c.pasos.value[stepIndex.value := response.body])));
        }
      }
      loading := false;
    }

    /** `deleteStep(stepId, planId)`: every step with that id goes, only for a current plan with that id. */
    method DeleteStep(stepId: int, planId: int, succeeded: bool)
      modifies this`currentPlan, this`loading
      ensures var c := old(currentPlan);
        currentPlan == (if succeeded && c.Some? && c.value.id == planId && c.value.pasos.Some?
                        then Some(c.value.(pasos := Some(Without(c.value.pasos.value, StepKey, stepId))))
                        else c)
      ensures !loading
    {
      loading := true;
      if succeeded && currentPlan.Some? && currentPlan.value.id == planId && currentPlan.value.pasos.Some? {
        var c := currentPlan.value;
        currentPlan := Some(c.(pasos := Some(Without(c.pasos.value, StepKey, stepId))));
      }
      loading := false;
    }
  }

  /**
   * A plan created here and then upvoted shows the new vote through
   * `userPlans` as well, since both lists hold the same object.
   */
  method CreateThenUpvote(store: Store, created: PlanObj)
    requires forall p :: p in store.plans ==> p.id != created.id
    modifies store, created, set p | p in store.plans
    ensures store.userPlans == old(store.userPlans) + [created]
    ensures store.userPlans[|store.userPlans| - 1].votos == old(created.votos) + 1
  {
    var _ := store.CreatePlan(Ok(created));
    assert forall j :: 0 <= j < |store.plans| - 1 ==> store.plans[j] in old(store.plans);
    assert forall j :: 0 <= j < |store.plans| - 1 ==> PlanKey(store.plans[j]) != created.id;
    assert PlanKey(store.plans[|store.plans| - 1]) == created.id;
    assert FirstIndex(store.plans, PlanKey, created.id) == Some(|store.plans| - 1);
    store.Vote(created.id, 1, true);
  }
}

/**
 * The add-to-plan button: the menu of the user's plans headed by a
 * "create" entry, the step request that adds the shown resource to a plan,
 * and the create-plan form.
 */
module AddToPlanButton {
  import opened Common

  datatype Plan = Plan(id: int, titulo: string, pasos: Option<seq<int>>)
  datatype Resource = Resource(id: int, coleccion: string)

  /** A menu entry: the "create a new plan" entry, or one that adds to a plan. */
  datatype MenuItem = CreateNew | AddTo(plan: Plan)

  /** The body of `createPlanStep(plan.id, …)`. */
  datatype StepRequest = StepRequest(planId: int, indice: nat, idRecurso: int, tipoRecurso: string)

  /** The body of `createPlan(…)`. */
  datatype PlanPayload = PlanPayload(idioma: string, titulo: string, descripcion: string, publico: Option<bool>, pasos: seq<int>)

  /** The step index: 0 for a plan without steps, the step count plus one otherwise. */
  function Indice(plan: Plan): (i: nat)
    ensures plan.pasos.None? || plan.pasos.value == [] ==> i == 0
    ensures plan.pasos.Some? && plan.pasos.value != [] ==> i == |plan.pasos.value| + 1
  {
    if plan.pasos.Some? && |plan.pasos.value| > 0 then |plan.pasos.value| + 1 else 0
  }

  /**
   * The indices handed out to plans read with 0, 1, …, n - 1 steps, as a
   * plan fetched afresh after each added step would be.
   */
  function HandedOut(n: nat): (indices: seq<nat>)
    ensures |indices| == n
  {
    if n == 0 then [] else HandedOut(n - 1) + [Indice(Plan(0, "", Some(Repeat(n - 1))))]
  }

  function Repeat(n: nat): (s: seq<int>)
    ensures |s| == n
  {
    if n == 0 then [] else Repeat(n - 1) + [0]
  }

  /** The handed-out indices rise strictly and skip 1: they run 0, 2, 3, … */
  lemma {:induction false} HandedOutShape(n: nat)
    ensures forall k :: 0 <= k < n ==> HandedOut(n)[k] == (if k == 0 then 0 else k + 1)
    ensures forall j, k :: 0 <= j < k < n ==> HandedOut(n)[j] < HandedOut(n)[k]
    ensures 1 !in HandedOut(n)
  {
    if n > 0 {
      HandedOutShape(n - 1);
      assert HandedOut(n)[..n - 1] == HandedOut(n - 1);
    }
  }

  /** The menu once the plans request completes: "create" first, then the loaded plans in order. */
  function Menu(plans: seq<Plan>): (items: seq<MenuItem>)
    ensures |items| == |plans| + 1 && items[0] == CreateNew
    ensures forall i :: 0 <= i < |plans| ==> items[i + 1] == AddTo(plans[i])
  {
    [CreateNew] + AddItems(plans)
  }

  function AddItems(plans: seq<Plan>): (items: seq<MenuItem>)
    ensures |items| == |plans|
    ensures forall i :: 0 <= i < |plans| ==> items[i] == AddTo(plans[i])
  {
    if plans == [] then [] else [AddTo(plans[0])] + AddItems(plans[1..])
  }

  class Button {
    var resource: Option<Resource>
    var plans: seq<Plan>
    var menuItems: seq<MenuItem>
    var displayModal: bool
    var formBeingSubmitted: bool
    /** The create-plan form's three controls. */
    var title: Option<string>
    var description: Option<string>
    var isPublic: Option<bool>

    constructor (resource0: Option<Resource>)
      ensures resource == resource0 && plans == [] && menuItems == []
      ensures !displayModal && !formBeingSubmitted
      ensures title == None && description == None && isPublic == None
    {
      resource := resource0;
      plans := [];
      menuItems := [];
      displayModal := false;
      formBeingSubmitted := false;
      title := None;
      description := None;
      isPublic := None;
    }

    /**
     * The user's plans arrive (or fail): the plans become menu items and,
     * in either case, "create" is spliced in at the head.
     */
    method PlansArrived(response: Outcome<seq<Plan>>)
      modifies this`plans, this`menuItems
      ensures response.Ok? ==> plans == response.body && menuItems == Menu(response.body)
      ensures response.Failed? ==> plans == old(plans) && menuItems == [CreateNew] + old(menuItems)
    {
      if response.Ok? {
        plans := response.body;
        menuItems := AddItems(plans);
      }
      menuItems := [CreateNew] + menuItems;
    }

    /** `_addToPlan(plan)`: the step request, or nothing without a resource. */
    method AddToPlan(plan: Plan) returns (request: Option<StepRequest>)
      ensures resource.None? <==> request.None?
      ensures request.Some? ==>
        request.value == StepRequest(plan.id, Indice(plan), resource.value.id, resource.value.coleccion)
    {
      if resource.None? {
        return None;
      }
      return Some(StepRequest(plan.id, Indice(plan), resource.value.id, resource.value.coleccion));
    }

    /** A menu entry's command: "create" opens the create-plan dialog, any other entry adds to its plan. */
    method Select(item: MenuItem) returns (request: Option<StepRequest>)
      modifies this`displayModal
      ensures item == CreateNew ==> displayModal && request == None
      ensures item.AddTo? ==> (displayModal == old(displayModal)
        && (resource.None? <==> request.None?)
        && (request.Some? ==> request.value == StepRequest(item.plan.id, Indice(item.plan), resource.value.id, resource.value.coleccion)))
    {
      if item == CreateNew {
        displayModal := true;
        return None;
      }
      request := AddToPlan(item.plan);
    }

    /**
     * `_onCreatePlanFormSubmit`: the payload with trimmed title and
     * description and the stored language or Spanish; a missing title or
     * description fails (`null.trim()`), leaving the form busy.
     */
    method SubmitCreate(storedLang: Option<string>) returns (payload: Outcome<PlanPayload>)
      modifies this`formBeingSubmitted
      ensures formBeingSubmitted
      ensures payload.Failed? <==> title.None? || description.None?
      ensures payload.Ok? ==>
        payload.body == PlanPayload(storedLang.GetOr("es"), Trim(title.value), Trim(description.value), isPublic, [])
    {
      formBeingSubmitted := true;
      if title.None? || description.None? {
        return Failed;
      }
      var t := Trim(title.value);
      var d := Trim(description.value);
      return Ok(PlanPayload(storedLang.GetOr("es"), t, d, isPublic, []));
    }

    /**
     * The create request settles: a new plan is appended to the plans and
     * the menu and the form is reset; both flags end false on either outcome.
     */
    method CreateSettled(response: Outcome<Plan>)
      modifies this`plans, this`menuItems, this`displayModal, this`formBeingSubmitted,
        this`title, this`description, this`isPublic
      ensures !formBeingSubmitted && !displayModal
      ensures response.Ok? ==> (plans == old(plans) + [response.body]
        && menuItems == old(menuItems) + [AddTo(response.body)]
        && title == None && description == None && isPublic == None)
      ensures response.Failed? ==> (plans == old(plans) && menuItems == old(menuItems)
        && title == old(title) && description == old(description) && isPublic == old(isPublic))
    {
      if response.Ok? {
        plans := plans + [response.body];
        menuItems := menuItems + [AddTo(response.body)];
        title, description, isPublic := None, None, None;
      }
      formBeingSubmitted := false;
      displayModal := false;
    }

    /** The menu matches the plans: "create" first, then one item per plan. */
    predicate MenuMatches()
      reads this
    {
      menuItems == Menu(plans)
    }
  }

  /**
   * Two adds through the same menu entry send the same step index: the
   * entry keeps the plan as loaded, and nothing the step request returns
   * updates it.
   */
  method AddTwiceSameIndex(b: Button, k: nat) returns (first: Option<StepRequest>, second: Option<StepRequest>)
    requires k < |b.menuItems| && b.menuItems[k].AddTo? && b.resource.Some?
    modifies b
    ensures b.menuItems == old(b.menuItems) && b.resource == old(b.resource)
    ensures first.Some? && second.Some? && first == second
    ensures first.value.indice == Indice(b.menuItems[k].plan)
  {
    var item := b.menuItems[k];
    first := b.Select(item);
    second := b.Select(item);
  }

  /** Adding a created plan keeps the menu in step with the plans. */
  lemma MenuAppend(plans: seq<Plan>, p: Plan)
    ensures Menu(plans + [p]) == Menu(plans) + [AddTo(p)]
  {
    assert AddItems(plans + [p]) == AddItems(plans) + [AddTo(p)];
  }

  /** After the plans load, a successful create leaves the menu in step with the plans. */
  method LoadThenCreateScenario(b: Button, loaded: seq<Plan>, created: Plan)
    modifies b
    ensures b.MenuMatches() && b.plans == loaded + [created]
  {
    b.PlansArrived(Ok(loaded));
    b.CreateSettled(Ok(created));
    MenuAppend(loaded, created);
  }
}

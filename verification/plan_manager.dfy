/** The dashboard plan manager (src/components/features/dashboard/planManager.tsx):
    a filtered view of the plans, a new-plan form and an edit form. The
    component does not change the plans itself; it hands plans to its
    parent's `onAddPlan`/`onUpdatePlan` callbacks, modelled here as the list
    of requests it has sent. The clock reading is a parameter. */
module PlanManager {
  import opened Common
  import opened UsePlans

  datatype PlanFilter = All | Upcoming | Completed

  /** The test of `filteredPlans` for one plan. */
  predicate Keeps(filter: PlanFilter, p: Plan, now: int) {
    match filter
    case Completed => p.completed
    case Upcoming => !p.completed && p.startDate >= now
    case All => true
  }

  function KeptBy(filter: PlanFilter, now: int): Plan -> bool {
    (p: Plan) => Keeps(filter, p, now)
  }

  /** `filteredPlans`. */
  function FilteredPlans(plans: seq<Plan>, filter: PlanFilter, now: int): (r: seq<Plan>)
    ensures filter == All ==> r == plans
    ensures filter == Completed ==> forall p :: p in r <==> p in plans && p.completed
    ensures filter == Upcoming ==> forall p :: p in r <==> p in plans && !p.completed && p.startDate >= now
    ensures IsSubseq(r, plans)
  {
    FilterSubseq(plans, KeptBy(filter, now));
    var r := Filter(plans, KeptBy(filter, now));
    assert filter == All ==> r == plans by {
      if filter == All {
        FilterKeepsAll(plans, KeptBy(All, now));
      }
    }
    r
  }

  /** No plan is both completed and upcoming. */
  lemma CompletedUpcomingDisjoint(plans: seq<Plan>, now: int)
    ensures forall p :: !(p in FilteredPlans(plans, Completed, now) && p in FilteredPlans(plans, Upcoming, now))
  {
  }

  /** The payload of `togglePlanCompletion`: the same plan with only
      `completed` negated. */
  function Flipped(p: Plan): (r: Plan)
    ensures r.completed == !p.completed
    ensures r.(completed := p.completed) == p
  {
    p.(completed := !p.completed)
  }

  /** When the plan shown is the stored plan of its id, submitting the
      flipped plan through `updatePlan` does what `togglePlanCompleted`
      does. */
  lemma {:induction false} FlippedUpdateIsToggle(plans: seq<Plan>, p: Plan)
    requires forall i :: 0 <= i < |plans| && plans[i].id == p.id ==> plans[i] == p
    ensures Updated(plans, Flipped(p)) == Toggled(plans, p.id)
  {
    var u, t := Updated(plans, Flipped(p)), Toggled(plans, p.id);
    forall i | 0 <= i < |plans| ensures u[i] == t[i] {
    }
  }

  /** The empty form; it starts now and ends an hour later. */
  function BlankPlan(now: int): (r: Plan)
    ensures r.id == [] && r.title == [] && !r.completed && r.priority == Medium && r.tags == []
    ensures r.endDate - r.startDate == Hour
  {
    Plan("", "", "", now, now + 3600000, false, Medium, [])
  }

  /** What the component has asked its parent to do. */
  datatype Request = AddPlan(plan: Plan) | UpdatePlan(plan: Plan)

  class PlanManagerPanel {
    var activeFilter: PlanFilter
    var editingPlan: Option<Plan>
    var newPlan: Plan
    var isNewPlanDialogOpen: bool
    var sent: seq<Request>

    constructor(now: int)
      ensures activeFilter == All && editingPlan == None && newPlan == BlankPlan(now)
      ensures !isNewPlanDialogOpen && sent == []
    {
      activeFilter := All;
      editingPlan := None;
      newPlan := BlankPlan(now);
      isNewPlanDialogOpen := false;
      sent := [];
    }

    /** The save button is disabled while the title is empty. */
    predicate SaveEnabled()
      reads this
    {
      newPlan.title != []
    }

    /** `handleCreatePlan`: the form is sent with an id made of the clock
        reading, then the form is reset and the dialog closed. */
    method HandleCreatePlan(now: int)
      modifies this
      ensures sent == old(sent) + [AddPlan(old(newPlan).(id := IntText(now)))]
      ensures newPlan == BlankPlan(now) && !isNewPlanDialogOpen
      ensures activeFilter == old(activeFilter) && editingPlan == old(editingPlan)
    {
      var planToAdd := newPlan.(id := IntText(now));
      sent := sent + [AddPlan(planToAdd)];
      newPlan := BlankPlan(now);
      isNewPlanDialogOpen := false;
    }

    /** A click on the save button: nothing happens while it is disabled. */
    method ClickSave(now: int)
      modifies this
      ensures !old(SaveEnabled()) ==>
                (sent == old(sent) && newPlan == old(newPlan)
                 && isNewPlanDialogOpen == old(isNewPlanDialogOpen))
      ensures old(SaveEnabled()) ==>
                (sent == old(sent) + [AddPlan(old(newPlan).(id := IntText(now)))]
                 && newPlan == BlankPlan(now) && !isNewPlanDialogOpen)
      ensures activeFilter == old(activeFilter) && editingPlan == old(editingPlan)
    {
      if SaveEnabled() {
        HandleCreatePlan(now);
      }
    }

    /** `handleUpdatePlan`: with no plan being edited nothing happens;
        otherwise the edited plan is sent and editing ends. */
    method HandleUpdatePlan()
      modifies this
      ensures old(editingPlan).None? ==> sent == old(sent) && editingPlan == None
      ensures old(editingPlan).Some? ==>
                (sent == old(sent) + [UpdatePlan(old(editingPlan).value)] && editingPlan == None)
      ensures activeFilter == old(activeFilter) && newPlan == old(newPlan)
      ensures isNewPlanDialogOpen == old(isNewPlanDialogOpen)
    {
      if editingPlan.Some? {
        sent := sent + [UpdatePlan(editingPlan.value)];
        editingPlan := None;
      }
    }

    /** `togglePlanCompletion(plan)`: the flipped plan is sent. */
    method TogglePlanCompletion(plan: Plan)
      modifies this
      ensures sent == old(sent) + [UpdatePlan(Flipped(plan))]
      ensures activeFilter == old(activeFilter) && editingPlan == old(editingPlan)
      ensures newPlan == old(newPlan) && isNewPlanDialogOpen == old(isNewPlanDialogOpen)
    {
      sent := sent + [UpdatePlan(Flipped(plan))];
    }
  }
}

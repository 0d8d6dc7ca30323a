/** The `usePlans` hook (src/hooks/usePlans.ts): an in-memory list of plans
    replaced through `setPlans` on every add, update, delete and completion
    toggle, and the read-only filters over it. Dates are millisecond
    timestamps in local time. */
module UsePlans {
  import opened Common

  datatype Priority = Low | Medium | High

  datatype Plan = Plan(id: string, title: string, description: string, startDate: int,
                       endDate: int, completed: bool, priority: Priority, tags: seq<string>)

  /** The tags of every plan, plan by plan, repeats included. */
  function AllTags(plans: seq<Plan>): (r: seq<string>)
  {
    if plans == [] then [] else AllTags(plans[..|plans| - 1]) + plans[|plans| - 1].tags
  }

  lemma {:induction false} AllTagsMembership(plans: seq<Plan>, t: string)
    ensures t in AllTags(plans) <==> exists i :: 0 <= i < |plans| && t in plans[i].tags
  {
    if plans != [] {
      var init := plans[..|plans| - 1];
      AllTagsMembership(init, t);
      if t in AllTags(plans) && t !in plans[|plans| - 1].tags {
        var i :| 0 <= i < |init| && t in init[i].tags;
        assert plans[i] == init[i];
      }
      if exists i :: 0 <= i < |plans| && t in plans[i].tags {
        var i :| 0 <= i < |plans| && t in plans[i].tags;
        if i < |init| {
          assert init[i] == plans[i];
        }
      }
    }
  }

  /** `prevPlans.map(plan => plan.id === u.id ? u : plan)`. */
  function Updated(plans: seq<Plan>, u: Plan): (r: seq<Plan>)
    ensures |r| == |plans|
    ensures forall i :: 0 <= i < |plans| && plans[i].id != u.id ==> r[i] == plans[i]
    ensures forall i :: 0 <= i < |plans| && plans[i].id == u.id ==> r[i] == u
  {
    seq(|plans|, i requires 0 <= i < |plans| => if plans[i].id == u.id then u else plans[i])
  }

  /** The plan `togglePlanCompleted(id)` puts in place of `p`. */
  function Flip(p: Plan, id: string): Plan {
    if p.id == id then p.(completed := !p.completed) else p
  }

  /** `prevPlans.map(plan => plan.id === id ? {...plan, completed: !plan.completed} : plan)`. */
  function Toggled(plans: seq<Plan>, id: string): (r: seq<Plan>)
    ensures |r| == |plans|
    ensures forall i :: 0 <= i < |plans| && plans[i].id != id ==> r[i] == plans[i]
    ensures forall i :: 0 <= i < |plans| && plans[i].id == id ==>
              r[i] == plans[i].(completed := !plans[i].completed)
  {
    seq(|plans|, i requires 0 <= i < |plans| => Flip(plans[i], id))
  }

  function OtherThan(id: string): Plan -> bool {
    (p: Plan) => p.id != id
  }

  /** `prevPlans.filter(plan => plan.id !== id)`. */
  function Deleted(plans: seq<Plan>, id: string): (r: seq<Plan>)
    ensures forall p :: p in r <==> p in plans && p.id != id
    ensures IsSubseq(r, plans)
  {
    FilterSubseq(plans, OtherThan(id));
    Filter(plans, OtherThan(id))
  }

  function Tagged(tag: string): Plan -> bool {
    (p: Plan) => tag in p.tags
  }

  function WithPriority(priority: Priority): Plan -> bool {
    (p: Plan) => p.priority == priority
  }

  function WithCompletion(completed: bool): Plan -> bool {
    (p: Plan) => p.completed == completed
  }

  /** The test of `getPlansByDate`: the date's local midnight lies between
      the start's local midnight and 23:59:59.999 of the end day. */
  predicate RunsOn(p: Plan, date: int) {
    StartOfDay(p.startDate) <= StartOfDay(date) <= StartOfDay(p.endDate) + Day - 1
  }

  function Running(date: int): Plan -> bool {
    (p: Plan) => RunsOn(p, date)
  }

  /** The midnight comparison is a comparison of local day numbers, both
      ends inclusive. */
  lemma RunsOnDays(p: Plan, date: int)
    ensures RunsOn(p, date) <==> DayOf(p.startDate) <= DayOf(date) <= DayOf(p.endDate)
  {
    var d, s, e := DayOf(date), DayOf(p.startDate), DayOf(p.endDate);
    assert StartOfDay(date) == d * Day && StartOfDay(p.startDate) == s * Day;
    assert StartOfDay(p.endDate) == e * Day;
    if d <= e {
      assert d * Day <= e * Day;
    } else {
      assert d * Day >= (e + 1) * Day;
    }
    if s <= d {
      assert s * Day <= d * Day;
    } else {
      assert s * Day >= (d + 1) * Day;
    }
  }

  /** Toggling the same plan twice restores the list. */
  lemma {:induction false} ToggleTwice(plans: seq<Plan>, id: string)
    ensures Toggled(Toggled(plans, id), id) == plans
  {
    var once := Toggled(plans, id);
    var twice := Toggled(once, id);
    forall i | 0 <= i < |plans|
      ensures twice[i] == plans[i]
    {
      assert once[i].id == plans[i].id;
    }
  }

  /** Toggling never changes the ids, titles or dates: only `completed`
      of the matching plans moves. */
  lemma ToggleOnlyCompletion(plans: seq<Plan>, id: string)
    ensures forall i :: 0 <= i < |plans| ==>
              Toggled(plans, id)[i].(completed := plans[i].completed) == plans[i]
  {
  }

  /** The plans kept by the two completion filters are disjoint and
      together hold every plan. */
  lemma CompletionSplit(plans: seq<Plan>)
    ensures forall p :: p in plans ==>
              (p in Filter(plans, WithCompletion(true))) != (p in Filter(plans, WithCompletion(false)))
  {
  }

  /** The state of the hook: the `plans` array held by `useState`. */
  class PlansStore {
    var plans: seq<Plan>

    constructor()
      ensures plans == []
    {
      plans := [];
    }

    /** `addPlan`: the plan is appended. */
    method AddPlan(p: Plan)
      modifies this
      ensures plans == old(plans) + [p]
      ensures |plans| == |old(plans)| + 1 && plans[..|old(plans)|] == old(plans)
    {
      plans := plans + [p];
    }

    /** `updatePlan`: every plan with the same id becomes `u`. */
    method UpdatePlan(u: Plan)
      modifies this
      ensures plans == Updated(old(plans), u)
    {
      plans := Updated(plans, u);
    }

    /** `deletePlan`: every plan with that id goes. */
    method DeletePlan(id: string)
      modifies this
      ensures plans == Deleted(old(plans), id)
    {
      plans := Deleted(plans, id);
    }

    /** `togglePlanCompleted`: the matching plans flip `completed`. */
    method TogglePlanCompleted(id: string)
      modifies this
      ensures plans == Toggled(old(plans), id)
    {
      plans := Toggled(plans, id);
    }

    /** `getPlansByTag`: exact, case-sensitive tag membership. */
    function GetPlansByTag(tag: string): (r: seq<Plan>)
      reads this
      ensures forall p :: p in r <==> p in plans && tag in p.tags
      ensures IsSubseq(r, plans)
    {
      FilterSubseq(plans, Tagged(tag));
      Filter(plans, Tagged(tag))
    }

    /** `getPlansByDate`: the plans in progress on the local day of
        `date`, start and end day included. */
    function GetPlansByDate(date: int): (r: seq<Plan>)
      reads this
      ensures forall p :: p in r <==> p in plans && DayOf(p.startDate) <= DayOf(date) <= DayOf(p.endDate)
      ensures IsSubseq(r, plans)
    {
      FilterSubseq(plans, Running(date));
      var r := Filter(plans, Running(date));
      assert forall p :: p in r <==> p in plans && DayOf(p.startDate) <= DayOf(date) <= DayOf(p.endDate) by {
        forall p ensures RunsOn(p, date) <==> DayOf(p.startDate) <= DayOf(date) <= DayOf(p.endDate) {
          RunsOnDays(p, date);
        }
      }
      r
    }

    /** `getPlansByPriority`. */
    function GetPlansByPriority(priority: Priority): (r: seq<Plan>)
      reads this
      ensures forall p :: p in r <==> p in plans && p.priority == priority
      ensures IsSubseq(r, plans)
    {
      FilterSubseq(plans, WithPriority(priority));
      Filter(plans, WithPriority(priority))
    }

    /** `getPlansByCompletionStatus`. */
    function GetPlansByCompletionStatus(completed: bool): (r: seq<Plan>)
      reads this
      ensures forall p :: p in r <==> p in plans && p.completed == completed
      ensures IsSubseq(r, plans)
    {
      FilterSubseq(plans, WithCompletion(completed));
      Filter(plans, WithCompletion(completed))
    }

    /** `getAllTags`: the distinct tags of the plans in first-occurrence
        order. */
    method GetAllTags() returns (tags: seq<string>)
      ensures tags == Dedupe(AllTags(plans))
      ensures NoDups(tags)
      ensures forall t :: t in tags <==> exists i :: 0 <= i < |plans| && t in plans[i].tags
    {
      tags := [];
      var i := 0;
      while i < |plans|
        invariant 0 <= i <= |plans|
        invariant tags == Dedupe(AllTags(plans[..i]))
      {
        assert plans[..i + 1][..i] == plans[..i];
        tags := AddEach(tags, plans[i].tags, AllTags(plans[..i]));
        i := i + 1;
      }
      assert plans[..|plans|] == plans;
      forall t ensures t in tags <==> exists i :: 0 <= i < |plans| && t in plans[i].tags {
        AllTagsMembership(plans, t);
      }
    }
  }
}

/**
 * The agent's memory of the learner's goals (`agent/state.py`): a list of goals that only
 * grows at the end, and a query for the most recent one.
 */
module AgentState {
  import opened Wrappers

  datatype Milestone = Milestone(labelText: string, dueDate: string, status: string, tasks: seq<string>)

  datatype Goal = Goal(title: string, targetDate: string, whyItMatters: string, milestones: seq<Milestone>)

  /** The most recent goal of a list: its last element, or `None` for an empty list. */
  function Latest(goals: seq<Goal>): (r: Option<Goal>)
    ensures r.None? <==> goals == []
    ensures r.Some? ==> r.value == goals[|goals| - 1]
  {
    if goals == [] then None else Some(goals[|goals| - 1])
  }

  /** The latest goal after adding `g` is `g`, whatever came before. */
  lemma LatestOfAdded(goals: seq<Goal>, g: Goal)
    ensures Latest(goals + [g]) == Some(g)
  {
  }

  class AgentState {
    var goals: seq<Goal>

    /** A new state remembers no goals. */
    constructor ()
      ensures goals == []
    {
      goals := [];
    }

    /** A new state given its goals, the dataclass's optional `goals` argument. */
    constructor WithGoals(initial: seq<Goal>)
      ensures goals == initial
    {
      goals := initial;
    }

    /** `add_goal`: append `goal` at the end, keeping every earlier goal. */
    method AddGoal(goal: Goal)
      modifies this
      ensures goals == old(goals) + [goal]
      ensures |goals| == |old(goals)| + 1
      ensures goals[..|old(goals)|] == old(goals)
      ensures Latest(goals) == Some(goal)
    {
      goals := goals + [goal];
      assert goals[..|old(goals)|] == old(goals);
    }

    /** `get_latest_goal`: the most recently added goal, or `None` when there is none yet. */
    method GetLatestGoal() returns (r: Option<Goal>)
      ensures r == Latest(goals)
      ensures r.None? <==> goals == []
    {
      if goals == [] {
        return None;
      }
      return Some(goals[|goals| - 1]);
    }
  }
}

/**
 * The status labels and colours of a skill, shared verbatim by the goal page's two skill views
 * (`goals/skill-tree.tsx` and `goals/hierarchical-skill-tree.tsx`). The backend writes
 * "Done"/"In Process", the demo data "completed"/"in-progress"/"not-started".
 */
module SkillStatus {

  const Completed: string := "Completed"
  const InProgress: string := "In Progress"
  const NotStarted: string := "Not Started"
  const Unknown: string := "Unknown"

  const Green: string := "bg-green-500"
  const Yellow: string := "bg-yellow-500"
  const Gray: string := "bg-gray-500"

  /** `getStatusText`. */
  function StatusText(status: string): string {
    if status == "Done" || status == "completed" then Completed
    else if status == "In Process" || status == "in-progress" then InProgress
    else if status == "not-started" then NotStarted
    else Unknown
  }

  /** `getStatusColor`. */
  function StatusColor(status: string): string {
    if status == "Done" || status == "completed" then Green
    else if status == "In Process" || status == "in-progress" then Yellow
    else Gray
  }

  /** Each label is given for exactly its spellings; every other string is "Unknown". */
  lemma StatusTextCases(status: string)
    ensures StatusText(status) == Completed <==> status == "Done" || status == "completed"
    ensures StatusText(status) == InProgress <==> status == "In Process" || status == "in-progress"
    ensures StatusText(status) == NotStarted <==> status == "not-started"
    ensures StatusText(status) == Unknown <==>
              status !in {"Done", "completed", "In Process", "in-progress", "not-started"}
  {
  }

  /** The colour follows the label: green when completed, yellow in progress, gray otherwise. */
  lemma ColorFollowsText(status: string)
    ensures StatusColor(status) == Green <==> StatusText(status) == Completed
    ensures StatusColor(status) == Yellow <==> StatusText(status) == InProgress
    ensures StatusColor(status) == Gray <==> StatusText(status) in {NotStarted, Unknown}
  {
  }
}

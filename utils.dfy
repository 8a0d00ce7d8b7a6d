/** The status display helpers (src/lib/utils.ts): getStatusColor and
    getStatusLabel. Both take the status as the raw string the caller holds,
    since an unknown value has its own fallback. */
module Utils {
  import opened Common
  import opened Types

  /** The colour class pair of each status, keyed by wire name. */
  const ColorMap: map<string, string> := map[
    "todo" := "bg-status-todo text-status-todo-foreground",
    "in_progress" := "bg-status-in-progress text-status-in-progress-foreground",
    "review" := "bg-status-review text-status-review-foreground",
    "done" := "bg-status-done text-status-done-foreground"]

  const LabelMap: map<string, string> := map[
    "todo" := "To Do",
    "in_progress" := "In Progress",
    "review" := "Review",
    "done" := "Done"]

  /** getStatusColor: the status's colour, or the todo colour for a status
      without an entry (every entry is non-empty, so `||` falls back only then). */
  function StatusColor(status: string): (r: string)
    ensures status in ColorMap ==> r == ColorMap[status]
    ensures status !in ColorMap ==> r == ColorMap["todo"]
  {
    if status in ColorMap && ColorMap[status] != "" then ColorMap[status] else ColorMap["todo"]
  }

  /** getStatusLabel: the status's label, or the status itself without an entry. */
  function StatusLabel(status: string): (r: string)
    ensures status in LabelMap ==> r == LabelMap[status]
    ensures status !in LabelMap ==> r == status
  {
    if status in LabelMap && LabelMap[status] != "" then LabelMap[status] else status
  }

  /** The map entries are exactly the four statuses. */
  lemma MapsCoverStatuses(s: string)
    ensures s in ColorMap <==> ParseStatus(s).Some?
    ensures s in LabelMap <==> ParseStatus(s).Some?
  {
  }

  /** Each status has its own colour: the four colours are pairwise distinct. */
  lemma StatusColorsDistinct(a: TaskStatus, b: TaskStatus)
    ensures StatusColor(a.Name()) == StatusColor(b.Name()) <==> a == b
  {
    if a != b {
      var ca := StatusColor(a.Name());
      var cb := StatusColor(b.Name());
      assert ca[10] != cb[10] || |ca| != |cb|;
    }
  }

  /** The labels are "To Do", "In Progress", "Review" and "Done", pairwise distinct. */
  lemma StatusLabels(a: TaskStatus, b: TaskStatus)
    ensures StatusLabel(Todo.Name()) == "To Do" && StatusLabel(InProgress.Name()) == "In Progress"
    ensures StatusLabel(Review.Name()) == "Review" && StatusLabel(Done.Name()) == "Done"
    ensures StatusLabel(a.Name()) == StatusLabel(b.Name()) <==> a == b
  {
  }

  /** An unknown status is shown like todo but labelled with its own text. */
  lemma UnknownStatusFallback(s: string)
    requires ParseStatus(s).None?
    ensures StatusColor(s) == StatusColor(Todo.Name())
    ensures StatusLabel(s) == s
  {
    MapsCoverStatuses(s);
  }
}

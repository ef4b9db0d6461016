/**
 * The records the dashboard reads from the backend. They are read-only here:
 * the dashboard only groups, counts and truncates them.
 */
module Entities {
  import opened Wrappers

  /**
   * A task. `status` is a free-form string; only "todo", "in_progress" and
   * "done" name a bucket. `priority` and `dueDate` are only displayed.
   */
  datatype Task = Task(
    id: string,
    title: string,
    description: Option<string>,
    status: string,
    priority: string,
    dueDate: Option<string>)

  /** A contact: a name and an optional e-mail address. */
  datatype Contact = Contact(id: string, name: string, email: Option<string>)

  /**
   * A deal. Its label is `name` or `title`; `value` is kept as an integer
   * amount and `stage` as a string; neither is interpreted here.
   */
  datatype Deal = Deal(
    id: string,
    name: Option<string>,
    title: Option<string>,
    value: Option<int>,
    stage: Option<string>)
}

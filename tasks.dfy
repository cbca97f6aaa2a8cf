/**
  The task record shared by the client's task list and its task form.
  `id` is the store-assigned `_id`; it is `None` on a task that has not been
  created yet (the form's default record). `priority` is the label string the
  record carries; the form's select offers only "Low", "Medium" and "High".
 */
module Tasks {
  import opened Wrappers

  datatype Task = Task(id: Option<string>, title: string, description: string, priority: string)
}

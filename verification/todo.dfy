/** The app's todo record as the widget sees it. */
module Todo {
  import opened Wrappers
  import opened Uuids

  /** `TodoPriority`: the user's urgency tier. */
  datatype Priority = Low | Medium | High

  /** A point in time (`Date`), as seconds from a fixed reference instant. */
  type Date = int

  /** `TodoListItem`. */
  datatype Item = Item(id: Uuid, title: string, note: string, priority: Priority, startDate: Date)

  /** `TodoPriority(rawValue:)`. The raw-value encoding lives outside the
      widget, so the model takes it as an arbitrary partial map. */
  type RawPriorityDecoder = int -> Option<Priority>
}

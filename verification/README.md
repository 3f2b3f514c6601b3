# TodoReminder priority widget, modelled in Dafny

The TodoReminder app keeps todo items (title, note, priority, start date) and
ships a home-screen widget that shows today's todos of one chosen priority.
This project models the two pieces of logic inside that widget:

- `PriorityProvider` (`priority_widget.dfy`, module `PriorityWidget`): the
  configured priority is looked up, today's items are fetched, the list is cut
  into consecutive chunks of at most three (`divideByThree`), and every chunk
  becomes one `PriorityEntry` dated by, and coloured by the priority of, its
  last item. A failed fetch yields one empty `.low` entry with reload policy `.never`.
  `getSnapshot` builds a single unchunked entry.
- The `TodoWidgetType` helpers (`widget_type.dfy`, module `WidgetType`): the
  priority-to-colour table and the `todolist://detail?id=<uuid>` deep link.

Supporting modules: `Wrappers` (`Option`, and `Run`, which records whether
Swift code returns or hits a runtime trap from `try!` or a force-unwrap),
`Todo` (the item record, `TodoPriority`, dates) and `Uuids` (a `UUID` as
sixteen bytes with Foundation's upper-case 8-4-4-4-12 `uuidString` text and
its inverse parse, so that "different ids give different links" is proved
rather than assumed).

Inputs the widget takes from its surroundings are parameters: the item store
is a function from a raw priority value to a fetch result (`Store`), the
current time is `now`, and `TodoPriority(rawValue:)` is an arbitrary partial
decoder `int -> Option<Priority>`.

An empty fetched list gives a timeline with zero entries, because
`stride(from: 0, to: 0, by: 3)` yields no start (`DivideByThreeSizes`,
`TimelineCoversFetch`). The `else` branch at `PriorityWidget.swift:50-56`, for
an empty chunk, is never reached (`TimelineIgnoresDecoder`, and `GetTimeline`
never traps).

Also visible in the model: `getSnapshot` calls `fetchPriority` under `try!`
before its guard. With no priority configured, the fetch throws and the
snapshot traps, so the guard's `.low` fallback is reached only for a raw value
that does not decode (`UnsetPrioritySnapshotTraps`).

## Model

| member | source | states |
|---|---|---|
| `PriorityWidget.FetchPriority` | TodoWidget/PriorityWidget.swift:68-81 | with no configured priority the fetch fails with `failureFetch`; with one, the result is the store's answer for exactly that raw value, errors passed on |
| `PriorityWidget.UnsetPriorityIgnoresStore` | TodoWidget/PriorityWidget.swift:69-79 | with no configured priority any two stores give the same `failureFetch`, so the store is never consulted |
| `PriorityWidget.Stride` | TodoWidget/PriorityWidget.swift:85 | the k-th start is `from + k*step`; the last start lies below `to` and one more step would reach or pass it; no starts when `from >= to` |
| `PriorityWidget.DivideByThree` | TodoWidget/PriorityWidget.swift:84-88 | ceil(n/3) chunks; every chunk has 1 to 3 items; every chunk but the last has exactly 3 |
| `PriorityWidget.DivideByThreeChunk` | TodoWidget/PriorityWidget.swift:85-86 | chunk k starts inside the list at item 3k and is the slice up to item 3k+3 or the end |
| `PriorityWidget.FlattenSuffix` | TodoWidget/PriorityWidget.swift:84-88 | the chunks from index j on concatenate to the list from item 3j on |
| `PriorityWidget.DivideByThreeFlattens` | TodoWidget/PriorityWidget.swift:84-88 | concatenating the chunks in order gives back the input exactly: nothing dropped, duplicated or reordered |
| `PriorityWidget.DivideByThreeSizes` | TodoWidget/PriorityWidget.swift:85 | an empty list gives no chunks; seven items give sizes 3, 3, 1 with the seventh item alone last |
| `PriorityWidget.EntryFor` | TodoWidget/PriorityWidget.swift:48-56 | an entry always shows exactly its chunk; a trap can only come from an empty chunk |
| `PriorityWidget.BuildEntries` | TodoWidget/PriorityWidget.swift:46-57 | when no chunk is empty: no trap, one entry per chunk in chunk order, each dated by and carrying the priority of its chunk's last item, showing that chunk |
| `PriorityWidget.GetTimeline` | TodoWidget/PriorityWidget.swift:38-66 | never traps; a failed fetch gives one empty `.low` entry dated now with policy `.never`; a successful one gives policy `.atEnd` and per chunk one entry with the last item's date and priority |
| `PriorityWidget.TimelineCoversFetch` | TodoWidget/PriorityWidget.swift:43-58 | after a successful fetch the entries' lists concatenate to the fetched list and there are ceil(n/3) entries, zero for an empty fetch |
| `PriorityWidget.TimelineSevenItems` | TodoWidget/PriorityWidget.swift:45-58 | seven fetched items give three entries of 3, 3 and 1 items, the third dated by the seventh item with its priority |
| `PriorityWidget.TimelineIgnoresDecoder` | TodoWidget/PriorityWidget.swift:48-56 | the timeline is the same under any raw-priority decoder: the empty-chunk branch, the only reader of it, is unreachable |
| `PriorityWidget.GetSnapshot` | TodoWidget/PriorityWidget.swift:19-36 | traps exactly when the fetch fails; otherwise dated now, and either the decoded priority with the whole fetched list or `.low` with an empty list when the raw value is unknown |
| `PriorityWidget.SnapshotIsUnchunkedTimeline` | TodoWidget/PriorityWidget.swift:25-33 | a recognised snapshot shows the same items, in order, as all timeline entries together |
| `PriorityWidget.UnsetPrioritySnapshotTraps` | TodoWidget/PriorityWidget.swift:25-27 | with no configured priority the snapshot traps at the fetch before its guard |
| `WidgetType.MakePriorityColor` | TodoWidget/TodoWidgetType.swift:16-24 | the colour's priority reading gives back the input priority |
| `WidgetType.PriorityColorTable` | TodoWidget/TodoWidgetType.swift:18-23 | high is red, medium is yellow, low is green |
| `WidgetType.PriorityColorBijective` | TodoWidget/TodoWidgetType.swift:16-24 | two priorities share a colour only if they are equal, and every colour is some priority's |
| `WidgetType.MakeURLScheme` | TodoWidget/TodoWidgetType.swift:27-34 | scheme `todolist`, host `detail`, exactly one query item named `id` whose value parses back to the item's UUID |
| `WidgetType.DeepLinkRoundTrip` | TodoWidget/TodoWidgetType.swift:28-32 | reading the id back from the built link gives the item's id |
| `WidgetType.DeepLinkInjective` | TodoWidget/TodoWidgetType.swift:31-32 | two ids get the same link exactly when they are equal |
| `Uuids.UuidString` | TodoWidget/TodoWidgetType.swift:32 | the `uuidString` value is 36 characters with dashes at positions 8, 13, 18 and 23 |
| `Uuids.UuidStringRoundTrip` | TodoWidget/TodoWidgetType.swift:32 | parsing the rendered `uuidString` gives back the same UUID |
| `Uuids.UuidStringInjective` | TodoWidget/TodoWidgetType.swift:32 | two UUIDs render to the same string exactly when they are equal |

## Left out

- The SwiftUI views (`PriorityWidgetEntryView`, `TodoCell`, `TodoMediumCell`, `PriorityCircle`): layout only.
- `placeholder`, the `context.isPreview` branch of `getSnapshot` and the preview fixtures (`dummyTodoItem`, `dummyPriorityEntry`, `dummyEmptyEntry`): they return fixed test data.
- `PriorityWidget`, `IntentConfiguration` and the `@main` bundles: configuration plumbing with no logic.
- `TodoListStore` and its Core Data query: its source is not part of this model, so a fetch is an input value chosen by the caller.
- The encoding of `TodoPriority` raw values is not part of this model; the decoder is a parameter.
- `print` logging: no effect on results.
- Dates are modelled as whole seconds (`int`) rather than Swift's floating-point `TimeInterval`; the model only copies dates and never compares or computes with them.
- Swift's `stride` with a negative step: the provider only strides by 3, so `Stride` requires a positive step.
- `WidgetType.MakeURLScheme` returns the link record rather than `URL?`: `URL(string:)` and `URLComponents` succeed on the constant base `todolist://detail`, and percent-encoding and rendering to text are library behaviour outside this model.
- `Uuids.ParseUuidString` accepts only the upper-case text `uuidString` produces, not the lower-case form Foundation's parser also takes.
- The `WidgetKit` reload timing of `.atEnd` and `.never`: only the chosen policy is modelled.

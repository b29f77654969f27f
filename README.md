# Kanban Internal board — a Dafny model

The Kanban Internal page tracks spare-part replenishment. It reads two record
sets: the current kanban records (one per part, worksheet `KANBAN_INTERNAL`) and
the order-tracking events (worksheet `KANBAN_TRACKING`). From them it derives a
three-lane board and two summary counts:

- **Not Started**: the kanban records whose `deadlinepemesanan` is not the empty
  string. Only the exact empty string is excluded, so a deadline of spaces is kept.
- **On Process**: the tracking events with `tipekanban == "INTERNAL"` and
  `status == "PO Diajukan"`.
- **Completed**: the tracking events with `status == "Sudah Diterima"`. Unlike
  On Process, this lane does not look at `tipekanban`.
- **Total Sparepart**: the number of kanban records.
- **Pesan**: the size of the Not Started lane.

Each Not Started card has a "Buat PR" button. It builds a link to the
purchase-request form, pasting five record fields into the query without escaping
them. The page holds `data`, `dataTracking` and `loading` as state. The loader
replaces a sequence wholesale when its response reports `success`, and keeps the
old one otherwise.

Files:

- `records.dfy` (module `KanbanRecords`): the two record types, with every field
  of the source.
- `filtering.dfy` (module `Filtering`): `filter` as a function. It proves that
  the result is an order-preserving subsequence that keeps every passing element,
  with its multiplicity, and nothing else. It also proves the converse: no other
  sequence has both properties.
- `query.dfy` (module `QueryStrings`): a simple reader of a link's query: cut
  at `&`, then split each piece at its first `=`. The link lemmas
  (`LinkRoundTrip`, `SafeLinkParses`, `LinkParamCount`) read the link back with
  this reader.
- `lanes.dfy` (module `KanbanLanes`): the lanes, the counts and the link, with
  their lemmas and worked examples.
- `page.dfy` (module `KanbanPageState`): the page state as a class. Its loader is
  a method, and `View` renders the board from the current state.

The lanes depend only on their own input. `NotStarted` takes the kanban records
alone, and `OnProcess` and `Completed` take the tracking events alone. The two
sources are never joined by `kodepart`. Every lane and count is a function, so
evaluating it twice on the same input gives the same result.

A response with `success` false keeps the sequence already held; it does not
clear it (page.tsx lines 76-78 and 84-86).

## Model

| member | source | states |
|---|---|---|
| `Filtering.Filter` | app/dashboard/kanban/internal/page.tsx:68 | The result of `filter` is no longer than its input. A value is in it exactly when it is in the input and passes the predicate. |
| `Filtering.FilterIsSubsequence` | app/dashboard/kanban/internal/page.tsx:68 | `filter` keeps the input's order. Every passing value appears as often as in the input, and no failing value appears. |
| `Filtering.FilterUnique` | app/dashboard/kanban/internal/page.tsx:68 | Any order-preserving subsequence that keeps exactly the passing values is the result of `filter`. The two properties above therefore define it. |
| `Filtering.FilterLength` | app/dashboard/kanban/internal/page.tsx:68 | `filter` drops nothing exactly when every element passes. It returns the empty sequence exactly when no element passes. |
| `Filtering.FilterPartition` | app/dashboard/kanban/internal/page.tsx:68 | A filter and the filter of the opposite predicate together select every element of the input exactly once (their multisets add up to the input's), so their lengths add up to the input's. |
| `Filtering.DisjointFiltersLength` | app/dashboard/kanban/internal/page.tsx:189-228 | Two filters over the same input whose predicates never hold together select at most as many elements as the input has. |
| `KanbanLanes.NotStarted` | app/dashboard/kanban/internal/page.tsx:68 | A kanban record is in Not Started exactly when it is among the records and its `deadlinepemesanan` differs from `""`. The lane is never longer than the records. |
| `KanbanLanes.OnProcess` | app/dashboard/kanban/internal/page.tsx:189-194 | A tracking event is in On Process exactly when its `tipekanban` is `"INTERNAL"` and its `status` is `"PO Diajukan"`. Any other value of either field excludes it. |
| `KanbanLanes.Completed` | app/dashboard/kanban/internal/page.tsx:227-228 | A tracking event is in Completed exactly when its `status` is `"Sudah Diterima"`, whatever its `tipekanban`. |
| `KanbanLanes.LanesExact` | app/dashboard/kanban/internal/page.tsx:68-228 | Each lane is the only sequence that is an order-preserving subsequence of its own input and keeps every copy of the records that pass its predicate, and no others. This holds in both directions. |
| `KanbanLanes.LanesDisjoint` | app/dashboard/kanban/internal/page.tsx:189-228 | No tracking event is both On Process and Completed. Together the two lanes hold at most as many events as the input. |
| `KanbanLanes.LanesOfEmptyInput` | app/dashboard/kanban/internal/page.tsx:68-228 | All three lanes of an empty input are empty. |
| `KanbanLanes.TotalSparepart` | app/dashboard/kanban/internal/page.tsx:112 | "Total Sparepart" is the number of parts to order plus the number of parts whose deadline is the empty string. |
| `KanbanLanes.MustOrderCount` | app/dashboard/kanban/internal/page.tsx:112-124 | The "Pesan" count never exceeds "Total Sparepart". It equals the total exactly when every record has a deadline. It is zero exactly when none has one. |
| `KanbanLanes.PurchaseRequestLink` | app/dashboard/kanban/internal/page.tsx:172 | The "Buat PR" link is the path `/form-pr`, a `?`, and the pieces `code=`, `part=`, `month=`, `vendor=` and `quantity=` followed by `kodepart`, `part`, `untukbulan`, `supplier` and `qtyyangdipesan` verbatim, joined by `&`. |
| `KanbanLanes.LinkRoundTrip` | app/dashboard/kanban/internal/page.tsx:172 | The PR link reads back as path `/form-pr` with the parameters code, part, month, vendor and quantity, carrying `kodepart`, `part`, `untukbulan`, `supplier` and `qtyyangdipesan`. This holds exactly when none of those five fields contains `&`. |
| `KanbanLanes.SafeLinkParses` | app/dashboard/kanban/internal/page.tsx:172 | When no linked field contains `&`, the link reads back as exactly the intended five parameters, in order, with the values verbatim (`=` and `?` included). |
| `KanbanLanes.LinkParamCount` | app/dashboard/kanban/internal/page.tsx:172 | Because nothing is escaped, each `&` inside a linked field adds one extra query parameter to the five, as the model's reader counts them. |
| `KanbanLanes.LinkJoinsCodeAndPart` | app/dashboard/kanban/internal/page.tsx:172 | Two records with the same month, vendor and quantity get the same link whenever their `kodepart + "&part=" + part` texts agree, whatever the split between the two fields. |
| `KanbanLanes.LinkNotInjective` | app/dashboard/kanban/internal/page.tsx:172 | Two different records (code `X&part=Y` with part `Z`, and code `X` with part `Y&part=Z`) produce the same link. |
| `KanbanLanes.NotStartedExample` | app/dashboard/kanban/internal/page.tsx:68-124 | Of parts A1 (deadline `2024-05-01`) and A2 (empty deadline), only A1 is to be ordered, and the total is 2. A deadline of a single space is kept. |
| `KanbanLanes.TrackingExample` | app/dashboard/kanban/internal/page.tsx:189-228 | Of two submitted orders, only the `INTERNAL` one is On Process. A received `EXTERNAL` order is Completed. The lowercase kind `internal` is not On Process. |
| `KanbanPageState.KanbanPage.constructor` | app/dashboard/kanban/internal/page.tsx:66-70 | The page starts with no kanban records, no tracking events, and `loading` true. |
| `KanbanPageState.KanbanPage.View` | app/dashboard/kanban/internal/page.tsx:100-260 | The rendered board's total is the number of held records. Its "Pesan" count is the size of its Not Started lane and at most the total. Its On Process and Completed lanes together are no longer than the held events. The table is shown exactly when not loading. |
| `KanbanPageState.KanbanPage.ReceiveKanban` | app/dashboard/kanban/internal/page.tsx:76-78 | While loading, a successful kanban response replaces the held records wholesale. A failed one keeps them. The tracking events are untouched. |
| `KanbanPageState.KanbanPage.ReceiveTracking` | app/dashboard/kanban/internal/page.tsx:84-86 | While loading, a successful tracking response replaces the held events wholesale. A failed one keeps them. The kanban records are untouched. |
| `KanbanPageState.KanbanPage.HandleKanbanInternal` | app/dashboard/kanban/internal/page.tsx:71-92 | After the load, `loading` is false on every path. `data` is the kanban response's records if it arrived with `success`, and otherwise what it was. `dataTracking` is replaced only when the kanban request did not throw and the tracking response arrived with `success`. If the kanban request throws, the tracking request is never made. |

## Left out

- The `fetch` calls and JSON decoding (page.tsx 74-85). Each request is represented by its outcome (`FetchOutcome`): an exception, or the decoded `success` and `data`. A body whose `data` is not an array is not modelled, because `data` is typed as a sequence of records. For the same reason, the `?.` of `data?.length` never matters.
- The React machinery (`useState`, `useEffect`, `useCallback`), the JSX, the card and button components, and `console.log`/`console.error`. These are presentation and logging.
- Deadline formatting with `toLocaleDateString("id-ID", …)` (page.tsx 159-166). This is date parsing and locale data from the host runtime.
- The assignment to `window.location.href` (page.tsx 172). Only the string it assigns is modelled.
- `DataTable` and `columns` (page.tsx 12-13, 259): `./columns` and `./data-table` are not part of this model. `View` records only whether the table or the loading message is shown.
- Overlapping loads and re-entrancy of the asynchronous loader (page.tsx 71-96). The model runs one load to completion.
- React `key` uniqueness for cards with equal `kodepart` (page.tsx 140, 197, 231). This is a rendering concern.
- `qtyorder` and `leadtimehari` are JavaScript numbers (doubles), modelled as `real`. No decision depends on them.
- LinkRoundTrip: the link is read back by splitting on `&` and at the first `=` only. In a browser, assigning the link to `window.location.href` (page.tsx 172) also makes the URL parser delete every tab, line feed and carriage return, and strip trailing spaces and control characters from the end of the link, so the last field, `qtyyangdipesan`, loses its trailing spaces. The browser's query reader then turns `+` into a space, decodes `%` followed by two hex digits (a `%` without them is kept), and ends the query at `#`. None of this is modelled, so the equivalence covers only the `&` case.
- LinkParamCount: the model's reader keeps an empty piece (from `&&`, or a field that starts or ends with `&`) as an empty name and value. A browser's query parser skips empty pieces, so there the count of extra parameters can be lower than the number of `&` characters.
- NotStarted: every field of both record types is assumed present and a string, as the declared interfaces say. The source stores the decoded JSON unchecked (page.tsx 77, 85). A record without a `deadlinepemesanan` field has `undefined !== ""` true, so the source shows it in Not Started; the model cannot express such a record.

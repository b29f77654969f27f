/** The state the Kanban Internal page holds between renders, and the loader
    `handleKanbanInternal` that refreshes it. The network and JSON decoding are
    not modelled: each request is represented by what it produced. */
module KanbanPageState {
  import opened KanbanRecords
  import opened KanbanLanes

  /** What one `fetch` followed by `response.json()` produced: an exception
      (transport failure, bad JSON), or the decoded `{ success, data }` body. */
  datatype FetchOutcome<T> = Threw | Responded(success: bool, data: seq<T>)

  /** Everything the page shows that depends on its state. */
  datatype Board = Board(
    total: nat,                               // "Total Sparepart"
    mustOrder: nat,                           // "Pesan"
    notStarted: seq<KanbanData>,              // "Not Started" lane
    onProcess: seq<KanbanDataTracking>,       // "On Process" lane
    completed: seq<KanbanDataTracking>,       // "Completed" lane
    showsTable: bool)                         // the tracking table instead of "Loading..."

  class KanbanPage {
    var data: seq<KanbanData>
    var dataTracking: seq<KanbanDataTracking>
    var loading: bool

    /** The initial state: no records yet, and the loading message shown. */
    constructor ()
      ensures data == [] && dataTracking == [] && loading
    {
      data := [];
      dataTracking := [];
      loading := true;
    }

    /** The page as rendered from the current state. The lanes are recomputed
        from the held sequences on every render and never stored. */
    function View(): (b: Board)
      reads this
      ensures b.total == |data| && b.mustOrder == |b.notStarted| <= b.total
      ensures |b.onProcess| + |b.completed| <= |dataTracking|
      ensures b.showsTable <==> !loading
    {
      LanesDisjoint(dataTracking);
      Board(TotalSparepart(data), MustOrderCount(data), NotStarted(data),
            OnProcess(dataTracking), Completed(dataTracking), !loading)
    }

    /** The kanban response arrives while loading: a successful one replaces
        the held records wholesale, a failed one leaves them as they were. */
    method ReceiveKanban(success: bool, records: seq<KanbanData>)
      requires loading
      modifies this
      ensures loading && dataTracking == old(dataTracking)
      ensures data == if success then records else old(data)
    {
      if success {
        data := records;
      }
    }

    /** The same rule for the tracking response. */
    method ReceiveTracking(success: bool, records: seq<KanbanDataTracking>)
      requires loading
      modifies this
      ensures loading && data == old(data)
      ensures dataTracking == if success then records else old(dataTracking)
    {
      if success {
        dataTracking := records;
      }
    }

    /** The loader. The tracking request is made only after the kanban request
        completed without an exception, so when the kanban request throws,
        `tracking` is never consulted. Whatever happens, loading ends. */
    method HandleKanbanInternal(kanban: FetchOutcome<KanbanData>, tracking: FetchOutcome<KanbanDataTracking>)
      modifies this
      ensures !loading
      ensures data == if kanban.Responded? && kanban.success then kanban.data else old(data)
      ensures dataTracking ==
        if kanban.Responded? && tracking.Responded? && tracking.success then tracking.data
        else old(dataTracking)
    {
      loading := true;
      match kanban {
        case Threw =>
          // caught: the error is only logged
        case Responded(ok, records) =>
          ReceiveKanban(ok, records);
          match tracking {
            case Threw =>
            case Responded(okTracking, events) =>
              ReceiveTracking(okTracking, events);
          }
      }
      loading := false;
    }
  }
}

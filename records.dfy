/** The two record shapes the Kanban Internal board reads from its data source.
    Every field the source declares is kept, under the source's own name
    (`leadtime(hari)` becomes `leadtimeHari`, the only name Dafny cannot spell). */
module KanbanRecords {

  /** Current replenishment state of one spare part (worksheet KANBAN_INTERNAL).
      All values arrive as strings; an empty `deadlinepemesanan` means no order is due. */
  datatype KanbanData = KanbanData(
    category: string,
    deadlinepemesanan: string,
    kodepart: string,
    leadtimeHari: string,
    mesin: string,
    onhandinventory: string,
    part: string,
    qtykebutuhanreorder: string,
    qtykebutuhanselanjutnya: string,
    qtyyangdipesan: string,
    reordermax: string,
    reordermin: string,
    status: string,
    supplier: string,
    untukbulan: string)

  /** One order-tracking event (worksheet KANBAN_TRACKING); a part may have many.
      `qtyorder` and `leadtimehari` are JavaScript numbers, kept as reals; no
      decision of the board depends on them. */
  datatype KanbanDataTracking = KanbanDataTracking(
    tanggal: string,
    pr: string,
    po: string,
    tipekanban: string,
    kodepart: string,
    part: string,
    untukbulan: string,
    qtyorder: real,
    uom: string,
    satuan: string,
    harga: string,
    supplier: string,
    tanggalpr: string,
    tanggalpo: string,
    leadtimehari: real,
    eta: string,
    tanggalreceipt: string,
    noreceipt: string,
    status: string,
    keterangan: string,
    pic: string)

  /** A kanban record with every field empty, a base for examples. */
  function BlankKanban(): KanbanData {
    KanbanData("", "", "", "", "", "", "", "", "", "", "", "", "", "", "")
  }

  /** A tracking record with every string field empty and both numbers zero. */
  function BlankTracking(): KanbanDataTracking {
    KanbanDataTracking("", "", "", "", "", "", "", 0.0, "", "", "", "", "", "", 0.0, "", "", "", "", "", "")
  }
}

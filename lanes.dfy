/** The decisions of the Kanban Internal board: which records go in each of
    the three lanes, the two summary counts, and the "Buat PR" link of a card.
    Each lane is a `filter` over ONE input sequence: "Not Started" over the
    kanban records, "On Process" and "Completed" over the tracking events. The
    two inputs are never joined by `kodepart`, as the parameter lists show. */
module KanbanLanes {
  import opened KanbanRecords
  import opened Filtering
  import opened QueryStrings

  // ---------------------------------------------------------------------------
  // Lane predicates: exact, case-sensitive string comparisons

  /** A part must be ordered when its deadline is not the empty string
      (a deadline of only spaces still counts as set). */
  predicate NeedsOrder(item: KanbanData) {
    item.deadlinepemesanan != ""
  }

  /** The complement of `NeedsOrder`: the deadline is exactly the empty string. */
  predicate HasNoDeadline(item: KanbanData) {
    item.deadlinepemesanan == ""
  }

  /** An internal kanban whose purchase order has been submitted. */
  predicate IsOnProcess(item: KanbanDataTracking) {
    item.tipekanban == "INTERNAL" && item.status == "PO Diajukan"
  }

  /** A received order, of ANY kanban type: unlike `IsOnProcess`, this lane
      does not look at `tipekanban`. */
  predicate IsCompleted(item: KanbanDataTracking) {
    item.status == "Sudah Diterima"
  }

  // ---------------------------------------------------------------------------
  // The three lanes

  /** "Not Started": the kanban records that have a deadline. */
  function NotStarted(data: seq<KanbanData>): (lane: seq<KanbanData>)
    ensures |lane| <= |data|
    ensures forall k :: k in lane <==> k in data && k.deadlinepemesanan != ""
  {
    Filter(NeedsOrder, data)
  }

  /** "On Process": internal tracking events whose status is "PO Diajukan". */
  function OnProcess(dataTracking: seq<KanbanDataTracking>): (lane: seq<KanbanDataTracking>)
    ensures |lane| <= |dataTracking|
    ensures forall t :: t in lane <==>
      t in dataTracking && t.tipekanban == "INTERNAL" && t.status == "PO Diajukan"
  {
    Filter(IsOnProcess, dataTracking)
  }

  /** "Completed": tracking events whose status is "Sudah Diterima". */
  function Completed(dataTracking: seq<KanbanDataTracking>): (lane: seq<KanbanDataTracking>)
    ensures |lane| <= |dataTracking|
    ensures forall t :: t in lane <==> t in dataTracking && t.status == "Sudah Diterima"
  {
    Filter(IsCompleted, dataTracking)
  }

  /** Each lane is exactly the records of its input that pass its predicate,
      every copy of them, in their original order; no other sequence is. */
  lemma LanesExact(data: seq<KanbanData>, dataTracking: seq<KanbanDataTracking>,
                   notStarted: seq<KanbanData>, onProcess: seq<KanbanDataTracking>,
                   completed: seq<KanbanDataTracking>)
    ensures notStarted == NotStarted(data) <==>
      IsSubsequence(notStarted, data) && KeepsExactly(NeedsOrder, notStarted, data)
    ensures onProcess == OnProcess(dataTracking) <==>
      IsSubsequence(onProcess, dataTracking) && KeepsExactly(IsOnProcess, onProcess, dataTracking)
    ensures completed == Completed(dataTracking) <==>
      IsSubsequence(completed, dataTracking) && KeepsExactly(IsCompleted, completed, dataTracking)
  {
    FilterIsSubsequence(NeedsOrder, data);
    FilterIsSubsequence(IsOnProcess, dataTracking);
    FilterIsSubsequence(IsCompleted, dataTracking);
    if IsSubsequence(notStarted, data) && KeepsExactly(NeedsOrder, notStarted, data) {
      FilterUnique(NeedsOrder, notStarted, data);
    }
    if IsSubsequence(onProcess, dataTracking) && KeepsExactly(IsOnProcess, onProcess, dataTracking) {
      FilterUnique(IsOnProcess, onProcess, dataTracking);
    }
    if IsSubsequence(completed, dataTracking) && KeepsExactly(IsCompleted, completed, dataTracking) {
      FilterUnique(IsCompleted, completed, dataTracking);
    }
  }

  /** No tracking event is both on process and completed, since the two status
      literals differ; so the two lanes together hold at most every event once. */
  lemma LanesDisjoint(dataTracking: seq<KanbanDataTracking>)
    ensures forall t :: !(t in OnProcess(dataTracking) && t in Completed(dataTracking))
    ensures |OnProcess(dataTracking)| + |Completed(dataTracking)| <= |dataTracking|
  {
    DisjointFiltersLength(IsOnProcess, IsCompleted, dataTracking);
  }

  /** Every lane of an empty input is empty. */
  lemma LanesOfEmptyInput()
    ensures NotStarted([]) == [] && OnProcess([]) == [] && Completed([]) == []
  {
  }

  // ---------------------------------------------------------------------------
  // Summary counts

  /** "Total Sparepart": the number of kanban records, which splits into the
      parts to order and the parts whose deadline is the empty string. */
  function TotalSparepart(data: seq<KanbanData>): (n: nat)
    ensures n == |NotStarted(data)| + |Filter(HasNoDeadline, data)|
  {
    FilterPartition(NeedsOrder, HasNoDeadline, data);
    |data|
  }

  /** "Pesan": the number of parts to order this month, never above the total;
      equal to it exactly when every part has a deadline, zero exactly when none has. */
  function MustOrderCount(data: seq<KanbanData>): (n: nat)
    ensures n <= TotalSparepart(data)
    ensures n == TotalSparepart(data) <==> forall i :: 0 <= i < |data| ==> data[i].deadlinepemesanan != ""
    ensures n == 0 <==> forall i :: 0 <= i < |data| ==> data[i].deadlinepemesanan == ""
  {
    FilterLength(NeedsOrder, data);
    |NotStarted(data)|
  }

  // ---------------------------------------------------------------------------
  // The "Buat PR" link of a Not Started card

  /** The purchase-request form link, field values pasted in as they are: the
      path "/form-pr", a `?`, then the five `name=value` pieces joined by `&`. */
  function PurchaseRequestLink(item: KanbanData): (link: string)
    ensures link == "/form-pr" + ['?'] + LinkQuery(item)
  {
    "/form-pr?code=" + item.kodepart + "&part=" + item.part + "&month=" + item.untukbulan +
    "&vendor=" + item.supplier + "&quantity=" + item.qtyyangdipesan
  }

  /** The query parameters the link is meant to carry. */
  function IntendedParams(item: KanbanData): seq<(string, string)> {
    [("code", item.kodepart), ("part", item.part), ("month", item.untukbulan),
     ("vendor", item.supplier), ("quantity", item.qtyyangdipesan)]
  }

  /** None of the five linked fields holds `&`, the one character that the
      unescaped link cannot carry. */
  predicate LinkSafe(item: KanbanData) {
    '&' !in item.kodepart && '&' !in item.part && '&' !in item.untukbulan &&
    '&' !in item.supplier && '&' !in item.qtyyangdipesan
  }

  /** The query part of the link: five `name=value` pieces joined by `&`. */
  function LinkQuery(item: KanbanData): string {
    ("code=" + item.kodepart) + ['&'] + (("part=" + item.part) + ['&'] +
    (("month=" + item.untukbulan) + ['&'] + (("vendor=" + item.supplier) + ['&'] +
    ("quantity=" + item.qtyyangdipesan))))
  }

  /** Five pieces joined by four `&`s split back into the pieces' own splits. */
  lemma SplitFive(c: string, p: string, m: string, v: string, q: string)
    ensures SplitOn(c + ['&'] + (p + ['&'] + (m + ['&'] + (v + ['&'] + q))), '&') ==
      SplitOn(c, '&') + (SplitOn(p, '&') + (SplitOn(m, '&') + (SplitOn(v, '&') + SplitOn(q, '&'))))
  {
    SplitOnAround(c, p + ['&'] + (m + ['&'] + (v + ['&'] + q)), '&');
    SplitOnAround(p, m + ['&'] + (v + ['&'] + q), '&');
    SplitOnAround(m, v + ['&'] + q, '&');
    SplitOnAround(v, q, '&');
  }

  lemma {:induction false} ParsePiecesAppend(a: seq<string>, b: seq<string>)
    ensures ParsePieces(a + b) == ParsePieces(a) + ParsePieces(b)
  {
    if a == [] {
      assert a + b == b;
    } else {
      assert (a + b)[1..] == a[1..] + b;
      ParsePiecesAppend(a[1..], b);
    }
  }

  lemma ParseFive(sc: seq<string>, sp: seq<string>, sm: seq<string>, sv: seq<string>, sq: seq<string>)
    ensures ParsePieces(sc + (sp + (sm + (sv + sq)))) ==
      ParsePieces(sc) + (ParsePieces(sp) + (ParsePieces(sm) + (ParsePieces(sv) + ParsePieces(sq))))
  {
    ParsePiecesAppend(sv, sq);
    ParsePiecesAppend(sm, sv + sq);
    ParsePiecesAppend(sp, sm + (sv + sq));
    ParsePiecesAppend(sc, sp + (sm + (sv + sq)));
  }

  /** A piece `name=value` yields one parameter per `&` in the value, plus one. */
  lemma PieceCount(prefix: string, value: string)
    requires '&' !in prefix
    ensures |SplitOn(prefix + value, '&')| == 1 + Occurrences(value, '&')
  {
    OccurrencesAppend(prefix, value, '&');
  }

  /** A piece `name=value` whose value has no `&` reads back as the pair (name, value). */
  lemma PieceParse(prefix: string, name: string, value: string)
    requires prefix == name + ['='] && '&' !in name && '=' !in name && '&' !in value
    ensures ParsePieces(SplitOn(prefix + value, '&')) == [(name, value)]
  {
    SplitOnNone(name + ['='] + value, '&');
    SplitAtFirstPrefix(name, value, '=');
  }

  lemma LinkShape(item: KanbanData)
    ensures ParseLink(PurchaseRequestLink(item)) == ("/form-pr", ParsePieces(SplitOn(LinkQuery(item), '&')))
  {
    SplitAtFirstPrefix("/form-pr", LinkQuery(item), '?');
  }

  lemma QuerySplit(item: KanbanData)
    ensures SplitOn(LinkQuery(item), '&') ==
      SplitOn("code=" + item.kodepart, '&') + (SplitOn("part=" + item.part, '&') +
      (SplitOn("month=" + item.untukbulan, '&') + (SplitOn("vendor=" + item.supplier, '&') +
      SplitOn("quantity=" + item.qtyyangdipesan, '&'))))
  {
    SplitFive("code=" + item.kodepart, "part=" + item.part, "month=" + item.untukbulan,
              "vendor=" + item.supplier, "quantity=" + item.qtyyangdipesan);
  }

  lemma QueryPieceCount(item: KanbanData)
    ensures |SplitOn(LinkQuery(item), '&')| ==
      5 + Occurrences(item.kodepart, '&') + Occurrences(item.part, '&') +
      Occurrences(item.untukbulan, '&') + Occurrences(item.supplier, '&') +
      Occurrences(item.qtyyangdipesan, '&')
  {
    var sc, sp, sm, sv, sq :=
      SplitOn("code=" + item.kodepart, '&'), SplitOn("part=" + item.part, '&'),
      SplitOn("month=" + item.untukbulan, '&'), SplitOn("vendor=" + item.supplier, '&'),
      SplitOn("quantity=" + item.qtyyangdipesan, '&');
    assert SplitOn(LinkQuery(item), '&') == sc + (sp + (sm + (sv + sq))) by {
      QuerySplit(item);
    }
    assert |sc| == 1 + Occurrences(item.kodepart, '&') by { PieceCount("code=", item.kodepart); }
    assert |sp| == 1 + Occurrences(item.part, '&') by { PieceCount("part=", item.part); }
    assert |sm| == 1 + Occurrences(item.untukbulan, '&') by { PieceCount("month=", item.untukbulan); }
    assert |sv| == 1 + Occurrences(item.supplier, '&') by { PieceCount("vendor=", item.supplier); }
    assert |sq| == 1 + Occurrences(item.qtyyangdipesan, '&') by { PieceCount("quantity=", item.qtyyangdipesan); }
  }

  /** Each `&` in a linked field adds one parameter to the five the link is meant to carry. */
  lemma LinkParamCount(item: KanbanData)
    ensures |ParseLink(PurchaseRequestLink(item)).1| ==
      5 + Occurrences(item.kodepart, '&') + Occurrences(item.part, '&') +
      Occurrences(item.untukbulan, '&') + Occurrences(item.supplier, '&') +
      Occurrences(item.qtyyangdipesan, '&')
  {
    LinkShape(item);
    QueryPieceCount(item);
  }

  lemma SafeQueryParses(item: KanbanData)
    requires LinkSafe(item)
    ensures ParsePieces(SplitOn(LinkQuery(item), '&')) == IntendedParams(item)
  {
    var sc, sp, sm, sv, sq :=
      SplitOn("code=" + item.kodepart, '&'), SplitOn("part=" + item.part, '&'),
      SplitOn("month=" + item.untukbulan, '&'), SplitOn("vendor=" + item.supplier, '&'),
      SplitOn("quantity=" + item.qtyyangdipesan, '&');
    assert SplitOn(LinkQuery(item), '&') == sc + (sp + (sm + (sv + sq))) by {
      QuerySplit(item);
    }
    assert ParsePieces(sc) == [("code", item.kodepart)] by { PieceParse("code=", "code", item.kodepart); }
    assert ParsePieces(sp) == [("part", item.part)] by { PieceParse("part=", "part", item.part); }
    assert ParsePieces(sm) == [("month", item.untukbulan)] by { PieceParse("month=", "month", item.untukbulan); }
    assert ParsePieces(sv) == [("vendor", item.supplier)] by { PieceParse("vendor=", "vendor", item.supplier); }
    assert ParsePieces(sq) == [("quantity", item.qtyyangdipesan)] by { PieceParse("quantity=", "quantity", item.qtyyangdipesan); }
    ParseFive(sc, sp, sm, sv, sq);
  }

  /** Without `&` in the linked fields, the link reads back as the intended five parameters. */
  lemma SafeLinkParses(item: KanbanData)
    requires LinkSafe(item)
    ensures ParseLink(PurchaseRequestLink(item)) == ("/form-pr", IntendedParams(item))
  {
    LinkShape(item);
    SafeQueryParses(item);
  }

  /** The link reads back as the intended path and five parameters exactly when
      no linked field holds `&`. */
  lemma LinkRoundTrip(item: KanbanData)
    ensures ParseLink(PurchaseRequestLink(item)) == ("/form-pr", IntendedParams(item)) <==> LinkSafe(item)
  {
    if LinkSafe(item) {
      SafeLinkParses(item);
    } else {
      LinkParamCount(item);
    }
  }

  /** The link regrouped around the text "code&part=part". */
  lemma LinkAroundCodeAndPart(item: KanbanData)
    ensures PurchaseRequestLink(item) ==
      "/form-pr?code=" + (item.kodepart + "&part=" + item.part) +
      ("&month=" + item.untukbulan + "&vendor=" + item.supplier + "&quantity=" + item.qtyyangdipesan)
  {
  }

  /** The link sees the code and the part only through the text "code&part=part". */
  lemma LinkJoinsCodeAndPart(a: KanbanData, b: KanbanData)
    requires a.kodepart + "&part=" + a.part == b.kodepart + "&part=" + b.part
    requires a.untukbulan == b.untukbulan && a.supplier == b.supplier && a.qtyyangdipesan == b.qtyyangdipesan
    ensures PurchaseRequestLink(a) == PurchaseRequestLink(b)
  {
    LinkAroundCodeAndPart(a);
    LinkAroundCodeAndPart(b);
  }

  /** Because nothing is escaped, two different parts can send the user to the
      same form: a code holding "&part=" is read back as a second `part`. */
  lemma LinkNotInjective()
    ensures BlankKanban().(kodepart := "X&part=Y", part := "Z") != BlankKanban().(kodepart := "X", part := "Y&part=Z")
    ensures PurchaseRequestLink(BlankKanban().(kodepart := "X&part=Y", part := "Z")) ==
            PurchaseRequestLink(BlankKanban().(kodepart := "X", part := "Y&part=Z"))
  {
    var a := BlankKanban().(kodepart := "X&part=Y", part := "Z");
    var b := BlankKanban().(kodepart := "X", part := "Y&part=Z");
    assert |a.kodepart| != |b.kodepart|;
    assert a.kodepart + "&part=" + a.part == b.kodepart + "&part=" + b.part;
    LinkJoinsCodeAndPart(a, b);
  }

  // ---------------------------------------------------------------------------
  // Worked examples

  /** Two parts, one with a deadline: only it is to be ordered, out of a total of two;
      a deadline of one space is not empty, so that part is kept too. */
  lemma NotStartedExample()
    ensures NotStarted([BlankKanban().(kodepart := "A1", deadlinepemesanan := "2024-05-01"),
                        BlankKanban().(kodepart := "A2")])
         == [BlankKanban().(kodepart := "A1", deadlinepemesanan := "2024-05-01")]
    ensures TotalSparepart([BlankKanban().(kodepart := "A1", deadlinepemesanan := "2024-05-01"),
                            BlankKanban().(kodepart := "A2")]) == 2
    ensures NotStarted([BlankKanban().(deadlinepemesanan := " ")]) == [BlankKanban().(deadlinepemesanan := " ")]
  {
    var a1, a2 := BlankKanban().(kodepart := "A1", deadlinepemesanan := "2024-05-01"), BlankKanban().(kodepart := "A2");
    var data := [a1, a2];
    assert NeedsOrder(a1) && !NeedsOrder(a2);
    assert data[1..] == [a2] && data[1..][1..] == [];
    assert Filter(NeedsOrder, [a2]) == [];
    var blank := BlankKanban().(deadlinepemesanan := " ");
    assert NeedsOrder(blank);
    assert [blank][1..] == [];
  }

  /** Of two submitted orders only the internal one is on process; a received
      external order is still completed; the kind is compared case-sensitively. */
  lemma TrackingExample()
    ensures OnProcess([BlankTracking().(status := "PO Diajukan", tipekanban := "INTERNAL"),
                       BlankTracking().(status := "PO Diajukan", tipekanban := "EXTERNAL")])
         == [BlankTracking().(status := "PO Diajukan", tipekanban := "INTERNAL")]
    ensures Completed([BlankTracking().(status := "Sudah Diterima", tipekanban := "EXTERNAL")])
         == [BlankTracking().(status := "Sudah Diterima", tipekanban := "EXTERNAL")]
    ensures OnProcess([BlankTracking().(status := "PO Diajukan", tipekanban := "internal")]) == []
  {
    var t1, t2 := BlankTracking().(status := "PO Diajukan", tipekanban := "INTERNAL"),
                  BlankTracking().(status := "PO Diajukan", tipekanban := "EXTERNAL");
    assert IsOnProcess(t1) && !IsOnProcess(t2);
    assert [t1, t2][1..] == [t2] && [t2][1..] == [];
    assert Filter(IsOnProcess, [t2]) == [];
    var t3 := BlankTracking().(status := "Sudah Diterima", tipekanban := "EXTERNAL");
    assert IsCompleted(t3) && [t3][1..] == [];
    var t4 := BlankTracking().(status := "PO Diajukan", tipekanban := "internal");
    assert !IsOnProcess(t4) && [t4][1..] == [];
  }
}

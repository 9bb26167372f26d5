/** The tour data the tour manager evaluates bins against, and the bin reports it builds.

    The source keeps both as json-c objects; here the tour is a sequence of records with
    the fields the code reads (`IdBin`, `Position`, `BinState`), and a bin report is such
    a record with the `DateTime` and `Weight` fields added by `updateBinData`. */
module TourData {
  import opened Text

  /** `BinState` of speaker.h: the evaluation outcome signalled to the operator. */
  datatype BinState = Accepted | Refused | Unknown

  const AcceptedText: string := "BINSTATE_ACCEPTED"
  const RefusedText: string := "BINSTATE_REFUSED"
  const UnknownText: string := "BINSTATE_UNKNOWN"

  /** `IdBin`: the scanned tag id, eight hexadecimal characters as text. */
  type IdBin = string

  datatype Position = Position(lat: string, lng: string)

  /** One element of the tour data array. `binState` is the JSON text, not yet evaluated. */
  datatype BinRecord = BinRecord(idBin: IdBin, position: Position, binState: string)

  type Tour = seq<BinRecord>

  /** The record `updateBinData` leaves in `myCurrentBinData` for a collected bin. */
  datatype BinReport = BinReport(idBin: IdBin, position: Position, binState: string,
                                 dateTime: string, weight: string)

  /** `json_object_array_length` stored into a `uint8_t`: the length modulo 256. */
  function ArrayLen(t: Tour): (n: nat)
    ensures n < 256 && n <= |t|
    ensures |t| < 256 ==> n == |t|
  {
    |t| % 256
  }

  /** The `checkIdBin` loop from index i up to n: the first record whose id equals the
      scanned id decides, its state text mapped to ACCEPTED or REFUSED; no match is UNKNOWN. */
  function FirstMatchState(tour: Tour, id: IdBin, i: nat, n: nat): BinState
    requires i <= n <= |tour|
    decreases n - i
  {
    if i == n then Unknown
    else if tour[i].idBin == id then
      (if tour[i].binState == AcceptedText then Accepted else Refused)
    else FirstMatchState(tour, id, i + 1, n)
  }

  /** The search is Unknown exactly when no record in the range matches; otherwise the
      first match decides, ACCEPTED exactly when its state text is the accepted one. */
  lemma {:induction false} FirstMatchDecides(tour: Tour, id: IdBin, i: nat, n: nat)
    requires i <= n <= |tour|
    ensures var r := FirstMatchState(tour, id, i, n);
            && (r == Unknown <==> forall k :: i <= k < n ==> tour[k].idBin != id)
            && (r != Unknown ==>
                  exists k :: i <= k < n && tour[k].idBin == id &&
                              (forall j :: i <= j < k ==> tour[j].idBin != id) &&
                              (r == Accepted <==> tour[k].binState == AcceptedText))
    decreases n - i
  {
    if i < n && tour[i].idBin != id {
      FirstMatchDecides(tour, id, i + 1, n);
    }
  }

  /** `checkIdBin`: the evaluation of a scanned id against the first `uint8_t`-truncated
      length of the tour. */
  function CheckIdBin(tour: Tour, id: IdBin): (r: BinState)
    ensures r == Unknown <==> forall k :: 0 <= k < ArrayLen(tour) ==> tour[k].idBin != id
    ensures r != Unknown ==>
              exists k :: 0 <= k < ArrayLen(tour) && tour[k].idBin == id &&
                          (forall j :: 0 <= j < k ==> tour[j].idBin != id) &&
                          (r == Accepted <==> tour[k].binState == AcceptedText)
  {
    FirstMatchDecides(tour, id, 0, ArrayLen(tour));
    FirstMatchState(tour, id, 0, ArrayLen(tour))
  }

  /** A tour of one record evaluates an id by that record alone: UNKNOWN for another id,
      else ACCEPTED or REFUSED as its state text says. */
  lemma SingleRecordTour(rec: BinRecord, id: IdBin)
    ensures CheckIdBin([rec], id) == if rec.idBin != id then Unknown
                                    else if rec.binState == AcceptedText then Accepted
                                    else Refused
  {
    assert ArrayLen([rec]) == 1;
  }

  /** The `updateBinData` loop from index i up to n: it does not break, so the index of the
      last matching record wins; `found` is the match seen before index i. */
  function LastMatch(tour: Tour, id: IdBin, i: nat, n: nat, found: Option<nat>): (r: Option<nat>)
    requires i <= n <= |tour|
    ensures (forall k :: i <= k < n ==> tour[k].idBin != id) ==> r == found
    ensures (exists k :: i <= k < n && tour[k].idBin == id) ==>
              r.Some? && i <= r.value < n && tour[r.value].idBin == id &&
              forall k :: r.value < k < n ==> tour[k].idBin != id
    decreases n - i
  {
    if i == n then found
    else LastMatch(tour, id, i + 1, n, if tour[i].idBin == id then Some(i) else found)
  }

  /** `sprintf("%d")` of the weight into the 4-byte `weightToChar` buffer. */
  function WeightText(weight: int): string {
    IntToDecimal(weight)
  }

  /** `updateBinData`: the last matching tour record, or a fresh UNKNOWN record with an
      empty position when no record matches, stamped with the date-time and the weight. */
  function UpdateBinData(tour: Tour, id: IdBin, dateTime: string, weight: int): (r: BinReport)
    ensures r.idBin == id && r.dateTime == dateTime && r.weight == WeightText(weight)
    ensures (forall k :: 0 <= k < ArrayLen(tour) ==> tour[k].idBin != id) ==>
              r.position == Position("", "") && r.binState == UnknownText
    ensures forall k :: 0 <= k < ArrayLen(tour) && tour[k].idBin == id &&
                        (forall j :: k < j < ArrayLen(tour) ==> tour[j].idBin != id) ==>
                          r.position == tour[k].position && r.binState == tour[k].binState
  {
    match LastMatch(tour, id, 0, ArrayLen(tour), None)
    case None => BinReport(id, Position("", ""), UnknownText, dateTime, WeightText(weight))
    case Some(k) =>
      var b := tour[k];
      BinReport(b.idBin, b.position, b.binState, dateTime, WeightText(weight))
  }

  /** `updateTourData`: the report joins the end of the in-progress list. */
  function UpdateTourData(inProgress: seq<BinReport>, report: BinReport): (r: seq<BinReport>)
    ensures |r| == |inProgress| + 1 && r[|inProgress|] == report
    ensures forall k :: 0 <= k < |inProgress| ==> r[k] == inProgress[k]
  {
    inProgress + [report]
  }

  /** A weight from the scales (0..500) prints in at most three characters, so it fits the
      4-byte buffer with its terminator, and it reads back as the same number. */
  lemma WeightTextFits(weight: int)
    requires 0 <= weight <= 500
    ensures |WeightText(weight)| <= 3
    ensures AllDigits(WeightText(weight)) && ParseNat(WeightText(weight)) == weight
  {
    DecimalWidth(weight);
    ParseNatToDecimal(weight);
  }

  /** With a duplicated id the two searches disagree: `checkIdBin` evaluates the first
      record while `updateBinData` reports the last one. */
  lemma DuplicateIdsDisagree(id: IdBin, p: Position, q: Position, dateTime: string, weight: int)
    ensures var tour := [BinRecord(id, p, RefusedText), BinRecord(id, q, AcceptedText)];
            CheckIdBin(tour, id) == Refused &&
            UpdateBinData(tour, id, dateTime, weight).binState == AcceptedText &&
            UpdateBinData(tour, id, dateTime, weight).position == q
  {
    var tour := [BinRecord(id, p, RefusedText), BinRecord(id, q, AcceptedText)];
    assert tour[0].idBin == id;
    assert tour[1].idBin == id;
  }

  /** Because the length wraps at 256, a tour of exactly 256 records is searched as if it
      were empty: every scanned id evaluates to UNKNOWN and gets a synthesized record. */
  lemma WrappedLengthHidesTour(tour: Tour, id: IdBin, dateTime: string, weight: int)
    requires |tour| == 256
    ensures CheckIdBin(tour, id) == Unknown
    ensures UpdateBinData(tour, id, dateTime, weight).binState == UnknownText
  {
  }

  /** The search up to n reads nothing past index n. */
  lemma {:induction false} FirstMatchStatePrefix(tour: Tour, id: IdBin, i: nat, n: nat, m: nat)
    requires i <= n <= m <= |tour|
    ensures FirstMatchState(tour, id, i, n) == FirstMatchState(tour[..m], id, i, n)
    decreases n - i
  {
    if i < n {
      var t := tour[..m];
      assert t[i] == tour[i];
      FirstMatchStatePrefix(tour, id, i + 1, n, m);
    }
  }

  /** Only the first `ArrayLen` records are ever consulted: the evaluation of a long tour
      is that of its prefix of length |tour| mod 256, whatever the later records hold. */
  lemma RecordsBeyondWrapIgnored(tour: Tour, id: IdBin)
    ensures CheckIdBin(tour, id) == CheckIdBin(tour[..ArrayLen(tour)], id)
  {
    FirstMatchStatePrefix(tour, id, 0, ArrayLen(tour), ArrayLen(tour));
  }
}

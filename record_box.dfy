/** The history list of one diary record category: local edits and the rendered rows. */
module RecordBox {
  import opened Outcomes
  import SeqOps

  datatype RecordType = Graph | Photo

  /** One measurement or photo entry (`RecordsData`). */
  datatype RecordsData = RecordsData(
    graphData: string,
    unit: Option<string>,
    graphDate: Option<string>,
    graphTime: Option<string>,
    photoTime: Option<string>,
    recordId: Option<int>,
    photoDate: Option<string>,
    photoUrl: Option<string>,
    description: Option<string>,
    graphDataId: Option<int>)

  function GraphDataIdOf(r: RecordsData): Option<int> { r.graphDataId }

  /** A difference is shown with its own minus sign, or else with a `+` in front; none shows as blank. */
  function SignPrefixed(difference: string): (r: string)
    ensures |difference| <= |r| <= |difference| + 1 && r[|r| - |difference|..] == difference
    ensures |r| > |difference| ==> r[0] == '+'
  {
    if difference == "" then ""
    else if difference[0] == '-' then difference
    else "+" + difference
  }

  /** Reading a displayed difference back: drop the `+` that display added. */
  function Unprefixed(shown: string): string {
    if shown != "" && shown[0] == '+' then shown[1..] else shown
  }

  /** The display rule loses nothing, and every shown difference carries an explicit sign. */
  lemma SignPrefixedRoundTrip(difference: string)
    ensures Unprefixed(SignPrefixed(difference)) == difference
    ensures SignPrefixed(difference) == "" <==> difference == ""
    ensures SignPrefixed(difference) != "" ==> SignPrefixed(difference)[0] in {'+', '-'}
    ensures difference != "" && difference[0] == '-' ==> SignPrefixed(difference) == difference
    ensures difference != "" && difference[0] != '-' ==> SignPrefixed(difference) == "+" + difference
  {
  }

  /** The props one history row renders with. */
  datatype RecordRow = RecordRow(value: string, unit: string, difference: string, date: string)

  /**
   * Row `i` of `records.map((record, index) => ...)`. `diffText(current, previous)` stands for
   * `(parseFloat(current) - parseFloat(previous)).toFixed(2)`; the previous value is the
   * record at `index + 1`, and the last record has none.
   */
  function RowAt(recordType: RecordType, unit: string, records: seq<RecordsData>, i: nat,
                 diffText: (string, string) -> string): RecordRow
    requires i < |records|
  {
    var record := records[i];
    var difference := if i < |records| - 1 then diffText(record.graphData, records[i + 1].graphData) else "";
    RecordRow(
      if recordType == Graph then record.graphData else "",
      if recordType == Graph then unit else "",
      SignPrefixed(difference),
      if recordType == Graph then record.graphDate.GetOr("") else record.photoDate.GetOr(""))
  }

  function Rows(recordType: RecordType, unit: string, records: seq<RecordsData>,
                diffText: (string, string) -> string): (rows: seq<RecordRow>)
    ensures |rows| == |records|
    ensures forall i :: 0 <= i < |rows| ==>
      rows[i].difference == if i + 1 < |records|
                            then SignPrefixed(diffText(records[i].graphData, records[i + 1].graphData))
                            else ""
    ensures recordType == Photo ==> forall i :: 0 <= i < |rows| ==> rows[i].value == "" && rows[i].unit == ""
  {
    seq(|records|, i requires 0 <= i < |records| => RowAt(recordType, unit, records, i, diffText))
  }

  class RecordBox {
    const recordType: RecordType
    const recordId: int
    const unit: string
    var records: seq<RecordsData>
    var selectedRecord: Option<RecordsData>

    constructor (recordType: RecordType, recordId: int, unit: string)
      ensures this.recordType == recordType && this.recordId == recordId && this.unit == unit
      ensures records == [] && selectedRecord == None
    {
      this.recordType, this.recordId, this.unit := recordType, recordId, unit;
      records, selectedRecord := [], None;
    }

    /** The fetched list, already sorted by date, becomes the history. */
    method ReceiveRecords(sorted: seq<RecordsData>)
      modifies this
      ensures records == sorted && selectedRecord == old(selectedRecord)
    {
      records := sorted;
    }

    method HandleRecordClick(record: RecordsData)
      modifies this
      ensures selectedRecord == Some(record) && records == old(records)
    {
      selectedRecord := Some(record);
    }

    method HandleOverlayClose()
      modifies this
      ensures selectedRecord == None && records == old(records)
    {
      selectedRecord := None;
    }

    /** Every entry with the same `graphDataId` as `updated` becomes `updated`. */
    method UpdateRecord(updated: RecordsData)
      modifies this
      ensures records == SeqOps.ReplaceByKey(old(records), GraphDataIdOf, updated.graphDataId, updated)
      ensures selectedRecord == old(selectedRecord)
    {
      records := SeqOps.ReplaceByKey(records, GraphDataIdOf, updated.graphDataId, updated);
    }

    /** The entries with that `graphDataId` are dropped. */
    method DeleteRecord(graphDataId: int)
      modifies this
      ensures records == SeqOps.RemoveByKey(old(records), GraphDataIdOf, Some(graphDataId))
      ensures selectedRecord == old(selectedRecord)
    {
      records := SeqOps.RemoveByKey(records, GraphDataIdOf, Some(graphDataId));
    }

    /** The rows the history list shows. */
    function View(diffText: (string, string) -> string): (rows: seq<RecordRow>)
      reads this
      ensures |rows| == |records|
    {
      Rows(recordType, unit, records, diffText)
    }
  }
}

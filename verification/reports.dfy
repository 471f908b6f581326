/** The administrator's reports page: the name of the exported CSV file and
    the export history, newest first. */
module AdminReports {
  import opened Outcomes
  import opened Text
  import opened JsValues

  /** `s.replace(/[:T]/g, '-')`: every ':' and 'T' becomes '-', every other
      character stays where it was. */
  function DashStamp(s: string): (r: string)
    ensures |r| == |s|
    ensures forall i :: 0 <= i < |s| ==> r[i] == (if s[i] == ':' || s[i] == 'T' then '-' else s[i])
    ensures ':' !in r && 'T' !in r
  {
    seq(|s|, i requires 0 <= i < |s| => if s[i] == ':' || s[i] == 'T' then '-' else s[i])
  }

  /** The downloaded file's name: the export type, `_report_`, the first 19
      characters of the ISO timestamp with ':' and 'T' turned into '-',
      and `.csv`. */
  function ExportFilename(exportType: string, iso: string): (filename: string)
    ensures exportType + "_report_" <= filename
    ensures |filename| == |exportType| + 8 + |Prefix(iso, 19)| + 4
    ensures filename[|filename| - 4..] == ".csv"
    ensures filename[|exportType| + 8..|filename| - 4] == DashStamp(Prefix(iso, 19))
  {
    var head := exportType + "_report_";
    var stamp := DashStamp(Prefix(iso, 19));
    var filename := head + stamp + ".csv";
    assert filename[..|head|] == head;
    assert filename[|head|..|filename| - 4] == stamp;
    assert filename[|filename| - 4..] == ".csv";
    filename
  }

  /** For a timestamp as `toISOString` writes it
      (`YYYY-MM-DDTHH:MM:SS.sssZ`), the stamp in the file name keeps the date
      and the time of day and separates every part with '-'. */
  lemma IsoStamp(iso: string)
    requires |iso| >= 19
    requires iso[4] == '-' && iso[7] == '-' && iso[10] == 'T' && iso[13] == ':' && iso[16] == ':'
    requires forall i :: 0 <= i < 19 && i !in {4, 7, 10, 13, 16} ==> '0' <= iso[i] <= '9'
    ensures |DashStamp(Prefix(iso, 19))| == 19
    ensures forall i :: 0 <= i < 19 ==>
              DashStamp(Prefix(iso, 19))[i] == (if i in {4, 7, 10, 13, 16} then '-' else iso[i])
  {
    var p := Prefix(iso, 19);
    forall i | 0 <= i < 19
      ensures DashStamp(p)[i] == (if i in {4, 7, 10, 13, 16} then '-' else iso[i])
    {
      assert p[i] == iso[i];
    }
  }

  /** One line of the export history. */
  datatype ExportRecord = ExportRecord(kind: string, filename: string, date: string, status: string)

  class ReportsPage {
    var exportType: string
    var exportHistory: seq<ExportRecord>

    constructor ()
      ensures exportType == "allocations" && exportHistory == []
    {
      exportType := "allocations";
      exportHistory := [];
    }

    method SetExportType(kind: string)
      modifies this
      ensures exportType == kind && exportHistory == old(exportHistory)
    {
      exportType := kind;
    }

    /** `handleExport`: the export of the chosen type is requested; the
        history grows by exactly one record, in front, and every earlier
        record stays as it was. A successful export records the file name
        with status "Success"; a failed one records '-' with status "Failed"
        and raises the alert. `iso` and `localDate` are the clock's readings
        as ISO text and as local text. */
    method HandleExport(iso: string, localDate: string, result: ApiResult<JsValue>)
      returns (requested: string, alerted: Option<string>)
      modifies this
      ensures requested == old(exportType) && exportType == old(exportType)
      ensures |exportHistory| == |old(exportHistory)| + 1 && exportHistory[1..] == old(exportHistory)
      ensures result.Ok? ==>
                exportHistory[0] == ExportRecord(exportType, ExportFilename(exportType, iso), localDate, "Success")
                && alerted == None
      ensures result.Failed? ==>
                exportHistory[0] == ExportRecord(exportType, "-", localDate, "Failed")
                && alerted == Some("Failed to export report.")
    {
      requested := exportType;
      match result {
        case Ok(_) =>
          var filename := ExportFilename(exportType, iso);
          exportHistory := [ExportRecord(exportType, filename, localDate, "Success")] + exportHistory;
          alerted := None;
        case Failed(_) =>
          exportHistory := [ExportRecord(exportType, "-", localDate, "Failed")] + exportHistory;
          alerted := Some("Failed to export report.");
      }
    }
  }
}

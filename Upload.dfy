/** The upload screen: the user picks one file, the client checks that its
    name ends in ".csv", and only then posts it to the service. */
module Upload {
  import opened Js
  import opened Http

  const CsvSuffix: string := ".csv"

  const NoFileMessage: string := "Please select a file to upload."
  const NotCsvMessage: string := "Please upload a CSV file."
  const UploadedMessage: string := "File uploaded successfully!"
  const UploadFailedMessage: string := "Error uploading file. Please try again."

  /** A file chosen in the file picker; only its name is inspected. */
  datatype FileInfo = FileInfo(name: string)

  /** `s.endsWith(suffix)`: an exact, case-sensitive comparison of the last
      characters of `s`. */
  function EndsWith(s: string, suffix: string): (r: bool)
    ensures r ==> |suffix| <= |s| && s == s[..|s| - |suffix|] + suffix
  {
    |suffix| <= |s| && s[|s| - |suffix|..] == suffix
  }

  /** The converse of EndsWith's postcondition: every string built by
      appending `suffix` ends with it. */
  lemma EndsWithAppended(prefix: string, suffix: string)
    ensures EndsWith(prefix + suffix, suffix)
  {
    assert (prefix + suffix)[|prefix|..] == suffix;
  }

  /** The verdict of the checks `handleUpload` makes before any request. */
  datatype PreCheck = NoFile | NotCsv | Accepted

  /** The missing-file check comes first, the extension check second. */
  function CheckUpload(file: Option<FileInfo>): (r: PreCheck)
    ensures r == NoFile <==> file.None?
    ensures r == NotCsv <==> file.Some? && !EndsWith(file.value.name, CsvSuffix)
    ensures r == Accepted <==> file.Some? && EndsWith(file.value.name, CsvSuffix)
  {
    match file
    case None => NoFile
    case Some(f) => if EndsWith(f.name, CsvSuffix) then Accepted else NotCsv
  }

  /** Names that are rejected and accepted: the test is on the suffix only and
      is case-sensitive, so even a name that is nothing but ".csv" passes. */
  lemma CheckUploadExamples()
    ensures CheckUpload(Some(FileInfo("data.txt"))) == NotCsv
    ensures CheckUpload(Some(FileInfo("data.CSV"))) == NotCsv
    ensures CheckUpload(Some(FileInfo("csv"))) == NotCsv
    ensures CheckUpload(Some(FileInfo("data.csv"))) == Accepted
    ensures CheckUpload(Some(FileInfo(".csv"))) == Accepted
  {
    EndsWithAppended("data", CsvSuffix);
    EndsWithAppended("", CsvSuffix);
  }

  /** The upload screen's state: `file`, `uploading`, `uploadStatus` and
      `uploadResult`, the latter the body of the last successful response. */
  class UploadScreen {
    var file: Option<FileInfo>
    var uploading: bool
    var uploadStatus: Option<Status>
    var uploadResult: Value

    constructor ()
      ensures file == None && !uploading && uploadStatus == None && uploadResult == Null
    {
      file := None;
      uploading := false;
      uploadStatus := None;
      uploadResult := Null;
    }

    /** `handleFileChange`: keeps the first of the selected files (none when the
        picker was cancelled) and clears the status and the previous result. */
    method SelectFiles(files: seq<FileInfo>)
      modifies this
      ensures file == (if |files| > 0 then Some(files[0]) else None)
      ensures uploadStatus == None && uploadResult == Null
      ensures uploading == old(uploading)
    {
      file := if |files| > 0 then Some(files[0]) else None;
      uploadStatus := None;
      uploadResult := Null;
    }

    /** The start of `handleUpload`; the submit button is disabled while an
        upload is pending. `sent` tells whether the POST to /upload is made. */
    method SubmitUpload() returns (sent: bool)
      requires !uploading
      modifies this
      ensures file == old(file) && uploadResult == old(uploadResult)
      ensures sent <==> CheckUpload(file) == Accepted
      ensures uploading == sent
      ensures CheckUpload(file) == NoFile ==> uploadStatus == Some(Status(false, NoFileMessage))
      ensures CheckUpload(file) == NotCsv ==> uploadStatus == Some(Status(false, NotCsvMessage))
      ensures sent ==> uploadStatus == old(uploadStatus)
    {
      if file.None? {
        uploadStatus := Some(Status(false, NoFileMessage));
        return false;
      }
      if !EndsWith(file.value.name, CsvSuffix) {
        uploadStatus := Some(Status(false, NotCsvMessage));
        return false;
      }
      uploading := true;
      sent := true;
    }

    /** The rest of `handleUpload`, once the POST has settled. A failure leaves
        whatever result was shown before in place. */
    method FinishUpload(outcome: AxiosOutcome)
      requires uploading
      modifies this
      ensures !uploading && file == old(file)
      ensures outcome.Resolved? ==>
                uploadStatus == Some(Status(true, UploadedMessage)) && uploadResult == outcome.data
      ensures outcome.Rejected? ==>
                uploadStatus == Some(Status(false, UploadFailedMessage)) && uploadResult == old(uploadResult)
    {
      match outcome {
        case Resolved(data) =>
          uploadStatus := Some(Status(true, UploadedMessage));
          uploadResult := data;
        case Rejected =>
          uploadStatus := Some(Status(false, UploadFailedMessage));
      }
      uploading := false;
    }
  }
}

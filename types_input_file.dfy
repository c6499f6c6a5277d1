/** `types_input_file.go`: how an input file is written into a request field. */
module InputFiles {
  import opened Wrappers

  /** An open upload stream; only its presence matters. */
  datatype Reader = Reader(handle: nat)

  datatype InputFile = InputFile(fileID: string, fileURL: string, file: Option<Reader>, fileName: string, fieldName: string)

  const AttachScheme: string := "attach://"

  /**
   * `AppendText`: the buffer followed by the file id, else by the URL, else by
   * `attach://` and the multipart field name; nil (`None`, the buffer
   * discarded) when none of the three is set. It never fails.
   */
  function AppendText(r: InputFile, buf: string): (out: Option<string>)
    ensures r.fileID != "" ==> out == Some(buf + r.fileID)
    ensures r.fileID == "" && r.fileURL != "" ==> out == Some(buf + r.fileURL)
    ensures r.fileID == "" && r.fileURL == "" && r.file.Some? ==> out == Some(buf + AttachScheme + r.fieldName)
    ensures out.None? <==> r.fileID == "" && r.fileURL == "" && r.file.None?
  {
    if r.fileID != "" then Some(buf + r.fileID)
    else if r.fileURL != "" then Some(buf + r.fileURL)
    else if r.file.Some? then Some(buf + AttachScheme + r.fieldName)
    else None
  }

  /** `MarshalText`: `AppendText` on a nil buffer. */
  function MarshalText(r: InputFile): (out: Option<string>)
    ensures out == AppendText(r, "")
  {
    AppendText(r, "")
  }

  /** Appending is marshalling followed by concatenation: the written text does not depend on the buffer. */
  lemma AppendIsMarshal(r: InputFile, buf: string)
    ensures AppendText(r, buf).Some? <==> MarshalText(r).Some?
    ensures MarshalText(r).Some? ==> AppendText(r, buf) == Some(buf + MarshalText(r).value)
  {
    if r.fileID == "" && r.fileURL == "" && r.file.Some? {
      assert buf + AttachScheme + r.fieldName == buf + ("" + AttachScheme + r.fieldName);
    } else {
      assert buf + r.fileID == buf + ("" + r.fileID);
      assert buf + r.fileURL == buf + ("" + r.fileURL);
    }
  }

  /** The priority order: a file id hides the URL and the stream. */
  lemma FileIDWins(r: InputFile, url: string, file: Option<Reader>)
    requires r.fileID != ""
    ensures MarshalText(r.(fileURL := url, file := file)) == MarshalText(r) == Some(r.fileID)
  {
    assert "" + r.fileID == r.fileID;
  }
}

/**
  The file operations: listing, uploading and deleting files. Each builds its
  request parameters, hands the request to the server, and applies the XML
  outcome rule, so the decoded response is returned even when it carries an
  error.
 */
module LockerFiles {
  import opened Results
  import opened Text
  import opened Wire
  import opened Locker

  /** A file as the service lists it. */
  datatype File = File(id: string, name: string, size: int, passedAvScan: bool)

  type FilesResponse = Envelope<seq<File>>
  type UploadResponse = Envelope<File>
  type DeleteResponse = Envelope<()>

  const FilesPath := "/file/get_user_file_list"
  const UploadPath := "/file/upload"
  const DeletePath := "/file/delete_files"
  const DefaultFileNote := "Uploaded by #golang"
  const OctetStream := "application/octet-stream"

  const FilesFailure := "error listing file"
  const UploadFailure := "error uploading"
  const DeleteFailure := "error deleting file"

  /** Files: posts format=cli to the file list endpoint. */
  method Files(c: Client, server: Request -> IoResult<FilesResponse>)
    returns (req: Request, reply: Reply<FilesResponse>)
    ensures req.verb == "POST" && req.url == c.baseURL + FilesPath && req.query == []
    ensures req.body == FormBody([Param("format", "cli")])
    ensures req.headers == FormHeaders(XmlAccept)
    ensures reply == XmlOutcome(server(req), FilesFailure)
  {
    var form: Form := [];
    form := Add(form, "format", "cli");
    assert form == [Param("format", "cli")];
    req := Request("POST", c.baseURL + FilesPath, [], FormHeaders(XmlAccept), FormBody(form));
    reply := XmlOutcome(server(req), FilesFailure);
  }

  /** The query parameters of an upload, in the order Upload adds them. */
  ghost predicate IsUploadQuery(q: Form, name: string, notes: string, scan: bool)
  {
    q == [Param("format", "cli"), Param("fileName", name)]
         + (if scan then [Param("scanFile", "true")] else [])
         + [Param("fileNotes", if notes == "" then DefaultFileNote else notes)]
  }

  /**
    Upload: reads the whole source, then posts it as the raw body. The query
    always holds format=cli and the file name, holds scanFile=true only when a
    scan is asked for, and holds the notes or, when they are empty, the default
    note. The headers give the content's length and the file name. A failed
    read returns its error before any request is made.
   */
  method Upload(c: Client, name: string, notes: string, scan: bool, source: IoResult<seq<byte>>,
                server: Request -> IoResult<UploadResponse>)
    returns (sent: Option<Request>, reply: Reply<UploadResponse>)
    ensures source.IoError? ==> sent == None && reply == Reply(None, Some(source.message))
    ensures source.Ok? ==> sent.Some?
    ensures sent.Some? ==> source.Ok?
    ensures sent.Some? ==> sent.value.verb == "POST" && sent.value.url == c.baseURL + UploadPath
    ensures sent.Some? ==> sent.value.body == RawBody(source.value)
    ensures sent.Some? ==> IsUploadQuery(sent.value.query, name, notes, scan)
    ensures sent.Some? ==>
      sent.value.headers == [Param("Content-Type", OctetStream), Param("Accept", XmlAccept),
                             Param("Content-Length", Itoa(|source.value|)), Param("X-File-Name", name)]
    ensures sent.Some? ==> reply == XmlOutcome(server(sent.value), UploadFailure)
  {
    if source.IoError? {
      sent, reply := None, Reply(None, Some(source.message));
      return;
    }
    var file := source.value;

    var params: Form := [];
    params := Add(params, "format", "cli");
    params := Add(params, "fileName", name);
    if scan {
      params := Add(params, "scanFile", FormatBool(scan));
    }
    if notes == "" {
      params := Add(params, "fileNotes", DefaultFileNote);
    } else {
      params := Add(params, "fileNotes", notes);
    }
    assert IsUploadQuery(params, name, notes, scan);

    var headers: Form := [];
    headers := Add(headers, "Content-Type", OctetStream);
    headers := Add(headers, "Accept", XmlAccept);
    headers := Add(headers, "Content-Length", Itoa(|file|));
    headers := Add(headers, "X-File-Name", name);
    assert headers == [Param("Content-Type", OctetStream), Param("Accept", XmlAccept),
                       Param("Content-Length", Itoa(|file|)), Param("X-File-Name", name)];

    var req := Request("POST", c.baseURL + UploadPath, params, headers, RawBody(file));
    sent := Some(req);
    reply := XmlOutcome(server(req), UploadFailure);
  }

  /**
    What the server reads from an upload query: one format, one file name, a
    scanFile value only when a scan was asked for, and one note, the default
    one when none was given.
   */
  lemma UploadQueryValues(q: Form, name: string, notes: string, scan: bool)
    requires IsUploadQuery(q, name, notes, scan)
    ensures ValuesOf(q, "format") == ["cli"]
    ensures ValuesOf(q, "fileName") == [name]
    ensures ValuesOf(q, "scanFile") == (if scan then ["true"] else [])
    ensures ValuesOf(q, "fileNotes") == [if notes == "" then DefaultFileNote else notes]
  {
    var last := |q| - 1;
    ValuesOfSingle(q, "format", 0);
    ValuesOfSingle(q, "fileName", 1);
    if scan {
      ValuesOfSingle(q, "scanFile", 2);
    } else {
      ValuesOfAbsent(q, "scanFile");
    }
    ValuesOfSingle(q, "fileNotes", last);
  }

  /**
    Delete: posts format=cli, the session's origin token and the file IDs
    joined with commas, in input order.
   */
  method Delete(c: Client, files: seq<string>, server: Request -> IoResult<DeleteResponse>)
    returns (req: Request, reply: Reply<DeleteResponse>)
    ensures req.verb == "POST" && req.url == c.baseURL + DeletePath && req.query == []
    ensures req.body == FormBody([Param("format", "cli"), Param("requestOrigin", c.origin),
                                  Param("fileIds", Join(files, ','))])
    ensures req.headers == FormHeaders(XmlAccept)
    ensures reply == XmlOutcome(server(req), DeleteFailure)
  {
    var form: Form := [];
    form := Add(form, "format", "cli");
    form := Add(form, "requestOrigin", c.origin);
    var fileIDs := Join(files, ',');
    form := Add(form, "fileIds", fileIDs);
    assert form == [Param("format", "cli"), Param("requestOrigin", c.origin), Param("fileIds", fileIDs)];
    req := Request("POST", c.baseURL + DeletePath, [], FormHeaders(XmlAccept), FormBody(form));
    reply := XmlOutcome(server(req), DeleteFailure);
  }
}

/** `POST /api/documents` uploads every file of the form (a PDF also gets its
    text saved locally) and sorts the per-file outcomes into results and
    errors; `GET /api/documents` lists the caller's documents of one chat. */
module DocumentsRoute {
  import opened Text
  import opened Seqs

  /** A `File` entry of the form. */
  datatype UploadFile = UploadFile(name: string, size: int, mimeType: string)

  /** What one external step did: finished, or threw with a message
      (`None` for an error without a message). */
  datatype Step = Done | Threw(message: Option<string>)

  /** The Cloudinary callback: a result, an error, or neither. */
  datatype UploadReply =
    | Uploaded(secureUrl: string, bytes: int, format: Option<string>)
    | UploadError(message: Option<string>)
    | NoResult

  /** How the outside world treats one file: the PDF text extraction and
      local save, the upload, and the database insert with the id it assigns. */
  datatype Environment = Environment(pdfStep: Step, upload: UploadReply, save: Step, documentId: int, stamp: int)

  /** An entry of `formData.getAll('files')`: a plain text field or a file
      together with what the outside world does with it. */
  datatype FormValue = TextField | FileField(file: UploadFile, env: Environment)

  datatype SavedDocument = SavedDocument(
    id: int,
    fileName: string,
    filePath: string,
    fileSize: int,
    fileType: string,
    localPath: Option<string>,
    ownerId: Option<string>)

  datatype UploadFailure = UploadFailure(fileName: string, error: string)

  /** What became of one entry. */
  datatype FileResult = Skipped | Saved(doc: SavedDocument) | Failed(failure: UploadFailure)

  // ---- one file ----

  /** `file && file.name && file.size > 0`. */
  predicate Processed(v: FormValue)
  {
    v.FileField? && v.file.name != "" && v.file.size > 0
  }

  /** `file.name.split('.')[0]`: the text before the first dot. */
  function BaseName(name: string): (r: string)
    ensures r <= name && '.' !in r
    ensures |r| < |name| ==> name[|r|] == '.'
    ensures '.' !in name ==> r == name
  {
    SplitFirst(name, '.');
    Split(name, '.')[0]
  }

  /** `file.name.split('.').pop()`: the text after the last dot, the whole
      name when there is no dot. */
  function Extension(name: string): (r: string)
    ensures |r| <= |name| && name[|name| - |r|..] == r && '.' !in r
    ensures |r| < |name| ==> name[|name| - |r| - 1] == '.'
    ensures '.' !in name ==> r == name
  {
    SplitLast(name, '.');
    var parts := Split(name, '.');
    parts[|parts| - 1]
  }

  /** `fileExtension?.toLowerCase() === 'pdf'`. */
  predicate IsPdf(name: string)
  {
    Lower(Extension(name)) == "pdf"
  }

  /** The extension after a final `.ext` is `ext`. */
  lemma ExtensionOfDottedName(base: string, ext: string)
    requires '.' !in ext
    ensures Extension(base + "." + ext) == ext
  {
    var name := base + "." + ext;
    var r := Extension(name);
    assert name[|name| - |ext|..] == ext;
    assert name[|name| - |ext| - 1] == '.';
    assert r == name[|name| - |ext|..];
  }

  /** Text is extracted for any final extension that lowercases to `pdf`
      (`cv.PDF`, `cv.Pdf`, `my.cv.pdf`), and also for a name with no dot
      that lowercases to `pdf`. */
  lemma PdfCheckIgnoresCase(base: string, ext: string, bare: string)
    requires '.' !in ext && '.' !in bare
    ensures IsPdf(base + "." + ext) <==> Lower(ext) == "pdf"
    ensures IsPdf(bare) <==> Lower(bare) == "pdf"
  {
    ExtensionOfDottedName(base, ext);
  }

  /** `path.join(uploadsDir, `${Date.now()}-${originalFileName}.txt`)`. */
  function LocalTextPath(uploadsDir: string, stamp: int, base: string): string
  {
    uploadsDir + "/" + IntToString(stamp) + "-" + base + ".txt"
  }

  /** `result.format || file.type.split('/')[1] || 'pdf'`. */
  function FileType(format: Option<string>, mimeType: string): (r: string)
    ensures r != ""
    ensures format.Some? && format.value != "" ==> r == format.value
    ensures !(format.Some? && format.value != "") && |Split(mimeType, '/')| >= 2 && Split(mimeType, '/')[1] != "" ==> r == Split(mimeType, '/')[1]
    ensures !(format.Some? && format.value != "") && !(|Split(mimeType, '/')| >= 2 && Split(mimeType, '/')[1] != "") ==> r == "pdf"
  {
    var subtype := Split(mimeType, '/');
    if format.Some? && format.value != "" then format.value
    else if |subtype| >= 2 && subtype[1] != "" then subtype[1]
    else "pdf"
  }

  /** `uploadError.message || 'Failed to process file'`. */
  function ErrorMessage(message: Option<string>): (r: string)
    ensures r != ""
    ensures message.Some? && message.value != "" ==> r == message.value
    ensures !(message.Some? && message.value != "") ==> r == "Failed to process file"
  {
    if message.Some? && message.value != "" then message.value else "Failed to process file"
  }

  /** The owner is connected only for a non-empty user id. */
  function Owner(userId: Option<string>): (r: Option<string>)
    ensures r.Some? <==> userId.Some? && userId.value != ""
    ensures r.Some? ==> r == userId
  {
    if userId.Some? && userId.value != "" then userId else None
  }

  /** The outcome of the loop body for one entry. */
  function ProcessFile(v: FormValue, userId: Option<string>, uploadsDir: string): (r: FileResult)
    ensures r.Skipped? <==> !Processed(v)
    ensures r.Saved? <==>
      Processed(v) && !(IsPdf(v.file.name) && v.env.pdfStep.Threw?) && v.env.upload.Uploaded? && v.env.save.Done?
    ensures r.Saved? ==>
      && r.doc.id == v.env.documentId
      && r.doc.fileName == v.file.name
      && r.doc.filePath == v.env.upload.secureUrl
      && r.doc.fileSize == v.env.upload.bytes
      && r.doc.fileType == FileType(v.env.upload.format, v.file.mimeType)
      && r.doc.ownerId == Owner(userId)
      && (r.doc.localPath.Some? <==> IsPdf(v.file.name))
      && (r.doc.localPath.Some? ==> r.doc.localPath.value == LocalTextPath(uploadsDir, v.env.stamp, BaseName(v.file.name)))
    ensures r.Failed? ==> r.failure.fileName == v.file.name && r.failure.error != ""
    // the error is the message of the first step that failed
    ensures Processed(v) && IsPdf(v.file.name) && v.env.pdfStep.Threw? ==>
      r == Failed(UploadFailure(v.file.name, ErrorMessage(v.env.pdfStep.message)))
    ensures Processed(v) && !(IsPdf(v.file.name) && v.env.pdfStep.Threw?) && v.env.upload.UploadError? ==>
      r == Failed(UploadFailure(v.file.name, ErrorMessage(v.env.upload.message)))
    ensures Processed(v) && !(IsPdf(v.file.name) && v.env.pdfStep.Threw?) && v.env.upload.NoResult? ==>
      r == Failed(UploadFailure(v.file.name, "Cloudinary upload failed without error object."))
    ensures Processed(v) && !(IsPdf(v.file.name) && v.env.pdfStep.Threw?) && v.env.upload.Uploaded? && v.env.save.Threw? ==>
      r == Failed(UploadFailure(v.file.name, ErrorMessage(v.env.save.message)))
  {
    if !Processed(v) then Skipped
    else
      var f, env := v.file, v.env;
      var pdf := IsPdf(f.name);
      if pdf && env.pdfStep.Threw? then Failed(UploadFailure(f.name, ErrorMessage(env.pdfStep.message)))
      else
        var localPath := if pdf then Some(LocalTextPath(uploadsDir, env.stamp, BaseName(f.name))) else None;
        match env.upload
        case UploadError(m) => Failed(UploadFailure(f.name, ErrorMessage(m)))
        case NoResult => Failed(UploadFailure(f.name, ErrorMessage(Some("Cloudinary upload failed without error object."))))
        case Uploaded(url, bytes, format) =>
          if env.save.Threw? then Failed(UploadFailure(f.name, ErrorMessage(env.save.message)))
          else Saved(SavedDocument(env.documentId, f.name, url, bytes, FileType(format, f.mimeType), localPath, Owner(userId)))
  }

  // ---- aggregation ----

  function Outcomes(values: seq<FormValue>, userId: Option<string>, uploadsDir: string): (r: seq<FileResult>)
    ensures |r| == |values|
    ensures forall k :: 0 <= k < |values| ==> r[k] == ProcessFile(values[k], userId, uploadsDir)
  {
    seq(|values|, k requires 0 <= k < |values| => ProcessFile(values[k], userId, uploadsDir))
  }

  /** `uploadResults`: the saved documents, in input order. */
  function SavedDocs(rs: seq<FileResult>): seq<SavedDocument>
    decreases |rs|
  {
    if rs == [] then []
    else SavedDocs(rs[..|rs| - 1]) + (if rs[|rs| - 1].Saved? then [rs[|rs| - 1].doc] else [])
  }

  /** `uploadErrors`: the failures, in input order. */
  function Failures(rs: seq<FileResult>): seq<UploadFailure>
    decreases |rs|
  {
    if rs == [] then []
    else Failures(rs[..|rs| - 1]) + (if rs[|rs| - 1].Failed? then [rs[|rs| - 1].failure] else [])
  }

  predicate IsSkipped(r: FileResult)
  {
    r.Skipped?
  }

  /** Every entry but a skipped one lands in exactly one of the two lists. */
  lemma {:induction false} OutcomesPartition(rs: seq<FileResult>)
    ensures |SavedDocs(rs)| + |Failures(rs)| + Count(IsSkipped, rs) == |rs|
    decreases |rs|
  {
    if rs != [] {
      var init := rs[..|rs| - 1];
      OutcomesPartition(init);
      CountLast(IsSkipped, rs);
    }
  }

  lemma {:induction false} CountLast<T(!new)>(p: T -> bool, s: seq<T>)
    requires s != []
    ensures Count(p, s) == Count(p, s[..|s| - 1]) + (if p(s[|s| - 1]) then 1 else 0)
    decreases |s|
  {
    if |s| > 1 {
      CountLast(p, s[1..]);
      assert s[1..][..|s[1..]| - 1] == s[..|s| - 1][1..];
    }
  }

  /** Results and failures of earlier entries come first: the lists keep input order. */
  lemma {:induction false} AggregationAppends(a: seq<FileResult>, b: seq<FileResult>)
    ensures SavedDocs(a + b) == SavedDocs(a) + SavedDocs(b)
    ensures Failures(a + b) == Failures(a) + Failures(b)
    decreases |b|
  {
    if b == [] {
      assert a + b == a;
    } else {
      var b' := b[..|b| - 1];
      AggregationAppends(a, b');
      assert (a + b)[..|a + b| - 1] == a + b';
      assert (a + b)[|a + b| - 1] == b[|b| - 1];
    }
  }

  /** The skipped entries are exactly the ones the guard rejects. */
  lemma {:induction false} SkippedCount(values: seq<FormValue>, userId: Option<string>, uploadsDir: string)
    ensures Count(IsSkipped, Outcomes(values, userId, uploadsDir)) == |values| - Count(Processed, values)
    decreases |values|
  {
    if values != [] {
      SkippedCount(values[1..], userId, uploadsDir);
      assert Outcomes(values, userId, uploadsDir)[1..] == Outcomes(values[1..], userId, uploadsDir);
    }
  }

  /** The number of results plus errors is the number of processed files. */
  lemma ProcessedFilesAccounted(values: seq<FormValue>, userId: Option<string>, uploadsDir: string)
    ensures var rs := Outcomes(values, userId, uploadsDir);
      |SavedDocs(rs)| + |Failures(rs)| == Count(Processed, values)
  {
    var rs := Outcomes(values, userId, uploadsDir);
    OutcomesPartition(rs);
    SkippedCount(values, userId, uploadsDir);
  }

  // ---- responses ----

  datatype PostResponse =
    | NoFiles                                                        // 400
    | AllFailed(details: seq<UploadFailure>)                         // 500
    | Accepted(data: seq<SavedDocument>, errors: seq<UploadFailure>)  // 207 with errors, 200 without
    | HandlerError                                                   // 500: the form could not be read

  function PostStatus(r: PostResponse): (code: int)
    ensures code in {200, 207, 400, 500}
    ensures code == 400 <==> r.NoFiles?
    ensures r.HandlerError? || r.AllFailed? ==> code == 500
    ensures r.Accepted? ==> (code == 207 <==> |r.errors| > 0) && (code == 200 <==> |r.errors| == 0)
  {
    match r
    case NoFiles => 400
    case AllFailed(_) => 500
    case Accepted(_, errors) => if |errors| > 0 then 207 else 200
    case HandlerError => 500
  }

  /** The final choice from the two lists. */
  function Respond(results: seq<SavedDocument>, errors: seq<UploadFailure>): (r: PostResponse)
    ensures |errors| > 0 && |results| == 0 <==> PostStatus(r) == 500
    ensures |errors| > 0 && |results| > 0 <==> PostStatus(r) == 207
    ensures |errors| == 0 <==> PostStatus(r) == 200
    ensures r.Accepted? ==> r.data == results && r.errors == errors
  {
    if |errors| > 0 && |results| == 0 then AllFailed(errors) else Accepted(results, errors)
  }

  /** The whole POST; `form` is `None` when `req.formData()` throws. */
  function PostSpec(form: Option<seq<FormValue>>, userId: Option<string>, uploadsDir: string): PostResponse
  {
    if form.None? then HandlerError
    else if form.value == [] then NoFiles
    else
      var rs := Outcomes(form.value, userId, uploadsDir);
      Respond(SavedDocs(rs), Failures(rs))
  }

  /** A form that cannot be read answers 500, and a form without entries 400. */
  lemma PostGuards(userId: Option<string>, uploadsDir: string)
    ensures PostSpec(None, userId, uploadsDir) == HandlerError && PostStatus(HandlerError) == 500
    ensures PostSpec(Some([]), userId, uploadsDir) == NoFiles && PostStatus(NoFiles) == 400
  {
  }

  /** A form whose files are all skipped answers 200 with no data. */
  lemma AllSkippedIsSuccess(values: seq<FormValue>, userId: Option<string>, uploadsDir: string)
    requires values != []
    requires forall k :: 0 <= k < |values| ==> !Processed(values[k])
    ensures PostSpec(Some(values), userId, uploadsDir) == Accepted([], [])
    ensures PostStatus(Accepted([], [])) == 200
  {
    var rs := Outcomes(values, userId, uploadsDir);
    NothingProcessed(rs);
  }

  lemma {:induction false} NothingProcessed(rs: seq<FileResult>)
    requires forall k :: 0 <= k < |rs| ==> rs[k].Skipped?
    ensures SavedDocs(rs) == [] && Failures(rs) == []
    decreases |rs|
  {
    if rs != [] {
      NothingProcessed(rs[..|rs| - 1]);
    }
  }

  /** The loop body for one entry: the guard, the name split, the PDF step
      that sets `localTxtPath`, the upload and the insert. */
  method ProcessOne(v: FormValue, userId: Option<string>, uploadsDir: string) returns (outcome: FileResult)
    ensures outcome == ProcessFile(v, userId, uploadsDir)
  {
    outcome := Skipped;
    if v.FileField? && v.file.name != "" && v.file.size > 0 {
      var file, env := v.file, v.env;
      var originalFileName := BaseName(file.name);
      var fileExtension := Extension(file.name);
      var localTxtPath: Option<string> := None;
      var failed := false;
      if Lower(fileExtension) == "pdf" {
        if env.pdfStep.Threw? {
          outcome := Failed(UploadFailure(file.name, ErrorMessage(env.pdfStep.message)));
          failed := true;
        } else {
          localTxtPath := Some(LocalTextPath(uploadsDir, env.stamp, originalFileName));
        }
      }
      if !failed {
        match env.upload {
          case UploadError(m) =>
            outcome := Failed(UploadFailure(file.name, ErrorMessage(m)));
          case NoResult =>
            outcome := Failed(UploadFailure(file.name, ErrorMessage(Some("Cloudinary upload failed without error object."))));
          case Uploaded(url, bytes, format) =>
            if env.save.Threw? {
              outcome := Failed(UploadFailure(file.name, ErrorMessage(env.save.message)));
            } else {
              outcome := Saved(SavedDocument(env.documentId, file.name, url, bytes, FileType(format, file.mimeType), localTxtPath, Owner(userId)));
            }
        }
      }
    }
  }

  /** One more entry adds its own outcome at the end of the lists. */
  lemma OutcomesStep(files: seq<FormValue>, i: int, userId: Option<string>, uploadsDir: string)
    requires 0 <= i < |files|
    ensures var rs, r := Outcomes(files[..i], userId, uploadsDir), ProcessFile(files[i], userId, uploadsDir);
      && SavedDocs(Outcomes(files[..i + 1], userId, uploadsDir)) == SavedDocs(rs) + (if r.Saved? then [r.doc] else [])
      && Failures(Outcomes(files[..i + 1], userId, uploadsDir)) == Failures(rs) + (if r.Failed? then [r.failure] else [])
  {
    var rs' := Outcomes(files[..i + 1], userId, uploadsDir);
    assert rs'[..i] == Outcomes(files[..i], userId, uploadsDir);
  }

  /** The POST handler: a loop over the entries pushing into the two lists. */
  method Post(form: Option<seq<FormValue>>, userId: Option<string>, uploadsDir: string) returns (response: PostResponse)
    ensures response == PostSpec(form, userId, uploadsDir)
  {
    if form.None? {
      return HandlerError;
    }
    var files := form.value;
    if |files| == 0 {
      return NoFiles;
    }
    var uploadResults: seq<SavedDocument> := [];
    var uploadErrors: seq<UploadFailure> := [];
    var i := 0;
    while i < |files|
      invariant 0 <= i <= |files|
      invariant uploadResults == SavedDocs(Outcomes(files[..i], userId, uploadsDir))
      invariant uploadErrors == Failures(Outcomes(files[..i], userId, uploadsDir))
    {
      var v := files[i];
      var outcome := ProcessOne(v, userId, uploadsDir);
      if outcome.Saved? {
        uploadResults := uploadResults + [outcome.doc];
      } else if outcome.Failed? {
        uploadErrors := uploadErrors + [outcome.failure];
      }
      OutcomesStep(files, i, userId, uploadsDir);
      i := i + 1;
    }
    assert files[..|files|] == files;
    return Respond(uploadResults, uploadErrors);
  }

  // ---- GET ----

  datatype StoredDocument = StoredDocument(id: int, ownerId: Option<string>)

  /** A chat with the user of its context and the documents of that context. */
  datatype Chat = Chat(difyConversationId: string, contextUserId: string, documents: seq<StoredDocument>)

  datatype GetResponse =
    | Unauthorized          // 401
    | MissingConversation   // 400
    | ChatNotFound          // 404
    | Documents(data: seq<StoredDocument>)   // 200
    | QueryFailed           // 500

  function GetStatus(r: GetResponse): int
  {
    match r
    case Unauthorized => 401
    case MissingConversation => 400
    case ChatNotFound => 404
    case Documents(_) => 200
    case QueryFailed => 500
  }

  /** `findFirst` over the chats: a chat of that conversation whose context
      belongs to the user (the query has no `orderBy`, so which one is not
      promised; the model takes the first in table order). */
  function FindChat(chats: seq<Chat>, conversationId: string, userId: string): (r: Option<Chat>)
    ensures r.Some? ==> r.value in chats && r.value.difyConversationId == conversationId && r.value.contextUserId == userId
    ensures r.None? <==> forall k :: 0 <= k < |chats| ==> !(chats[k].difyConversationId == conversationId && chats[k].contextUserId == userId)
    decreases |chats|
  {
    if chats == [] then None
    else if chats[0].difyConversationId == conversationId && chats[0].contextUserId == userId then Some(chats[0])
    else
      var r := FindChat(chats[1..], conversationId, userId);
      assert forall k :: 1 <= k < |chats| ==> chats[k] == chats[1..][k - 1];
      r
  }

  /** Passed to `Filter` as `OwnedBy(userId)`, the `where` on the documents of the chat's context. */
  function OwnedBy(userId: string): StoredDocument -> bool
  {
    (d: StoredDocument) => d.ownerId == Some(userId)
  }

  /** `GET`: `user` is the session's user id, `conversationId` the query
      parameter, `chats` the table (`None` when the query throws). */
  function GetSpec(user: Option<string>, conversationId: Option<string>, chats: Option<seq<Chat>>): (r: GetResponse)
    ensures (user.None? || user.value == "") <==> r == Unauthorized
    ensures user.Some? && user.value != "" && (conversationId.None? || conversationId.value == "") ==> r == MissingConversation
    ensures r.Documents? ==>
      chats.Some? && exists c :: c in chats.value && c.contextUserId == user.value && c.difyConversationId == conversationId.value && IsSubsequence(r.data, c.documents)
    ensures r.Documents? ==> forall d :: d in r.data ==> d.ownerId == user
    ensures user.Some? && user.value != "" && conversationId.Some? && conversationId.value != "" ==>
      && (chats.None? <==> r == QueryFailed)
      && (chats.Some? && FindChat(chats.value, conversationId.value, user.value).Some? ==>
            var c := FindChat(chats.value, conversationId.value, user.value).value;
            && r.Documents?
            && (forall d :: d in c.documents && d.ownerId == user ==> d in r.data)
            && r.data == Filter(OwnedBy(user.value), c.documents))
  {
    if user.None? || user.value == "" then Unauthorized
    else if conversationId.None? || conversationId.value == "" then MissingConversation
    else if chats.None? then QueryFailed
    else
      var c := FindChat(chats.value, conversationId.value, user.value);
      if c.None? then ChatNotFound
      else
        FilterIsSubsequence(OwnedBy(user.value), c.value.documents);
        Documents(Filter(OwnedBy(user.value), c.value.documents))
  }

  /** 404 exactly when no chat of the conversation belongs to the user. */
  lemma GetNotFound(user: string, conversationId: string, chats: seq<Chat>)
    requires user != "" && conversationId != ""
    ensures GetSpec(Some(user), Some(conversationId), Some(chats)) == ChatNotFound <==>
      forall k :: 0 <= k < |chats| ==> !(chats[k].difyConversationId == conversationId && chats[k].contextUserId == user)
  {
  }
}

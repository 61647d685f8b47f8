/** The four multipart upload routes: `/rewrite_resume`,
    `/upload_resume_for_ats`, `/upload_resume_for_cover_letter` and
    `/upload_resume_for_skill_gap`. Each screens the request, stores the PDF
    in the upload folder, extracts its text and removes the file again. */
module Uploads {
  import opened Wrappers
  import opened Text
  import opened Web
  import opened PdfText
  import opened Prompts

  /** A file part of a multipart request: the name the browser sent and the contents. */
  datatype FilePart = FilePart(filename: string, document: Pdf)

  /** `request.files` and `request.form`. */
  datatype Form = Form(files: map<string, FilePart>, fields: map<string, string>)

  /** The route a request came in on. */
  datatype Route = RewriteRoute | AtsRoute | CoverLetterRoute | SkillGapRoute

  /** One change made to the upload folder. */
  datatype FileOp = Saved(path: string) | Removed(path: string)

  /** The upload folder: the stored files by path, and the history of saves
      and removals made to it. */
  class UploadFolder {
    var files: map<string, Pdf>
    ghost var log: seq<FileOp>

    constructor ()
      ensures files == map[] && log == []
    {
      files := map[];
      log := [];
    }

    /** `resume_file.save(path)`: stores the document, replacing any file already there. */
    method Save(path: string, document: Pdf)
      modifies this
      ensures files == old(files)[path := document]
      ensures log == old(log) + [Saved(path)]
    {
      files := files[path := document];
      log := log + [Saved(path)];
    }

    /** `os.remove(path)` on a file that exists. */
    method Remove(path: string)
      requires path in files
      modifies this
      ensures files == old(files) - {path}
      ensures log == old(log) + [Removed(path)]
    {
      files := files - {path};
      log := log + [Removed(path)];
    }

    /** What the PDF reader finds at `path`: an absent file cannot be opened. */
    function Read(path: string): Pdf
      reads this
    {
      if path in files then files[path] else Unreadable
    }
  }

  const MissingFileOrJobDescription := "Missing file or job description"
  const NoFileUploaded := "No file uploaded"
  const NoSelectedFile := "No selected file"
  const UnsupportedFileType := "Unsupported file type. Please upload a PDF file."
  const ExtractionFailed := "Could not extract text from PDF. The file might be corrupted or image-only."

  /** The request carries the parts the route looks up first. */
  predicate HasParts(route: Route, form: Form) {
    "resume" in form.files && (route.RewriteRoute? ==> "job_description" in form.fields)
  }

  /** The checks made before anything is stored, in the order the upload routes make them: the
      parts are present, a file was selected, and its name ends in `.pdf`. */
  function Screen(route: Route, form: Form): (r: Result<FilePart, Response>)
    ensures r.Ok? <==> HasParts(route, form) && form.files["resume"].filename != []
                       && EndsWith(form.files["resume"].filename, ".pdf")
    ensures r.Ok? ==> r.value == form.files["resume"]
    ensures r.Err? ==> StatusOf(r.error) == 400 && IsErrorResponse(r.error)
  {
    if !HasParts(route, form) then
      Err(ErrorResponse(400, if route.RewriteRoute? then MissingFileOrJobDescription else NoFileUploaded))
    else if form.files["resume"].filename == [] then
      Err(ErrorResponse(400, NoSelectedFile))
    else if !EndsWith(form.files["resume"].filename, ".pdf") then
      Err(ErrorResponse(400, UnsupportedFileType))
    else
      Ok(form.files["resume"])
  }

  /** `not resume_text`: nothing could be extracted. */
  predicate NoText(text: Option<string>) {
    text == None || text == Some([])
  }

  /** The key under which a text-only upload route returns the extracted text. */
  function TextKey(route: Route): string {
    if route.AtsRoute? then "original_resume" else "resume_text"
  }

  /** What `rewrite_resume` answers, and the model call it makes. */
  function RewriteResumeExchange(form: Form, clientReady: bool, reply: TextReply): (ex: Exchange)
    ensures StatusOf(ex.response) == 400 <==> Screen(RewriteRoute, form).Err?
    ensures ex.call.Some? <==>
      Screen(RewriteRoute, form).Ok? && clientReady && !NoText(ExtractedText(form.files["resume"].document))
    ensures ex.call.Some? ==>
      ex.call == Some(RewriteCall(Prompt(RewriteInstruction,
                                         RewriteContent(form.fields["job_description"],
                                                        ExtractedText(form.files["resume"].document).value))))
    ensures Screen(RewriteRoute, form).Ok? && NoText(ExtractedText(form.files["resume"].document)) ==>
      ex == Exchange(ErrorResponse(500, ExtractionFailed), None)
    ensures Screen(RewriteRoute, form).Ok? && !NoText(ExtractedText(form.files["resume"].document)) && !clientReady ==>
      ex == Exchange(ErrorResponse(500, ClientNotInitialized), None)
    ensures ex.call.Some? && reply.Raised? ==> ex.response == ErrorResponse(500, ApiErrorPrefix + " " + reply.cause)
    ensures ex.call.Some? && reply == Generated(None) ==> ex.response == Uncaught(NoneStartsWith)
    ensures ex.call.Some? && reply.Generated? && reply.text.Some? && IsApiError(reply.text.value) ==>
      ex.response == ErrorResponse(500, reply.text.value)
    ensures ex.call.Some? && reply.Generated? && reply.text.Some? && !IsApiError(reply.text.value) ==>
      ex.response == Respond(200, JObj(map["rewritten_resume" := JStr(reply.text.value),
                                           "original_resume" := JStr(ExtractedText(form.files["resume"].document).value)]))
    ensures ex.response.Respond? ==> ex.response.status in {200, 400, 500}
    ensures ex.response.Respond? && ex.response.status != 200 ==> IsErrorResponse(ex.response)
  {
    match Screen(RewriteRoute, form)
    case Err(rejection) => Exchange(rejection, None)
    case Ok(part) =>
      var text := ExtractedText(part.document);
      if NoText(text) then Exchange(ErrorResponse(500, ExtractionFailed), None)
      else
        var jobDescription := form.fields["job_description"];
        var call := if clientReady
          then Some(RewriteCall(Prompt(RewriteInstruction, RewriteContent(jobDescription, text.value))))
          else None;
        match GeneratedText(clientReady, reply)
        case None => Exchange(Uncaught(NoneStartsWith), call)
        case Some(rewritten) =>
          if IsApiError(rewritten) then Exchange(ErrorResponse(500, rewritten), call)
          else Exchange(Respond(200, JObj(map["rewritten_resume" := JStr(rewritten),
                                              "original_resume" := JStr(text.value)])), call)
  }

  /** What one of the three text-only upload routes answers. */
  function UploadResumeResponse(route: Route, form: Form): (r: Response)
    requires !route.RewriteRoute?
    ensures StatusOf(r) == 400 <==> Screen(route, form).Err?
    ensures r.Respond? && r.status == 200 <==>
      Screen(route, form).Ok? && !NoText(ExtractedText(form.files["resume"].document))
    ensures r.Respond? && r.status == 200 ==>
      r.body == JObj(map[TextKey(route) := JStr(ExtractedText(form.files["resume"].document).value)])
    ensures r.Respond? && r.status != 200 ==> IsErrorResponse(r)
    ensures Screen(route, form).Ok? && NoText(ExtractedText(form.files["resume"].document)) ==>
      r == ErrorResponse(500, ExtractionFailed)
  {
    match Screen(route, form)
    case Err(rejection) => rejection
    case Ok(part) =>
      var text := ExtractedText(part.document);
      if NoText(text) then ErrorResponse(500, ExtractionFailed)
      else Respond(200, JObj(map[TextKey(route) := JStr(text.value)]))
  }

  /** The folder after a request: when the upload passed screening, the file
      stored at its path is gone and nothing else changed; otherwise nothing changed. */
  predicate CleanedUp(route: Route, form: Form, storagePath: string -> string,
                      before: map<string, Pdf>, after: map<string, Pdf>,
                      logBefore: seq<FileOp>, logAfter: seq<FileOp>)
  {
    if Screen(route, form).Ok? then
      var path := storagePath(form.files["resume"].filename);
      after == before - {path} && logAfter == logBefore + [Saved(path), Removed(path)]
    else
      after == before && logAfter == logBefore
  }

  /** `rewrite_resume`. `storagePath` stands for `secure_filename` followed by
      `os.path.join` with the upload folder. */
  method RewriteResume(folder: UploadFolder, form: Form, storagePath: string -> string,
                       clientReady: bool, reply: TextReply) returns (ex: Exchange)
    modifies folder
    ensures ex == RewriteResumeExchange(form, clientReady, reply)
    ensures CleanedUp(RewriteRoute, form, storagePath, old(folder.files), folder.files, old(folder.log), folder.log)
  {
    if "resume" !in form.files || "job_description" !in form.fields {
      return Exchange(ErrorResponse(400, MissingFileOrJobDescription), None);
    }
    var jobDescription := form.fields["job_description"];
    var resumeFile := form.files["resume"];
    if resumeFile.filename == [] {
      return Exchange(ErrorResponse(400, NoSelectedFile), None);
    }
    if EndsWith(resumeFile.filename, ".pdf") {
      var path := storagePath(resumeFile.filename);
      folder.Save(path, resumeFile.document);
      var resumeText := PdfToText(folder.Read(path));
      if NoText(resumeText) {
        folder.Remove(path);
        assert folder.files == old(folder.files) - {path};
        return Exchange(ErrorResponse(500, ExtractionFailed), None);
      }
      var call := if clientReady
        then Some(RewriteCall(Prompt(RewriteInstruction, RewriteContent(jobDescription, resumeText.value))))
        else None;
      var rewritten := GeneratedText(clientReady, reply);
      folder.Remove(path);
      assert folder.files == old(folder.files) - {path};
      if rewritten.None? {
        return Exchange(Uncaught(NoneStartsWith), call);
      }
      if IsApiError(rewritten.value) {
        return Exchange(ErrorResponse(500, rewritten.value), call);
      }
      return Exchange(Respond(200, JObj(map["rewritten_resume" := JStr(rewritten.value),
                                            "original_resume" := JStr(resumeText.value)])), call);
    }
    return Exchange(ErrorResponse(400, UnsupportedFileType), None);
  }

  /** `upload_resume_for_ats`, `upload_resume_for_cover_letter` and
      `upload_resume_for_skill_gap`, which differ only in the key of their
      success payload. */
  method UploadResume(folder: UploadFolder, route: Route, form: Form, storagePath: string -> string)
    returns (r: Response)
    requires !route.RewriteRoute?
    modifies folder
    ensures r == UploadResumeResponse(route, form)
    ensures CleanedUp(route, form, storagePath, old(folder.files), folder.files, old(folder.log), folder.log)
  {
    if "resume" !in form.files {
      return ErrorResponse(400, NoFileUploaded);
    }
    var resumeFile := form.files["resume"];
    if resumeFile.filename == [] {
      return ErrorResponse(400, NoSelectedFile);
    }
    if EndsWith(resumeFile.filename, ".pdf") {
      var path := storagePath(resumeFile.filename);
      folder.Save(path, resumeFile.document);
      var resumeText := PdfToText(folder.Read(path));
      if NoText(resumeText) {
        folder.Remove(path);
        assert folder.files == old(folder.files) - {path};
        return ErrorResponse(500, ExtractionFailed);
      }
      folder.Remove(path);
      assert folder.files == old(folder.files) - {path};
      return Respond(200, JObj(map[TextKey(route) := JStr(resumeText.value)]));
    }
    return ErrorResponse(400, UnsupportedFileType);
  }

  /** The saved file never outlives the request: its path is absent afterwards,
      whatever was stored there before, and every other path keeps its file. */
  lemma CleanupRemovesOnlyTheUpload(route: Route, form: Form, storagePath: string -> string,
                                    before: map<string, Pdf>, after: map<string, Pdf>,
                                    logBefore: seq<FileOp>, logAfter: seq<FileOp>)
    requires CleanedUp(route, form, storagePath, before, after, logBefore, logAfter)
    ensures Screen(route, form).Ok? ==> storagePath(form.files["resume"].filename) !in after
    ensures forall p :: p in after ==> p in before && after[p] == before[p]
    ensures forall p :: p in before && !(Screen(route, form).Ok? && p == storagePath(form.files["resume"].filename))
                        ==> p in after
    ensures |logAfter| == |logBefore| || |logAfter| == |logBefore| + 2
  {
  }

  /** The rejections come in the order `rewrite_resume` checks them, none of them depends on the
      file's contents, the client or the model's reply, and none calls the model. */
  lemma RewriteRejectionOrder(form: Form, clientReady: bool, reply: TextReply)
    ensures var ex := RewriteResumeExchange(form, clientReady, reply);
      if !HasParts(RewriteRoute, form) then ex == Exchange(ErrorResponse(400, MissingFileOrJobDescription), None)
      else if form.files["resume"].filename == [] then ex == Exchange(ErrorResponse(400, NoSelectedFile), None)
      else if !EndsWith(form.files["resume"].filename, ".pdf") then ex == Exchange(ErrorResponse(400, UnsupportedFileType), None)
      else StatusOf(ex.response) != 400
  {
  }

  /** The text-only routes reject in the same order, with their own message
      for a missing file part, whatever the file holds. */
  lemma UploadRejectionOrder(route: Route, form: Form)
    requires !route.RewriteRoute?
    ensures var r := UploadResumeResponse(route, form);
      if "resume" !in form.files then r == ErrorResponse(400, NoFileUploaded)
      else if form.files["resume"].filename == [] then r == ErrorResponse(400, NoSelectedFile)
      else if !EndsWith(form.files["resume"].filename, ".pdf") then r == ErrorResponse(400, UnsupportedFileType)
      else StatusOf(r) != 400
  {
  }

  /** A screened upload whose PDF gives no text (unreadable, a page that
      raises, or only empty pages) is a server error and never reaches the model. */
  lemma RewriteEmptyExtraction(form: Form, clientReady: bool, reply: TextReply)
    requires Screen(RewriteRoute, form).Ok?
    requires NoText(ExtractedText(form.files["resume"].document))
    ensures RewriteResumeExchange(form, clientReady, reply) == Exchange(ErrorResponse(500, ExtractionFailed), None)
  {
  }

  /** An image-only document: every page extracts empty or `None`. */
  lemma ImageOnlyRejected(route: Route, form: Form)
    requires !route.RewriteRoute? && Screen(route, form).Ok?
    requires form.files["resume"].document.Pages?
    requires forall k :: 0 <= k < |form.files["resume"].document.pages| ==>
               form.files["resume"].document.pages[k] in {Extracts(None), Extracts(Some([]))}
    ensures UploadResumeResponse(route, form) == ErrorResponse(500, ExtractionFailed)
  {
    var pages := form.files["resume"].document.pages;
    ConcatEmptyIff(pages);
  }

  /** The success payload: the generated text unless it carries the error
      prefix, with the extracted text beside it. */
  lemma RewriteSuccess(form: Form, reply: TextReply)
    requires Screen(RewriteRoute, form).Ok?
    requires !NoText(ExtractedText(form.files["resume"].document))
    ensures var ex := RewriteResumeExchange(form, true, reply);
      StatusOf(ex.response) == 200 <==> reply.Generated? && reply.text.Some? && !IsApiError(reply.text.value)
    ensures var ex := RewriteResumeExchange(form, true, reply);
      StatusOf(ex.response) == 200 ==>
        ex.response.body.fields["rewritten_resume"] == JStr(reply.text.value)
        && ex.response.body.fields["original_resume"] == JStr(ExtractedText(form.files["resume"].document).value)
    ensures var ex := RewriteResumeExchange(form, true, reply);
      StatusOf(ex.response) == 200 ==> ex.response.body.fields.Keys == {"rewritten_resume", "original_resume"}
  {
  }

  /** The job description is only required to be present: an empty one still
      reaches the model. */
  lemma RewriteAcceptsEmptyJobDescription(form: Form, reply: TextReply)
    requires Screen(RewriteRoute, form).Ok? && form.fields["job_description"] == []
    requires !NoText(ExtractedText(form.files["resume"].document))
    ensures RewriteResumeExchange(form, true, reply).call.Some?
  {
  }

  /** The extension test is case-sensitive: `CV.PDF` is refused. */
  lemma UpperCaseExtensionRefused(route: Route, document: Pdf)
    ensures Screen(route, Form(map["resume" := FilePart("CV.PDF", document)], map["job_description" := "x"]))
            == Err(ErrorResponse(400, UnsupportedFileType))
  {
    assert !EndsWith("CV.PDF", ".pdf") by { assert "CV.PDF"[2..] != ".pdf"; }
  }
}

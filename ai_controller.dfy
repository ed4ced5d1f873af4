/**
 * The six handlers of server/controllers/aiController.js as step-by-step
 * methods over the state they change: the creations table, the per-user
 * `free_usage` metadata, the uploaded temporary file, the log of outside
 * calls and the response. Each early `return res.json(...)` is an early
 * return, each `await` that throws jumps to the handler's catch block, and
 * each method is proved to leave the state its `AiPipeline` step describes.
 */
module AiController {
  import opened Outcomes
  import opened AiPipeline

  class Controller {
    var creations: seq<Creation>
    var usage: map<string, int>
    var tempFileExists: bool
    var calls: seq<ServiceCall>
    var response: Option<Response>

    ghost function State(): ServerState
      reads this
    {
      ServerState(creations, usage, tempFileExists, calls, response)
    }

    constructor (creations: seq<Creation>, usage: map<string, int>, tempFileExists: bool)
      ensures State() == ServerState(creations, usage, tempFileExists, [], None)
    {
      this.creations := creations;
      this.usage := usage;
      this.tempFileExists := tempFileExists;
      this.calls := [];
      this.response := None;
    }

    /** `res.json({ success: false, message })`, as the gates and catch blocks send it. */
    method Fail(message: string)
      modifies this
      ensures State() == Caught(old(State()), message)
    {
      response := Some(Json(false, Message(message)));
    }

    /** The insert: log it, and append the row once it has returned. */
    method InsertRow(row: Creation, svc: Services) returns (outcome: Outcome<()>)
      modifies this
      ensures outcome == svc.insert(row)
      ensures calls == old(calls) + [Insert(row)]
      ensures creations == (if outcome.Returns? then old(creations) + [row] else old(creations))
      ensures usage == old(usage) && tempFileExists == old(tempFileExists) && response == old(response)
    {
      calls := calls + [Insert(row)];
      outcome := svc.insert(row);
      if outcome.Returns? {
        creations := creations + [row];
      }
    }

    /** `generateArticle`: a completion of `prompt` limited to the requested `length`. */
    method GenerateArticle(ctx: RequestContext, prompt: string, length: int, svc: Services)
      modifies this
      ensures State() == QuotaGatedStep(old(State()), Article, ctx, prompt, length, svc)
    {
      QuotaGated(Article, ctx, prompt, length, svc);
    }

    /** `generateBlogTitle`: a completion of `prompt` limited to 100 tokens. */
    method GenerateBlogTitle(ctx: RequestContext, prompt: string, svc: Services)
      modifies this
      ensures State() == QuotaGatedStep(old(State()), BlogTitle, ctx, prompt, BLOG_TITLE_MAX_TOKENS, svc)
    {
      QuotaGated(BlogTitle, ctx, prompt, BLOG_TITLE_MAX_TOKENS, svc);
    }

    /** The body the article and blog-title handlers share. */
    method QuotaGated(c: Capability, ctx: RequestContext, prompt: string, maxTokens: int, svc: Services)
      requires c.QuotaGated()
      modifies this
      ensures State() == QuotaGatedStep(old(State()), c, ctx, prompt, maxTokens, svc)
    {
      if ctx.plan != PREMIUM_PLAN && ctx.freeUsage >= FREE_LIMIT {
        Fail(c.DenialMessage());
        return;
      }
      var request := ChatRequest(CHAT_MODEL, prompt, TEMPERATURE, maxTokens);
      calls := calls + [ChatCompletion(request)];
      var reply := svc.chat(request);
      if reply.Throws? {
        Fail(reply.message);
        return;
      }
      var content := reply.value;
      var inserted := InsertRow(GeneratedRow(c, ctx, prompt, content), svc);
      if inserted.Throws? {
        Fail(inserted.message);
        return;
      }
      if ctx.plan != PREMIUM_PLAN {
        calls := calls + [UsageUpdate(ctx.userId, ctx.freeUsage + 1)];
        var updated := svc.updateUsage(ctx.userId, ctx.freeUsage + 1);
        if updated.Throws? {
          Fail(updated.message);
          return;
        }
        usage := usage[ctx.userId := ctx.freeUsage + 1];
      }
      response := Some(Json(true, Content(content)));
    }

    /** `generateImage`: premium-only; the happy path answers `success: false` with the URL. */
    method GenerateImage(ctx: RequestContext, prompt: string, publish: Option<bool>, svc: Services)
      modifies this
      ensures State() == GenerateImageStep(old(State()), ctx, prompt, publish, svc)
    {
      if ctx.plan != PREMIUM_PLAN {
        Fail(IMAGE_PREMIUM_MESSAGE);
        return;
      }
      calls := calls + [TextToImage(prompt)];
      var generated := svc.textToImage(prompt);
      if generated.Throws? {
        Fail(generated.message);
        return;
      }
      var upload := UploadRequest(PngDataUri(generated.value), Untransformed);
      calls := calls + [MediaUpload(upload)];
      var uploaded := svc.upload(upload);
      if uploaded.Throws? {
        Fail(uploaded.message);
        return;
      }
      var secureUrl := uploaded.value.secureUrl;
      var inserted := InsertRow(Creation(ctx.userId, prompt, secureUrl, "image", publish.GetOr(false)), svc);
      if inserted.Throws? {
        Fail(inserted.message);
        return;
      }
      response := Some(Json(false, Content(secureUrl)));
    }

    /** `removeImageBackground`: premium-only; upload with the background-removal transformation. */
    method RemoveImageBackground(ctx: RequestContext, image: Option<UploadedFile>, svc: Services)
      modifies this
      ensures State() == RemoveBackgroundStep(old(State()), ctx, image, svc)
    {
      if ctx.plan != PREMIUM_PLAN {
        Fail(PREMIUM_ONLY_MESSAGE);
        return;
      }
      if image.None? {
        Fail(MISSING_IMAGE_MESSAGE);
        return;
      }
      var upload := UploadRequest(image.value.path, RemoveBackground);
      calls := calls + [MediaUpload(upload)];
      var uploaded := svc.upload(upload);
      if uploaded.Throws? {
        Fail(uploaded.message);
        return;
      }
      var secureUrl := uploaded.value.secureUrl;
      var inserted := InsertRow(Creation(ctx.userId, BACKGROUND_PROMPT, secureUrl, "image", false), svc);
      if inserted.Throws? {
        Fail(inserted.message);
        return;
      }
      response := Some(Json(true, Content(secureUrl)));
    }

    /** `removeImageObject`: premium-only; the object name is used exactly as received. */
    method RemoveImageObject(ctx: RequestContext, objectName: string, image: Option<UploadedFile>,
                             svc: Services)
      modifies this
      ensures State() == RemoveObjectStep(old(State()), ctx, objectName, image, svc)
    {
      if ctx.plan != PREMIUM_PLAN {
        Fail(PREMIUM_ONLY_MESSAGE);
        return;
      }
      if image.None? {
        Fail(MISSING_IMAGE_MESSAGE);
        return;
      }
      var upload := UploadRequest(image.value.path, Untransformed);
      calls := calls + [MediaUpload(upload)];
      var uploaded := svc.upload(upload);
      if uploaded.Throws? {
        Fail(uploaded.message);
        return;
      }
      var imageUrl := svc.deliveryUrl(uploaded.value.publicId, RemovalEffect(objectName));
      var inserted := InsertRow(Creation(ctx.userId, RemovalPrompt(objectName), imageUrl, "image", false), svc);
      if inserted.Throws? {
        Fail(inserted.message);
        return;
      }
      response := Some(Json(true, Content(imageUrl)));
    }

    /** The catch block of `resumeReview`: best-effort deletion of the file, then status 500. */
    method ResumeFail(file: UploadedFile, message: string, svc: Services)
      modifies this
      ensures State() == ResumeCaught(old(State()), file, message, svc)
    {
      // unlinkSync throws ENOENT on a missing file, and any throw is swallowed
      if file.path != "" && tempFileExists {
        var removed := svc.unlink(file.path);
        if removed.Returns? {
          tempFileExists := false;
        }
      }
      response := Some(Response(500, false, Message(message)));
    }

    /** `resumeReview`: premium-only; three file checks, then `ResumeProcess`. */
    method ResumeReview(ctx: RequestContext, file: Option<UploadedFile>, svc: Services)
      modifies this
      ensures State() == ResumeReviewStep(old(State()), ctx, file, svc)
    {
      if ctx.plan != PREMIUM_PLAN {
        Fail(PREMIUM_ONLY_MESSAGE);
        return;
      }
      if file.None? {
        Fail(NO_RESUME_MESSAGE);
        return;
      }
      var resumeFile := file.value;
      if resumeFile.size > MAX_RESUME_BYTES {
        Fail(RESUME_SIZE_MESSAGE);
        return;
      }
      if !JsStrings.Includes(resumeFile.mimetype, "pdf") {
        Fail(NOT_PDF_MESSAGE);
        return;
      }
      ResumeProcess(ctx, resumeFile, svc);
    }

    /** The rest of `resumeReview`'s try block: read, review, store, delete. */
    method ResumeProcess(ctx: RequestContext, resumeFile: UploadedFile, svc: Services)
      modifies this
      ensures State() == ResumeProcessStep(old(State()), ctx, resumeFile, svc)
    {
      // readFileSync throws ENOENT when there is no file at the path
      if resumeFile.path == "" || !tempFileExists {
        ResumeFail(resumeFile, NoSuchFile("open", resumeFile.path), svc);
        return;
      }
      calls := calls + [PdfParse(resumeFile.path)];
      var parsed := svc.parsePdf(resumeFile.path);
      if parsed.Throws? {
        ResumeFail(resumeFile, parsed.message, svc);
        return;
      }
      var request := ReviewRequest(parsed.value);
      calls := calls + [ChatCompletion(request)];
      var reply := svc.chat(request);
      if reply.Throws? {
        ResumeFail(resumeFile, reply.message, svc);
        return;
      }
      var content := reply.value;
      var inserted := InsertRow(ReviewRow(ctx, content), svc);
      if inserted.Throws? {
        ResumeFail(resumeFile, inserted.message, svc);
        return;
      }
      // the file just read is still there
      var removed := svc.unlink(resumeFile.path);
      if removed.Throws? {
        ResumeFail(resumeFile, removed.message, svc);
        return;
      }
      tempFileExists := false;
      response := Some(Json(true, Content(content)));
    }
  }
}

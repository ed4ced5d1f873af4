/**
 * The usage-gated AI request pipeline of server/controllers/aiController.js,
 * as pure functions. Each handler reads the request context (user id, plan,
 * free-usage counter), applies its gate, checks its input, calls outside
 * services in a fixed order, appends one creation row and, for the two
 * quota-gated capabilities, writes the counter back; the first call that
 * throws ends the request in the handler's catch block.
 *
 * A `ServerState` is what the handlers can change: the creations table, the
 * per-user `free_usage` metadata, whether the uploaded temporary file is on
 * disk, the log of calls made to outside services, and the response sent.
 * Every `*Step` function gives the state after one request.
 */
module AiPipeline {
  import opened Outcomes
  import opened JsStrings

  const PREMIUM_PLAN := "premium"
  /** A non-premium user may make this many quota-gated generations. */
  const FREE_LIMIT := 10
  /** The largest resume accepted, in bytes (5 MB; exactly 5 MB passes). */
  const MAX_RESUME_BYTES := 5 * 1024 * 1024
  const CHAT_MODEL := "gemini-2.0-flash"
  const TEMPERATURE: real := 0.7
  const BLOG_TITLE_MAX_TOKENS := 100
  const RESUME_MAX_TOKENS := 1000

  const ARTICLE_LIMIT_MESSAGE := "Limit reached. Update to continue."
  const BLOG_TITLE_LIMIT_MESSAGE := "Limit reached. Upgrade to continue."
  const IMAGE_PREMIUM_MESSAGE := "This feature is only available for premium subscriptions."
  const PREMIUM_ONLY_MESSAGE := "This feature is only available for premium subscriptions"
  const NO_RESUME_MESSAGE := "No resume file uploaded."
  const RESUME_SIZE_MESSAGE := "Resume file size exceeds allowed size (5MB)."
  const NOT_PDF_MESSAGE := "Please upload a PDF file."
  /** What `image.path` throws when no image was uploaded. */
  const MISSING_IMAGE_MESSAGE := "Cannot read properties of undefined (reading 'path')"

  const BACKGROUND_PROMPT := "Remove background from image"
  const RESUME_PROMPT_LABEL := "Review uploaded resume"
  const RESUME_PROMPT_HEAD := "\nReview the following resume and provide constructive feedback focusing on:\n1. Formatting and structure\n2. Content clarity and impact\n3. Grammar and spelling\n4. Overall effectiveness\n\nResume Content:\n"
  const RESUME_PROMPT_TAIL := "\n        "

  /** The six AI capabilities, one per handler. */
  datatype Capability =
    | Article | BlogTitle | ImageGeneration | BackgroundRemoval | ObjectRemoval | ResumeReview
  {
    /** Article and blog-title generation are limited by the free-usage counter; the rest are premium-only. */
    predicate QuotaGated() {
      this == Article || this == BlogTitle
    }

    /** The `type` column written for this capability's creations. */
    function Kind(): string {
      match this
      case Article => "article"
      case BlogTitle => "blog-title"
      case ResumeReview => "resume-review"
      case _ => "image"
    }

    /** The message of the gate's denial. */
    function DenialMessage(): string {
      match this
      case Article => ARTICLE_LIMIT_MESSAGE
      case BlogTitle => BLOG_TITLE_LIMIT_MESSAGE
      case ImageGeneration => IMAGE_PREMIUM_MESSAGE
      case _ => PREMIUM_ONLY_MESSAGE
    }
  }

  /** `req.auth().userId`, `req.plan` and `req.free_usage`, as the upstream middleware attaches them. */
  datatype RequestContext = RequestContext(userId: string, plan: string, freeUsage: int)

  /** An uploaded file as the upload middleware describes it (`req.file`). */
  datatype UploadedFile = UploadedFile(path: string, size: int, mimetype: string)

  /** One row of the `creations` table. */
  datatype Creation = Creation(userId: string, prompt: string, content: string, kind: string, publish: bool)

  /** A chat-completion request with a single user message. */
  datatype ChatRequest = ChatRequest(model: string, content: string, temperature: real, maxTokens: int)

  /** The transformation asked of the media store on upload. */
  datatype Transformation = Untransformed | RemoveBackground

  datatype UploadRequest = UploadRequest(source: string, transformation: Transformation)

  /** What the media store returns for an upload. */
  datatype Asset = Asset(secureUrl: string, publicId: string)

  /** A call the handlers make to something outside the process. */
  datatype ServiceCall =
    | ChatCompletion(request: ChatRequest)
    | TextToImage(prompt: string)
    | MediaUpload(upload: UploadRequest)
    | PdfParse(path: string)
    | Insert(row: Creation)
    | UsageUpdate(userId: string, freeUsage: int)

  /**
   * The outside services, each as what it does with the request it is given:
   * the chat-completion API (yielding the first choice's text), the
   * text-to-image API (yielding the image already base64-encoded), the media
   * store's upload and its URL builder, the PDF reader (given the file's
   * path), the SQL insert, the identity provider's metadata update, and
   * `fs.unlinkSync` applied to a file that exists (it may still fail, say
   * with EPERM).
   */
  datatype Services = Services(
    chat: ChatRequest -> Outcome<string>,
    textToImage: string -> Outcome<string>,
    upload: UploadRequest -> Outcome<Asset>,
    deliveryUrl: (string, string) -> string,
    parsePdf: string -> Outcome<string>,
    insert: Creation -> Outcome<()>,
    updateUsage: (string, int) -> Outcome<()>,
    unlink: string -> Outcome<()>)

  datatype Body = Message(text: string) | Content(text: string)

  /** An HTTP response with a JSON body `{success, message}` or `{success, content}`. */
  datatype Response = Response(status: int, success: bool, body: Body)

  datatype ServerState = ServerState(
    creations: seq<Creation>,
    usage: map<string, int>,
    tempFileExists: bool,
    calls: seq<ServiceCall>,
    response: Option<Response>)

  /** `res.json(...)`: status 200. */
  function Json(success: bool, body: Body): Response {
    Response(200, success, body)
  }

  function Reply(s: ServerState, r: Response): ServerState {
    s.(response := Some(r))
  }

  function Record(s: ServerState, call: ServiceCall): ServerState {
    s.(calls := s.calls + [call])
  }

  /** The catch block of every handler but resume review: answer the error's message, change nothing else. */
  function Caught(s: ServerState, message: string): (t: ServerState)
    ensures t.response == Some(Response(200, false, Message(message)))
    ensures t.creations == s.creations && t.usage == s.usage && t.tempFileExists == s.tempFileExists
    ensures t.calls == s.calls
  {
    Reply(s, Json(false, Message(message)))
  }

  /** The counter stored for `userId`, 0 when none is stored. */
  function StoredUsage(usage: map<string, int>, userId: string): int {
    if userId in usage then usage[userId] else 0
  }

  /**
   * The gate each handler applies first: `None` lets the request through,
   * `Some(message)` denies it. Quota-gated capabilities admit premium users
   * and users under the free limit; the others admit premium users only,
   * whatever their counter says.
   */
  function Gate(c: Capability, plan: string, freeUsage: int): (denial: Option<string>)
    ensures c.QuotaGated() ==> (denial.None? <==> plan == PREMIUM_PLAN || freeUsage < FREE_LIMIT)
    ensures !c.QuotaGated() ==> (denial.None? <==> plan == PREMIUM_PLAN)
    ensures denial.Some? ==> denial.value == c.DenialMessage()
  {
    if plan == PREMIUM_PLAN then None
    else if c.QuotaGated() && freeUsage < FREE_LIMIT then None
    else Some(c.DenialMessage())
  }

  /**
   * The resume checks, in the order they run: a file must be present, at most
   * `MAX_RESUME_BYTES` long, and of a MIME type containing "pdf".
   */
  function ResumeFileCheck(file: Option<UploadedFile>): (problem: Option<string>)
    ensures file.None? ==> problem == Some(NO_RESUME_MESSAGE)
    ensures file.Some? && file.value.size > MAX_RESUME_BYTES ==> problem == Some(RESUME_SIZE_MESSAGE)
    ensures file.Some? && file.value.size <= MAX_RESUME_BYTES && !Includes(file.value.mimetype, "pdf")
      ==> problem == Some(NOT_PDF_MESSAGE)
    ensures problem.None? <==>
      file.Some? && file.value.size <= MAX_RESUME_BYTES && Includes(file.value.mimetype, "pdf")
  {
    match file
    case None => Some(NO_RESUME_MESSAGE)
    case Some(f) =>
      if f.size > MAX_RESUME_BYTES then Some(RESUME_SIZE_MESSAGE)
      else if !Includes(f.mimetype, "pdf") then Some(NOT_PDF_MESSAGE)
      else None
  }

  /** The review prompt: a fixed instruction followed by the resume's text. */
  function ResumePrompt(text: string): (prompt: string)
    ensures |prompt| == |RESUME_PROMPT_HEAD| + |text| + |RESUME_PROMPT_TAIL|
    ensures StartsWith(prompt, RESUME_PROMPT_HEAD)
    ensures prompt[|RESUME_PROMPT_HEAD|..|RESUME_PROMPT_HEAD| + |text|] == text
    ensures prompt[|RESUME_PROMPT_HEAD| + |text|..] == RESUME_PROMPT_TAIL
  {
    RESUME_PROMPT_HEAD + text + RESUME_PROMPT_TAIL
  }

  /** The media-store effect that removes `objectName` from an image. */
  function RemovalEffect(objectName: string): string {
    "gen_remove:" + objectName
  }

  /** The prompt recorded for an object removal. */
  function RemovalPrompt(objectName: string): string {
    "Remove " + objectName + " from image"
  }

  /** The data URI uploaded for a generated image. */
  function PngDataUri(base64: string): string {
    "data:image/png;base64," + base64
  }

  /** ENOENT as `fs` reports it for `syscall` on `path`. */
  function NoSuchFile(syscall: string, path: string): string {
    "ENOENT: no such file or directory, " + syscall + " '" + path + "'"
  }

  /** The row a successful quota-gated generation stores. */
  function GeneratedRow(c: Capability, ctx: RequestContext, prompt: string, content: string): Creation {
    Creation(ctx.userId, prompt, content, c.Kind(), false)
  }

  /**
   * `generateArticle` and `generateBlogTitle`: gate on plan and counter, ask
   * for a completion of `prompt` limited to `maxTokens`, insert the row, then
   * (non-premium only) write `freeUsage + 1`, then answer with the content.
   */
  function QuotaGatedStep(s: ServerState, c: Capability, ctx: RequestContext, prompt: string,
                          maxTokens: int, svc: Services): (t: ServerState)
    requires c.QuotaGated()
    ensures t.response.Some? && t.response.value.status == 200
    ensures t.tempFileExists == s.tempFileExists
    // a denied request changes nothing but the response: no call, no row, no counter write
    ensures Gate(c, ctx.plan, ctx.freeUsage).Some? ==>
      t == Reply(s, Json(false, Message(c.DenialMessage())))
    // an admitted request first asks for exactly this completion
    ensures Gate(c, ctx.plan, ctx.freeUsage).None? ==>
      |t.calls| > |s.calls| && t.calls[..|s.calls| + 1]
        == s.calls + [ChatCompletion(ChatRequest(CHAT_MODEL, prompt, TEMPERATURE, maxTokens))]
    // the row is stored exactly when the completion and the insert return, and stays if the counter update throws
    ensures var reply := svc.chat(ChatRequest(CHAT_MODEL, prompt, TEMPERATURE, maxTokens));
      t.creations ==
        (if Gate(c, ctx.plan, ctx.freeUsage).None? && reply.Returns?
            && svc.insert(GeneratedRow(c, ctx, prompt, reply.value)).Returns?
         then s.creations + [GeneratedRow(c, ctx, prompt, reply.value)]
         else s.creations)
    // the first call that throws is answered with its message
    ensures var reply := svc.chat(ChatRequest(CHAT_MODEL, prompt, TEMPERATURE, maxTokens));
      Gate(c, ctx.plan, ctx.freeUsage).None? && reply.Throws? ==>
        t.response.value == Json(false, Message(reply.message))
    ensures var reply := svc.chat(ChatRequest(CHAT_MODEL, prompt, TEMPERATURE, maxTokens));
      Gate(c, ctx.plan, ctx.freeUsage).None? && reply.Returns? ==>
        var inserted := svc.insert(GeneratedRow(c, ctx, prompt, reply.value));
        inserted.Throws? ==> t.response.value == Json(false, Message(inserted.message))
    ensures var reply := svc.chat(ChatRequest(CHAT_MODEL, prompt, TEMPERATURE, maxTokens));
      Gate(c, ctx.plan, ctx.freeUsage).None? && reply.Returns? && ctx.plan != PREMIUM_PLAN
      && svc.insert(GeneratedRow(c, ctx, prompt, reply.value)).Returns? ==>
        var updated := svc.updateUsage(ctx.userId, ctx.freeUsage + 1);
        updated.Throws? ==> t.response.value == Json(false, Message(updated.message))
    // the counter moves only to freeUsage + 1, only for non-premium users, and only once the row is in
    ensures t.usage == s.usage
      || (t.usage == s.usage[ctx.userId := ctx.freeUsage + 1] && ctx.plan != PREMIUM_PLAN
          && |t.creations| == |s.creations| + 1)
    ensures ctx.plan == PREMIUM_PLAN ==> t.usage == s.usage
    // every failure leaves the counter alone and answers with a message
    ensures !t.response.value.success ==> t.usage == s.usage && t.response.value.body.Message?
    // success exactly when every step returned, and then the row, the counter and the content are all there
    ensures var reply := svc.chat(ChatRequest(CHAT_MODEL, prompt, TEMPERATURE, maxTokens));
      t.response.value.success <==>
        Gate(c, ctx.plan, ctx.freeUsage).None? && reply.Returns?
        && svc.insert(GeneratedRow(c, ctx, prompt, reply.value)).Returns?
        && (ctx.plan == PREMIUM_PLAN || svc.updateUsage(ctx.userId, ctx.freeUsage + 1).Returns?)
    ensures var reply := svc.chat(ChatRequest(CHAT_MODEL, prompt, TEMPERATURE, maxTokens));
      t.response.value.success ==>
        reply.Returns? && t.response.value.body == Content(reply.value)
        && t.creations == s.creations + [GeneratedRow(c, ctx, prompt, reply.value)]
        && t.usage == (if ctx.plan == PREMIUM_PLAN then s.usage else s.usage[ctx.userId := ctx.freeUsage + 1])
  {
    match Gate(c, ctx.plan, ctx.freeUsage)
    case Some(denial) => Reply(s, Json(false, Message(denial)))
    case None =>
      var request := ChatRequest(CHAT_MODEL, prompt, TEMPERATURE, maxTokens);
      var asked := Record(s, ChatCompletion(request));
      match svc.chat(request)
      case Throws(m) => Caught(asked, m)
      case Returns(content) =>
        var row := GeneratedRow(c, ctx, prompt, content);
        var inserting := Record(asked, Insert(row));
        match svc.insert(row)
        case Throws(m) => Caught(inserting, m)
        case Returns(_) =>
          var stored := inserting.(creations := inserting.creations + [row]);
          if ctx.plan == PREMIUM_PLAN then Reply(stored, Json(true, Content(content)))
          else
            var updating := Record(stored, UsageUpdate(ctx.userId, ctx.freeUsage + 1));
            match svc.updateUsage(ctx.userId, ctx.freeUsage + 1)
            case Throws(m) => Caught(updating, m)
            case Returns(_) =>
              Reply(updating.(usage := updating.usage[ctx.userId := ctx.freeUsage + 1]),
                    Json(true, Content(content)))
  }

  /**
   * `generateImage`: premium-only; generate an image from `prompt`, upload it
   * as a PNG data URI, store a row with the uploaded URL and `publish ?? false`,
   * and answer `{success: false, content: url}`.
   */
  function GenerateImageStep(s: ServerState, ctx: RequestContext, prompt: string,
                             publish: Option<bool>, svc: Services): (t: ServerState)
    ensures t.usage == s.usage && t.tempFileExists == s.tempFileExists
    // every answer, the happy path included, says success: false, with status 200
    ensures t.response.Some? && t.response.value == Response(200, false, t.response.value.body)
    ensures ctx.plan != PREMIUM_PLAN ==> t == Reply(s, Json(false, Message(IMAGE_PREMIUM_MESSAGE)))
    ensures ctx.plan == PREMIUM_PLAN ==> |t.calls| > |s.calls| && t.calls[|s.calls|] == TextToImage(prompt)
    // the URL is answered exactly when the image is generated, uploaded and stored
    ensures var generated := svc.textToImage(prompt);
      t.response.value.body.Content? <==>
        ctx.plan == PREMIUM_PLAN && generated.Returns?
        && var uploaded := svc.upload(UploadRequest(PngDataUri(generated.value), Untransformed));
        uploaded.Returns?
        && svc.insert(Creation(ctx.userId, prompt, uploaded.value.secureUrl, "image", publish.GetOr(false))).Returns?
    // and then the one row added and the answer both hold the uploaded URL, with publish defaulting to false
    ensures var generated := svc.textToImage(prompt);
      t.response.value.body.Content? ==>
        generated.Returns?
        && var uploaded := svc.upload(UploadRequest(PngDataUri(generated.value), Untransformed));
        uploaded.Returns?
        && t.creations == s.creations + [Creation(ctx.userId, prompt, uploaded.value.secureUrl, "image", publish.GetOr(false))]
        && t.response.value.body == Content(uploaded.value.secureUrl)
    ensures !t.response.value.body.Content? ==> t.creations == s.creations
    // the first call that throws is answered with its message
    ensures var generated := svc.textToImage(prompt);
      ctx.plan == PREMIUM_PLAN && generated.Throws? ==> t.response.value.body == Message(generated.message)
    ensures var generated := svc.textToImage(prompt);
      ctx.plan == PREMIUM_PLAN && generated.Returns? ==>
        var uploaded := svc.upload(UploadRequest(PngDataUri(generated.value), Untransformed));
        (uploaded.Throws? ==> t.response.value.body == Message(uploaded.message))
        && (uploaded.Returns? ==>
              var inserted := svc.insert(Creation(ctx.userId, prompt, uploaded.value.secureUrl, "image", publish.GetOr(false)));
              inserted.Throws? ==> t.response.value.body == Message(inserted.message))
  {
    match Gate(ImageGeneration, ctx.plan, ctx.freeUsage)
    case Some(denial) => Reply(s, Json(false, Message(denial)))
    case None =>
      var generating := Record(s, TextToImage(prompt));
      match svc.textToImage(prompt)
      case Throws(m) => Caught(generating, m)
      case Returns(base64) =>
        var upload := UploadRequest(PngDataUri(base64), Untransformed);
        var uploading := Record(generating, MediaUpload(upload));
        match svc.upload(upload)
        case Throws(m) => Caught(uploading, m)
        case Returns(asset) =>
          var row := Creation(ctx.userId, prompt, asset.secureUrl, ImageGeneration.Kind(), publish.GetOr(false));
          var inserting := Record(uploading, Insert(row));
          match svc.insert(row)
          case Throws(m) => Caught(inserting, m)
          case Returns(_) =>
            Reply(inserting.(creations := inserting.creations + [row]), Json(false, Content(asset.secureUrl)))
  }

  /**
   * `removeImageBackground`: premium-only; upload the image with the
   * background-removal transformation, store a row with the resulting URL,
   * and answer with it.
   */
  function RemoveBackgroundStep(s: ServerState, ctx: RequestContext, image: Option<UploadedFile>,
                                svc: Services): (t: ServerState)
    ensures t.usage == s.usage && t.tempFileExists == s.tempFileExists
    ensures t.response.Some? && t.response.value.status == 200
    ensures ctx.plan != PREMIUM_PLAN ==> t == Reply(s, Json(false, Message(PREMIUM_ONLY_MESSAGE)))
    ensures ctx.plan == PREMIUM_PLAN && image.None? ==> t == Caught(s, MISSING_IMAGE_MESSAGE)
    ensures ctx.plan == PREMIUM_PLAN && image.Some? ==>
      |t.calls| > |s.calls| && t.calls[|s.calls|] == MediaUpload(UploadRequest(image.value.path, RemoveBackground))
    ensures var reply := svc.upload(UploadRequest(image.GetOr(UploadedFile("", 0, "")).path, RemoveBackground));
      t.response.value.success <==>
        ctx.plan == PREMIUM_PLAN && image.Some? && reply.Returns?
        && svc.insert(Creation(ctx.userId, BACKGROUND_PROMPT, reply.value.secureUrl, "image", false)).Returns?
    ensures var reply := svc.upload(UploadRequest(image.GetOr(UploadedFile("", 0, "")).path, RemoveBackground));
      t.response.value.success ==>
        reply.Returns?
        && t.creations == s.creations + [Creation(ctx.userId, BACKGROUND_PROMPT, reply.value.secureUrl, "image", false)]
        && t.response.value.body == Content(reply.value.secureUrl)
    ensures !t.response.value.success ==> t.creations == s.creations
    // the first call that throws is answered with its message
    ensures var reply := svc.upload(UploadRequest(image.GetOr(UploadedFile("", 0, "")).path, RemoveBackground));
      ctx.plan == PREMIUM_PLAN && image.Some? ==>
        (reply.Throws? ==> t.response.value == Json(false, Message(reply.message)))
        && (reply.Returns? ==>
              var inserted := svc.insert(Creation(ctx.userId, BACKGROUND_PROMPT, reply.value.secureUrl, "image", false));
              inserted.Throws? ==> t.response.value == Json(false, Message(inserted.message)))
  {
    match Gate(BackgroundRemoval, ctx.plan, ctx.freeUsage)
    case Some(denial) => Reply(s, Json(false, Message(denial)))
    case None =>
      match image
      case None => Caught(s, MISSING_IMAGE_MESSAGE)
      case Some(file) =>
        var upload := UploadRequest(file.path, RemoveBackground);
        var uploading := Record(s, MediaUpload(upload));
        match svc.upload(upload)
        case Throws(m) => Caught(uploading, m)
        case Returns(asset) =>
          var row := Creation(ctx.userId, BACKGROUND_PROMPT, asset.secureUrl, BackgroundRemoval.Kind(), false);
          var inserting := Record(uploading, Insert(row));
          match svc.insert(row)
          case Throws(m) => Caught(inserting, m)
          case Returns(_) =>
            Reply(inserting.(creations := inserting.creations + [row]), Json(true, Content(asset.secureUrl)))
  }

  /**
   * `removeImageObject`: premium-only; upload the image untransformed, build
   * the URL of its generative-removal rendition for `objectName` exactly as
   * received (no trimming, no lower-casing, no one-word check), store a row and
   * answer with the URL.
   */
  function RemoveObjectStep(s: ServerState, ctx: RequestContext, objectName: string,
                            image: Option<UploadedFile>, svc: Services): (t: ServerState)
    ensures t.usage == s.usage && t.tempFileExists == s.tempFileExists
    ensures t.response.Some? && t.response.value.status == 200
    ensures ctx.plan != PREMIUM_PLAN ==> t == Reply(s, Json(false, Message(PREMIUM_ONLY_MESSAGE)))
    ensures ctx.plan == PREMIUM_PLAN && image.None? ==> t == Caught(s, MISSING_IMAGE_MESSAGE)
    ensures var reply := svc.upload(UploadRequest(image.GetOr(UploadedFile("", 0, "")).path, Untransformed));
      t.response.value.success <==>
        ctx.plan == PREMIUM_PLAN && image.Some? && reply.Returns?
        && svc.insert(Creation(ctx.userId, RemovalPrompt(objectName),
                               svc.deliveryUrl(reply.value.publicId, RemovalEffect(objectName)), "image", false)).Returns?
    ensures var reply := svc.upload(UploadRequest(image.GetOr(UploadedFile("", 0, "")).path, Untransformed));
      t.response.value.success ==>
        var url := svc.deliveryUrl(reply.value.publicId, RemovalEffect(objectName));
        t.creations == s.creations + [Creation(ctx.userId, RemovalPrompt(objectName), url, "image", false)]
        && t.response.value.body == Content(url)
    ensures !t.response.value.success ==> t.creations == s.creations
    // the first call that throws is answered with its message
    ensures var reply := svc.upload(UploadRequest(image.GetOr(UploadedFile("", 0, "")).path, Untransformed));
      ctx.plan == PREMIUM_PLAN && image.Some? ==>
        (reply.Throws? ==> t.response.value == Json(false, Message(reply.message)))
        && (reply.Returns? ==>
              var inserted := svc.insert(Creation(ctx.userId, RemovalPrompt(objectName),
                                                  svc.deliveryUrl(reply.value.publicId, RemovalEffect(objectName)), "image", false));
              inserted.Throws? ==> t.response.value == Json(false, Message(inserted.message)))
  {
    match Gate(ObjectRemoval, ctx.plan, ctx.freeUsage)
    case Some(denial) => Reply(s, Json(false, Message(denial)))
    case None =>
      match image
      case None => Caught(s, MISSING_IMAGE_MESSAGE)
      case Some(file) =>
        var upload := UploadRequest(file.path, Untransformed);
        var uploading := Record(s, MediaUpload(upload));
        match svc.upload(upload)
        case Throws(m) => Caught(uploading, m)
        case Returns(asset) =>
          var url := svc.deliveryUrl(asset.publicId, RemovalEffect(objectName));
          var row := Creation(ctx.userId, RemovalPrompt(objectName), url, ObjectRemoval.Kind(), false);
          var inserting := Record(uploading, Insert(row));
          match svc.insert(row)
          case Throws(m) => Caught(inserting, m)
          case Returns(_) =>
            Reply(inserting.(creations := inserting.creations + [row]), Json(true, Content(url)))
  }

  /**
   * Whether `fs.unlinkSync(path)` removes the temporary file: the file has a
   * path, it is there (otherwise the call throws ENOENT), and the removal
   * does not fail.
   */
  predicate Unlinks(s: ServerState, path: string, svc: Services) {
    path != "" && s.tempFileExists && svc.unlink(path).Returns?
  }

  /**
   * The catch block of `resumeReview`: try to delete the temporary file when
   * it has a path, swallow a failed deletion, and answer 500.
   */
  function ResumeCaught(s: ServerState, file: UploadedFile, message: string, svc: Services): (t: ServerState)
    ensures t.tempFileExists == (s.tempFileExists && !Unlinks(s, file.path, svc))
    ensures t.response == Some(Response(500, false, Message(message)))
    ensures t.creations == s.creations && t.usage == s.usage && t.calls == s.calls
  {
    var cleaned := if Unlinks(s, file.path, svc) then s.(tempFileExists := false) else s;
    Reply(cleaned, Response(500, false, Message(message)))
  }

  /** The review request: the prompt built from the resume's text, limited to 1000 tokens. */
  function ReviewRequest(text: string): (request: ChatRequest)
    ensures request.maxTokens == RESUME_MAX_TOKENS && StartsWith(request.content, RESUME_PROMPT_HEAD)
  {
    ChatRequest(CHAT_MODEL, ResumePrompt(text), TEMPERATURE, RESUME_MAX_TOKENS)
  }

  /** What the services make of the file at `path`: the chat's review of its extracted text. */
  function ReviewReply(path: string, svc: Services): Outcome<string> {
    match svc.parsePdf(path)
    case Throws(m) => Throws(m)
    case Returns(text) => svc.chat(ReviewRequest(text))
  }

  /** The row a review stores. */
  function ReviewRow(ctx: RequestContext, content: string): Creation {
    Creation(ctx.userId, RESUME_PROMPT_LABEL, content, ResumeReview.Kind(), false)
  }

  /**
   * Whether the review of the checked file `f` reaches the table: the file is
   * there to read, its text is extracted, the chat answers and the insert
   * returns.
   */
  predicate StoresReview(s: ServerState, ctx: RequestContext, f: UploadedFile, svc: Services) {
    f.path != "" && s.tempFileExists && ReviewReply(f.path, svc).Returns?
    && svc.insert(ReviewRow(ctx, ReviewReply(f.path, svc).value)).Returns?
  }

  /**
   * How `resumeReview` answers a failure after the file checks: the first step
   * that throws (reading a missing file, extracting the text or asking the
   * chat, the insert, the deletion) gives the message of the 500 answer.
   */
  predicate AnswersResumeFailure(s: ServerState, ctx: RequestContext, f: UploadedFile, svc: Services, r: Response) {
    (f.path == "" || !s.tempFileExists ==> r == Response(500, false, Message(NoSuchFile("open", f.path))))
    && (f.path != "" && s.tempFileExists && ReviewReply(f.path, svc).Throws? ==>
          r == Response(500, false, Message(ReviewReply(f.path, svc).message)))
    && (f.path != "" && s.tempFileExists && ReviewReply(f.path, svc).Returns? ==>
          var inserted := svc.insert(ReviewRow(ctx, ReviewReply(f.path, svc).value));
          inserted.Throws? ==> r == Response(500, false, Message(inserted.message)))
    && (StoresReview(s, ctx, f, svc) && svc.unlink(f.path).Throws? ==>
          r == Response(500, false, Message(svc.unlink(f.path).message)))
  }

  /**
   * The part of `resumeReview` after the file checks, for the checked file
   * `f`: read it, extract its text, ask for a review of at most 1000 tokens,
   * store the row, delete the file and answer; every failure goes to
   * `ResumeCaught`, which tries the deletion once more.
   */
  function ResumeProcessStep(s: ServerState, ctx: RequestContext, f: UploadedFile, svc: Services): (t: ServerState)
    ensures t.usage == s.usage && t.response.Some?
    ensures |s.calls| <= |t.calls| && t.calls[..|s.calls|] == s.calls
    // the only completion it asks for is the review prompt with max_tokens 1000
    ensures forall i :: |s.calls| <= i < |t.calls| && t.calls[i].ChatCompletion? ==>
      t.calls[i].request.maxTokens == RESUME_MAX_TOKENS
      && StartsWith(t.calls[i].request.content, RESUME_PROMPT_HEAD)
    // the row is stored exactly when every step up to the insert returns, even if the deletion then fails
    ensures t.creations ==
      (if StoresReview(s, ctx, f, svc) then s.creations + [ReviewRow(ctx, ReviewReply(f.path, svc).value)]
       else s.creations)
    // success exactly when the row is stored and the file deleted, and then the answer is the chat's review
    ensures t.response.value.success <==> StoresReview(s, ctx, f, svc) && svc.unlink(f.path).Returns?
    ensures t.response.value.success ==>
      t.response.value == Response(200, true, Content(ReviewReply(f.path, svc).value))
    ensures !t.response.value.success ==> t.response.value.status == 500 && t.response.value.body.Message?
    // and each failure answers the message of the step that threw
    ensures AnswersResumeFailure(s, ctx, f, svc, t.response.value)
    // the file ends up gone exactly when it had a path, was there and its deletion did not fail
    ensures t.tempFileExists == (s.tempFileExists && !Unlinks(s, f.path, svc))
  {
    if f.path == "" || !s.tempFileExists then ResumeCaught(s, f, NoSuchFile("open", f.path), svc)
    else
      var parsing := Record(s, PdfParse(f.path));
      match svc.parsePdf(f.path)
      case Throws(m) => ResumeCaught(parsing, f, m, svc)
      case Returns(text) =>
        var request := ReviewRequest(text);
        var asked := Record(parsing, ChatCompletion(request));
        match svc.chat(request)
        case Throws(m) => ResumeCaught(asked, f, m, svc)
        case Returns(content) =>
          var row := ReviewRow(ctx, content);
          var inserting := Record(asked, Insert(row));
          match svc.insert(row)
          case Throws(m) => ResumeCaught(inserting, f, m, svc)
          case Returns(_) =>
            var stored := inserting.(creations := inserting.creations + [row]);
            // the file just read is still there
            match svc.unlink(f.path)
            case Throws(m) => ResumeCaught(stored, f, m, svc)
            case Returns(_) => Reply(stored.(tempFileExists := false), Json(true, Content(content)))
  }

  /**
   * `resumeReview`: premium-only; check the file (present, size, type), then
   * `ResumeProcessStep`. The gate and the file checks return early and leave
   * the file alone.
   */
  function ResumeReviewStep(s: ServerState, ctx: RequestContext, file: Option<UploadedFile>,
                            svc: Services): (t: ServerState)
    ensures t.usage == s.usage && t.response.Some?
    ensures ctx.plan != PREMIUM_PLAN ==> t == Reply(s, Json(false, Message(PREMIUM_ONLY_MESSAGE)))
    // a failed file check answers its message and reaches neither the reader, the model nor the table
    ensures ctx.plan == PREMIUM_PLAN && ResumeFileCheck(file).Some? ==>
      t == Reply(s, Json(false, Message(ResumeFileCheck(file).value)))
    // once the checks pass, the file ends up gone unless its deletion fails; success answers 200 and failure 500
    ensures ctx.plan == PREMIUM_PLAN && ResumeFileCheck(file).None? ==>
      t.tempFileExists == (s.tempFileExists && !Unlinks(s, file.value.path, svc))
      && t.response.value.status == (if t.response.value.success then 200 else 500)
    // and each failure then answers the message of the step that threw
    ensures ctx.plan == PREMIUM_PLAN && ResumeFileCheck(file).None? ==>
      AnswersResumeFailure(s, ctx, file.value, svc, t.response.value)
    // the only completion it asks for is the review prompt with max_tokens 1000
    ensures forall i :: |s.calls| <= i < |t.calls| && t.calls[i].ChatCompletion? ==>
      t.calls[i].request.maxTokens == RESUME_MAX_TOKENS
      && StartsWith(t.calls[i].request.content, RESUME_PROMPT_HEAD)
    // the row is stored exactly when the checks pass and every step up to the insert returns
    ensures t.creations ==
      (if ctx.plan == PREMIUM_PLAN && ResumeFileCheck(file).None? && StoresReview(s, ctx, file.value, svc)
       then s.creations + [ReviewRow(ctx, ReviewReply(file.value.path, svc).value)]
       else s.creations)
    // success exactly when, besides, the file is deleted; the answer is then the chat's review
    ensures t.response.value.success <==>
      ctx.plan == PREMIUM_PLAN && ResumeFileCheck(file).None? && StoresReview(s, ctx, file.value, svc)
      && svc.unlink(file.value.path).Returns?
    ensures t.response.value.success ==>
      t.response.value == Response(200, true, Content(ReviewReply(file.value.path, svc).value))
      && !t.tempFileExists
  {
    match Gate(ResumeReview, ctx.plan, ctx.freeUsage)
    case Some(denial) => Reply(s, Json(false, Message(denial)))
    case None =>
      match ResumeFileCheck(file)
      case Some(problem) => Reply(s, Json(false, Message(problem)))
      case None => ResumeProcessStep(s, ctx, file.value, svc)
  }

  /** One quota-gated request of a session: its capability, prompt, token limit and how the services answer. */
  datatype QuotaRequest = QuotaRequest(c: Capability, prompt: string, maxTokens: int, svc: Services)

  /**
   * A run of quota-gated requests by one user, each carrying the counter
   * stored for that user when it arrives (the middleware's reading of the
   * metadata, 0 when none is stored).
   */
  function Session(s: ServerState, userId: string, plan: string, requests: seq<QuotaRequest>): ServerState
    requires forall i :: 0 <= i < |requests| ==> requests[i].c.QuotaGated()
    decreases |requests|
  {
    if requests == [] then s
    else
      var r := requests[0];
      var ctx := RequestContext(userId, plan, StoredUsage(s.usage, userId));
      Session(QuotaGatedStep(s, r.c, ctx, r.prompt, r.maxTokens, r.svc), userId, plan, requests[1..])
  }

  /**
   * However many article and blog-title requests a user makes, and however
   * each one ends, a counter that starts within the free limit never passes
   * it and never goes down; a premium user's counter is never written, other
   * users' counters are untouched, and each request adds at most one row.
   */
  lemma {:induction false} SessionStaysWithinLimit(s: ServerState, userId: string, plan: string,
                                                   requests: seq<QuotaRequest>)
    requires forall i :: 0 <= i < |requests| ==> requests[i].c.QuotaGated()
    requires StoredUsage(s.usage, userId) <= FREE_LIMIT
    ensures var t := Session(s, userId, plan, requests);
      StoredUsage(s.usage, userId) <= StoredUsage(t.usage, userId) <= FREE_LIMIT
      && (plan == PREMIUM_PLAN ==> t.usage == s.usage)
      && (forall u :: u != userId ==> StoredUsage(t.usage, u) == StoredUsage(s.usage, u))
      && |s.creations| <= |t.creations| <= |s.creations| + |requests|
    decreases |requests|
  {
    if requests != [] {
      var r := requests[0];
      var ctx := RequestContext(userId, plan, StoredUsage(s.usage, userId));
      var next := QuotaGatedStep(s, r.c, ctx, r.prompt, r.maxTokens, r.svc);
      if next.usage != s.usage {
        assert Gate(r.c, plan, ctx.freeUsage).None?;
      }
      SessionStaysWithinLimit(next, userId, plan, requests[1..]);
    }
  }

  /** A premium-only gate decides on the plan alone. */
  lemma GateIgnoresFreeUsage(c: Capability, plan: string, freeUsage: int, otherUsage: int)
    requires !c.QuotaGated()
    ensures Gate(c, plan, freeUsage) == Gate(c, plan, otherUsage)
  {
  }

  lemma ImageIgnoresFreeUsage(s: ServerState, ctx: RequestContext, freeUsage: int, prompt: string,
                              publish: Option<bool>, svc: Services)
    ensures GenerateImageStep(s, ctx, prompt, publish, svc)
         == GenerateImageStep(s, ctx.(freeUsage := freeUsage), prompt, publish, svc)
  {
    GateIgnoresFreeUsage(ImageGeneration, ctx.plan, ctx.freeUsage, freeUsage);
  }

  lemma BackgroundIgnoresFreeUsage(s: ServerState, ctx: RequestContext, freeUsage: int,
                                   file: Option<UploadedFile>, svc: Services)
    ensures RemoveBackgroundStep(s, ctx, file, svc) == RemoveBackgroundStep(s, ctx.(freeUsage := freeUsage), file, svc)
  {
    GateIgnoresFreeUsage(BackgroundRemoval, ctx.plan, ctx.freeUsage, freeUsage);
  }

  lemma ObjectIgnoresFreeUsage(s: ServerState, ctx: RequestContext, freeUsage: int, objectName: string,
                               file: Option<UploadedFile>, svc: Services)
    ensures RemoveObjectStep(s, ctx, objectName, file, svc)
         == RemoveObjectStep(s, ctx.(freeUsage := freeUsage), objectName, file, svc)
  {
    GateIgnoresFreeUsage(ObjectRemoval, ctx.plan, ctx.freeUsage, freeUsage);
  }

  lemma ResumeIgnoresFreeUsage(s: ServerState, ctx: RequestContext, freeUsage: int,
                               file: Option<UploadedFile>, svc: Services)
    ensures ResumeReviewStep(s, ctx, file, svc) == ResumeReviewStep(s, ctx.(freeUsage := freeUsage), file, svc)
  {
    GateIgnoresFreeUsage(ResumeReview, ctx.plan, ctx.freeUsage, freeUsage);
  }

  /** The four premium-only handlers give the same result whatever `free_usage` the request carries. */
  lemma PremiumOnlyIgnoresFreeUsage(s: ServerState, ctx: RequestContext, freeUsage: int, prompt: string,
                                    publish: Option<bool>, objectName: string, file: Option<UploadedFile>,
                                    svc: Services)
    ensures var other := ctx.(freeUsage := freeUsage);
      GenerateImageStep(s, ctx, prompt, publish, svc) == GenerateImageStep(s, other, prompt, publish, svc)
      && RemoveBackgroundStep(s, ctx, file, svc) == RemoveBackgroundStep(s, other, file, svc)
      && RemoveObjectStep(s, ctx, objectName, file, svc) == RemoveObjectStep(s, other, objectName, file, svc)
      && ResumeReviewStep(s, ctx, file, svc) == ResumeReviewStep(s, other, file, svc)
  {
    ImageIgnoresFreeUsage(s, ctx, freeUsage, prompt, publish, svc);
    BackgroundIgnoresFreeUsage(s, ctx, freeUsage, file, svc);
    ObjectIgnoresFreeUsage(s, ctx, freeUsage, objectName, file, svc);
    ResumeIgnoresFreeUsage(s, ctx, freeUsage, file, svc);
  }

  /**
   * Whatever object name a premium request carries, a successful removal
   * stores it verbatim in the prompt and asks the media store for exactly
   * that name's removal effect.
   */
  lemma RemovalKeepsName(s: ServerState, ctx: RequestContext, objectName: string, image: UploadedFile,
                         svc: Services)
    requires ctx.plan == PREMIUM_PLAN
    requires svc.upload(UploadRequest(image.path, Untransformed)).Returns?
    requires forall row :: svc.insert(row).Returns?
    ensures var t := RemoveObjectStep(s, ctx, objectName, Some(image), svc);
      var asset := svc.upload(UploadRequest(image.path, Untransformed)).value;
      t.response.value.success
      && t.creations == s.creations + [Creation(ctx.userId, RemovalPrompt(objectName),
                                                svc.deliveryUrl(asset.publicId, RemovalEffect(objectName)), "image", false)]
  {
    var asset := svc.upload(UploadRequest(image.path, Untransformed)).value;
    var row := Creation(ctx.userId, RemovalPrompt(objectName),
                        svc.deliveryUrl(asset.publicId, RemovalEffect(objectName)), "image", false);
    assert svc.insert(row).Returns?;
  }

  /**
   * The server takes the object name as sent: a two-word, capitalised name
   * goes through to the media store and into the stored prompt.
   */
  lemma ServerKeepsObjectNameAsSent(s: ServerState, ctx: RequestContext, image: UploadedFile, svc: Services)
    requires ctx.plan == PREMIUM_PLAN
    requires svc.upload(UploadRequest(image.path, Untransformed)).Returns?
    requires forall row :: svc.insert(row).Returns?
    ensures var t := RemoveObjectStep(s, ctx, "Red Car", Some(image), svc);
      t.response.value.success && t.creations[|s.creations|].prompt == "Remove Red Car from image"
  {
    RemovalKeepsName(s, ctx, "Red Car", image, svc);
    assert RemovalPrompt("Red Car") == "Remove Red Car from image";
  }

  /** A PDF of exactly 5 MB passes the resume checks; one byte more fails on size. */
  lemma ResumeSizeBoundary(path: string)
    ensures ResumeFileCheck(Some(UploadedFile(path, 5 * 1024 * 1024, "application/pdf"))).None?
    ensures ResumeFileCheck(Some(UploadedFile(path, 5 * 1024 * 1024 + 1, "application/pdf")))
      == Some(RESUME_SIZE_MESSAGE)
  {
    var mime := "application/pdf";
    assert OccursAt(mime, "pdf", 12);
    IncludesIffOccurs(mime, "pdf");
  }

  /** A small JSON upload fails the type check. */
  lemma ResumeRejectsJson(path: string)
    ensures ResumeFileCheck(Some(UploadedFile(path, 1024, "application/json"))) == Some(NOT_PDF_MESSAGE)
  {
    MissingCharacterExcludes("application/json", "pdf", 'd');
  }
}

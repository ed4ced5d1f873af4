/**
 * The object-removal form of client/src/pages/RemoveObject.jsx: the checks
 * it applies to the chosen image and to the object name, the value it sends,
 * and its component state (`input`, `object`, `loading`, `content`,
 * `previewUrl`, `error`) as the event handlers update it.
 */
module RemoveObjectPage {
  import opened Outcomes
  import opened JsStrings

  /** The largest image accepted, in bytes (5 MB; exactly 5 MB passes). */
  const MAX_IMAGE_BYTES := 5 * 1024 * 1024

  const NOT_IMAGE_ERROR := "Please upload an image file"
  const TOO_LARGE_ERROR := "Image size should be less than 5MB"
  const NO_IMAGE_TOAST := "Please select an image"
  const NO_OBJECT_TOAST := "Please enter an object name"
  const SEVERAL_OBJECTS_TOAST := "Please enter only one object name"
  const FALLBACK_ERROR := "Something went wrong"

  /** A file picked in the browser: its name, MIME type and size in bytes. */
  datatype ClientFile = ClientFile(name: string, mimeType: string, size: int)

  /** Why `handleFileChange` refuses `file`, checking the type before the size; `None` accepts it. */
  function FileProblem(file: ClientFile): (problem: Option<string>)
    ensures problem.None? <==> StartsWith(file.mimeType, "image/") && file.size <= MAX_IMAGE_BYTES
    ensures !StartsWith(file.mimeType, "image/") ==> problem == Some(NOT_IMAGE_ERROR)
    ensures StartsWith(file.mimeType, "image/") && file.size > MAX_IMAGE_BYTES ==> problem == Some(TOO_LARGE_ERROR)
  {
    if !StartsWith(file.mimeType, "image/") then Some(NOT_IMAGE_ERROR)
    else if file.size > MAX_IMAGE_BYTES then Some(TOO_LARGE_ERROR)
    else None
  }

  /**
   * Why `onSubmitHandler` refuses the object name: nothing left after trimming,
   * or more than one piece when the trimmed name is split on the space
   * character. Only the space counts: a tab or other whitespace inside the
   * name does not make it several names.
   */
  function ObjectProblem(objectName: string): (problem: Option<string>)
    ensures problem == Some(NO_OBJECT_TOAST) <==> forall i :: 0 <= i < |objectName| ==> IsWhitespace(objectName[i])
    ensures problem == Some(SEVERAL_OBJECTS_TOAST) <==> Trim(objectName) != [] && ' ' in Trim(objectName)
    ensures problem.None? <==> Trim(objectName) != [] && ' ' !in Trim(objectName)
  {
    var trimmed := Trim(objectName);
    TrimEmptyIffAllWhitespace(objectName);
    SplitHasSeveralParts(trimmed, ' ');
    if trimmed == [] then Some(NO_OBJECT_TOAST)
    else if |Split(trimmed, ' ')| > 1 then Some(SEVERAL_OBJECTS_TOAST)
    else None
  }

  /** Why `onSubmitHandler` sends nothing: no image chosen, then the object-name checks. */
  function SubmitProblem(input: Option<ClientFile>, objectName: string): (problem: Option<string>)
    ensures input.None? ==> problem == Some(NO_IMAGE_TOAST)
    ensures problem.None? <==> input.Some? && Trim(objectName) != [] && ' ' !in Trim(objectName)
  {
    if input.None? then Some(NO_IMAGE_TOAST) else ObjectProblem(objectName)
  }

  /** A non-empty name with no space, no whitespace at either end and no ASCII capital. */
  ghost predicate SingleToken(value: string) {
    value != [] && ' ' !in value && !IsWhitespace(value[0]) && !IsWhitespace(value[|value| - 1])
    && NoAsciiCapitals(value)
  }

  /**
   * The object value the form sends, `object.trim().toLowerCase()`: as long as
   * the trimmed name, and a single lower-case token whenever the name passed
   * the checks.
   */
  function SubmittedObject(objectName: string): (value: string)
    ensures |value| == |Trim(objectName)|
    ensures ObjectProblem(objectName).None? ==> SingleToken(value)
  {
    var trimmed := Trim(objectName);
    ToLowerProperties(trimmed);
    assert forall i :: 0 <= i < |trimmed| ==> (ToLower(trimmed)[i] == ' ' <==> trimmed[i] == ' ');
    ToLower(trimmed)
  }

  /** The JSON body of the server's answer. */
  datatype ReplyData = ReplyData(success: bool, content: string, message: string)

  /**
   * How the post ends: the server answers, or the request is rejected with
   * the server's message (empty when there is none) and the error's own
   * message (empty when there is none).
   */
  datatype PostOutcome = Answered(data: ReplyData) | Rejected(responseMessage: string, errorMessage: string)

  /** `error.response?.data?.message || error.message || 'Something went wrong'`. */
  function ErrorText(responseMessage: string, errorMessage: string): (text: string)
    ensures text != []
    ensures responseMessage != [] ==> text == responseMessage
    ensures responseMessage == [] && errorMessage != [] ==> text == errorMessage
    ensures responseMessage == [] && errorMessage == [] ==> text == FALLBACK_ERROR
  {
    if responseMessage != [] then responseMessage
    else if errorMessage != [] then errorMessage
    else FALLBACK_ERROR
  }

  /** What one submission posts to the object-removal endpoint. */
  datatype Submission = Submission(image: ClientFile, objectName: string)

  /** A submission with an image that passed the file checks and a single lower-case name. */
  ghost predicate Acceptable(submission: Submission) {
    FileProblem(submission.image).None? && SingleToken(submission.objectName)
  }

  /** A name that passed the checks, sent with an accepted image, makes an acceptable submission. */
  lemma CheckedSubmissionAcceptable(image: ClientFile, objectName: string)
    requires FileProblem(image).None? && ObjectProblem(objectName).None?
    ensures Acceptable(Submission(image, SubmittedObject(objectName)))
  {
  }

  /** Every submission of `sent` is acceptable. */
  ghost predicate AllAcceptable(sent: seq<Submission>) {
    forall i :: 0 <= i < |sent| ==> Acceptable(sent[i])
  }

  /** Appending an acceptable submission keeps the log acceptable. */
  lemma AppendAcceptable(sent: seq<Submission>, submission: Submission)
    requires AllAcceptable(sent) && Acceptable(submission)
    ensures AllAcceptable(sent + [submission])
  {
    assert forall i :: 0 <= i < |sent| ==> (sent + [submission])[i] == sent[i];
  }

  /** "red car" is refused as two names. */
  lemma SpaceSeparatesNames()
    ensures ObjectProblem("red car") == Some(SEVERAL_OBJECTS_TOAST)
  {
    var spaced := "red car";
    assert Lead(spaced) == 0 && ContentEnd(spaced) == |spaced|;
    assert Trim(spaced) == spaced;
    assert spaced[3] == ' ';
  }

  /** "red\tcar" is one name: only the space character splits. */
  lemma TabDoesNotSeparateNames()
    ensures ObjectProblem("red\tcar").None?
  {
    var tabbed := "red\tcar";
    assert Lead(tabbed) == 0 && ContentEnd(tabbed) == |tabbed|;
    assert Trim(tabbed) == tabbed;
    assert forall i :: 0 <= i < |tabbed| ==> tabbed[i] != ' ';
  }

  /** The RemoveObject component's state. */
  class RemoveObjectForm {
    var input: Option<ClientFile>
    var objectName: string
    var loading: bool
    var content: string
    var previewUrl: string
    var error: string
    /** Every submission that passed the checks, in order: each one the handler went on to post (a failed `getToken` still stops it before the network). */
    var sent: seq<Submission>

    /** The chosen image always passed the file checks, and every request sent an accepted image and one lower-case name. */
    ghost predicate Valid()
      reads this
    {
      (input.Some? ==> FileProblem(input.value).None?)
      && AllAcceptable(sent)
    }

    /** The `useState` initial values. */
    constructor ()
      ensures Valid()
      ensures input == None && objectName == "" && !loading && content == "" && previewUrl == "" && error == ""
      ensures sent == []
    {
      input := None;
      objectName := "";
      loading := false;
      content := "";
      previewUrl := "";
      error := "";
      sent := [];
    }

    /**
     * `handleFileChange` with the first chosen file (if any) and the preview
     * URL the browser makes for it: no file changes nothing, a refused file
     * only sets `error`, an accepted one becomes `input` with its preview.
     */
    method HandleFileChange(file: Option<ClientFile>, objectUrl: string)
      requires Valid()
      modifies this
      ensures Valid()
      ensures objectName == old(objectName) && loading == old(loading) && content == old(content) && sent == old(sent)
      ensures file.None? ==> input == old(input) && previewUrl == old(previewUrl) && error == old(error)
      ensures file.Some? && FileProblem(file.value).Some? ==>
        error == FileProblem(file.value).value && input == old(input) && previewUrl == old(previewUrl)
      ensures file.Some? && FileProblem(file.value).None? ==>
        input == file && error == "" && previewUrl == objectUrl
    {
      if file.None? {
        return;
      }
      var f := file.value;
      if !StartsWith(f.mimeType, "image/") {
        error := NOT_IMAGE_ERROR;
        return;
      }
      if f.size > MAX_IMAGE_BYTES {
        error := TOO_LARGE_ERROR;
        return;
      }
      input := Some(f);
      error := "";
      previewUrl := objectUrl;
    }

    /** The text field's `onChange`: `setObject(e.target.value)`. */
    method SetObject(value: string)
      requires Valid()
      modifies this`objectName
      ensures Valid() && objectName == value
    {
      objectName := value;
    }

    /**
     * The checks `onSubmitHandler` makes before posting, in the source's
     * order, returning the toast it shows; `None` lets the post go ahead.
     */
    method CheckInput() returns (problem: Option<string>)
      ensures problem == SubmitProblem(input, objectName)
    {
      if input.None? {
        return Some(NO_IMAGE_TOAST);
      }
      var trimmed := Trim(objectName);
      if trimmed == [] {
        return Some(NO_OBJECT_TOAST);
      }
      if |Split(trimmed, ' ')| > 1 {
        return Some(SEVERAL_OBJECTS_TOAST);
      }
      return None;
    }

    /**
     * `onSubmitHandler`, given how the post ends: a refused submission changes
     * nothing; otherwise it posts the image and the normalised name, shows the
     * content only if the server reports success, records the error text if
     * the request is rejected, and ends with `loading` false.
     */
    method OnSubmitHandler(outcome: PostOutcome)
      requires Valid()
      modifies this
      ensures Valid()
      ensures input == old(input) && objectName == old(objectName) && previewUrl == old(previewUrl)
      ensures SubmitProblem(old(input), old(objectName)).Some? ==>
        loading == old(loading) && content == old(content) && error == old(error) && sent == old(sent)
      ensures SubmitProblem(old(input), old(objectName)).None? ==>
        && sent == old(sent) + [Submission(old(input).value, SubmittedObject(old(objectName)))]
        && !loading
        && content == (if outcome.Answered? && outcome.data.success then outcome.data.content else old(content))
        && error == (if outcome.Rejected? then ErrorText(outcome.responseMessage, outcome.errorMessage) else "")
    {
      var problem := CheckInput();
      if problem.Some? {
        return;
      }
      CheckedSubmissionAcceptable(input.value, objectName);
      var submission := Submission(input.value, SubmittedObject(objectName));
      AppendAcceptable(sent, submission);
      loading := true;
      error := "";
      sent := sent + [submission];
      Settle(outcome);
    }

    /**
     * The end of `onSubmitHandler` once the post has settled: the content on
     * success, the error text on rejection, and `loading` off in the finally
     * block.
     */
    method Settle(outcome: PostOutcome)
      requires Valid()
      modifies this`content, this`error, this`loading
      ensures Valid()
      ensures !loading
      ensures content == (if outcome.Answered? && outcome.data.success then outcome.data.content else old(content))
      ensures error == (if outcome.Rejected? then ErrorText(outcome.responseMessage, outcome.errorMessage) else old(error))
    {
      match outcome {
        case Answered(data) =>
          if data.success {
            content := data.content;
          }
        case Rejected(responseMessage, errorMessage) =>
          error := ErrorText(responseMessage, errorMessage);
      }
      loading := false;
    }

    /** `resetForm`: clears everything the user entered or got back, but not `loading`. */
    method ResetForm()
      requires Valid()
      modifies this
      ensures Valid()
      ensures input == None && objectName == "" && content == "" && previewUrl == "" && error == ""
      ensures loading == old(loading) && sent == old(sent)
    {
      input := None;
      objectName := "";
      content := "";
      previewUrl := "";
      error := "";
    }
  }
}

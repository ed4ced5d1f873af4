# AI SaaS request pipeline and object-removal form — a Dafny model

This project models two parts of an AI SaaS web application.

The first is the usage-gated request pipeline of the Express backend. It has six handlers:
- article generation;
- blog-title generation;
- image generation;
- background removal;
- object removal;
- resume review.

Each handler reads the caller's `plan` and applies a gate. The two quota-gated handlers also read `free_usage`. Only resume review checks its input (presence, size and type). The other handlers check nothing, and the two removals fail only when they read `image.path` of a missing image. Each handler calls outside services in a fixed order. It appends one row to the `creations` table and, for the two quota-gated capabilities and non-premium users, writes `free_usage + 1` back to the identity provider. Last, it sends a JSON response.

The second is the object-removal page of the React client. It validates the chosen image and the object name, normalises the name it sends, and updates its component state.

Files:
- `outcomes.dfy` (module `Outcomes`): `Option` and `Outcome<T>`. An `Outcome<T>` is an awaited call that returns a value or throws an error with a message.
- `js_strings.dfy` (module `JsStrings`): the JavaScript string built-ins the core uses. These are `startsWith`, `includes`, `trim`, `split` on one character and `toLowerCase`. Each is defined over sequences of characters. The contracts of `Trim` and `ToLower` fix their results. `Split`'s contract says there is at least one piece and no piece holds the separator; together with the lemma `JoinSplit` this fixes the result too. Further lemmas give the facts the core relies on.
- `ai_pipeline.dfy` (module `AiPipeline`): the handlers as pure functions from one `ServerState` to the next. A `ServerState` holds the creation rows, the per-user `free_usage` map, whether the uploaded temporary file exists, the log of outside calls, and the last response. Outside services are a `Services` value of functions, one per service. Calls to the chat, text-to-image, upload, PDF reader, insert and metadata-update services are appended to the log. So "no vendor call, no insert, no counter write" means the log is unchanged. Two kinds of call are not logged: the media store's URL builder, which computes a URL locally, and file deletion, whose effect shows in the temporary-file flag.
- `ai_controller.dfy` (module `AiController`): class `Controller`. Its fields are the same state. Each handler is a method with the source's early returns. Each method is proved to end in the state that the matching `AiPipeline` step describes.
- `remove_object.dfy` (module `RemoveObjectPage`): the form's validation functions and class `RemoveObjectForm`. Its fields are the component's `useState` values, plus a log of the requests posted. The JavaScript `object` state is the field `objectName`, because `object` is a reserved word in Dafny.

Behaviour kept as the code has it:
- `generateImage` answers `success: false` on its happy path, with the URL as `content`.
- The article limit message says "Update" and the blog-title one says "Upgrade".
- The premium-only message of `generateImage` ends with a full stop. The other three do not.
- The four premium-only handlers ignore `free_usage` and never write it.
- Resume review deletes the temporary file only on success and in its catch block. It answers HTTP 500 only from the catch block.
- If deleting the resume file fails after the row is stored, the catch block answers 500 and the row stays stored.
- The server takes the object name as sent. It does not trim it, lower-case it or check that it is one word. Only the client does that.

Other behaviour of the code:
- The handlers do not check that prompts are non-empty.
- Only the resume file is deleted, and only after its checks pass. Images uploaded for background or object removal are never deleted.
- Only the client page rejects multi-word object names and lower-cases them.

## Model

| member | source | states |
|---|---|---|
| `AiPipeline.Gate` | server/controllers/aiController.js:27-29 | Article and blog-title admit premium users and users with `free_usage < 10`. The other four capabilities admit premium users only, whatever the counter says. A denial carries the capability's own message (lines 27-29, 69-71, 107-109, 137-139, 168-170, 202-207). |
| `AiPipeline.ResumeFileCheck` | server/controllers/aiController.js:209-228 | Checks run in order: a missing file, then `size > 5*1024*1024`, then a MIME type without "pdf", each with its message. The file passes exactly when it is present, at most 5 MB and its type includes "pdf". |
| `AiPipeline.ResumePrompt` | server/controllers/aiController.js:236-245 | The review prompt is the fixed instruction, then the extracted text verbatim, then the template's trailing newline and indent. |
| `AiPipeline.QuotaGatedStep` | server/controllers/aiController.js:20-99 | A denied request changes only the response. An admitted request first asks for this completion with its `max_tokens`. At most one row is added, for this user, prompt and type. The counter changes only to `free_usage + 1`, only for non-premium users, and only after the row is in. Every failure leaves the counter unchanged. Success holds exactly when the completion, the insert and (for non-premium users) the update all return. The row is stored exactly when the completion and the insert return, so it stays when the counter update throws. The first call that throws is answered with its own message. |
| `AiPipeline.GenerateImageStep` | server/controllers/aiController.js:101-130 | Every answer says `success: false`, the happy path included. Non-premium users are denied with no other change. The first call is the text-to-image request. The URL is answered exactly when the plan is premium and three calls return: the generation, the upload of its PNG data URI, and the insert. Then exactly one row is added: type `image`, the user's prompt, the upload's `secure_url`, and `publish ?? false`. The answer carries the same URL as `content`. Otherwise no row is added. The first call that throws is answered with its own message. The counter and the temporary file are never touched. |
| `AiPipeline.RemoveBackgroundStep` | server/controllers/aiController.js:131-159 | Non-premium users are denied with no other change. A missing image fails at `image.path`. The upload asks for background removal. Success holds exactly when the upload and the insert return. Then exactly one `image` row is added, with the fixed prompt and the upload's `secure_url`, and the answer carries that URL. A throwing upload or insert is answered `success: false` with its own message. The counter is never written. |
| `AiPipeline.RemoveObjectStep` | server/controllers/aiController.js:161-188 | Non-premium users are denied with no other change. A missing image fails at `image.path`. On success, one `image` row is added. Its prompt is `Remove <object> from image` and its content is the URL built from the upload's public id and `gen_remove:<object>`, with the name used unchanged. A throwing upload or insert is answered `success: false` with its own message. The counter is never written. |
| `AiPipeline.Caught` | server/controllers/aiController.js:56-59 | The catch block of the other five handlers (also lines 95-98, 126-129, 155-158 and 184-187) answers `success: false` with the error's message. It changes nothing else. |
| `AiPipeline.ResumeCaught` | server/controllers/aiController.js:265-280 | When `resumeFile.path` is set, the catch block tries to delete the temporary file. The file ends up gone exactly when it had a path, was there and the deletion did not fail. A failed deletion is swallowed. It answers 500 `success: false` with the error's message. Rows, counters and calls are unchanged. |
| `AiPipeline.ReviewRequest` | server/controllers/aiController.js:247-252 | The review request asks for at most 1000 tokens, and its content starts with the fixed instruction. |
| `AiPipeline.ResumeProcessStep` | server/controllers/aiController.js:230-280 | After the checks, the row is stored exactly when four steps return: the file is there to read, its text is extracted, the chat answers the review prompt, and the insert returns. It stays stored even if the deletion then fails. Success holds exactly when, besides, the deletion returns. It then answers 200 with the chat's review as `content`. Every failure answers 500 with the message of the step that threw: ENOENT for a missing file, then the extraction, the chat, the insert or the deletion. The file ends up gone exactly when it had a path, was there and its deletion did not fail. Earlier calls are kept. The only completion asked for is the review prompt with `max_tokens` 1000. |
| `AiPipeline.ResumeReviewStep` | server/controllers/aiController.js:190-281 | Premium-only. A failed file check answers its message and changes nothing else: no extraction, no completion, no insert, file kept. Once the checks pass, the file ends up gone unless its deletion fails, success answers 200 and failure 500. The `resume-review` row is stored exactly when the plan is premium, the checks pass and reading, extraction, chat and insert all return. Success holds exactly when, besides, the deletion returns. It then answers the chat's review as `content`. After the checks, every failure answers 500 with the message of the step that threw. The only completion asked for is the review prompt with `max_tokens` 1000. |
| `AiPipeline.SessionStaysWithinLimit` | server/controllers/aiController.js:27-52 | Take any run of article and blog-title requests by one user, each carrying the stored counter. A counter that starts at 10 or less never goes down and never passes 10. A premium user's counter is never written, other users' counters are untouched, and each request adds at most one row. |
| `AiPipeline.PremiumOnlyIgnoresFreeUsage` | server/controllers/aiController.js:101-109 | Image generation, background removal, object removal and resume review give the same result for any `free_usage`. |
| `AiPipeline.RemovalKeepsName` | server/controllers/aiController.js:172-182 | For any object name, a premium request whose upload and insert return succeeds. It stores exactly one row, whose prompt embeds the name verbatim and whose URL is the one built with `gen_remove:<name>`. |
| `AiPipeline.ServerKeepsObjectNameAsSent` | server/controllers/aiController.js:161-182 | A premium request with "Red Car" as the object succeeds, and its row's prompt is "Remove Red Car from image". |
| `AiPipeline.ResumeSizeBoundary` | server/controllers/aiController.js:216-221 | A PDF of exactly 5 MB passes the resume checks. One byte more fails with the size message. |
| `AiPipeline.ResumeRejectsJson` | server/controllers/aiController.js:223-228 | A file of type `application/json` fails with "Please upload a PDF file.". |
| `AiController.Controller.Fail` | server/controllers/aiController.js:56-59 | Every `success: false` answer with status 200 ends in the state `Caught` gives: the gate denials, the early returns for a missing image or a refused resume, and the catch blocks. |
| `AiController.Controller.InsertRow` | server/controllers/aiController.js:43-44 | The insert is logged, its outcome is the service's, and the row is appended exactly when it returns. Nothing else changes. |
| `AiController.Controller.QuotaGated` | server/controllers/aiController.js:27-58 | The shared body of the two quota-gated handlers ends in the state `QuotaGatedStep` gives. |
| `AiController.Controller.GenerateArticle` | server/controllers/aiController.js:20-60 | Ends in `QuotaGatedStep` for type `article`, with `max_tokens` equal to the requested length and the "Update" message. |
| `AiController.Controller.GenerateBlogTitle` | server/controllers/aiController.js:62-99 | Ends in `QuotaGatedStep` for type `blog-title`, with `max_tokens` 100 and the "Upgrade" message. |
| `AiController.Controller.GenerateImage` | server/controllers/aiController.js:101-130 | Ends in the state `GenerateImageStep` gives. |
| `AiController.Controller.RemoveImageBackground` | server/controllers/aiController.js:131-159 | Ends in the state `RemoveBackgroundStep` gives. |
| `AiController.Controller.RemoveImageObject` | server/controllers/aiController.js:161-188 | Ends in the state `RemoveObjectStep` gives. |
| `AiController.Controller.ResumeFail` | server/controllers/aiController.js:265-280 | Ends in the state `ResumeCaught` gives. |
| `AiController.Controller.ResumeReview` | server/controllers/aiController.js:190-281 | Ends in the state `ResumeReviewStep` gives. |
| `AiController.Controller.ResumeProcess` | server/controllers/aiController.js:230-263 | Ends in the state `ResumeProcessStep` gives. |
| `JsStrings.StartsWith` | client/src/pages/RemoveObject.jsx:25 | `file.type.startsWith('image/')` holds exactly when the type is `image/` followed by some rest. |
| `JsStrings.StartsWithIncludes` | client/src/pages/RemoveObject.jsx:25 | A string that starts with a prefix also includes it. |
| `JsStrings.Includes` | server/controllers/aiController.js:223 | Every string includes the empty string, and an included part is no longer than the string. |
| `JsStrings.IncludesIffOccurs` | server/controllers/aiController.js:223 | `mimetype.includes("pdf")` holds exactly when some index of the MIME type starts a copy of "pdf". |
| `JsStrings.MissingCharacterExcludes` | server/controllers/aiController.js:223 | A string that lacks one of the characters of `part` does not include `part`. |
| `JsStrings.Lead` | client/src/pages/RemoveObject.jsx:52 | The count of leading characters `trim` removes: all of them are whitespace, and the character after them (if any) is not. |
| `JsStrings.ContentEnd` | client/src/pages/RemoveObject.jsx:52 | Where the trailing whitespace begins: everything from there on is whitespace, and the character before it (if any) is not. |
| `JsStrings.Trim` | client/src/pages/RemoveObject.jsx:52 | `trim()` keeps the contiguous piece after the leading whitespace. Everything cut from either end is whitespace, and the piece neither starts nor ends with whitespace. |
| `JsStrings.TrimEmptyIffAllWhitespace` | client/src/pages/RemoveObject.jsx:52 | `object.trim()` is empty exactly when every character of `object` is whitespace. |
| `JsStrings.TrimIdempotent` | client/src/pages/RemoveObject.jsx:57-68 | Trimming a trimmed name changes nothing. |
| `JsStrings.Split` | client/src/pages/RemoveObject.jsx:57 | `split(' ')` yields at least one piece, and no piece contains the separator. |
| `JsStrings.JoinSplit` | client/src/pages/RemoveObject.jsx:57 | Joining the pieces of a split with the separator gives back the original string. |
| `JsStrings.SplitLength` | client/src/pages/RemoveObject.jsx:57 | A split yields one more piece than there are separators. |
| `JsStrings.CountPositive` | client/src/pages/RemoveObject.jsx:57 | The separator count is positive exactly when the separator occurs. |
| `JsStrings.SplitHasSeveralParts` | client/src/pages/RemoveObject.jsx:57 | `split(' ').length > 1` holds exactly when the string contains a space. |
| `JsStrings.ToLower` | client/src/pages/RemoveObject.jsx:68 | `toLowerCase()` maps each character through the lower-case mapping, so the length is kept (see "## Left out"). |
| `JsStrings.ToLowerProperties` | client/src/pages/RemoveObject.jsx:68 | Lower-casing leaves no ASCII capital, keeps every whitespace character and every space in place, and is idempotent. |
| `RemoveObjectPage.FileProblem` | client/src/pages/RemoveObject.jsx:24-34 | A file is accepted exactly when its type starts with `image/` and its size is at most 5 MB, so exactly 5 MB passes. The type is checked before the size, each with its message. |
| `RemoveObjectPage.ObjectProblem` | client/src/pages/RemoveObject.jsx:52-60 | "Enter an object name" exactly when the name is all whitespace. "Only one object name" exactly when the trimmed name is non-empty and contains a space. Otherwise the name is accepted. |
| `RemoveObjectPage.SubmitProblem` | client/src/pages/RemoveObject.jsx:47-60 | No image is refused first. A submission is accepted exactly when an image is chosen and the trimmed name is non-empty and has no space. |
| `RemoveObjectPage.SubmittedObject` | client/src/pages/RemoveObject.jsx:68 | The sent value `object.trim().toLowerCase()` has the trimmed length. When the name passed the checks, the value is non-empty, has no space, has no whitespace at either end and has no ASCII capital. |
| `RemoveObjectPage.ErrorText` | client/src/pages/RemoveObject.jsx:87 | The error shown is the server's message if there is one, else the error's message, else "Something went wrong". It is never empty. |
| `RemoveObjectPage.SpaceSeparatesNames` | client/src/pages/RemoveObject.jsx:57-60 | "red car" is refused as more than one object name. |
| `RemoveObjectPage.TabDoesNotSeparateNames` | client/src/pages/RemoveObject.jsx:57-60 | "red\tcar" is accepted, because only the space character splits. |
| `RemoveObjectPage.RemoveObjectForm.constructor` | client/src/pages/RemoveObject.jsx:10-15 | The initial state is no input, empty strings, `loading` false and no submissions. |
| `RemoveObjectPage.RemoveObjectForm.HandleFileChange` | client/src/pages/RemoveObject.jsx:20-42 | No file changes nothing. A refused file sets only `error` and keeps the old `input` and preview. An accepted file becomes `input`, clears `error` and sets the preview URL. The chosen image always passes the file checks. |
| `RemoveObjectPage.RemoveObjectForm.SetObject` | client/src/pages/RemoveObject.jsx:158-160 | The text field's change handler sets the object name and nothing else. |
| `RemoveObjectPage.RemoveObjectForm.CheckInput` | client/src/pages/RemoveObject.jsx:47-60 | The checks before the post run in the source's order and return the toast shown, which is exactly `SubmitProblem` of the current input and object name. Nothing changes. |
| `RemoveObjectPage.RemoveObjectForm.OnSubmitHandler` | client/src/pages/RemoveObject.jsx:44-93 | A refused submission changes nothing and sends nothing. An accepted one posts the image with `object.trim().toLowerCase()` and ends with `loading` false. It replaces `content` only when the reply says `success`. It sets `error` to the error text only when the request is rejected, and clears it otherwise. Every request sent holds an accepted image and one lower-case name. |
| `RemoveObjectPage.RemoveObjectForm.Settle` | client/src/pages/RemoveObject.jsx:79-92 | Once the post settles, `content` takes the reply's content only on `success`, and `error` takes the error text only on rejection. `loading` ends false. |
| `RemoveObjectPage.RemoveObjectForm.ResetForm` | client/src/pages/RemoveObject.jsx:104-110 | Clears `input`, `object`, `content`, `previewUrl` and `error`. It leaves `loading` and the submission log alone. |

## Left out

- server/server.js is not part of this model: Express setup, CORS, the authentication middleware, the test route and the listening socket. The middleware that attaches `plan` and `free_usage` to the request is not in the repository's core either. The handlers receive both as a `RequestContext`.
- client/src/components/Navbar.jsx is not part of this model: it is rendering and navigation only.
- The chat-completion API, the text-to-image API, the media store's upload and URL builder, the PDF reader, the SQL insert and the identity provider's metadata update are foreign libraries. Each is a function in `Services` that returns a value or throws. `fs.unlinkSync` on an existing file is one too.
- Base64 encoding of the generated image is left out. The text-to-image service is taken to return the image already encoded.
- The metadata update merges the given `free_usage` into the user's stored private metadata. The model keeps only the `free_usage` counters, so nothing the handlers change is lost.
- The file system is reduced to one flag saying whether the resume file exists. Reading fails with ENOENT when the flag is false or the path is empty, and deletion throws when the file is missing.
- `AiPipeline.ResumeCaught`: `Services.unlink` is a function, so a deletion that failed after the insert is taken to fail again when the catch block retries it. An intermittent failure that succeeds on the retry is not modelled.
- Request values are typed: `free_usage` and `length` are integers, `prompt` and `object` are strings, and `publish` is an optional boolean. The model does not cover `undefined`, `NaN` or other JSON values the source would pass through.
- `JsStrings.ToLower`: lower-cases only the ASCII letters A to Z, one character to one character. JavaScript's `toLowerCase` also lower-cases other Unicode letters, and some of them change the length: "İ" (U+0130) becomes two code units. So the length `ToLower` keeps, and the trimmed length `RemoveObjectPage.SubmittedObject` states, hold only under this approximation.
- Console logging, toasts, the JSX markup, the disabled state of the buttons, and `URL.createObjectURL` / `URL.revokeObjectURL` are left out. `getToken` is not modelled separately: its rejection arrives as a `Rejected` outcome. `sent` then still records the submission, although nothing reached the network. The preview URL is a parameter of `HandleFileChange`.
- `RemoveObjectPage.RemoveObjectForm.OnSubmitHandler`: the moment in the middle of a request when `loading` is true is not observable, because each handler runs as one atomic step. The contract states the state before and after, and the async interleaving between requests is left out.
- `AiPipeline.SessionStaysWithinLimit`: requests by one user are taken one after another, each reading the counter the previous one stored. Concurrent requests are not modelled. With them the counter can go down, and more than ten free generations can be served, though the counter never exceeds 10. Two requests that both read 9 are both admitted and both write 10. A slow request that read 5 writes 6 after a quicker one wrote 7.

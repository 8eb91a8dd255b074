# A LINE-to-Gemini relay, modelled in Dafny

The relay in `app.py` receives LINE message events and handles three kinds.
A text message is turned into a story prompt for Gemini. A sticker is echoed
back. An image is downloaded and staged in the `static` directory as the
only file the `*.jpg` glob lists, and then sent to Gemini with a vision
prompt. The
handlers are meant to send the model's answer back as the reply. As
written they never do, because reading the answer raises (see "Findings").

This project models the three parts of that relay that have behaviour of
their own:

- `prompt.dfy`, module `Prompt`: `gemini_ask`. It builds the content parts
  of the model request, and chooses the vision template exactly when the last
  four characters, lower-cased, are `.jpg`. The model is a function
  parameter. It can answer or raise.
- `staging.dfy`, module `Staging`: the staging step of
  `handle_content_message`, done imperatively. The class `StaticDir` holds
  the directory as a map from file names to contents. `StageImage` writes the
  temporary file, globs `*.jpg`, removes every match in a loop, and renames
  the temporary file. It is proved against the reference function `Staged`.
- `dispatch.dfy`, module `Dispatch`: the event datatype and the three
  handlers. Each handler returns an `Outcome` that records what went to
  `gemini_ask` (if anything) and the reply request, or the exception that
  ended the handler. `HandleEvent` routes one event to its handler.

Some things the code does that a reader may not expect:

- The story request holds only the user's text and the suffix. The story
  preamble is assigned at app.py:162-165 and never used.
- The vision request holds no user text segment.
- Any text message ending in `.jpg` (in any case) takes the vision branch.
- The purge before staging deletes only what the `*.jpg` glob lists. Hidden
  names such as `.thumb.jpg` are not listed. Nor are other letter cases such
  as `photo.JPG`, because the match is case-sensitive on POSIX. Both kinds
  stay in `static`, even though the vision branch accepts `.JPG`.
- The answer is read as `result.contentpip`, which raises, so the text and
  image handlers end in an exception before their reply call. The
  `...AsWritten` members model this; the other handler members use the
  corrected read of `result.content`. See "Findings".

## Model

| member | source | states |
|---|---|---|
| `Prompt.Lower` | app.py:146 | `.lower()` keeps the length and lower-cases each character in place |
| `Prompt.LastN` | app.py:146 | the slice `[-4:]` is the last four characters, or the whole string when it is shorter |
| `Prompt.IsVisionInput` | app.py:146 | when the branch condition holds, the input has at least four characters and its last four, lower-cased, are `.jpg` |
| `Prompt.VisionInputIffJpgEnding` | app.py:146 | the branch condition holds exactly when the input has at least four characters and ends in a dot, then j, p, g in either case (both directions) |
| `Prompt.AnyCaseJpgIsVision` | app.py:146 | any string followed by `.jpg`, `.JPG`, `.Jpg` or any other letter case of it takes the vision branch |
| `Prompt.BuildMessages` | app.py:143-169 | the request has two parts on the vision branch and one otherwise; the first part is always text and any later part is an `image_url` part |
| `Prompt.VisionRequestShape` | app.py:146-160 | a `.jpg` input gives exactly two parts: the fixed text part, then an `image_url` part equal to `"./static/" + input` |
| `Prompt.VisionTextIndependentOfName` | app.py:147-154 | the text part of a vision request is the same fixed instruction for every file name |
| `Prompt.StoryRequestShape` | app.py:161-169 | any other input gives exactly one text part and no image part: the input verbatim with nothing before it (so no preamble), then the fixed suffix |
| `Prompt.StoryOmitsPreamble` | app.py:161-169 | the story request's text is not the unused preamble followed by the input and the suffix |
| `Prompt.BuildMessagesInjective` | app.py:143-169 | different inputs give different requests, so the input reaches the model without loss |
| `Prompt.GetAttr` | app.py:178 | of the two names `gemini_ask` reads from the answer message, `content` exists and returns the answer, and `contentpip` does not and raises `AttributeError` |
| `Prompt.GeminiAskAsWritten` | app.py:143-178 | as written, `gemini_ask` never returns a value: it always ends in an exception, and that exception is the model's own when the model raises |
| `Prompt.AsWrittenNeverAnswers` | app.py:175-178 | as written, `gemini_ask` raises `AttributeError("contentpip")` whenever the model answers |
| `Prompt.GeminiAsk` | app.py:172-178 | with the answer read from `content`, `gemini_ask` succeeds exactly when the model answers, returns the answer's content, and passes on the model's exception otherwise |
| `Staging.TempName` | app.py:116-118 | the temporary file's name is the prefix `jpg-` followed by the random part, with no suffix |
| `Staging.DistName` | app.py:126-127 | `dist_name` is the temporary name followed by `.jpg` |
| `Staging.GlobMatchesByPosition` | app.py:121 | `GlobMatches`, the `*.jpg` glob on one base name, holds exactly when the name has at least four characters, does not start with a dot, and ends in `.jpg` in lower case (case-sensitive; both directions) |
| `Staging.GlobSkipsOtherCasesAndHiddenNames` | app.py:121-123 | the purge does not list a name ending in `.JPG`, although the vision branch accepts it, and does not list a hidden name ending in `.jpg` |
| `Staging.TempNameNotGlobbed` | app.py:116-121 | the temporary file (`jpg-` plus tempfile's random characters, no extension) never matches `*.jpg`, so the purge leaves it alone |
| `Staging.DistNameGlobbed` | app.py:121-127 | the final name always matches `*.jpg` |
| `Staging.Purged` | app.py:121-124 | after the purge exactly the files that do not match `*.jpg` remain, with unchanged contents |
| `Staging.Staged` | app.py:116-128 | after staging the only `*.jpg` name is `dist_name`, it holds the downloaded bytes, every non-`*.jpg` file is unchanged, and nothing else is present |
| `Staging.StagedLeavesOneImage` | app.py:116-128 | after staging the set of `*.jpg` names is exactly `{dist_name}`: every earlier image is gone, and so is the temporary name |
| `Staging.StagedTwiceKeepsSecond` | app.py:116-128 | two staging steps in a row leave only the second image with the second content, and the non-image files as they were at the start |
| `Staging.StaticDir.WriteTemp` | app.py:116-118 | a new file under a name not in use is added with the downloaded content, and nothing else changes |
| `Staging.StaticDir.Glob` | app.py:121 | lists every `*.jpg` file in the directory exactly once and nothing else |
| `Staging.StaticDir.Remove` | app.py:122-123 | removes exactly the named file |
| `Staging.StaticDir.Rename` | app.py:126-128 | moves the content of `src` to `dst` (replacing any `dst`) and removes `src` |
| `Staging.StaticDir.StageImage` | app.py:116-128 | the write-glob-remove-rename sequence leaves the directory equal to `Staged` of the old directory, and returns `dist_name` |
| `Dispatch.AnswerWith` | app.py:130-141 | asks the model about the given input; on an answer it replies with one text message carrying the answer to the event's token; on an exception it sends no reply |
| `Dispatch.AnswerWithAsWritten` | app.py:130-141 | as written, asking the model about an input records that input as the argument of `gemini_ask` and always ends in an exception, never in a reply |
| `Dispatch.AsWrittenNeverReplies` | app.py:130-141 | as written, asking about any input ends with no reply: in `AttributeError("contentpip")` when the model answers, and in the model's own exception when it raises |
| `Dispatch.MessageTextAsWritten` | app.py:82-92 | as written, the text handler passes the message text to `gemini_ask` unchanged and always ends in an exception, never in a reply |
| `Dispatch.AsWrittenHandlersNeverReply` | app.py:82-141 | as written, a text event ends in an exception with no reply, and so does an image event once staged; when the model answers the exception is `AttributeError("contentpip")` |
| `Dispatch.MessageText` | app.py:82-92 | the text handler passes the message text to `gemini_ask` unchanged; when the model answers it replies to the event's token with one text message holding the answer, and when the model raises it sends no reply |
| `Dispatch.HandleSticker` | app.py:94-106 | the sticker handler never calls the model and replies with one sticker whose package and sticker ids equal the event's |
| `Dispatch.StagedNameTakesVisionBranch` | app.py:126-130 | the name `gemini_ask` gets after staging always selects the vision template, whose image reference is `"./static/" + dist_name` |
| `Dispatch.VisionRequestNamesStagedImage` | app.py:126-160 | the file named by the vision request's image reference is the only `*.jpg` left in `static`, and it holds the downloaded bytes |
| `Dispatch.HandleContentMessage` | app.py:108-141 | the image handler stages the downloaded content and then answers about `dist_name` |
| `Dispatch.HandleContentMessageAsWritten` | app.py:108-141 | as written, the image handler stages the downloaded content exactly as `Staged` says, asks about `dist_name`, and ends in an exception with no reply: `AttributeError("contentpip")` when the model answers, the model's own exception when it raises |
| `Dispatch.HandleEventAsWritten` | app.py:82-141 | with the handlers as written, only a sticker event gets a reply; text and image events reach their handlers and, when the model answers, end in `AttributeError("contentpip")`; image events stage as `Staged` says; other kinds are dropped; only image events change `static` |
| `Dispatch.HandleEvent` | app.py:82-141 | text, sticker and image events reach their handlers; other kinds are dropped without a reply; only image events change `static` |

## Left out

- The Flask route, the signature check and the 400 response (app.py:67-80). This is HTTP handling, and the signature check lives inside the LINE SDK.
- Loading the configuration and the startup checks (app.py:34-47, app.py:61-65). This is file I/O and process exit.
- Building the Gemini client and its settings (app.py:49-59). The model is the parameter `llm`, which answers or raises.
- The LINE API calls (app.py:85-92, app.py:113-115, app.py:132-141). The download is the parameter `download`, which always succeeds. A reply is recorded in the `Outcome` and not sent. Failures of these calls are not modelled.
- Real filesystem behaviour. The directory is a map from base names to contents, and full paths, `os.getcwd` and write, delete or rename errors are not modelled. The random part of the temporary name is the parameter `random`. It is required to use tempfile's characters and to give a name not yet in the directory, which is what `NamedTemporaryFile` guarantees.
- Dispatch.AnswerWith, Dispatch.MessageText, Dispatch.HandleContentMessage and Dispatch.HandleEvent model the corrected read of `result.content`, so they reply whenever the model answers. The code as written never replies; `Dispatch.AnswerWithAsWritten`, `Dispatch.MessageTextAsWritten`, `Dispatch.HandleContentMessageAsWritten` and `Dispatch.HandleEventAsWritten` model that. Staging in an image event happens before `gemini_ask` is called, so it is the same in both readings.
- Prompt.GetAttr: gives the answer message only its `content` attribute. A langchain `AIMessage` has more (`type`, `id`, `additional_kwargs`, ...), but `gemini_ask` reads none of them.
- Prompt.Lower: folds only A-Z, while Python's `str.lower` is Unicode-aware. For the `.jpg` comparison this makes no difference. The only character Python lower-cases to several characters is `İ` (U+0130, to `i` plus U+0307), and that result starts with `i`. No character outside `.jpgJPG` lower-cases to `.`, `j`, `p` or `g`. So the comparison with `.jpg` comes out the same.
- Staging.GlobMatches: models `glob` on POSIX, where the match is case-sensitive. On Windows `glob` also lists `X.JPG`, so the purge there would delete other letter cases too.
- Two image events racing on the shared `static` directory. The model covers one handler run at a time.
- `print` and logging, and the unused `last_name` (app.py:129).

## Findings

| source | as written | input that shows it | evidently intended | confidence | as-written member | corrected member |
|---|---|---|---|---|---|---|
| app.py:178 | `return result.contentpip` reads an attribute the answer message does not have, so every call raises `AttributeError`. The text and image handlers then never send a reply. | any text message, for example `a robot who forgets`, with a model that answers | `return result.content` | not executed | `Prompt.AsWrittenNeverAnswers` (about `Prompt.GeminiAskAsWritten`), `Dispatch.AsWrittenHandlersNeverReply` (about `Dispatch.MessageTextAsWritten`), `Dispatch.HandleContentMessageAsWritten` and `Dispatch.HandleEventAsWritten` | `Prompt.GeminiAsk` |

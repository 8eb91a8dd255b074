/** The three message handlers of app.py and the routing the webhook handler
    does between them: text goes to the story prompt, a sticker is echoed
    back, an image is staged and goes to the vision prompt. Downloads, the
    random part of the temporary name and the model are parameters; the
    reply call is recorded, not sent. */
module Dispatch {
  import opened Prompt
  import opened Staging

  datatype Option<T> = None | Some(value: T)

  /** The message inside a message event. Kinds with no registered handler
      (video, audio, location, file) are `OtherContent`. */
  datatype MessageContent =
    | TextContent(text: string)
    | StickerContent(packageId: string, stickerId: string)
    | ImageContent(id: string)
    | OtherContent(kind: string)

  datatype MessageEvent = MessageEvent(replyToken: string, message: MessageContent)

  datatype ReplyMessage =
    | TextMessage(text: string)
    | StickerMessage(packageId: string, stickerId: string)

  datatype ReplyRequest = ReplyRequest(replyToken: string, messages: seq<ReplyMessage>)

  /** What handling one event did: the argument `gemini_ask` was called with
      (if it was), and the reply sent or the exception that ended the handler
      before any reply. */
  datatype Outcome =
    | Replied(asked: Option<string>, request: ReplyRequest)
    | Failed(input: string, error: PyError)
    | Ignored

  /** The argument `gemini_ask` saw, if it was called. */
  function AskedWith(o: Outcome): Option<string>
  {
    match o
    case Replied(a, _) => a
    case Failed(a, _) => Some(a)
    case Ignored => None
  }

  /** The handler's last step once `gemini_ask` has returned or raised: one
      text message with the answer, or no reply. */
  function ReplyWith(replyToken: string, input: string, answer: Result<string>): Outcome
  {
    match answer
    case Ok(a) => Replied(Some(input), ReplyRequest(replyToken, [TextMessage(a)]))
    case Err(e) => Failed(input, e)
  }

  /** Ask the model about `input` and reply with its answer as one text
      message; an exception from the model ends the handler with no reply. */
  function AnswerWith(replyToken: string, input: string, llm: seq<Part> -> Invocation): (o: Outcome)
    ensures AskedWith(o) == Some(input)
    ensures o.Replied? <==> llm(BuildMessages(input)).Answered?
    ensures o.Replied? ==>
              o.request == ReplyRequest(replyToken, [TextMessage(llm(BuildMessages(input)).message.content)])
    ensures o.Failed? ==> o.error == llm(BuildMessages(input)).error
  {
    ReplyWith(replyToken, input, GeminiAsk(llm, input))
  }

  /** The same step over `gemini_ask` as written (reading `contentpip`). */
  function AnswerWithAsWritten(replyToken: string, input: string, llm: seq<Part> -> Invocation): (o: Outcome)
    ensures AskedWith(o) == Some(input)
    ensures o.Failed?
  {
    ReplyWith(replyToken, input, GeminiAskAsWritten(llm, input))
  }

  /** As written, asking about any input never ends in a reply: an answer
      ends in `AttributeError("contentpip")`, a model exception in itself. */
  lemma AsWrittenNeverReplies(replyToken: string, input: string, llm: seq<Part> -> Invocation)
    ensures var o := AnswerWithAsWritten(replyToken, input, llm);
            && !o.Replied?
            && o == Failed(input, match llm(BuildMessages(input))
                                  case Answered(_) => AttributeError("contentpip")
                                  case Raised(e) => e)
  {
    if llm(BuildMessages(input)).Answered? {
      AsWrittenNeverAnswers(llm, input);
    }
  }

  /** `message_text` as written. */
  function MessageTextAsWritten(event: MessageEvent, llm: seq<Part> -> Invocation): (o: Outcome)
    requires event.message.TextContent?
    ensures AskedWith(o) == Some(event.message.text)
    ensures o.Failed?
  {
    AnswerWithAsWritten(event.replyToken, event.message.text, llm)
  }

  /** As written, a text event never gets a reply, and an image event, once
      staged, never gets one either. */
  lemma AsWrittenHandlersNeverReply(event: MessageEvent, random: string, llm: seq<Part> -> Invocation)
    ensures event.message.TextContent? ==>
              && MessageTextAsWritten(event, llm).Failed?
              && MessageTextAsWritten(event, llm).input == event.message.text
    ensures event.message.TextContent? && llm(BuildMessages(event.message.text)).Answered? ==>
              MessageTextAsWritten(event, llm).error == AttributeError("contentpip")
    ensures AnswerWithAsWritten(event.replyToken, DistName(random), llm).Failed?
    ensures llm(BuildMessages(DistName(random))).Answered? ==>
              AnswerWithAsWritten(event.replyToken, DistName(random), llm).error
                == AttributeError("contentpip")
  {
    if event.message.TextContent? {
      AsWrittenNeverReplies(event.replyToken, event.message.text, llm);
    }
    AsWrittenNeverReplies(event.replyToken, DistName(random), llm);
  }

  /** `message_text`: the text goes to `gemini_ask` unchanged and the answer
      is the reply to the event's token. */
  function MessageText(event: MessageEvent, llm: seq<Part> -> Invocation): (o: Outcome)
    requires event.message.TextContent?
    ensures AskedWith(o) == Some(event.message.text)
    ensures o.Replied? <==> llm(BuildMessages(event.message.text)).Answered?
    ensures o.Replied? ==> o.request == ReplyRequest(event.replyToken,
              [TextMessage(llm(BuildMessages(event.message.text)).message.content)])
  {
    AnswerWith(event.replyToken, event.message.text, llm)
  }

  /** `handle_sticker_message`: the same sticker goes back to the sender,
      without a model call. */
  function HandleSticker(event: MessageEvent): (o: Outcome)
    requires event.message.StickerContent?
    ensures AskedWith(o) == None
    ensures o.Replied? && o.request.replyToken == event.replyToken && |o.request.messages| == 1
    ensures o.request.messages[0].StickerMessage?
    ensures o.request.messages[0].packageId == event.message.packageId
    ensures o.request.messages[0].stickerId == event.message.stickerId
  {
    Replied(None, ReplyRequest(event.replyToken,
      [StickerMessage(event.message.packageId, event.message.stickerId)]))
  }

  /** The name handed to `gemini_ask` after staging always selects the vision
      template, whose image reference points at that name in `static`. */
  lemma StagedNameTakesVisionBranch(random: string)
    ensures IsVisionInput(DistName(random))
    ensures BuildMessages(DistName(random)) ==
              [TextPart(VisionText), ImageUrlPart(StaticUrlPrefix + DistName(random))]
  {
    var d := DistName(random);
    assert d[|d| - 4..] == JpgSuffix;
    assert d[|d| - 4] == '.' && d[|d| - 3] == 'j' && d[|d| - 2] == 'p' && d[|d| - 1] == 'g';
    VisionInputIffJpgEnding(d);
  }

  /** The image the vision request refers to is the only `*.jpg` file left
      in `static`, and it holds the downloaded content. */
  lemma VisionRequestNamesStagedImage(before: map<string, Bytes>, random: string, content: Bytes)
    requires IsRandomPart(random)
    requires TempName(random) !in before
    ensures var parts := BuildMessages(DistName(random));
            var after := Staged(before, random, content);
            && |parts| == 2
            && parts[1].ImageUrlPart?
            && |parts[1].imageUrl| >= |StaticUrlPrefix|
            && var name := parts[1].imageUrl[|StaticUrlPrefix|..];
               && JpgNames(after) == {name}
               && after[name] == content
  {
    StagedNameTakesVisionBranch(random);
    StagedLeavesOneImage(before, random, content);
    var url := StaticUrlPrefix + DistName(random);
    assert url[|StaticUrlPrefix|..] == DistName(random);
  }

  /** `handle_content_message`: download, stage, ask about the staged file,
      reply with the answer. */
  method HandleContentMessage(dir: StaticDir, event: MessageEvent, download: string -> Bytes,
                              random: string, llm: seq<Part> -> Invocation)
    returns (o: Outcome)
    requires event.message.ImageContent?
    requires IsRandomPart(random)
    requires TempName(random) !in dir.files
    modifies dir
    ensures dir.files == Staged(old(dir.files), random, download(event.message.id))
    ensures AskedWith(o) == Some(DistName(random))
    ensures o == AnswerWith(event.replyToken, DistName(random), llm)
  {
    var content := download(event.message.id);
    var distName := dir.StageImage(random, content);
    o := AnswerWith(event.replyToken, distName, llm);
  }

  /** `handle_content_message` as written: the staging is the same, and the
      handler then ends in the exception from `gemini_ask`, so no reply. */
  method HandleContentMessageAsWritten(dir: StaticDir, event: MessageEvent, download: string -> Bytes,
                                       random: string, llm: seq<Part> -> Invocation)
    returns (o: Outcome)
    requires event.message.ImageContent?
    requires IsRandomPart(random)
    requires TempName(random) !in dir.files
    modifies dir
    ensures dir.files == Staged(old(dir.files), random, download(event.message.id))
    ensures o.Failed? && o.input == DistName(random)
    ensures llm(BuildMessages(DistName(random))).Answered? ==> o.error == AttributeError("contentpip")
    ensures llm(BuildMessages(DistName(random))).Raised? ==>
              o.error == llm(BuildMessages(DistName(random))).error
  {
    var content := download(event.message.id);
    var distName := dir.StageImage(random, content);
    o := AnswerWithAsWritten(event.replyToken, distName, llm);
    AsWrittenNeverReplies(event.replyToken, distName, llm);
  }

  /** The same routing over the handlers as written: no text or image event
      ever gets a reply. */
  method HandleEventAsWritten(dir: StaticDir, event: MessageEvent, download: string -> Bytes,
                              random: string, llm: seq<Part> -> Invocation)
    returns (o: Outcome)
    requires event.message.ImageContent? ==> IsRandomPart(random) && TempName(random) !in dir.files
    modifies dir
    ensures event.message.TextContent? ==> o == MessageTextAsWritten(event, llm)
    ensures event.message.StickerContent? ==> o == HandleSticker(event)
    ensures event.message.ImageContent? ==>
              && dir.files == Staged(old(dir.files), random, download(event.message.id))
              && o == AnswerWithAsWritten(event.replyToken, DistName(random), llm)
    ensures event.message.OtherContent? ==> o == Ignored
    ensures !event.message.ImageContent? ==> dir.files == old(dir.files)
    ensures o.Replied? <==> event.message.StickerContent?
    ensures (event.message.TextContent? || event.message.ImageContent?) &&
            llm(BuildMessages(AskedWith(o).value)).Answered? ==>
              o.Failed? && o.error == AttributeError("contentpip")
  {
    match event.message
    case TextContent(_) =>
      o := MessageTextAsWritten(event, llm);
      AsWrittenNeverReplies(event.replyToken, event.message.text, llm);
    case StickerContent(_, _) =>
      o := HandleSticker(event);
    case ImageContent(_) =>
      o := HandleContentMessageAsWritten(dir, event, download, random, llm);
      AsWrittenNeverReplies(event.replyToken, DistName(random), llm);
    case OtherContent(_) =>
      o := Ignored;
  }

  /** The webhook handler's routing of one message event to the handler
      registered for its kind; other kinds are dropped without a reply. */
  method HandleEvent(dir: StaticDir, event: MessageEvent, download: string -> Bytes,
                     random: string, llm: seq<Part> -> Invocation)
    returns (o: Outcome)
    requires event.message.ImageContent? ==> IsRandomPart(random) && TempName(random) !in dir.files
    modifies dir
    ensures event.message.TextContent? ==> o == MessageText(event, llm)
    ensures event.message.StickerContent? ==> o == HandleSticker(event)
    ensures event.message.ImageContent? ==>
              && dir.files == Staged(old(dir.files), random, download(event.message.id))
              && o == AnswerWith(event.replyToken, DistName(random), llm)
    ensures event.message.OtherContent? ==> o == Ignored
    ensures !event.message.ImageContent? ==> dir.files == old(dir.files)
  {
    match event.message
    case TextContent(_) =>
      o := MessageText(event, llm);
    case StickerContent(_, _) =>
      o := HandleSticker(event);
    case ImageContent(_) =>
      o := HandleContentMessage(dir, event, download, random, llm);
    case OtherContent(_) =>
      o := Ignored;
  }
}

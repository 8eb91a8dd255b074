/** The prompt builder of the relay: `gemini_ask` in app.py turns one input
    string into the ordered content parts of a single model request, choosing
    the vision template when the input ends in ".jpg" (any letter case) and
    the story template otherwise. The model itself is a parameter. */
module Prompt {

  /** One content part of the human message sent to the model. */
  datatype Part = TextPart(text: string) | ImageUrlPart(imageUrl: string)

  /** The chat model's answer message. Of the two attribute names `gemini_ask`
      reads from it, `content` exists and `contentpip` does not; its other
      attributes are not modelled. */
  datatype AiMessage = AiMessage(content: string)

  /** The Python exceptions that can end a `gemini_ask` call. */
  datatype PyError = AttributeError(name: string) | ModelError(reason: string)

  /** What one `llm.invoke` call does: it answers, or it raises. */
  datatype Invocation = Answered(message: AiMessage) | Raised(error: PyError)

  datatype Result<T> = Ok(value: T) | Err(error: PyError)

  /** The fixed instruction of the vision template (the triple-quoted
      `user_prompt` of the vision branch, with its line breaks and the
      eight-space indentation of the source lines). */
  const VisionPreamble: string :=
    "\n        圖片若是數學題目請幫我解答並講解, 若是文言文請幫我翻譯成白話文, 若是文字不是繁體中文, 請翻譯成繁體中文,\n        如果是沒有文字的圖,請解釋圖片\n        "

  /** The text part of every vision request. */
  const VisionText: string := VisionPreamble + "各個圖片是什麼 ?"

  /** The story-branch `user_prompt`, which the source assigns and never uses. */
  const StoryPreamble: string :=
    "\n        你是一個很會講故事的喜劇演員,你都是用幽默的對談跟有趣的範例來說故事,請使用這個主題「\n        \n        "

  /** What the story template appends to the user's text. */
  const StorySuffix: string := "」來創作一個有趣故事,250個字以內,請一律用繁體中文回答。"

  /** The directory prefix of the image reference. */
  const StaticUrlPrefix: string := "./static/"

  /** `.jpg`: the ending the vision branch looks for (in lower case), and
      the extension `'.' + ext` that image staging appends. */
  const JpgSuffix: string := ".jpg"

  /** Lower-casing of one character; only A-Z change. */
  function LowerChar(c: char): char
  {
    if 'A' <= c <= 'Z' then (c as int - 'A' as int + 'a' as int) as char else c
  }

  /** Python's `s.lower()`, character by character. */
  function Lower(s: string): (r: string)
    ensures |r| == |s|
    ensures forall i :: 0 <= i < |s| ==> r[i] == LowerChar(s[i])
  {
    if s == [] then [] else [LowerChar(s[0])] + Lower(s[1..])
  }

  /** Python's slice `s[-n:]` for n >= 1: the last n characters, or all of
      `s` when it is shorter. */
  function LastN(s: string, n: nat): (r: string)
    requires n > 0
    ensures |r| == if |s| <= n then |s| else n
    ensures r == s[|s| - |r|..]
  {
    if |s| <= n then s else s[|s| - n..]
  }

  /** The branch condition `user_input[-4:].lower() == ".jpg"`. */
  predicate IsVisionInput(s: string)
    ensures IsVisionInput(s) ==> |s| >= |JpgSuffix| && Lower(s[|s| - |JpgSuffix|..]) == JpgSuffix
  {
    Lower(LastN(s, 4)) == JpgSuffix
  }

  /** A reference reading of the branch condition, position by position:
      at least four characters, a dot, then j, p, g in either case. */
  predicate EndsWithJpgAnyCase(s: string)
  {
    && |s| >= 4
    && s[|s| - 4] == '.'
    && s[|s| - 3] in {'j', 'J'}
    && s[|s| - 2] in {'p', 'P'}
    && s[|s| - 1] in {'g', 'G'}
  }

  /** The branch condition is exactly a case-insensitive ".jpg" ending. */
  lemma VisionInputIffJpgEnding(s: string)
    ensures IsVisionInput(s) <==> EndsWithJpgAnyCase(s)
  {
    var t := LastN(s, 4);
    var l := Lower(t);
    if IsVisionInput(s) {
      assert |t| == 4;
      assert l[0] == '.' && l[1] == 'j' && l[2] == 'p' && l[3] == 'g';
      assert t[0] == s[|s| - 4] && t[1] == s[|s| - 3] && t[2] == s[|s| - 2] && t[3] == s[|s| - 1];
    }
    if EndsWithJpgAnyCase(s) {
      assert |t| == 4;
      assert t[0] == s[|s| - 4] && t[1] == s[|s| - 3] && t[2] == s[|s| - 2] && t[3] == s[|s| - 1];
      assert l == [l[0], l[1], l[2], l[3]];
    }
  }

  /** Appending ".jpg", ".JPG", ".Jpg" or any other letter case of it to any
      string selects the vision branch. */
  lemma AnyCaseJpgIsVision(stem: string, ext: string)
    requires |ext| == 4 && Lower(ext) == JpgSuffix
    ensures IsVisionInput(stem + ext)
  {
    var s := stem + ext;
    assert LastN(s, 4) == ext;
  }

  /** The content parts `gemini_ask` hands to the model for `input`. */
  function BuildMessages(input: string): (parts: seq<Part>)
    ensures |parts| == if IsVisionInput(input) then 2 else 1
    ensures parts[0].TextPart?
    ensures forall k :: 1 <= k < |parts| ==> parts[k].ImageUrlPart?
  {
    if IsVisionInput(input) then
      [TextPart(VisionText), ImageUrlPart(StaticUrlPrefix + input)]
    else
      [TextPart(input + StorySuffix)]
  }

  /** A vision request is a text part followed by an image reference into the
      static directory that names the input. */
  lemma VisionRequestShape(input: string)
    requires EndsWithJpgAnyCase(input)
    ensures var parts := BuildMessages(input);
            && |parts| == 2
            && parts[0] == TextPart(VisionText)
            && parts[1] == ImageUrlPart(StaticUrlPrefix + input)
            && parts[1].imageUrl[|StaticUrlPrefix|..] == input
  {
    VisionInputIffJpgEnding(input);
  }

  /** The instruction of a vision request does not depend on the file name. */
  lemma VisionTextIndependentOfName(a: string, b: string)
    requires EndsWithJpgAnyCase(a) && EndsWithJpgAnyCase(b)
    ensures BuildMessages(a)[0] == BuildMessages(b)[0] == TextPart(VisionText)
  {
    VisionInputIffJpgEnding(a);
    VisionInputIffJpgEnding(b);
  }

  /** A story request is one text part: the input verbatim, with nothing
      (in particular not the story preamble) before it, then the fixed suffix. */
  lemma StoryRequestShape(input: string)
    requires !EndsWithJpgAnyCase(input)
    ensures var parts := BuildMessages(input);
            && |parts| == 1
            && parts[0].TextPart?
            && (forall k :: 0 <= k < |parts| ==> !parts[k].ImageUrlPart?)
            && parts[0].text[..|input|] == input
            && parts[0].text[|input|..] == StorySuffix
  {
    VisionInputIffJpgEnding(input);
  }

  /** The story preamble of app.py is not part of the story request. */
  lemma StoryOmitsPreamble(input: string)
    requires !EndsWithJpgAnyCase(input)
    ensures BuildMessages(input)[0].text != StoryPreamble + input + StorySuffix
  {
    VisionInputIffJpgEnding(input);
    assert |StoryPreamble + input + StorySuffix| > |input + StorySuffix|;
  }

  /** Different inputs give different requests, so the request carries the
      input without loss. */
  lemma BuildMessagesInjective(a: string, b: string)
    requires BuildMessages(a) == BuildMessages(b)
    ensures a == b
  {
    if IsVisionInput(a) {
      assert BuildMessages(a)[1].imageUrl[|StaticUrlPrefix|..] == a;
    } else {
      assert BuildMessages(a)[0].text[..|a|] == a;
      assert |a| == |BuildMessages(a)[0].text| - |StorySuffix|;
    }
  }

  /** Python attribute access on the answer message: `content` exists;
      every other name raises, `contentpip` among them (the message's other
      attributes are not modelled). */
  function GetAttr(m: AiMessage, name: string): (r: Result<string>)
    ensures r.Ok? <==> name == "content"
    ensures r.Ok? ==> r.value == m.content
    ensures r.Err? ==> r.error == AttributeError(name)
  {
    if name == "content" then Ok(m.content) else Err(AttributeError(name))
  }

  /** `gemini_ask` as written: the answer is read from `result.contentpip`. */
  function GeminiAskAsWritten(llm: seq<Part> -> Invocation, input: string): (r: Result<string>)
    ensures r.Err?
    ensures llm(BuildMessages(input)).Raised? ==> r.error == llm(BuildMessages(input)).error
  {
    match llm(BuildMessages(input))
    case Raised(e) => Err(e)
    case Answered(m) => GetAttr(m, "contentpip")
  }

  /** As written, `gemini_ask` never returns: whatever the model answers, the
      attribute lookup raises. */
  lemma AsWrittenNeverAnswers(llm: seq<Part> -> Invocation, input: string)
    requires llm(BuildMessages(input)).Answered?
    ensures GeminiAskAsWritten(llm, input) == Err(AttributeError("contentpip"))
  {
  }

  /** `gemini_ask` with the answer read from `result.content`. One model call
      on the built parts; a model error propagates. */
  function GeminiAsk(llm: seq<Part> -> Invocation, input: string): (r: Result<string>)
    ensures r.Ok? <==> llm(BuildMessages(input)).Answered?
    ensures r.Ok? ==> r.value == llm(BuildMessages(input)).message.content
    ensures r.Err? ==> r.error == llm(BuildMessages(input)).error
  {
    match llm(BuildMessages(input))
    case Raised(e) => Err(e)
    case Answered(m) => GetAttr(m, "content")
  }
}

/**
 * The image-to-prompt service: validate the request, require a vision model,
 * load a template, and turn each user message that carries the image marker
 * into a multimodal message with the image URL attached.
 */
module ImageService {
  import opened Base
  import opened LlmTypes
  import opened Templates
  import Seqs

  datatype ImageToPromptRequest = ImageToPromptRequest(
    imageUrl: string,
    modelKey: string,
    templateId: Option<string>,
    instructions: Option<string>)

  datatype ImageToPromptResponse = ImageToPromptResponse(prompt: string, imageUrl: string)

  const EmptyUrl := "图片 URL 不能为空"

  function NoVision(modelKey: string): string {
    "模型 " + modelKey + " 不支持视觉功能"
  }

  /** What the image marker is replaced by. */
  const ImageInstruction := "请从以下图像中提取提示词："
  /** The placeholder for the user's extra instructions. */
  const InstructionsSlot := "{{instructions}}"
  /** What fills the placeholder when there are no instructions. */
  const NoInstructions := "（无额外指令）"
  /** What introduces appended instructions when the template has no placeholder. */
  const ExtraLead := "\n用户额外指令："

  /** `request.templateId || 'image2prompt-general'`. */
  function TemplateIdFor(request: ImageToPromptRequest): (id: string)
    ensures Truthy(request.templateId) ==> id == request.templateId.value
    ensures !Truthy(request.templateId) ==> id == ImageToPromptId
  {
    OrElse(request.templateId, ImageToPromptId)
  }

  /** `request.instructions?.trim()`, with an absent or blank value as `""` (both are falsy). */
  function Instructions(request: ImageToPromptRequest): (r: string)
    ensures request.instructions.None? ==> r == ""
    ensures request.instructions.Some? ==> r == Trim(request.instructions.value)
  {
    if request.instructions.Some? then Trim(request.instructions.value) else ""
  }

  /**
   * The text of a rewritten message: the first image marker becomes the
   * extraction instruction; then the first instructions placeholder, if
   * any, becomes the instructions (or the no-instructions note); with no
   * placeholder, non-empty instructions are appended on a new line.
   */
  function CombinedText(content: string, instructions: string): (r: string)
    ensures var withImage := ReplaceFirst(content, ImageMarker, ImageInstruction);
      && (Contains(withImage, InstructionsSlot) ==>
           r == ReplaceFirst(withImage, InstructionsSlot, if instructions != "" then instructions else NoInstructions))
      && (!Contains(withImage, InstructionsSlot) && instructions != "" ==> r == withImage + ExtraLead + instructions)
      && (!Contains(withImage, InstructionsSlot) && instructions == "" ==> r == withImage)
  {
    var withImage := ReplaceFirst(content, ImageMarker, ImageInstruction);
    var filled :=
      if Contains(withImage, InstructionsSlot) then
        ReplaceFirst(withImage, InstructionsSlot, if instructions != "" then instructions else NoInstructions)
      else withImage;
    if instructions != "" && !Contains(withImage, InstructionsSlot) then filled + ExtraLead + instructions
    else filled
  }

  /** Non-empty instructions always reach the model, through the placeholder or appended. */
  lemma InstructionsIncluded(content: string, instructions: string)
    requires instructions != ""
    ensures Contains(CombinedText(content, instructions), instructions)
  {
    var withImage := ReplaceFirst(content, ImageMarker, ImageInstruction);
    var r := CombinedText(content, instructions);
    if Contains(withImage, InstructionsSlot) {
      ReplaceFirstContains(withImage, InstructionsSlot, instructions);
    } else {
      var k := |withImage + ExtraLead|;
      assert r[k..k + |instructions|] == instructions;
      ContainsAt(r, instructions, k);
    }
  }

  /** The message is rewritten: it is a user message and holds the image marker. */
  predicate Rewritten(m: MessageTemplate) {
    m.role == User && Contains(m.content, ImageMarker)
  }

  /** A rewritten message is a user message of a text part and the image part; any other is copied. */
  function MessageFor(m: MessageTemplate, request: ImageToPromptRequest): (r: Message)
    ensures Rewritten(m) ==> r == Message(User, Parts([
      ContentPart(TextKind, Some(CombinedText(m.content, Instructions(request))), None),
      ContentPart(ImageUrlKind, None, Some(request.imageUrl))]))
    ensures !Rewritten(m) ==> r == Message(m.role, Plain(m.content))
  {
    if Rewritten(m) then
      Message(User, Parts([
        ContentPart(TextKind, Some(CombinedText(m.content, Instructions(request))), None),
        ContentPart(ImageUrlKind, None, Some(request.imageUrl))]))
    else Message(m.role, Plain(m.content))
  }

  function BuildMessages(content: seq<MessageTemplate>, request: ImageToPromptRequest): (ms: seq<Message>)
    ensures |ms| == |content|
    ensures forall i :: 0 <= i < |content| ==> ms[i] == MessageFor(content[i], request)
  {
    Seqs.Map(content, (m: MessageTemplate) => MessageFor(m, request))
  }

  /** Only rewritten messages carry the image, and each carries exactly the request's URL. */
  lemma ImageAttachedOnlyToMarkedMessages(content: seq<MessageTemplate>, request: ImageToPromptRequest)
    ensures forall i :: 0 <= i < |content| ==>
      (BuildMessages(content, request)[i].content.Parts? <==> Rewritten(content[i]))
    ensures forall i :: 0 <= i < |content| && Rewritten(content[i]) ==>
      var parts := BuildMessages(content, request)[i].content.parts;
      |parts| == 2 && parts[0].kind == TextKind && parts[1] == ContentPart(ImageUrlKind, None, Some(request.imageUrl))
    ensures forall i :: 0 <= i < |content| && !Rewritten(content[i]) ==>
      BuildMessages(content, request)[i] == Message(content[i].role, Plain(content[i].content))
  {
  }

  /**
   * The checks, in order: an empty URL, a missing model configuration, a
   * model without vision support, a missing template; then the messages.
   */
  function Prepare(request: ImageToPromptRequest, getModel: string -> Option<TextModelConfig>,
                   getTemplate: string -> Option<Template>): (r: Result<seq<Message>>)
    ensures request.imageUrl == [] ==> r == Err(EmptyUrl)
    ensures request.imageUrl != [] && getModel(request.modelKey).None? ==> r == Err(ModelMissing(request.modelKey))
    ensures
      request.imageUrl != [] && getModel(request.modelKey).Some? && !HasVision(getModel(request.modelKey).value.modelMeta)
      ==> r == Err(NoVision(request.modelKey))
    ensures
      request.imageUrl != [] && getModel(request.modelKey).Some? && HasVision(getModel(request.modelKey).value.modelMeta)
      ==> (getTemplate(TemplateIdFor(request)).None? ==> r == Err(TemplateMissing(TemplateIdFor(request))))
          && (getTemplate(TemplateIdFor(request)).Some? ==>
                r == Ok(BuildMessages(getTemplate(TemplateIdFor(request)).value.content, request)))
  {
    if request.imageUrl == [] then Err(EmptyUrl)
    else match getModel(request.modelKey)
      case None => Err(ModelMissing(request.modelKey))
      case Some(config) =>
        if !HasVision(config.modelMeta) then Err(NoVision(request.modelKey))
        else
          var id := TemplateIdFor(request);
          match getTemplate(id)
          case None => Err(TemplateMissing(id))
          case Some(template) => Ok(BuildMessages(template.content, request))
  }

  /** `imageToPrompt`: after the checks, one LLM call; the answer is trimmed and the URL echoed. */
  function ImageToPrompt(request: ImageToPromptRequest, getModel: string -> Option<TextModelConfig>,
                         getTemplate: string -> Option<Template>,
                         send: (seq<Message>, string) -> Result<string>): (r: Result<ImageToPromptResponse>)
    ensures Prepare(request, getModel, getTemplate).Err? ==> r == Err(Prepare(request, getModel, getTemplate).error)
    ensures Prepare(request, getModel, getTemplate).Ok? ==>
      var sent := send(Prepare(request, getModel, getTemplate).value, request.modelKey);
      (sent.Err? ==> r == Err(sent.error))
      && (sent.Ok? ==> r == Ok(ImageToPromptResponse(Trim(sent.value), request.imageUrl)))
  {
    match Prepare(request, getModel, getTemplate)
    case Err(e) => Err(e)
    case Ok(messages) =>
      match send(messages, request.modelKey)
      case Err(e) => Err(e)
      case Ok(answer) => Ok(ImageToPromptResponse(Trim(answer), request.imageUrl))
  }

  /**
   * A model without vision support is refused before the template is looked
   * up and before the LLM is called: neither lookup affects the outcome.
   */
  lemma VisionGateFirst(request: ImageToPromptRequest, getModel: string -> Option<TextModelConfig>,
                        getTemplate1: string -> Option<Template>, getTemplate2: string -> Option<Template>,
                        send1: (seq<Message>, string) -> Result<string>,
                        send2: (seq<Message>, string) -> Result<string>)
    requires request.imageUrl != [] && getModel(request.modelKey).Some?
    requires !HasVision(getModel(request.modelKey).value.modelMeta)
    ensures ImageToPrompt(request, getModel, getTemplate1, send1) == Err(NoVision(request.modelKey))
    ensures ImageToPrompt(request, getModel, getTemplate1, send1) == ImageToPrompt(request, getModel, getTemplate2, send2)
  {
  }

  /** In the built-in user message, the marker right after the lead line is replaced. */
  lemma BuiltInMarkerReplaced()
    ensures Contains(ImageLead + ImageMarker, ImageMarker)
    ensures ReplaceFirst(ImageLead + ImageMarker, ImageMarker, ImageInstruction) == ImageLead + ImageInstruction
  {
    var user := ImageLead + ImageMarker;
    assert '[' !in ImageLead by {
      assert forall k :: 0 <= k < |ImageLead| ==> ImageLead[k] != '[';
    }
    IndexOfAfter(ImageLead, ImageMarker, "");
    assert user + "" == user;
    assert user[..|ImageLead|] == ImageLead;
    assert user[|ImageLead| + |ImageMarker|..] == "";
  }

  /** The extraction instruction holds no instructions placeholder. */
  lemma NoSlotAfterBuiltIn()
    ensures !Contains(ImageLead + ImageInstruction, InstructionsSlot)
  {
    var withImage := ImageLead + ImageInstruction;
    assert '{' !in withImage by {
      assert forall k :: 0 <= k < |withImage| ==> withImage[k] != '{';
    }
    NotContainsChar(withImage, InstructionsSlot, 0);
  }

  /**
   * With the built-in image-to-prompt template, the system prompt is sent as
   * it is and the user message becomes the lead line and the extraction
   * instruction, followed by the instructions when there are any, with the
   * image attached.
   */
  lemma BuiltInImageMessage(request: ImageToPromptRequest, prompts: SystemPrompts, loadedAt: int)
    ensures var ms := BuildMessages(DefaultTemplates(prompts, loadedAt)[2].content, request);
      var extra := if Instructions(request) != "" then ExtraLead + Instructions(request) else "";
      && |ms| == 2
      && ms[0] == Message(System, Plain(prompts.imageToPrompt))
      && ms[1] == Message(User, Parts([
           ContentPart(TextKind, Some(ImageLead + ImageInstruction + extra), None),
           ContentPart(ImageUrlKind, None, Some(request.imageUrl))]))
  {
    BuiltInMarkerReplaced();
    NoSlotAfterBuiltIn();
    var instructions := Instructions(request);
    assert CombinedText(ImageLead + ImageMarker, instructions)
        == ImageLead + ImageInstruction + (if instructions != "" then ExtraLead + instructions else "");
    var content := DefaultTemplates(prompts, loadedAt)[2].content;
    assert Rewritten(content[1]) && !Rewritten(content[0]);
  }

  /** The error text of a rejected request does not depend on the LLM. */
  lemma RejectedBeforeLlm(request: ImageToPromptRequest, getModel: string -> Option<TextModelConfig>,
                          getTemplate: string -> Option<Template>,
                          send1: (seq<Message>, string) -> Result<string>,
                          send2: (seq<Message>, string) -> Result<string>)
    requires Prepare(request, getModel, getTemplate).Err?
    ensures ImageToPrompt(request, getModel, getTemplate, send1) == ImageToPrompt(request, getModel, getTemplate, send2)
  {
  }
}

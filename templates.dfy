/**
 * Prompt templates: the value types, the three built-in templates the
 * template managers start from, and the normalisation that turns a template
 * whose content is a single string into the message-list form.
 */
module Templates {
  import opened Base
  import opened LlmTypes
  import Seqs

  datatype MessageTemplate = MessageTemplate(role: Role, content: string)

  /**
   * The template kinds. `Optimize` is the kind the web template editor gives
   * a new template; the core's own type lists only the other three.
   */
  datatype TemplateType = Text2Image | Image2Image | Image2Prompt | Optimize

  datatype Language = Zh | En

  datatype TemplateMetadata = TemplateMetadata(
    version: string,
    lastModified: int,
    templateType: TemplateType,
    language: Language)

  datatype Template = Template(
    id: string,
    name: string,
    content: seq<MessageTemplate>,
    metadata: TemplateMetadata)

  /** The error both request services raise when the chosen template does not exist. */
  function TemplateMissing(templateId: string): string {
    "模板 " + templateId + " 不存在"
  }

  const GeneralOptimizeId := "text2image-general-optimize"
  const CreativeOptimizeId := "text2image-creative-optimize"
  const ImageToPromptId := "image2prompt-general"

  /** The text before the placeholder in both text-to-image user messages. */
  const OptimizeLead := "请优化以下提示词：\n"
  /** The image marker the image service looks for in user messages. */
  const ImageMarker := "[图像]"
  /** The text before the image marker in the image-to-prompt user message. */
  const ImageLead := "请从以下图像中提取提示词：\n"

  /** The long system prompts of the three built-ins, which no code inspects. */
  datatype SystemPrompts = SystemPrompts(general: string, creative: string, imageToPrompt: string)

  /** A built-in: one system message and one user message, version 1.0.0, in Chinese. */
  function BuiltIn(id: string, name: string, system: string, user: string, kind: TemplateType,
                   loadedAt: int): Template
  {
    Template(id, name, [MessageTemplate(System, system), MessageTemplate(User, user)],
             TemplateMetadata("1.0.0", loadedAt, kind, Zh))
  }

  /**
   * `getDefaultTemplate()`: the general and creative text-to-image templates,
   * whose user message ends in `{{prompt}}`, then the image-to-prompt template,
   * whose user message ends in the image marker. `loadedAt` is the
   * `Date.now()` read when the module was loaded.
   */
  function DefaultTemplates(prompts: SystemPrompts, loadedAt: int): (r: seq<Template>)
    ensures |r| == 3
    ensures r[0].id == GeneralOptimizeId && r[1].id == CreativeOptimizeId && r[2].id == ImageToPromptId
    ensures forall i, j :: 0 <= i < j < |r| ==> r[i].id != r[j].id
    ensures forall i :: 0 <= i < |r| ==>
      |r[i].content| == 2 && r[i].content[0].role == System && r[i].content[1].role == User
      && r[i].metadata == TemplateMetadata("1.0.0", loadedAt, r[i].metadata.templateType, Zh)
    ensures r[0].content[1].content == OptimizeLead + "{{prompt}}"
    ensures r[1].content[1].content == OptimizeLead + "{{prompt}}"
    ensures r[2].content[1].content == ImageLead + ImageMarker
    ensures r[0].metadata.templateType == Text2Image && r[1].metadata.templateType == Text2Image
    ensures r[2].metadata.templateType == Image2Prompt
  {
    [ BuiltIn(GeneralOptimizeId, "通用自然语言图像优化", prompts.general,
              OptimizeLead + "{{prompt}}", Text2Image, loadedAt),
      BuiltIn(CreativeOptimizeId, "创意解构式图像提示词", prompts.creative,
              OptimizeLead + "{{prompt}}", Text2Image, loadedAt),
      BuiltIn(ImageToPromptId, "图片反推提示词（通用）", prompts.imageToPrompt,
              ImageLead + ImageMarker, Image2Prompt, loadedAt) ]
  }

  /** The ids of the built-in templates. */
  function DefaultIds(): (ids: seq<string>)
    ensures |ids| == 3
    ensures forall prompts, loadedAt, i :: 0 <= i < 3 ==> DefaultTemplates(prompts, loadedAt)[i].id == ids[i]
  {
    [GeneralOptimizeId, CreativeOptimizeId, ImageToPromptId]
  }

  /**
   * A template as the template sources export it: its `content` may be a
   * message array, a single string, or something else; every other field is
   * carried in `rest` untouched.
   */
  datatype RawContent = ArrayContent(messages: seq<MessageTemplate>) | StringContent(text: string) | OtherContent

  datatype RawTemplate<Rest> = RawTemplate(id: string, name: string, content: RawContent, rest: Rest)

  /**
   * `normalizeTemplate`: string content becomes a single user message with
   * that text; array content and any other content are returned as they are.
   */
  function Normalize<Rest>(t: RawTemplate<Rest>): (r: RawTemplate<Rest>)
    ensures r.id == t.id && r.name == t.name && r.rest == t.rest
    ensures !r.content.StringContent?
    ensures t.content.StringContent? ==> r.content == ArrayContent([MessageTemplate(User, t.content.text)])
    ensures !t.content.StringContent? ==> r == t
  {
    match t.content
    case StringContent(text) => t.(content := ArrayContent([MessageTemplate(User, text)]))
    case _ => t
  }

  /** Normalising twice is normalising once. */
  lemma NormalizeIdempotent<Rest>(t: RawTemplate<Rest>)
    ensures Normalize(Normalize(t)) == Normalize(t)
  {
  }

  /**
   * `getAllDefaultTemplates()`: one normalised template per entry of the
   * template table, in table order. The table itself lives in template
   * files that are not part of this model, so it is a parameter.
   */
  function AllDefaultTemplates<Rest>(table: seq<RawTemplate<Rest>>): (r: seq<RawTemplate<Rest>>)
    ensures |r| == |table|
    ensures forall i :: 0 <= i < |table| ==> r[i] == Normalize(table[i])
  {
    Seqs.Map(table, Normalize)
  }

  /** The normalised table holds no string content, and normalising it again changes nothing. */
  lemma AllDefaultTemplatesNormalised<Rest>(table: seq<RawTemplate<Rest>>)
    ensures forall i :: 0 <= i < |table| ==>
      !AllDefaultTemplates(table)[i].content.StringContent?
      && AllDefaultTemplates(table)[i].id == table[i].id
    ensures AllDefaultTemplates(AllDefaultTemplates(table)) == AllDefaultTemplates(table)
  {
    var once := AllDefaultTemplates(table);
    forall i | 0 <= i < |table| ensures AllDefaultTemplates(once)[i] == once[i] {
      NormalizeIdempotent(table[i]);
    }
  }
}

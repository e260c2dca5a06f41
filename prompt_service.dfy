/**
 * The prompt-optimisation service: validate the request, pick a template,
 * substitute the target prompt into every `{{prompt}}` or `{{originalPrompt}}`
 * placeholder, and send the resulting messages to the LLM service.
 */
module PromptService {
  import opened Base
  import opened LlmTypes
  import opened Stream
  import opened Templates
  import Seqs

  datatype OptimizationRequest = OptimizationRequest(
    targetPrompt: string,
    modelKey: string,
    templateId: Option<string>,
    style: Option<string>)

  datatype OptimizationResponse = OptimizationResponse(optimizedPrompt: string, originalPrompt: string, style: string)

  const EmptyPrompt := "目标提示词不能为空"

  /* ---------- The style table ---------- */

  const GeneralStyleId := "image-general-optimize"

  /**
   * `getDefaultTemplateId`: the template id for a style; an unknown style
   * gets the id of `general`, and `design` shares it.
   */
  function StyleTemplateId(style: string): (id: string)
    ensures style == "creative" ==> id == "image-creative-text2image"
    ensures style == "photography" ==> id == "image-photography-optimize"
    ensures style == "chinese-aesthetics" ==> id == "image-chinese-optimize"
    ensures style !in {"creative", "photography", "chinese-aesthetics"} ==> id == GeneralStyleId
  {
    if style == "creative" then "image-creative-text2image"
    else if style == "photography" then "image-photography-optimize"
    else if style == "chinese-aesthetics" then "image-chinese-optimize"
    else GeneralStyleId
  }

  /** `request.style || 'general'`. */
  function StyleOf(request: OptimizationRequest): (style: string)
    ensures Truthy(request.style) ==> style == request.style.value
    ensures !Truthy(request.style) ==> style == "general"
  {
    OrElse(request.style, "general")
  }

  /** An explicit, non-empty template id wins; otherwise the style decides. */
  function TemplateIdFor(request: OptimizationRequest): (id: string)
    ensures Truthy(request.templateId) ==> id == request.templateId.value
    ensures !Truthy(request.templateId) ==> id == StyleTemplateId(StyleOf(request))
  {
    OrElse(request.templateId, StyleTemplateId(StyleOf(request)))
  }

  /**
   * No style maps to a built-in template: every id the style table yields
   * differs from the three built-in ids, so a request without a template id
   * finds a template only if one was saved under the style's id.
   */
  lemma StyleIdsAreNotBuiltIn(style: string)
    ensures StyleTemplateId(style) !in DefaultIds()
  {
    var id := StyleTemplateId(style);
    assert |id| in {22, 25, 26};
    assert |GeneralOptimizeId| == 27 && |CreativeOptimizeId| == 28 && |ImageToPromptId| == 20;
  }

  /* ---------- Placeholder substitution ---------- */

  /** The first index at or after `i` that does not hold whitespace. */
  function SpaceEnd(s: string, i: nat): (e: nat)
    requires i <= |s|
    decreases |s| - i
    ensures i <= e <= |s|
  {
    if i < |s| && IsSpace(s[i]) then SpaceEnd(s, i + 1) else i
  }

  /** A whitespace run from `i` up to a non-space character (or the end) is skipped exactly. */
  lemma {:induction false} SpaceEndOf(s: string, i: nat, a: nat)
    requires i <= a <= |s|
    requires forall j :: i <= j < a ==> IsSpace(s[j])
    requires a == |s| || !IsSpace(s[a])
    ensures SpaceEnd(s, i) == a
    decreases a - i
  {
    if i < a {
      SpaceEndOf(s, i + 1, a);
    }
  }

  /** Where a placeholder name that starts at `a` ends. */
  function NameEnd(s: string, a: nat): (r: Option<nat>)
    ensures r.Some? ==> a < r.value <= |s|
  {
    if HasAt(s, a, "originalPrompt") then Some(a + 14)
    else if HasAt(s, a, "prompt") then Some(a + 6)
    else None
  }

  lemma NameEndOf(s: string, a: nat, name: string)
    requires name == "prompt" || name == "originalPrompt"
    requires HasAt(s, a, name)
    ensures NameEnd(s, a) == Some(a + |name|)
  {
    if name == "prompt" {
      assert s[a] == s[a..a + 6][0] == 'p';
      assert !HasAt(s, a, "originalPrompt") by {
        if a + 14 <= |s| { assert s[a..a + 14][0] == s[a]; }
      }
    }
  }

  /**
   * Where a match of `{{\s*(originalPrompt|prompt)\s*}}` that starts at `i`
   * ends, if there is one. Neither name begins with whitespace, so the
   * greedy whitespace runs never need to give characters back.
   */
  function PlaceholderEnd(s: string, i: nat): (r: Option<nat>)
    requires i <= |s|
    ensures r.Some? ==> i + 4 <= r.value <= |s|
  {
    if !HasAt(s, i, "{{") then None
    else match NameEnd(s, SpaceEnd(s, i + 2))
      case None => None
      case Some(k) =>
        var e := SpaceEnd(s, k);
        if HasAt(s, e, "}}") then Some(e + 2) else None
  }

  /**
   * A placeholder at `i`: the braces, any whitespace up to the name at `a`,
   * any whitespace after it up to the closing braces at `c`.
   */
  predicate PlaceholderAt(s: string, i: nat, a: nat, name: string, c: nat) {
    (name == "prompt" || name == "originalPrompt")
    && i + 2 <= a && a + |name| <= c && c + 2 <= |s|
    && HasAt(s, i, "{{") && HasAt(s, a, name) && HasAt(s, c, "}}")
    && (forall j :: i + 2 <= j < a ==> IsSpace(s[j]))
    && (forall j :: a + |name| <= j < c ==> IsSpace(s[j]))
  }

  /** Every placeholder, whatever whitespace it holds, is matched in full. */
  lemma PlaceholderEndOf(s: string, i: nat, a: nat, name: string, c: nat)
    requires PlaceholderAt(s, i, a, name, c)
    ensures PlaceholderEnd(s, i) == Some(c + 2)
  {
    assert s[a] == s[a..a + |name|][0];
    SpaceEndOf(s, i + 2, a);
    NameEndOf(s, a, name);
    assert s[c] == s[c..c + 2][0];
    SpaceEndOf(s, a + |name|, c);
  }

  /**
   * `s.replace(/{{\s*(originalPrompt|prompt)\s*}}/g, t)` from index `i` on:
   * scanning from the left, each match is replaced by `t` and the scan
   * resumes after it; any other character is copied.
   */
  function SubstituteFrom(s: string, t: string, i: nat): string
    requires i <= |s|
    decreases |s| - i
  {
    if i == |s| then []
    else match PlaceholderEnd(s, i)
      case Some(e) => t + SubstituteFrom(s, t, e)
      case None => [s[i]] + SubstituteFrom(s, t, i + 1)
  }

  function Substitute(s: string, t: string): string {
    SubstituteFrom(s, t, 0)
  }

  /** One scan step at a match. */
  lemma SubstituteMatch(s: string, t: string, i: nat, e: nat)
    requires i < |s| && PlaceholderEnd(s, i) == Some(e)
    ensures SubstituteFrom(s, t, i) == t + SubstituteFrom(s, t, e)
  {
  }

  /** One scan step where no match starts. */
  lemma SubstituteSkip(s: string, t: string, i: nat)
    requires i < |s| && PlaceholderEnd(s, i).None?
    ensures SubstituteFrom(s, t, i) == [s[i]] + SubstituteFrom(s, t, i + 1)
  {
  }

  /** A placeholder is replaced by `t`, and the scan continues right after it. */
  lemma SubstitutePlaceholder(s: string, t: string, i: nat, a: nat, name: string, c: nat)
    requires PlaceholderAt(s, i, a, name, c)
    ensures SubstituteFrom(s, t, i) == t + SubstituteFrom(s, t, c + 2)
  {
    PlaceholderEndOf(s, i, a, name, c);
    SubstituteMatch(s, t, i, c + 2);
  }

  /** No placeholder starts at a character other than `{`. */
  lemma NoPlaceholderWithoutBrace(s: string, i: nat)
    requires i < |s| && s[i] != '{'
    ensures PlaceholderEnd(s, i).None?
  {
    if i + 2 <= |s| {
      assert s[i..i + 2][0] == s[i];
    }
  }

  /** A stretch without `{` is copied unchanged. */
  lemma {:induction false} SubstituteCopies(s: string, t: string, i: nat, j: nat)
    requires i <= j <= |s|
    requires forall k :: i <= k < j ==> s[k] != '{'
    ensures SubstituteFrom(s, t, i) == s[i..j] + SubstituteFrom(s, t, j)
    decreases j - i
  {
    if i < j {
      SubstituteCopies(s, t, i + 1, j);
      CopyStep(s, t, i, j);
    }
  }

  /** Copying one character other than `{` in front of a copied stretch. */
  lemma CopyStep(s: string, t: string, i: nat, j: nat)
    requires i < j <= |s| && s[i] != '{'
    requires SubstituteFrom(s, t, i + 1) == s[i + 1..j] + SubstituteFrom(s, t, j)
    ensures SubstituteFrom(s, t, i) == s[i..j] + SubstituteFrom(s, t, j)
  {
    NoPlaceholderWithoutBrace(s, i);
    SubstituteSkip(s, t, i);
    Seqs.SliceFirst(s, i, j);
    Seqs.AppendAssoc([s[i]], s[i + 1..j], SubstituteFrom(s, t, j));
  }

  /** Text without `{{` is left as it is. */
  lemma {:induction false} SubstituteWithoutPlaceholder(s: string, t: string, i: nat)
    requires i <= |s|
    requires forall k :: i <= k ==> !HasAt(s, k, "{{")
    ensures SubstituteFrom(s, t, i) == s[i..]
    decreases |s| - i
  {
    if i < |s| {
      SubstituteWithoutPlaceholder(s, t, i + 1);
      assert s[i..] == [s[i]] + s[i + 1..];
    }
  }

  /** A whole string without `{{` comes back unchanged. */
  lemma SubstituteUnchanged(s: string, t: string)
    requires !Contains(s, "{{")
    ensures Substitute(s, t) == s
  {
    SubstituteWithoutPlaceholder(s, t, 0);
  }

  /** `{{prompt}}` after any text is a placeholder. */
  lemma PromptPlaceholderAt(lead: string)
    ensures PlaceholderAt(lead + "{{prompt}}", |lead|, |lead| + 2, "prompt", |lead| + 8)
  {
    var n := |lead|;
    assert lead + "{{prompt}}" == lead + "{{" + "prompt}}";
    HasAtMiddle(lead, "{{", "prompt}}");
    assert lead + "{{prompt}}" == (lead + "{{") + "prompt" + "}}";
    HasAtMiddle(lead + "{{", "prompt", "}}");
    assert lead + "{{prompt}}" == (lead + "{{prompt") + "}}" + [];
    HasAtMiddle(lead + "{{prompt", "}}", []);
  }

  /** A lead text without `{` followed by `{{prompt}}` becomes the lead followed by the target prompt. */
  lemma SubstituteAfterLead(lead: string, t: string)
    requires forall k :: 0 <= k < |lead| ==> lead[k] != '{'
    ensures Substitute(lead + "{{prompt}}", t) == lead + t
  {
    var s := lead + "{{prompt}}";
    var n := |lead|;
    assert s[..n] == lead;
    SubstituteCopies(s, t, 0, n);
    PromptPlaceholderAt(lead);
    SubstitutePlaceholder(s, t, n, n + 2, "prompt", n + 8);
    assert s[0..n] == lead;
  }

  /** The standard text-to-image user message becomes the lead line followed by the target prompt. */
  lemma SubstituteOptimizeRequest(t: string)
    ensures Substitute(OptimizeLead + "{{prompt}}", t) == OptimizeLead + t
  {
    SubstituteAfterLead(OptimizeLead, t);
  }

  /** Each template message keeps its role; its text has every placeholder replaced. */
  function BuildMessages(content: seq<MessageTemplate>, target: string): (ms: seq<Message>)
    ensures |ms| == |content|
    ensures forall i :: 0 <= i < |content| ==>
      ms[i].role == content[i].role && ms[i].content == Plain(Substitute(content[i].content, target))
  {
    Seqs.Map(content, (m: MessageTemplate) => Message(m.role, Plain(Substitute(m.content, target))))
  }

  /* ---------- The service ---------- */

  /**
   * The checks both entry points make, in order, and the messages they
   * build: an empty prompt, then a missing model configuration, then a
   * missing template. The model manager and template manager are the
   * lookups `getModel` and `getTemplate`.
   */
  function Prepare(request: OptimizationRequest, getModel: string -> Option<TextModelConfig>,
                   getTemplate: string -> Option<Template>): (r: Result<seq<Message>>)
    ensures request.targetPrompt == [] ==> r == Err(EmptyPrompt)
    ensures request.targetPrompt != [] && getModel(request.modelKey).None? ==>
      r == Err(ModelMissing(request.modelKey))
    ensures
      request.targetPrompt != [] && getModel(request.modelKey).Some? && getTemplate(TemplateIdFor(request)).None?
      ==> r == Err(TemplateMissing(TemplateIdFor(request)))
    ensures
      request.targetPrompt != [] && getModel(request.modelKey).Some? && getTemplate(TemplateIdFor(request)).Some?
      ==> r == Ok(BuildMessages(getTemplate(TemplateIdFor(request)).value.content, request.targetPrompt))
  {
    if request.targetPrompt == [] then Err(EmptyPrompt)
    else if getModel(request.modelKey).None? then Err(ModelMissing(request.modelKey))
    else
      var id := TemplateIdFor(request);
      match getTemplate(id)
      case None => Err(TemplateMissing(id))
      case Some(template) => Ok(BuildMessages(template.content, request.targetPrompt))
  }

  /**
   * `optimizePrompt`: after the checks, one call to the LLM service with the
   * built messages and the request's model key; the answer is trimmed, and
   * the response echoes the prompt and the style (default `general`).
   */
  function OptimizePrompt(request: OptimizationRequest, getModel: string -> Option<TextModelConfig>,
                          getTemplate: string -> Option<Template>,
                          send: (seq<Message>, string) -> Result<string>): (r: Result<OptimizationResponse>)
    ensures Prepare(request, getModel, getTemplate).Err? ==> r == Err(Prepare(request, getModel, getTemplate).error)
    ensures Prepare(request, getModel, getTemplate).Ok? ==>
      var sent := send(Prepare(request, getModel, getTemplate).value, request.modelKey);
      (sent.Err? ==> r == Err(sent.error))
      && (sent.Ok? ==> r == Ok(OptimizationResponse(Trim(sent.value), request.targetPrompt, StyleOf(request))))
  {
    match Prepare(request, getModel, getTemplate)
    case Err(e) => Err(e)
    case Ok(messages) =>
      match send(messages, request.modelKey)
      case Err(e) => Err(e)
      case Ok(answer) => Ok(OptimizationResponse(Trim(answer), request.targetPrompt, StyleOf(request)))
  }

  /**
   * `optimizePromptStream`: the same checks raise before any handler fires;
   * otherwise the LLM service's streaming run, with the handlers forwarded
   * unchanged, is the result.
   */
  function OptimizePromptStream(request: OptimizationRequest, getModel: string -> Option<TextModelConfig>,
                                getTemplate: string -> Option<Template>,
                                stream: (seq<Message>, string) -> StreamRun): (r: StreamRun)
    ensures Prepare(request, getModel, getTemplate).Err? ==>
      r == StreamRun([], Err(Prepare(request, getModel, getTemplate).error))
    ensures Prepare(request, getModel, getTemplate).Ok? ==>
      r == stream(Prepare(request, getModel, getTemplate).value, request.modelKey)
  {
    match Prepare(request, getModel, getTemplate)
    case Err(e) => StreamRun([], Err(e))
    case Ok(messages) => stream(messages, request.modelKey)
  }

  /**
   * A rejected request never reaches the LLM: the outcome does not depend on
   * the LLM service at all, and both entry points reject it with the same
   * message.
   */
  lemma RejectedBeforeLlm(request: OptimizationRequest, getModel: string -> Option<TextModelConfig>,
                          getTemplate: string -> Option<Template>,
                          send1: (seq<Message>, string) -> Result<string>,
                          send2: (seq<Message>, string) -> Result<string>,
                          stream: (seq<Message>, string) -> StreamRun)
    requires request.targetPrompt == [] || getModel(request.modelKey).None?
      || getTemplate(TemplateIdFor(request)).None?
    ensures OptimizePrompt(request, getModel, getTemplate, send1) == OptimizePrompt(request, getModel, getTemplate, send2)
    ensures OptimizePrompt(request, getModel, getTemplate, send1).Err?
    ensures OptimizePromptStream(request, getModel, getTemplate, stream)
         == StreamRun([], Err(OptimizePrompt(request, getModel, getTemplate, send1).error))
  {
  }

  /**
   * With a built-in text-to-image template chosen explicitly, the LLM sees
   * the template's system prompt and then the lead line followed by the
   * target prompt.
   */
  lemma OptimizeWithBuiltIn(request: OptimizationRequest, prompts: SystemPrompts, loadedAt: int,
                            getModel: string -> Option<TextModelConfig>, getTemplate: string -> Option<Template>)
    requires request.targetPrompt != [] && getModel(request.modelKey).Some?
    requires request.templateId == Some(GeneralOptimizeId)
    requires getTemplate(GeneralOptimizeId) == Some(DefaultTemplates(prompts, loadedAt)[0])
    ensures Prepare(request, getModel, getTemplate)
         == Ok([Message(System, Plain(Substitute(prompts.general, request.targetPrompt))),
                Message(User, Plain(OptimizeLead + request.targetPrompt))])
  {
    var content := DefaultTemplates(prompts, loadedAt)[0].content;
    assert TemplateIdFor(request) == GeneralOptimizeId;
    SubstituteOptimizeRequest(request.targetPrompt);
    var ms := BuildMessages(content, request.targetPrompt);
    assert ms[0] == Message(System, Plain(Substitute(prompts.general, request.targetPrompt)));
    assert ms[1] == Message(User, Plain(OptimizeLead + request.targetPrompt));
    assert ms == [ms[0], ms[1]];
    assert Prepare(request, getModel, getTemplate) == Ok(ms);
  }
}

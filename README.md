# text-image-prompt-tools, modelled in Dafny

This project models the core of text-image-prompt-tools. The system turns a
short idea, or an image, into a prompt for a text-to-image model. It resolves
a prompt template and a stored model configuration, substitutes the user's
text into the template, and sends the messages to one of seven interchangeable
LLM providers (OpenAI, Gemini, Anthropic, DeepSeek, SiliconFlow, Zhipu,
Ollama). Answers come back either whole or as a stream of chunks.

The model follows the TypeScript code file by file, one Dafny module per core
file or shared concept:

- **LLM layer.**
  - `LlmTypes` holds the message, provider, model and configuration values.
  - `Registry` is the adapter table.
  - `LlmService` validates a model key and dispatches to the registered adapter.
  - `Stream` is the streaming loop shared by all adapters.
  - `OpenAICompat` is the chat-completions protocol several adapters share.
  - One module per vendor adapter: provider descriptors, static model lists, discovery, message conversion, response shaping and stream filters.
- **Templates and services.**
  - `Templates` holds the three built-in templates and normalisation.
  - `TemplateManagers` has the persistent and in-memory template stores.
  - `PromptService` is template choice, placeholder substitution and the optimisation calls.
  - `ImageService` builds multimodal messages and checks vision support.
- **Storage and history.**
  - `Storage` is the typed adapter over the browser's key-value store.
  - `ModelManagers` and `ConfigHelper` are the model configuration stores.
  - `History` and `ImageCompress` are the history log, with its 50-record cap, thumbnailing and quota retry.
- **Web and UI layer.**
  - `ModelService` wraps the registry.
  - `WebConfig` is the `modelConfigs` record the front end keeps.
  - `AppModels` derives the application's model lists.
  - `ModelSelector` and `ModelSelectorPanel` are the two model pickers; `OptionOrder` is their sort order.
  - `CurrentModelDisplay` is the header badge.
  - `ModelConfig` is the configuration editor, with legacy migration, instances and save.
  - `TemplateEditor` is the template editor.
- **Dictionaries and arrays.** A JavaScript `Map`, or an object used as a dictionary, is the insertion-ordered dictionary `Keyed.Dict`. `Seqs` gives `filter` and `map`.

**Modelling approach.**
- Objects whose methods change their fields are classes:
  - the storage adapter;
  - the template, model and history managers;
  - the registry;
  - the UI components' state: the pickers, the configuration editor and the template editor.
- Loops that build lists are methods with loop invariants. Each is proved equal to a specification function, and the properties are lemmas about that function.
- Vendor SDK calls, `fetch`, the canvas thumbnailer, `confirm`, `Date.now` and `Math.random` become parameters: oracle functions or plain values. The same goes for whether a storage read or write fails.
- JSON encoding is an abstract codec whose decoder may fail. Some lemmas assume that it round-trips.

**Where the code and the intended behaviour differ, the model follows the code.**
- `getDefaultTemplateId` (packages/core/src/services/prompt/service.ts:116-125) maps styles to `image-*` ids. These are not the ids of the built-in templates (`text2image-general-optimize`, `text2image-creative-optimize`, `image2prompt-general`). So a request that names no template and relies on its style gets the template-missing error unless the user saved a template under that id. `PromptService.StyleIdsAreNotBuiltIn` states this.
- The LLM service rejects only an empty model key, not a blank one (packages/core/src/services/llm/service.ts:53-55).

## Model

| member | source | states |
|---|---|---|
| ConfigHelper.CreateModelConfig | packages/core/src/services/model/config-helper.ts:6-29 | the id is `<provider>-<model>`; the name is the given non-empty name, else `<provider name> <model name>`; enabled unless the flag is explicitly false; provider, model, connection and parameters are passed through |
| ConfigHelper.CreatedConfigKeepsModel | packages/core/src/services/model/config-helper.ts:20-28 | a built configuration's id starts with `<provider>-`, it keeps the model's vision capability, and without options it is enabled |
| ConfigHelper.CreateDefaultModelConfigs | packages/core/src/services/model/config-helper.ts:34-48 | whatever key the environment holds, the list is empty |
| Fetch.HttpError | packages/core/src/services/llm/adapters/gemini-adapter.ts:110-113 | a non-OK discovery response raises a message starting `HTTP ` |
| LlmTypes.ImagePayload | packages/core/src/services/llm/adapters/gemini-adapter.ts:198 | `split(',')[1] \|\| url`: the text after the first comma when there is one and it is non-empty, otherwise the whole URL; a URL without a comma is kept whole |
| LlmTypes.ImagePayloadOfDataUri | packages/core/src/services/llm/adapters/anthropic-adapter.ts:157 | a base64 data URI is cut to exactly its payload |
| Templates.DefaultTemplates | packages/core/src/services/template/default-templates/index.ts:9-15 | three templates with distinct ids, in the order general, creative, image-to-prompt; each holds a system and a user message, version 1.0.0, language zh; the two text-to-image user messages end in `{{prompt}}`, the image one in the image marker |
| Templates.DefaultIds | packages/core/src/services/template/default-templates/text2image-general-optimize.ts:4 | the three built-in ids, position by position those of the built-in templates for every prompt text and load time |
| Templates.Normalize | packages/core/src/services/default-templates/index.ts:19-40 | string content becomes one user message with that text; any other template is returned unchanged; id, name and the other fields are kept |
| Templates.NormalizeIdempotent | packages/core/src/services/default-templates/index.ts:19-40 | normalising twice is normalising once |
| Templates.AllDefaultTemplates | packages/core/src/services/default-templates/index.ts:55-57 | one normalised template per table entry, in table order |
| Templates.AllDefaultTemplatesNormalised | packages/core/src/services/default-templates/index.ts:55-57 | no template of the result has string content, ids are kept, and normalising the result again changes nothing |
| AppModels.StripProviderPrefix | packages/web/src/App.tsx:226-232 | removes one leading `<provider>-`, else `<provider>_`, else `<provider>/`; an id with none of those prefixes is unchanged |
| AppModels.ModelPart | packages/web/src/App.tsx:234-251 | a non-empty id gives a non-empty model part; a part with '/' can only be the whole id (the fallback); an unprefixed id without '/' or ':' is shown as it is |
| AppModels.LastSegmentOf | packages/web/src/App.tsx:235-238 | a path ending in a segment without '/' is shown as that segment |
| AppModels.QuantNameOf | packages/web/src/App.tsx:241-248 | `base:quant` with one ':' past index 0 is shown as `base (quant)` |
| AppModels.FormatPrefixedPlainId | packages/web/src/App.tsx:218-254 | `<provider>-<name>` with a plain name is shown as `<label> - <name>` |
| AppModels.FormatPathWithQuant | packages/web/src/App.tsx:218-254 | an unprefixed path ending in `base:quant` is shown as `<label> - base (quant)` |
| AppModels.StoredVision | packages/web/src/App.tsx:313-318 | the vision flag is read under the trimmed id, else under the id as stored, and is absent exactly when neither key has a record |
| AppModels.IdChoices | packages/web/src/App.tsx:292-327 | the inner loop yields one choice per non-blank id, in order, equal to the choices of the instance's entries |
| AppModels.InstanceChoices | packages/web/src/App.tsx:284-329 | the middle loop yields the choices of every listed instance's entries, in order |
| AppModels.GetAvailableModels | packages/web/src/App.tsx:258-339 | no record gives no choices; otherwise the result is exactly the record's entries mapped to choices, provider by provider and instance by instance |
| AppModels.IdVisionChoices | packages/web/src/App.tsx:376-402 | the inner loop keeps a non-blank id when its record says vision or it has no record, in order |
| AppModels.InstanceVisionChoices | packages/web/src/App.tsx:367-404 | the middle loop yields the vision choices of every listed instance, in order |
| AppModels.GetVisionModels | packages/web/src/App.tsx:341-417 | no record gives no choices; otherwise exactly the record's entries that pass the vision rule, mapped to choices |
| AppModels.VisionAmongAvailable | packages/web/src/App.tsx:381-399 | every vision choice appears among the available choices with the same id and display name |
| AppModels.VisionKeepsUnknown | packages/web/src/App.tsx:381-384 | an entry with no capability record is listed for vision; one whose record says no is not |
| AppModels.LegacyEntries | packages/web/src/App.tsx:270-282 | an older-format record with one non-blank model and no model list becomes one `default` instance with that model |
| AppModels.LegacyModelListed | packages/web/src/App.tsx:270-330 | such a record lists exactly that model, trimmed, under its store id and display name |
| WebConfig.LegacyInstance | packages/web/src/App.tsx:272-281 | an older-format record stands for one instance with id `default` and the default name, its key, base URL and capability record, and its model list, else its single model, else no model |
| WebConfig.ListedInstances | packages/web/src/App.tsx:265-282 | a non-object value has no instances; a stored instance array is taken as it is, even when empty; an older-format record gives its one legacy instance; any other record gives none |
| WebConfig.ModelIdsOf | packages/web/src/App.tsx:285-287 | a non-empty model list is used as it is; otherwise the trimmed single model when it is not blank; otherwise no ids |
| WebConfig.ShownName | packages/web/src/App.tsx:306-308 | a non-empty instance name other than the two default names is put before the display name, joined by ` - `; otherwise the name is unchanged |
| WebConfig.StoreId | packages/web/src/App.tsx:297-301 | an id that starts with `<provider>-` or contains '/' or ':' is kept; any other id gets the `<provider>-` prefix |
| WebConfig.StoreIdIdempotent | packages/web/src/App.tsx:297-301 | the id rule applied to its own result changes nothing, and every result carries the prefix or a '/' or ':' |
| WebConfig.IdEntriesAreNonBlankIds | packages/web/src/App.tsx:292-295 | the id loop is a filter then a map: the non-blank ids in order, each paired with its provider and instance |
| WebConfig.IdEntriesListed | packages/web/src/App.tsx:292-295 | every entry of the id loop belongs to its provider and instance and has a non-blank id taken from the list |
| WebConfig.InstanceEntriesListed | packages/web/src/App.tsx:284-292 | every entry of a provider comes from one of its instances that has a model id and a usable key (absent, empty or non-blank) |
| WebConfig.EntriesListed | packages/web/src/App.tsx:266-292 | every entry of a record comes from one of its provider keys and from a listed instance of that key's value, under one of its non-blank model ids |
| OptionOrder.SortOptions | packages/ui/src/components/ModelSelector.tsx:244-249 | the sorted list is a permutation of the options (same multiset, same length) |
| OptionOrder.SortOptionsSorted | packages/web/src/components/ModelSelectorPanel.tsx:179-184 | the sorted list is ordered by provider label, then by display name within one label |
| OptionOrder.SortKeepsIds | packages/ui/src/components/ModelSelector.tsx:244-249 | sorting neither adds nor drops an option id |
| CurrentModelDisplay.SplitSelection | packages/web/src/components/CurrentModelDisplay.tsx:42-49 | there is no split exactly when the value has no '-' or starts with one; otherwise the two parts joined by '-' give the value back, and the provider part is non-empty and has no '-' |
| CurrentModelDisplay.ShownModelName | packages/web/src/components/CurrentModelDisplay.tsx:52-55 | a model part that starts with `<provider>-` is shown without that prefix; any other is shown unchanged |
| CurrentModelDisplay.LoadCurrentModel | packages/web/src/components/CurrentModelDisplay.tsx:32-61 | a missing or empty value shows nothing; otherwise a model is shown exactly when the value splits, with a non-empty provider free of '-' that prefixes the value and its label, else the id |
| CurrentModelDisplay.SplitJoin | packages/web/src/components/CurrentModelDisplay.tsx:42-49 | joining a provider without '-' to any model part and parsing again gives both parts back |
| CurrentModelDisplay.NoModelWithoutProvider | packages/web/src/components/CurrentModelDisplay.tsx:42-46 | a value without '-' or starting with '-' shows no model |
| CurrentModelDisplay.ShowsModelPart | packages/web/src/components/CurrentModelDisplay.tsx:48-61 | `<provider>-<model>` shows the provider's label and the model part, without a repeated `<provider>-` prefix |
| Storage.Stored | packages/core/src/services/storage/types.ts:17-23 | a failed read, a missing key or an empty string gives no value; a value, when there is one, is the decoding of what is stored under the key |
| Storage.ReadValue | packages/core/src/services/storage/types.ts:17-28 | the stored value when there is one, otherwise the caller's default |
| Storage.StorageAdapter.constructor | packages/core/src/services/storage/types.ts:15 | the adapter starts over the provider's items |
| Storage.StorageAdapter.GetData | packages/core/src/services/storage/types.ts:17-28 | the read never fails: it returns the stored value or the default |
| Storage.StorageAdapter.SetData | packages/core/src/services/storage/types.ts:30-37 | a successful write stores the encoded value under the key and changes nothing else; a provider failure is rethrown and nothing is written |
| Storage.StorageAdapter.UpdateData | packages/core/src/services/storage/types.ts:39-46 | the updater receives the stored value or none, and its result is written as by `setData` |
| Storage.StorageAdapter.RemoveData | packages/core/src/services/storage/types.ts:48-50 | the key is removed and every other key is kept |
| Storage.SetThenGet | packages/core/src/services/storage/types.ts:17-37 | a value whose encoding is non-empty and decodes back is read back as written |
| Storage.OtherKeysUnchanged | packages/core/src/services/storage/types.ts:30-50 | writing or removing one key leaves every other key's reads unchanged |
| Storage.RemoveThenGet | packages/core/src/services/storage/types.ts:17-50 | after removing a key, reading it gives the default |
| Storage.FailedReadsGiveDefault | packages/core/src/services/storage/types.ts:24-27 | a failed read or a value that does not decode yields the default, never an error |
| Registry.TextAdapterRegistry.constructor | packages/core/src/services/llm/registry.ts:13 | a new registry holds no adapters |
| Registry.TextAdapterRegistry.Register | packages/core/src/services/llm/registry.ts:18-21 | the adapter is stored under its provider id, replacing an earlier one; afterwards that id finds it and every other id finds what it found before |
| Registry.TextAdapterRegistry.GetAdapter | packages/core/src/services/llm/registry.ts:26-32 | succeeds exactly for a registered id, with that adapter; otherwise fails with `Provider adapter not found: <id>` |
| Registry.TextAdapterRegistry.GetProvider | packages/core/src/services/llm/registry.ts:37-40 | present exactly for a registered id, as that adapter's provider; never an error |
| Registry.TextAdapterRegistry.GetStaticModels | packages/core/src/services/llm/registry.ts:45-51 | the adapter's static list, or the empty list for an unknown id |
| Registry.TextAdapterRegistry.GetModels | packages/core/src/services/llm/registry.ts:56-84 | an unknown id fails; without a dynamic provider, a config and a discovery call the list is empty; otherwise the discovery's result, its errors rethrown |
| Registry.LookupsAgree | packages/core/src/services/llm/registry.ts:26-60 | an id has an adapter exactly when it has a provider, the two agree, and an unknown id gives no static models and a failing discovery |
| Registry.RegisterTwice | packages/core/src/services/llm/registry.ts:18-21 | registering two adapters under one provider id keeps only the later one |
| LlmService.ResolveAdapter | packages/core/src/services/llm/service.ts:53-62 | an empty key fails with the empty-provider error before any lookup; a key without a stored configuration fails with `模型 <key> 不存在`; otherwise the adapter of the configuration's provider, or the registry's not-found error |
| LlmService.SendMessageStructured | packages/core/src/services/llm/service.ts:49-64 | the same three failures, in that order; otherwise exactly the adapter's response for the stored configuration, errors included |
| LlmService.SendMessage | packages/core/src/services/llm/service.ts:38-44 | succeeds exactly when the structured call does, with its `content`; otherwise with its error |
| LlmService.SendMessageStream | packages/core/src/services/llm/service.ts:69-85 | a validation failure raises before the adapter runs, so no handler fires; otherwise the adapter's streaming run |
| LlmService.EntryPointsValidateAlike | packages/core/src/services/llm/service.ts:53-83 | both entry points reject an invalid request with the same message and call no adapter |
| Stream.TraceWellFormed | packages/core/src/services/llm/adapters/openai-adapter.ts:307-318 | non-empty chunks closed by an error, or by completion with their concatenation, form a well-formed handler trace |
| Stream.ExpectedRun | packages/core/src/services/llm/adapters/openai-adapter.ts:307-318 | the trace is well formed; the run succeeds exactly when the stream does not raise; the chunks are the non-empty texts delivered before the stream stops; completion carries their concatenation, a failure fires `onError` with the stream's error and rethrows it |
| Stream.RunStream | packages/core/src/services/llm/adapters/gemini-adapter.ts:270-281 | the `for await` loop with its `try`/`catch` produces exactly the expected run |
| OpenAICompat.RequestFor | packages/core/src/services/llm/adapters/openai-adapter.ts:236-258 | the request carries the key and the parameters; the base URL is the configured one when non-empty, else the vendor default; the model, messages and stream flag as sent are the adapter's own unless llmParams names `model`, `messages` or `stream`, whose value then wins because it is spread last |
| OpenAICompat.CopyUsage | packages/core/src/services/llm/adapters/openai-adapter.ts:267-273 | the usage triple is present exactly when the vendor sent one, and copies its three counts |
| OpenAICompat.ShapeResponse | packages/core/src/services/llm/adapters/openai-adapter.ts:260-274 | fails with `No response from <vendor>` exactly when the first choice or its message is missing; otherwise the message content, null read as '', with the usage triple |
| OpenAICompat.DeltaText | packages/core/src/services/llm/adapters/openai-adapter.ts:309 | the first choice's delta content, or '' when there is no choice, no delta or no content |
| OpenAICompat.StreamChat | packages/core/src/services/llm/adapters/openai-adapter.ts:288-319 | the run is the shared loop's expected run over the chunks' delta texts, and its trace is well formed |
| OpenAICompat.Flatten | packages/core/src/services/llm/adapters/deepseek-adapter.ts:149-152 | roles are kept; string content is kept; multimodal content is replaced by its JSON serialisation |
| OpenAIAdapter.Provider | packages/core/src/services/llm/adapters/openai-adapter.ts:15-31 | id `openai`, name `OpenAI`, a key is required, models are discovered, default base URL `https://api.openai.com/v1` |
| OpenAIAdapter.StaticModels | packages/core/src/services/llm/adapters/openai-adapter.ts:36-114 | seven models, all under provider `openai` |
| OpenAIAdapter.AsAdapter | packages/core/src/services/llm/adapters/openai-adapter.ts:119-128 | the registry entry has this provider, this static list and a discovery call |
| OpenAIAdapter.ListedVision | packages/core/src/services/llm/adapters/openai-adapter.ts:167-173 | the discovery vision test, with its redundant `qwen` clause, equals the plain guess: 'vision', 'vl', '4' or 'llava' in the lowercased id |
| OpenAIAdapter.BuildDefaultModel | packages/core/src/services/llm/adapters/openai-adapter.ts:212-230 | a descriptor named after the id, under `openai`, with tools, the vision guess and 128000 tokens |
| OpenAIAdapter.ListApiKey | packages/core/src/services/llm/adapters/openai-adapter.ts:129-134 | the configured key when non-empty, else `lm-studio` for a custom base URL, else '' |
| OpenAIAdapter.KeptIds | packages/core/src/services/llm/adapters/openai-adapter.ts:154-163 | every listed id for a custom base URL; only the ids containing `gpt`, in order, for the default URL |
| OpenAIAdapter.ListedModel | packages/core/src/services/llm/adapters/openai-adapter.ts:164-186 | a discovered model is named and described by its id, under `openai`, with tools, the vision guess and 128000 tokens |
| OpenAIAdapter.ListError | packages/core/src/services/llm/adapters/openai-adapter.ts:202-208 | the error's message or `获取模型列表失败`, followed by ` (HTTP n)` exactly when a status is known |
| OpenAIAdapter.GetModelsAsync | packages/core/src/services/llm/adapters/openai-adapter.ts:128-210 | the listing goes to the resolved URL with the resolved key; a failure raises the list error; otherwise the kept ids mapped to models, in order |
| OpenAIAdapter.SendMessage | packages/core/src/services/llm/adapters/openai-adapter.ts:232-275 | messages are sent as they are; an SDK error propagates; otherwise the reply is shaped |
| OpenAIAdapter.SendMessageStream | packages/core/src/services/llm/adapters/openai-adapter.ts:277-319 | the run is the shared loop over the delta texts of the stream opened for the request |
| DeepSeekAdapter.Provider | packages/core/src/services/llm/adapters/deepseek-adapter.ts:15-30 | id `deepseek`, a key is required, models are discovered, default base URL `https://api.deepseek.com/v1` |
| DeepSeekAdapter.StaticModels | packages/core/src/services/llm/adapters/deepseek-adapter.ts:35-69 | three models under `deepseek`, none with vision, each with 128000 tokens |
| DeepSeekAdapter.AsAdapter | packages/core/src/services/llm/adapters/deepseek-adapter.ts:74-83 | the registry entry has this provider, this static list and a discovery call |
| DeepSeekAdapter.BuildDefaultModel | packages/core/src/services/llm/adapters/deepseek-adapter.ts:124-136 | a descriptor named after the id, under `deepseek`, without tools or vision, with 64000 tokens |
| DeepSeekAdapter.ListedModel | packages/core/src/services/llm/adapters/deepseek-adapter.ts:97-110 | a discovered model has tools exactly when its id contains `chat`, reasoning exactly when it contains `reasoner`, never vision, and 128000 tokens |
| DeepSeekAdapter.GetModelsAsync | packages/core/src/services/llm/adapters/deepseek-adapter.ts:83-122 | a listing failure is rethrown unchanged; otherwise the listed ids containing `deepseek`, in order, mapped to models; every result id contains `deepseek` |
| DeepSeekAdapter.ListingKeepsOrder | packages/core/src/services/llm/adapters/deepseek-adapter.ts:95-96 | an id without `deepseek` is dropped wherever it stands, and the other ids keep their order |
| DeepSeekAdapter.SendMessage | packages/core/src/services/llm/adapters/deepseek-adapter.ts:138-171 | multimodal content is sent as its JSON string; an SDK error propagates; otherwise the reply is shaped, with `No response from DeepSeek` for a missing message |
| DeepSeekAdapter.SendMessageStream | packages/core/src/services/llm/adapters/deepseek-adapter.ts:173-210 | the run is the shared loop over the delta texts of the stream opened for the flattened request |
| SiliconFlowAdapter.Provider | packages/core/src/services/llm/adapters/siliconflow-adapter.ts:15-30 | id `siliconflow`, a key is required, models are discovered, with the vendor's default base URL |
| SiliconFlowAdapter.StaticModels | packages/core/src/services/llm/adapters/siliconflow-adapter.ts:35-80 | four models, each under `siliconflow` without tools or vision and with 128000 tokens |
| SiliconFlowAdapter.AsAdapter | packages/core/src/services/llm/adapters/siliconflow-adapter.ts:85-94 | the registry entry has this provider, this static list and a discovery call |
| SiliconFlowAdapter.BuildDefaultModel | packages/core/src/services/llm/adapters/siliconflow-adapter.ts:129-141 | a descriptor named and described by the id, without tools or vision, with 128000 tokens |
| SiliconFlowAdapter.ListedModel | packages/core/src/services/llm/adapters/siliconflow-adapter.ts:106-116 | a discovered model is the same descriptor a default-built one is |
| SiliconFlowAdapter.GetModelsAsync | packages/core/src/services/llm/adapters/siliconflow-adapter.ts:94-127 | a listing failure is rethrown unchanged; otherwise every listed id, in order, as the default descriptor of that id: a plain text model whose id, name and description are the id |
| SiliconFlowAdapter.SendMessage | packages/core/src/services/llm/adapters/siliconflow-adapter.ts:143-176 | multimodal content is sent as its JSON string; an SDK error propagates; otherwise the reply is shaped |
| SiliconFlowAdapter.SendMessageStream | packages/core/src/services/llm/adapters/siliconflow-adapter.ts:178-215 | the run is the shared loop over the delta texts of the stream opened for the flattened request |
| ZhipuAdapter.Provider | packages/core/src/services/llm/adapters/zhipu-adapter.ts:15-30 | id `zhipu`, a key is required, models are discovered, with the vendor's default base URL |
| ZhipuAdapter.StaticModels | packages/core/src/services/llm/adapters/zhipu-adapter.ts:35-91 | five models under `zhipu`, each with tools and 128000 tokens |
| ZhipuAdapter.StaticModelsFollowVisionRule | packages/core/src/services/llm/adapters/zhipu-adapter.ts:35-91 | every built-in model's vision flag agrees with the id rule: `glm-4` without `air` |
| ZhipuAdapter.VisionWithoutA | packages/core/src/services/llm/adapters/zhipu-adapter.ts:118 | an id starting with `glm-4` and without any 'a' has vision |
| ZhipuAdapter.VisionWithoutI | packages/core/src/services/llm/adapters/zhipu-adapter.ts:118 | an id starting with `glm-4` and without any 'i' has vision |
| ZhipuAdapter.AirLacksVision | packages/core/src/services/llm/adapters/zhipu-adapter.ts:118 | an id with `air` at position 6, such as `glm-4-air`, has no vision |
| ZhipuAdapter.AsAdapter | packages/core/src/services/llm/adapters/zhipu-adapter.ts:96-105 | the registry entry has this provider, this static list and a discovery call |
| ZhipuAdapter.BuildDefaultModel | packages/core/src/services/llm/adapters/zhipu-adapter.ts:145-157 | a descriptor named after the id, under `zhipu`, with tools, the id rule for vision and 128000 tokens |
| ZhipuAdapter.ListedModel | packages/core/src/services/llm/adapters/zhipu-adapter.ts:116-129 | a discovered model is described by its id and has the capabilities of a default-built one |
| ZhipuAdapter.GetModelsAsync | packages/core/src/services/llm/adapters/zhipu-adapter.ts:105-143 | a listing failure is rethrown unchanged; otherwise every listed id, in order, mapped to a model |
| ZhipuAdapter.SendMessage | packages/core/src/services/llm/adapters/zhipu-adapter.ts:159-192 | multimodal content is sent as its JSON string; an SDK error propagates; otherwise the reply is shaped |
| ZhipuAdapter.SendMessageStream | packages/core/src/services/llm/adapters/zhipu-adapter.ts:194-231 | the run is the shared loop over the delta texts of the stream opened for the flattened request |
| OllamaAdapter.Provider | packages/core/src/services/llm/adapters/ollama-adapter.ts:15-29 | id `ollama`, no key required, models are discovered, default base URL `http://127.0.0.1:11434/v1` |
| OllamaAdapter.Vision | packages/core/src/services/llm/adapters/ollama-adapter.ts:157-161 | the four-clause vision test holds exactly when the id contains `vision` or `llava` |
| OllamaAdapter.LongVisionTagsContainVision | packages/core/src/services/llm/adapters/ollama-adapter.ts:160-161 | the `qwen2.5-vision` and `llama3.2-vision` clauses are covered by the `vision` clause |
| OllamaAdapter.StaticModels | packages/core/src/services/llm/adapters/ollama-adapter.ts:34-112 | seven models under `ollama`, none with tools, each with 128000 tokens |
| OllamaAdapter.StaticModelsFollowVisionRule | packages/core/src/services/llm/adapters/ollama-adapter.ts:34-112 | every built-in model's vision flag is what the id rule gives |
| OllamaAdapter.NoVisionWithoutV | packages/core/src/services/llm/adapters/ollama-adapter.ts:184-188 | an id without any 'v' has no vision |
| OllamaAdapter.VisionAt | packages/core/src/services/llm/adapters/ollama-adapter.ts:185 | an id containing `vision` anywhere has vision |
| OllamaAdapter.LlavaIsVision | packages/core/src/services/llm/adapters/ollama-adapter.ts:186 | an id starting with `llava` has vision |
| OllamaAdapter.AsAdapter | packages/core/src/services/llm/adapters/ollama-adapter.ts:117-126 | the registry entry has this provider, this static list and a discovery call |
| OllamaAdapter.BuildDefaultModel | packages/core/src/services/llm/adapters/ollama-adapter.ts:182-201 | a descriptor named after the id, under `ollama`, without tools, with the id rule for vision and 128000 tokens |
| OllamaAdapter.TagsUrl | packages/core/src/services/llm/adapters/ollama-adapter.ts:127-130 | the first `/v1` of the base URL, or of the default, is removed and `/api/tags` appended |
| OllamaAdapter.TagsUrlOfVersionedBase | packages/core/src/services/llm/adapters/ollama-adapter.ts:130 | a base URL ending in `/v1`, with no other 'v', loses exactly that suffix |
| OllamaAdapter.ListedModel | packages/core/src/services/llm/adapters/ollama-adapter.ts:155-174 | a listed model is named after its tag, or '' without one; it is described by its parent model when non-empty, else its id; no tools, the id rule, 128000 tokens |
| OllamaAdapter.GetModelsAsync | packages/core/src/services/llm/adapters/ollama-adapter.ts:126-180 | a transport error or unparsable body propagates; a non-OK reply fails with `HTTP <status>: <body>`; a body without a `models` array fails with the format error; otherwise every listed model, in order |
| OllamaAdapter.ChatRequestFor | packages/core/src/services/llm/adapters/ollama-adapter.ts:207-229 | messages are sent as they are with the placeholder key `ollama` and the configured or local base URL; llmParams is spread last, so a parameter named `model`, `messages` or `stream` replaces the adapter's value |
| OllamaAdapter.AnswerText | packages/core/src/services/llm/adapters/ollama-adapter.ts:228 | the first choice's content, or '' when there is no choice, message or content |
| OllamaAdapter.WrapError | packages/core/src/services/llm/adapters/ollama-adapter.ts:238-239 | every failure is rethrown as `Ollama API 错误: <message>`, an empty message read as `未知错误` |
| OllamaAdapter.SendMessage | packages/core/src/services/llm/adapters/ollama-adapter.ts:203-245 | an SDK error is wrapped; otherwise the answer text with the copied usage |
| OllamaAdapter.SendMessageNeverLacksAnswer | packages/core/src/services/llm/adapters/ollama-adapter.ts:227-237 | a successful call always yields an answer: there is no no-response error |
| OllamaAdapter.SendMessageStream | packages/core/src/services/llm/adapters/ollama-adapter.ts:247-292 | the run is the shared loop over the delta texts; stream errors are rethrown unwrapped |
| GeminiAdapter.Provider | packages/core/src/services/llm/adapters/gemini-adapter.ts:15-29 | id `gemini`, a key is required, models are discovered, with the vendor's default base URL |
| GeminiAdapter.StaticModels | packages/core/src/services/llm/adapters/gemini-adapter.ts:34-79 | four models under `gemini`, each with vision and tools |
| GeminiAdapter.AsAdapter | packages/core/src/services/llm/adapters/gemini-adapter.ts:84-93 | the registry entry has this provider, this static list and a discovery call |
| GeminiAdapter.BuildDefaultModel | packages/core/src/services/llm/adapters/gemini-adapter.ts:156-168 | any id gets vision, tools and 1000000 tokens, under `gemini` |
| GeminiAdapter.ModelId | packages/core/src/services/llm/adapters/gemini-adapter.ts:128 | the name with its first `models/` removed when that leaves something, else the name itself, else '' |
| GeminiAdapter.ModelIdStripsPrefix | packages/core/src/services/llm/adapters/gemini-adapter.ts:128 | the resource name `models/<rest>` yields the id `<rest>` |
| GeminiAdapter.ListedModel | packages/core/src/services/llm/adapters/gemini-adapter.ts:127-142 | a discovered model takes its id from the name, its name from the display name or the id, its description or ''; vision and tools on; the input token limit when non-zero, else 1000000 |
| GeminiAdapter.GetModelsAsync | packages/core/src/services/llm/adapters/gemini-adapter.ts:93-154 | a transport error or unparsable body propagates; a non-OK reply fails with `HTTP <status>: <body>`; a body without a `models` array fails with the format error; otherwise the models supporting generateContent, in order, mapped |
| GeminiAdapter.RoleFor | packages/core/src/services/llm/adapters/gemini-adapter.ts:186 | the Gemini role is `model` exactly for an assistant message, else `user` |
| GeminiAdapter.PartFor | packages/core/src/services/llm/adapters/gemini-adapter.ts:193-203 | a text part becomes a text part; an image part with a URL becomes JPEG inline data of its payload; any other part is dropped, and only those |
| GeminiAdapter.GeminiPartsAppend | packages/core/src/services/llm/adapters/gemini-adapter.ts:191-204 | conversion distributes over concatenation: the parts keep their order |
| GeminiAdapter.GeminiPartsDropsOthers | packages/core/src/services/llm/adapters/gemini-adapter.ts:191-204 | content with neither a text part nor an image part converts to no parts |
| GeminiAdapter.ConvertParts | packages/core/src/services/llm/adapters/gemini-adapter.ts:191-204 | the `for`/`push` loop yields exactly the converted parts, in order |
| GeminiAdapter.ContentFor | packages/core/src/services/llm/adapters/gemini-adapter.ts:182-209 | a string message becomes one text part; an array message goes through part conversion; the role is mapped |
| GeminiAdapter.ConvertMessages | packages/core/src/services/llm/adapters/gemini-adapter.ts:182-209 | one content per message, in order, each the converted message |
| GeminiAdapter.SendMessage | packages/core/src/services/llm/adapters/gemini-adapter.ts:170-223 | the converted messages go to the model named in the configuration with the key or ''; an error propagates; otherwise the reply text, even empty, with only the total token count |
| GeminiAdapter.SendMessageStream | packages/core/src/services/llm/adapters/gemini-adapter.ts:225-284 | the run is the shared loop over the chunk texts of the stream opened for the converted messages |
| AnthropicAdapter.Provider | packages/core/src/services/llm/adapters/anthropic-adapter.ts:15-30 | id `anthropic`, a key is required, the provider is flagged as discovering models, with the vendor's default base URL |
| AnthropicAdapter.StaticModels | packages/core/src/services/llm/adapters/anthropic-adapter.ts:35-91 | five models under `anthropic`, each with vision, tools and 200000 tokens |
| AnthropicAdapter.AsAdapter | packages/core/src/services/llm/adapters/anthropic-adapter.ts:96-105 | the registry entry has this provider, this static list and a discovery call |
| AnthropicAdapter.GetModelsAsync | packages/core/src/services/llm/adapters/anthropic-adapter.ts:105-110 | discovery always fails with the fixed no-listing error |
| AnthropicAdapter.BuildDefaultModel | packages/core/src/services/llm/adapters/anthropic-adapter.ts:112-124 | any id gets vision, tools and 200000 tokens, under `anthropic` |
| AnthropicAdapter.FirstSystemIndex | packages/core/src/services/llm/adapters/anthropic-adapter.ts:136 | the position of the first system message, absent exactly when there is none |
| AnthropicAdapter.SystemPrompt | packages/core/src/services/llm/adapters/anthropic-adapter.ts:136-171 | no system message gives no system prompt; the first system message's content is passed on unless it is the empty string |
| AnthropicAdapter.Conversation | packages/core/src/services/llm/adapters/anthropic-adapter.ts:137 | the conversation holds exactly the input's non-system messages |
| AnthropicAdapter.ConversationAppend | packages/core/src/services/llm/adapters/anthropic-adapter.ts:137 | the conversation keeps the order of the messages around removed system messages |
| AnthropicAdapter.NoSystemMessage | packages/core/src/services/llm/adapters/anthropic-adapter.ts:136-137 | without a system message there is no system prompt and the conversation is the whole input |
| AnthropicAdapter.RoleFor | packages/core/src/services/llm/adapters/anthropic-adapter.ts:142 | the role is `assistant` exactly for an assistant message, else `user` |
| AnthropicAdapter.BlockFor | packages/core/src/services/llm/adapters/anthropic-adapter.ts:148-161 | a text part becomes a text block; an image part with a URL becomes a base64 JPEG source of its payload; any other part is dropped, and only those |
| AnthropicAdapter.BlocksForAppend | packages/core/src/services/llm/adapters/anthropic-adapter.ts:147-162 | block conversion distributes over concatenation: blocks keep the order of their parts |
| AnthropicAdapter.BlocksForKeepsForwarded | packages/core/src/services/llm/adapters/anthropic-adapter.ts:147-162 | when every part is text or an image with a URL, each yields exactly one block |
| AnthropicAdapter.ConvertParts | packages/core/src/services/llm/adapters/anthropic-adapter.ts:147-162 | the `for`/`push` loop yields exactly the converted blocks, in order |
| AnthropicAdapter.MessageFor | packages/core/src/services/llm/adapters/anthropic-adapter.ts:139-167 | a string message is kept, an array message goes through block conversion, and the role is mapped |
| AnthropicAdapter.ConvertMessages | packages/core/src/services/llm/adapters/anthropic-adapter.ts:139-167 | one Anthropic message per conversation message, in order |
| AnthropicAdapter.RequestFor | packages/core/src/services/llm/adapters/anthropic-adapter.ts:130-174 | the request carries the key, the configured or default base URL and the parameters; the model id, 4096 max tokens, the system prompt and the converted messages are sent unless llmParams names `model`, `max_tokens`, `system` or `messages`, whose value then wins because it is spread last |
| AnthropicAdapter.UsageOf | packages/core/src/services/llm/adapters/anthropic-adapter.ts:183-189 | usage is present exactly when the reply carries it: input, output, and their sum as the total |
| AnthropicAdapter.ShapeReply | packages/core/src/services/llm/adapters/anthropic-adapter.ts:176-190 | fails with `No text response from Anthropic` exactly when the first block is missing or not text; otherwise its text with the usage |
| AnthropicAdapter.SendMessage | packages/core/src/services/llm/adapters/anthropic-adapter.ts:126-191 | the request carries the system split and the converted conversation; an SDK error propagates; otherwise the reply is shaped |
| AnthropicAdapter.EventText | packages/core/src/services/llm/adapters/anthropic-adapter.ts:246-252 | only a content-block text delta contributes text |
| AnthropicAdapter.OtherEventsAddNothing | packages/core/src/services/llm/adapters/anthropic-adapter.ts:246-252 | a stream with no text deltas yields no chunk |
| AnthropicAdapter.SendMessageStream | packages/core/src/services/llm/adapters/anthropic-adapter.ts:193-259 | the run is the shared loop over the text deltas of the event stream opened for the request |
| ModelManagers.IndexOfId | packages/core/src/services/model/localStorage-manager.ts:30 | the position of the first configuration with the id, absent exactly when none has it |
| ModelManagers.FindModel | packages/core/src/services/model/localStorage-manager.ts:20 | absent exactly when no configuration has the id; otherwise a stored configuration with that id |
| ModelManagers.Upsert | packages/core/src/services/model/localStorage-manager.ts:28-36 | the configuration replaces the first one with its id in place, or is appended when there is none |
| ModelManagers.WithoutId | packages/core/src/services/model/localStorage-manager.ts:40-43 | exactly the configurations with another id are kept |
| ModelManagers.UpsertFinds | packages/core/src/services/model/localStorage-manager.ts:27-37 | an existing id keeps the length, a new id adds one; ids stay unique; the saved configuration is found under its id and every other id finds what it found before |
| ModelManagers.WithoutIdFinds | packages/core/src/services/model/localStorage-manager.ts:39-44 | after deletion the id finds nothing and every other id finds what it found before |
| ModelManagers.WithoutAbsentId | packages/core/src/services/model/localStorage-manager.ts:40-43 | deleting an id no configuration has leaves the array unchanged |
| ModelManagers.LocalStorageModelManager.constructor | packages/core/src/services/model/localStorage-manager.ts:13-16 | the manager works over the given storage adapter |
| ModelManagers.LocalStorageModelManager.GetAllModels | packages/core/src/services/model/localStorage-manager.ts:23-25 | the array stored under `text-image-prompt-tools:models`, or an empty one |
| ModelManagers.LocalStorageModelManager.GetModel | packages/core/src/services/model/localStorage-manager.ts:18-21 | nothing exactly when no stored configuration has the key; otherwise the first one that has it |
| ModelManagers.LocalStorageModelManager.SaveModel | packages/core/src/services/model/localStorage-manager.ts:27-37 | the stored array, or an empty one, with the configuration upserted, is written back; a write failure is passed on and nothing changes |
| ModelManagers.LocalStorageModelManager.DeleteModel | packages/core/src/services/model/localStorage-manager.ts:39-44 | the stored array without the key's configurations is written back; a write failure is passed on and nothing changes |
| ModelManagers.SaveThenGetModel | packages/core/src/services/model/localStorage-manager.ts:18-37 | after a save that round-trips, the key finds the saved configuration, and every other key finds what it found before |
| ModelManagers.MemoryModelManager.constructor | packages/core/src/services/model/manager.ts:7 | the map starts empty |
| ModelManagers.MemoryModelManager.GetModel | packages/core/src/services/model/manager.ts:9-11 | the configuration stored under the key, or nothing exactly when the key is absent |
| ModelManagers.MemoryModelManager.GetAllModels | packages/core/src/services/model/manager.ts:13-15 | the stored configurations in map order; every configuration `getModel` finds is listed, and with unique keys the i-th listed is what `getModel` finds under the i-th key |
| ModelManagers.MemoryModelManager.SaveModel | packages/core/src/services/model/manager.ts:17-19 | the configuration is set under its id; every other id keeps its configuration; keys stay unique |
| ModelManagers.MemoryModelManager.DeleteModel | packages/core/src/services/model/manager.ts:21-23 | the key finds nothing afterwards and every other key keeps its configuration |
| TemplateManagers.Stamped | packages/core/src/services/template/localStorage-manager.ts:65-71 | the saved template is the given one with only `lastModified` set to the current time |
| TemplateManagers.IndexById | packages/core/src/services/template/localStorage-manager.ts:21-25 | the `forEach` that fills a map keyed by id gives the entries of setting each template in turn |
| TemplateManagers.DefaultsIndexed | packages/core/src/services/template/localStorage-manager.ts:21-25 | the built-ins indexed by id are the built-ins themselves, in order, keyed by the built-in ids |
| TemplateManagers.LocalStorageTemplateManager.constructor | packages/core/src/services/template/localStorage-manager.ts:16-26 | the manager holds the three built-ins, indexed by id, over the given storage |
| TemplateManagers.LocalStorageTemplateManager.IsDefaultTemplate | packages/core/src/services/template/localStorage-manager.ts:42-44 | true exactly for the three built-in ids |
| TemplateManagers.LocalStorageTemplateManager.GetCustomTemplates | packages/core/src/services/template/localStorage-manager.ts:104-110 | the object stored under `text-image-prompt-tools:templates`, or an empty one |
| TemplateManagers.LocalStorageTemplateManager.GetTemplate | packages/core/src/services/template/localStorage-manager.ts:28-37 | the user's template when one is saved under the id, else the built-in with that id, else nothing |
| TemplateManagers.LocalStorageTemplateManager.GetAllTemplates | packages/core/src/services/template/localStorage-manager.ts:46-61 | the values of the built-ins with each user template set over them, in map order |
| TemplateManagers.LocalStorageTemplateManager.SaveTemplate | packages/core/src/services/template/localStorage-manager.ts:63-83 | the stored object, or an empty one, with the stamped template set under its id, is written back; a write failure is passed on and nothing changes |
| TemplateManagers.LocalStorageTemplateManager.DeleteTemplate | packages/core/src/services/template/localStorage-manager.ts:85-99 | a built-in id is refused with `Cannot delete default template: <id>` and nothing changes; otherwise the id is removed from the stored object; a write failure is passed on |
| TemplateManagers.MergedOverrides | packages/core/src/services/template/localStorage-manager.ts:46-61 | the merged list has each id once: the built-in ids first, in order, then the ids only the user has, in stored order; each id maps to the user's template when there is one |
| TemplateManagers.SaveThenRead | packages/core/src/services/template/localStorage-manager.ts:63-110 | after a save that round-trips, the id reads back the stamped template and every other id reads as before; after a failed read only the new template is left |
| TemplateManagers.DeleteThenRead | packages/core/src/services/template/localStorage-manager.ts:85-110 | after a delete that round-trips, the id finds nothing, every other id reads as before, and deleting an absent id changes nothing |
| TemplateManagers.MemoryTemplateManager.constructor | packages/core/src/services/template/manager.ts:10-16 | the map starts out holding the built-ins, keyed by id |
| TemplateManagers.MemoryTemplateManager.GetTemplate | packages/core/src/services/template/manager.ts:18-20 | the stored template with the id, or nothing exactly when it is absent |
| TemplateManagers.MemoryTemplateManager.GetAllTemplates | packages/core/src/services/template/manager.ts:22-24 | the stored templates in map order |
| TemplateManagers.MemoryTemplateManager.SaveTemplate | packages/core/src/services/template/manager.ts:26-28 | the template is set under its id unchanged; every other id keeps its template |
| TemplateManagers.MemoryTemplateManager.DeleteTemplate | packages/core/src/services/template/manager.ts:30-32 | any id, built-ins included, is removed; every other id keeps its template |
| PromptService.StyleTemplateId | packages/core/src/services/prompt/service.ts:116-125 | `creative`, `photography` and `chinese-aesthetics` map to their own ids; every other style, `design` included, maps to the `general` id |
| PromptService.StyleOf | packages/core/src/services/prompt/service.ts:48-71 | the request's style when non-empty, else `general` |
| PromptService.TemplateIdFor | packages/core/src/services/prompt/service.ts:46-48 | a non-empty template id wins; otherwise the style's id |
| PromptService.StyleIdsAreNotBuiltIn | packages/core/src/services/prompt/service.ts:117-123 | no style maps to one of the three built-in template ids |
| PromptService.PlaceholderEndOf | packages/core/src/services/prompt/service.ts:56 | every placeholder `{{`, whitespace, `prompt` or `originalPrompt`, whitespace, `}}` is matched in full |
| PromptService.SubstitutePlaceholder | packages/core/src/services/prompt/service.ts:56-59 | a placeholder is replaced by the target prompt and the scan resumes right after it |
| PromptService.NoPlaceholderWithoutBrace | packages/core/src/services/prompt/service.ts:56 | no match starts at a character other than `{` |
| PromptService.SubstituteCopies | packages/core/src/services/prompt/service.ts:56-59 | a stretch without `{` is copied unchanged |
| PromptService.SubstituteWithoutPlaceholder | packages/core/src/services/prompt/service.ts:56-59 | text from a position on without `{{` is left as it is |
| PromptService.SubstituteUnchanged | packages/core/src/services/prompt/service.ts:56-59 | a message without `{{` comes back unchanged |
| PromptService.PromptPlaceholderAt | packages/core/src/services/prompt/service.ts:56 | `{{prompt}}` after any text is a placeholder |
| PromptService.SubstituteAfterLead | packages/core/src/services/prompt/service.ts:56-59 | a lead without `{` followed by `{{prompt}}` becomes the lead followed by the target prompt |
| PromptService.SubstituteOptimizeRequest | packages/core/src/services/template/default-templates/text2image-general-optimize.ts:47 | the built-in user message becomes its lead line followed by the target prompt |
| PromptService.BuildMessages | packages/core/src/services/prompt/service.ts:57-60 | one message per template message, in order, with its role and every placeholder replaced |
| PromptService.Prepare | packages/core/src/services/prompt/service.ts:36-60 | an empty prompt fails first, then a missing model configuration, then a missing template; otherwise the built messages |
| PromptService.OptimizePrompt | packages/core/src/services/prompt/service.ts:33-73 | a failed check is the error; otherwise one LLM call with the messages and the model key; its error propagates; the answer is trimmed and the prompt and style (default `general`) are echoed |
| PromptService.OptimizePromptStream | packages/core/src/services/prompt/service.ts:78-110 | a failed check raises before any handler fires; otherwise the LLM service's streaming run with the handlers forwarded |
| PromptService.RejectedBeforeLlm | packages/core/src/services/prompt/service.ts:36-53 | a rejected request never reaches the LLM: the outcome does not depend on it, and both entry points reject with the same message |
| PromptService.OptimizeWithBuiltIn | packages/core/src/services/prompt/service.ts:46-60 | with the general built-in chosen, the LLM sees its system prompt, then the lead line followed by the target prompt |
| ImageService.TemplateIdFor | packages/core/src/services/image/service.ts:59 | a non-empty template id wins; otherwise the built-in image-to-prompt id |
| ImageService.Instructions | packages/core/src/services/image/service.ts:70 | absent instructions are empty; present ones are trimmed |
| ImageService.CombinedText | packages/core/src/services/image/service.ts:70-78 | the first image marker becomes the extraction instruction; the first instructions placeholder becomes the instructions or the no-instructions note; without a placeholder, non-empty instructions are appended after the extra-instructions line |
| ImageService.InstructionsIncluded | packages/core/src/services/image/service.ts:72-78 | non-empty instructions always appear in the text sent |
| ImageService.MessageFor | packages/core/src/services/image/service.ts:67-98 | a user message holding the marker becomes a text part and an image part carrying the URL; any other message is copied with its role |
| ImageService.BuildMessages | packages/core/src/services/image/service.ts:67-99 | one message per template message, in order |
| ImageService.ImageAttachedOnlyToMarkedMessages | packages/core/src/services/image/service.ts:67-98 | exactly the rewritten messages have parts, each a text part then the request's image URL; the others are copied |
| ImageService.Prepare | packages/core/src/services/image/service.ts:44-64 | an empty URL, then a missing model, then a model without vision, then a missing template are the errors, in this order; otherwise the built messages |
| ImageService.ImageToPrompt | packages/core/src/services/image/service.ts:41-108 | after the checks one LLM call with the model key; its error propagates; the answer is trimmed and the URL echoed |
| ImageService.VisionGateFirst | packages/core/src/services/image/service.ts:53-64 | a model without vision is refused whatever the template store and the LLM hold |
| ImageService.BuiltInMarkerReplaced | packages/core/src/services/template/default-templates/image2prompt-general.ts:47 | the built-in user message's marker is replaced by the extraction instruction |
| ImageService.NoSlotAfterBuiltIn | packages/core/src/services/image/service.ts:72-76 | the rewritten built-in message has no instructions placeholder, so instructions are appended |
| ImageService.BuiltInImageMessage | packages/core/src/services/image/service.ts:67-99 | with the built-in template, the system prompt goes unchanged and the user message is the lead, the instruction and any extra instructions, with the image attached |
| ImageService.RejectedBeforeLlm | packages/core/src/services/image/service.ts:44-64 | a rejected request's outcome does not depend on the LLM |
| ImageCompress.GetImageSize | packages/core/src/services/history/image-compress.ts:87-95 | 0 for a non-data URL or one without a comma; otherwise the length of the second comma-separated field, which is shorter than the URL |
| ImageCompress.SizeOfDataUrl | packages/core/src/services/history/image-compress.ts:87-104 | a base64 data URL's size is its payload's length, and it is too large exactly when that exceeds 512000 |
| ImageCompress.ShortUrlsNeverTooLarge | packages/core/src/services/history/image-compress.ts:100-104 | a non-data URL, or one of at most 500 KiB, is never too large |
| ImageCompress.CompressImageToThumbnail | packages/core/src/services/history/image-compress.ts:14-80 | a non-data URL comes back as it is; a data URL gives the canvas's result or null |
| History.Take | packages/core/src/services/history/manager.ts:61 | the cut list is a prefix of at most `n` records, the whole list when it is short enough |
| History.ImageTypeOf | packages/core/src/services/history/manager.ts:25-26 | either `unknown` or a type without `;` taken from a URL that starts `data:image/` |
| History.ImageTypeOfDataUrl | packages/core/src/services/history/manager.ts:25-26 | a well-formed base64 data URL yields exactly its MIME subtype |
| History.CompressImageUrl | packages/core/src/services/history/manager.ts:12-32 | non-data URLs and URLs that are not too large are kept; a large one becomes its thumbnail, or the `[compressed]` marker of its type when none was produced |
| History.MarkerIsSmall | packages/core/src/services/history/manager.ts:27 | the marker is never too large, so compressing it again keeps it |
| History.MarkerOfTypeIsSmall | packages/core/src/services/history/manager.ts:27 | the marker text for a type without a comma is not too large and is a fixed point of compression |
| History.Prepared | packages/core/src/services/history/manager.ts:48-54 | image records get their URL compressed; prompt records are unchanged; type and id are kept |
| History.RecompressKeeps | packages/core/src/services/history/manager.ts:74-81 | the retry's second compression of a prepared record that is not too large changes nothing |
| History.PrependNewestFirst | packages/core/src/services/history/manager.ts:56-62 | at most 50 records, the new one first, then the earlier ones in order with the oldest dropped when full |
| History.QuotaRetryKeepsNewest | packages/core/src/services/history/manager.ts:69-83 | the retry writes the record followed by all of the 25 newest earlier records |
| History.FindRecord | packages/core/src/services/history/manager.ts:105 | none exactly when no record has the id; otherwise the first record with it |
| History.ClearTypeKeepsOthers | packages/core/src/services/history/manager.ts:115-120 | after clearing a type none of it is left, and the other type's records are as before |
| History.DeleteRecordFinds | packages/core/src/services/history/manager.ts:108-113 | after deleting an id it finds nothing, and every other id finds what it found before |
| History.HistoryManager.constructor | packages/core/src/services/history/manager.ts:40-43 | the manager works on the given storage adapter |
| History.HistoryManager.AddRecord | packages/core/src/services/history/manager.ts:45-93 | the prepared record is prepended to the stored log; on a quota error the log is cut to 25 and written, and the re-prepared record is prepended to it; every other failure leaves the store as it was |
| History.HistoryManager.GetRecords | packages/core/src/services/history/manager.ts:95-101 | the stored log, or exactly its records of the given type, in order |
| History.HistoryManager.GetRecord | packages/core/src/services/history/manager.ts:103-106 | the first stored record with the id, or none |
| History.HistoryManager.DeleteRecord | packages/core/src/services/history/manager.ts:108-113 | the stored log without the records of that id; a failed write changes nothing and is the error |
| History.HistoryManager.ClearRecords | packages/core/src/services/history/manager.ts:115-124 | with a type, the log without that type; without one, an empty log; a failed write changes nothing |
| ModelService.ProvidersInOrder | packages/web/src/services/modelService.ts:17-36 | the providers listed are exactly those of the registered ids among the known ones, in that order, each the one registered under its id |
| ModelService.TempConfig | packages/web/src/services/modelService.ts:58-76 | the temporary configuration always carries the key and carries the base URL only when it is non-empty |
| ModelService.ModelService.constructor | packages/web/src/services/modelService.ts:12 | the service wraps the given registry |
| ModelService.ModelService.GetProviders | packages/web/src/services/modelService.ts:17-36 | the providers of the seven known ids that are registered, in the fixed order |
| ModelService.ModelService.GetModelList | packages/web/src/services/modelService.ts:41-98 | 400 for an unknown provider; 200 with one entry per discovered model, in order, each flagged by its vision support; 500 with the error message or the default text when discovery fails |
| ModelService.ModelService.TestModelConnection | packages/web/src/services/modelService.ts:103-152 | 400 for an unknown provider; 200 when discovery succeeds; 500 with its message or the default text otherwise |
| ModelService.TestAgreesWithList | packages/web/src/services/modelService.ts:41-152 | a test succeeds exactly when listing does, with the same code; a provider that does not discover lists nothing and tests successfully |
| ModelSelector.InferVisionSupport | packages/ui/src/components/ModelSelector.tsx:98-142 | an id mentioning `vision` or `visual` is guessed to see; for a provider without its own rule that is the only way |
| ModelSelector.NoVisionWithoutV | packages/ui/src/components/ModelSelector.tsx:136-141 | for a provider without its own rule, an id without `v` is not guessed to see |
| ModelSelector.ZhipuGlm4Sees | packages/ui/src/components/ModelSelector.tsx:130-134 | a Zhipu `glm-4` id without `air` is guessed to see |
| ModelSelector.WithoutDashPrefix | packages/ui/src/components/ModelSelector.tsx:154-156 | `<provider>-` is removed once when present, and nothing else changes |
| ModelSelector.ModelSupportsVision | packages/ui/src/components/ModelSelector.tsx:145-171 | the saved record under the id, else under the unprefixed id, else under the prefixed id; the guess only when none is saved |
| ModelSelector.SavedNoWins | packages/ui/src/components/ModelSelector.tsx:147-151 | a saved "no" wins over a name that suggests vision |
| ModelSelector.OptionName | packages/ui/src/components/ModelSelector.tsx:203-221 | the shown name has no `/`, and a plain id is shown as it is |
| ModelSelector.OptionsOfAppend | packages/ui/src/components/ModelSelector.tsx:187-242 | the options of two runs of entries are those of each, concatenated |
| ModelSelector.IdOptionStep | packages/ui/src/components/ModelSelector.tsx:199-240 | one more id adds its option exactly when it is non-blank and passes the vision filter |
| ModelSelector.ProviderEntries | packages/ui/src/components/ModelSelector.tsx:188-198 | a non-object provider value yields nothing; an object yields its ids when it has ids and a usable key |
| ModelSelector.IdOptions | packages/ui/src/components/ModelSelector.tsx:199-240 | the inner loop yields the options of the ids' entries, in order |
| ModelSelector.CollectOptions | packages/ui/src/components/ModelSelector.tsx:187-242 | the provider loop yields the options of the whole record, in key order |
| ModelSelector.OptionsWellFormed | packages/ui/src/components/ModelSelector.tsx:230-237 | every option's id is `<provider>-<model id>`, its model id is non-empty, its label is the provider's, it sees when only seeing models are wanted, and its provider is a key of the record |
| ModelSelector.OptionsOfWellFormed | packages/ui/src/components/ModelSelector.tsx:230-237 | the same for the options of any entries with non-blank ids |
| ModelSelector.SavedSelection | packages/ui/src/components/ModelSelector.tsx:254 | the stored string, or empty |
| ModelSelector.SelectAfterLoad | packages/ui/src/components/ModelSelector.tsx:253-272 | a saved id that is an option is kept and reported; else with no external value the first option is chosen, written back and reported; else the external value; a written or reported id is always an option |
| ModelSelector.ModelSelector.constructor | packages/ui/src/components/ModelSelector.tsx:86-94 | the selection starts at the external value, with no options |
| ModelSelector.ModelSelector.LoadModels | packages/ui/src/components/ModelSelector.tsx:174-278 | no record, or one that does not parse, clears options and selection; otherwise the options are sorted and the selection, write-back and report are those of the selection rule |
| ModelSelector.ModelSelector.RestoreSelection | packages/ui/src/components/ModelSelector.tsx:253-272 | applies the selection rule to the loaded options and leaves them unchanged |
| ModelSelector.ModelSelector.HandleModelChange | packages/ui/src/components/ModelSelector.tsx:310-317 | selects the id, writes it back and reports it; options unchanged |
| ModelSelector.ChoiceSurvivesReload | packages/ui/src/components/ModelSelector.tsx:253-317 | a choice still among the options survives the next load |
| ModelSelector.FirstPickIsStable | packages/ui/src/components/ModelSelector.tsx:261-267 | after the first option is picked and written back, the next load keeps it and writes nothing |
| ModelSelectorPanel.InstancePrefix | packages/web/src/components/ModelSelectorPanel.tsx:117 | `<provider>-<instance id>-` for a named instance, `<provider>-` for the default one; always starts with `<provider>-` |
| ModelSelectorPanel.PanelOptionId | packages/web/src/components/ModelSelectorPanel.tsx:117-126 | the option id always starts with the instance prefix; an id that has it is kept; a plain id gets it in front |
| ModelSelectorPanel.PanelOptionIdStable | packages/web/src/components/ModelSelectorPanel.tsx:117-126 | an option id is its own option id, so prefixes never stack |
| ModelSelectorPanel.DefaultPanelIdIsStoreId | packages/web/src/components/ModelSelectorPanel.tsx:117-126 | for the default instance and a plain id, the option id is the model store's `<provider>-<id>` key |
| ModelSelectorPanel.PanelName | packages/web/src/components/ModelSelectorPanel.tsx:129-158 | the name of a default instance's model has no `/` |
| ModelSelectorPanel.PanelNameOfPlainId | packages/web/src/components/ModelSelectorPanel.tsx:129-158 | a default instance's plain id is shown as it is |
| ModelSelectorPanel.PanelVision | packages/web/src/components/ModelSelectorPanel.tsx:54-61 | vision only from a saved "yes" under the exact id; no inference |
| ModelSelectorPanel.IdOptionStep | packages/web/src/components/ModelSelectorPanel.tsx:112-173 | one more id adds its option exactly when it is non-blank |
| ModelSelectorPanel.IdOptions | packages/web/src/components/ModelSelectorPanel.tsx:112-173 | the id loop yields one option per non-blank id, in order |
| ModelSelectorPanel.InstanceOptions | packages/web/src/components/ModelSelectorPanel.tsx:101-175 | the instance loop yields the options of every listed instance, in order |
| ModelSelectorPanel.CollectOptions | packages/web/src/components/ModelSelectorPanel.tsx:78-176 | the provider loop yields the options of the whole record, older formats read as one default instance |
| ModelSelectorPanel.OptionsOfEntries | packages/web/src/components/ModelSelectorPanel.tsx:163-170 | each option carries its instance's prefix, the trimmed non-blank id and its provider's label |
| ModelSelectorPanel.PanelOptionsFromListedInstances | packages/web/src/components/ModelSelectorPanel.tsx:78-176 | every option comes from a listed instance and carries its prefix |
| ModelSelectorPanel.PanelSelectAfterLoad | packages/web/src/components/ModelSelectorPanel.tsx:188-201 | a saved id that is an option is kept; else the first option is chosen and written back; else nothing; the selection is always an option or empty |
| ModelSelectorPanel.SavedSelection | packages/web/src/components/ModelSelectorPanel.tsx:189 | the stored `selectedModel`, or empty |
| ModelSelectorPanel.ModelSelectorPanel.constructor | packages/web/src/components/ModelSelectorPanel.tsx:48-51 | no selection and no options at first |
| ModelSelectorPanel.ModelSelectorPanel.LoadModels | packages/web/src/components/ModelSelectorPanel.tsx:64-207 | no record, or one that does not parse, clears options and selection; otherwise sorted options, the selection rule, and one `modelChanged` event per write-back |
| ModelSelectorPanel.ModelSelectorPanel.RestoreSelection | packages/web/src/components/ModelSelectorPanel.tsx:188-201 | applies the selection rule to the loaded options and leaves them unchanged |
| ModelSelectorPanel.ModelSelectorPanel.HandleModelChange | packages/web/src/components/ModelSelectorPanel.tsx:232-242 | selects and writes back the id; a listed id also shows a toast naming that option and sends one event |
| ModelSelectorPanel.SwitchSurvivesReload | packages/web/src/components/ModelSelectorPanel.tsx:189-242 | after a switch to a listed id, the next load keeps it and writes nothing |
| ModelConfig.FindProvider | packages/web/src/components/ModelConfig.tsx:343 | none exactly when no provider has the id; otherwise a listed provider with it |
| ModelConfig.FreshConfigsAre | packages/web/src/components/ModelConfig.tsx:88-95 | every provider, and nothing else, starts with an empty record |
| ModelConfig.MigrateEntryHasKey | packages/web/src/components/ModelConfig.tsx:103-132 | one migration step neither adds nor removes a provider key |
| ModelConfig.MigrateEntryOther | packages/web/src/components/ModelConfig.tsx:103-132 | one migration step changes no other key |
| ModelConfig.MigrateAllHasKey | packages/web/src/components/ModelConfig.tsx:103-132 | migration neither adds nor removes a provider |
| ModelConfig.MigrateAllUntouched | packages/web/src/components/ModelConfig.tsx:103-132 | a provider with no stored record keeps its empty one |
| ModelConfig.MigrateAllAt | packages/web/src/components/ModelConfig.tsx:103-132 | with unique stored keys, a provider's record is decided by the step at its own key |
| ModelConfig.MigratedLegacyIsDefault | packages/web/src/components/ModelConfig.tsx:107-122 | an old-format record becomes one instance named 默认配置 that is also the default, its address falling back to the provider's default and its model list to the single model or none |
| ModelConfig.MigratedInstancesKept | packages/web/src/components/ModelConfig.tsx:123-130 | a record with instances is taken over with its stored default |
| ModelConfig.LoadedKeysAreProviders | packages/web/src/components/ModelConfig.tsx:88-138 | after loading there is a record for every known provider and for nothing else |
| ModelConfig.FindInstance | packages/web/src/components/ModelConfig.tsx:162 | none exactly when no instance has the id; otherwise the first position holding it |
| ModelConfig.FindInstanceSameIds | packages/web/src/components/ModelConfig.tsx:162 | lists with the same ids position by position find an id at the same position |
| ModelConfig.CurrentIndex | packages/web/src/components/ModelConfig.tsx:161-162 | the first instance with the wanted id (selection, then default, then first), else the first instance |
| ModelConfig.CurrentInstance | packages/web/src/components/ModelConfig.tsx:154-163 | none exactly when the provider has no instances; otherwise one of its instances |
| ModelConfig.CurrentIsWanted | packages/web/src/components/ModelConfig.tsx:161-162 | with distinct ids, the instance with the wanted id is the current one |
| ModelConfig.CurrentFallsBackToFirst | packages/web/src/components/ModelConfig.tsx:162 | with no instance carrying the wanted id, the first instance is current |
| ModelConfig.CurrentIndexSameIds | packages/web/src/components/ModelConfig.tsx:161-162 | rewriting instances without changing ids or the wanted id keeps the current position |
| ModelConfig.RequiresApiKey | packages/web/src/components/ModelConfig.tsx:204-210 | a key is required exactly when the provider demands one and the instance has no address or the provider's default one |
| ModelConfig.Toggled | packages/web/src/components/ModelConfig.tsx:482-487 | a selected id is removed everywhere and nothing else; an unselected one is appended |
| ModelConfig.ToggleTwice | packages/web/src/components/ModelConfig.tsx:482-487 | clicking an unselected model twice gives back the original list |
| ModelConfig.SetModelsWhere | packages/web/src/components/ModelConfig.tsx:490-494 | only the instances with the id get the new models, and the first selected id as their model |
| ModelConfig.ToggleUpdatesCurrent | packages/web/src/components/ModelConfig.tsx:479-503 | a click changes only the current instance's models as the toggle says; other providers are untouched |
| ModelConfig.ToggleTwiceRestoresModels | packages/web/src/components/ModelConfig.tsx:479-503 | two clicks on an unselected model restore the current instance's models |
| ModelConfig.AddedInstanceIsCurrent | packages/web/src/components/ModelConfig.tsx:506-532 | with a fresh id, the new instance named 配置 n+1, with the default address and no models, is appended, made the default and is the current one; other providers are untouched |
| ModelConfig.RemoveOneInstance | packages/web/src/components/ModelConfig.tsx:550 | with distinct ids, removing one id removes at most one instance |
| ModelConfig.DeleteKeepsAnInstance | packages/web/src/components/ModelConfig.tsx:541-560 | deleting from two or more distinct instances leaves at least one, none with the id, every other one kept, and the first as default |
| ModelConfig.FindEntry | packages/web/src/components/ModelConfig.tsx:332 | none exactly when no fetched model has the id; otherwise a fetched model with it |
| ModelConfig.SaveRefusal | packages/web/src/components/ModelConfig.tsx:308-327 | a save is refused exactly when there is no current instance, a required key is blank, or no model is selected, with the source's messages |
| ModelConfig.SavedCapabilitiesAre | packages/web/src/components/ModelConfig.tsx:330-338 | a model has a saved capability exactly when it is selected and fetched, and it is the fetched one |
| ModelConfig.SyncedConfig | packages/web/src/components/ModelConfig.tsx:353-387 | the store id follows the trim-then-prefix rule, the API id is the trimmed id, the name falls back to it, vision comes from the fetched list, and the instance's key and address are the connection |
| ModelConfig.SyncedConfigs | packages/web/src/components/ModelConfig.tsx:353-390 | one configuration per selected id, in selection order |
| ModelConfig.SaveAllStep | packages/web/src/components/ModelConfig.tsx:353-390 | copying one more configuration is one more model-manager save |
| ModelConfig.SaveAllOtherKeys | packages/web/src/components/ModelConfig.tsx:340-405 | the copy step writes the model manager's key and no other |
| ModelConfig.SavedModelsFound | packages/web/src/components/ModelConfig.tsx:353-390 | with a round-tripping codec, every copied configuration is found under its id unless a later one shares it |
| ModelConfig.ReplaceWhere | packages/web/src/components/ModelConfig.tsx:409-413 | every instance with the id is replaced; the others are kept |
| ModelConfig.EnsureProvidersKeeps | packages/web/src/components/ModelConfig.tsx:426-434 | the last pass keeps every existing record |
| ModelConfig.EnsureProvidersAdds | packages/web/src/components/ModelConfig.tsx:426-434 | the last pass leaves a record for every provider |
| ModelConfig.SaveUpdatesCurrent | packages/web/src/components/ModelConfig.tsx:407-423 | the saved current instance carries the new capabilities; the default is kept or set to it |
| ModelConfig.SaveCoversProviders | packages/web/src/components/ModelConfig.tsx:415-434 | after saving every provider has a record and other providers' records are unchanged |
| ModelConfig.InitialConfigs | packages/web/src/components/ModelConfig.tsx:88-95 | the loader's first loop gives the fresh records |
| ModelConfig.MigrateStored | packages/web/src/components/ModelConfig.tsx:103-132 | the loader's key loop gives the migration of every stored key, in order |
| ModelConfig.CollectCapabilities | packages/web/src/components/ModelConfig.tsx:330-338 | the capability loop gives the saved capabilities |
| ModelConfig.SyncModels | packages/web/src/components/ModelConfig.tsx:353-390 | the copy loop leaves the store as the copy step says |
| ModelConfig.SyncSelected | packages/web/src/components/ModelConfig.tsx:340-405 | the copy step, skipped for an unknown provider |
| ModelConfig.BuildSavedConfigs | packages/web/src/components/ModelConfig.tsx:407-434 | the records the save stores |
| ModelConfig.AddMissingProviders | packages/web/src/components/ModelConfig.tsx:426-434 | the last loop gives every provider a record |
| ModelConfig.ModelConfigEditor.constructor | packages/web/src/components/ModelConfig.tsx:51-58 | the first provider is selected, no instance is, and there are no records |
| ModelConfig.ModelConfigEditor.LoadProviders | packages/web/src/components/ModelConfig.tsx:81-149 | empty records per provider with the parsed record migrated in, the first provider selected if none is |
| ModelConfig.ModelConfigEditor.HandleModelToggle | packages/web/src/components/ModelConfig.tsx:479-503 | the records become the toggled ones; nothing else changes |
| ModelConfig.ModelConfigEditor.HandleAddInstance | packages/web/src/components/ModelConfig.tsx:506-532 | the instance is added as the default and selected |
| ModelConfig.ModelConfigEditor.HandleDeleteInstance | packages/web/src/components/ModelConfig.tsx:535-567 | no current instance, one instance left, or a cancelled confirmation change nothing; otherwise the instance is deleted and the selection moves to the new default only if it was deleted |
| ModelConfig.ModelConfigEditor.HandleSwitchInstance | packages/web/src/components/ModelConfig.tsx:570-573 | the instance is selected and the fetched list cleared |
| ModelConfig.ModelConfigEditor.HandleSave | packages/web/src/components/ModelConfig.tsx:307-457 | a refused save changes nothing and is the error; otherwise the selected models are copied into the model manager and the records, with the current instance's capabilities and every provider, are stored |
| TemplateEditor.MarkedIdsAre | packages/web/src/components/TemplateManager.tsx:45-63 | an id is marked exactly when a listed template has it and the manager's test or the naming heuristic says so |
| TemplateEditor.MarkDefaults | packages/web/src/components/TemplateManager.tsx:45-63 | the loader's loop builds exactly the marked ids |
| TemplateEditor.KeywordFirst | packages/web/src/components/TemplateManager.tsx:53-60 | an id starting with a keyword, and not with `c`, looks built in |
| TemplateEditor.HeuristicMarksBuiltIns | packages/web/src/components/TemplateManager.tsx:53-60 | the heuristic alone marks the three built-in ids |
| TemplateEditor.CustomIdsOnlyByTest | packages/web/src/components/TemplateManager.tsx:53-60 | a `custom-` id is marked only by the manager's test |
| TemplateEditor.SaveRefusal | packages/web/src/components/TemplateManager.tsx:128-136 | a save is refused exactly when the name is blank or there are no messages, with the matching message |
| TemplateEditor.NewTemplate | packages/web/src/components/TemplateManager.tsx:75-95 | a `custom-` id, the name 新模板, a system message then a user message holding `{{prompt}}`, and fresh metadata |
| TemplateEditor.NewTemplateSavableAndDeletable | packages/web/src/components/TemplateManager.tsx:75-136 | a new template passes the save checks and is never marked built in |
| TemplateEditor.AddMessage | packages/web/src/components/TemplateManager.tsx:169-176 | an empty user message is appended; nothing else changes |
| TemplateEditor.RemoveMessage | packages/web/src/components/TemplateManager.tsx:178-186 | refused exactly when one message or none is left; otherwise exactly the message at the index goes and the rest keep their order |
| TemplateEditor.AddThenRemove | packages/web/src/components/TemplateManager.tsx:169-186 | removing the message just added gives back the template |
| TemplateEditor.UpdateContentRole | packages/web/src/components/TemplateManager.tsx:155-160 | only the message at the index changes, and only its role |
| TemplateEditor.UpdateContentText | packages/web/src/components/TemplateManager.tsx:162-167 | only the message at the index changes, and only its text |
| TemplateEditor.EditsAtDifferentMessagesCommute | packages/web/src/components/TemplateManager.tsx:155-167 | edits at two different messages commute |
| TemplateEditor.TemplateEditor.constructor | packages/web/src/components/TemplateManager.tsx:29-33 | no templates, no editing and no marked ids at first |
| TemplateEditor.TemplateEditor.LoadTemplates | packages/web/src/components/TemplateManager.tsx:39-73 | the manager's list, and the ids marked among it |
| TemplateEditor.TemplateEditor.HandleCreate | packages/web/src/components/TemplateManager.tsx:75-98 | the new template is opened for creation |
| TemplateEditor.TemplateEditor.HandleEdit | packages/web/src/components/TemplateManager.tsx:100-103 | the template is opened for editing, not creation |
| TemplateEditor.TemplateEditor.HandleDelete | packages/web/src/components/TemplateManager.tsx:105-123 | a marked id is refused and a cancelled confirmation changes nothing, both before the manager is asked; otherwise the manager's delete and its outcome |
| TemplateEditor.TemplateEditor.HandleSave | packages/web/src/components/TemplateManager.tsx:125-148 | nothing open or a refused save changes nothing; a successful save stores the stamped template and closes the editor; a failed one leaves it open |
| TemplateEditor.TemplateEditor.HandleCancel | packages/web/src/components/TemplateManager.tsx:150-153 | the editor is closed |
| Base.Trim | packages/core/src/services/prompt/service.ts:68 | the trimmed text is the slice of the input between a blank prefix and a blank suffix, has no white space at either end, and is empty exactly for blank input |
| Base.LastSegment | packages/ui/src/components/ModelSelector.tsx:209-212 | the text after the last `/`: a suffix with no `/`, the whole string when there is none |
| Base.QuantName | packages/ui/src/components/ModelSelector.tsx:214-220 | `base:quant` becomes `base (quant)` at the last `:` past index 0; a name without `:` is kept |
| OptionOrder.InsertSorted | packages/ui/src/components/ModelSelector.tsx:244-249 | inserting into a sorted list keeps it sorted |

## Left out

- React rendering and hooks are not modelled. Neither are toasts, `alert`, `confirm` dialogs beyond their answer, `setInterval` polling, `storage` and `modelChanged` listeners, or `console` logging. The model keeps only the state changes and the messages those handlers produce.
- Vendor SDKs, `fetch`, the canvas thumbnailer, `Date.now()` and `Math.random()` are outside the model. They are parameters: oracles for the calls, plain values for the clock and for generated ids.
- `JSON.parse` and `JSON.stringify` are an abstract codec. Lemmas that read back what was written assume it round-trips, and that a parsed object has unique keys.
- `toLowerCase` folds ASCII letters only; other letters are kept as they are. `trim` removes the full JavaScript white-space set: the ECMAScript WhiteSpace and LineTerminator characters, including no-break space, the Unicode space separators, the line and paragraph separators and the byte order mark.
- llmParams values are kept as raw text. The model says which request field a parameter replaces, not how the vendor reads its value.
- `localeCompare` is modelled as code-unit lexicographic order, and `Array.prototype.sort` as a stable insertion sort.
- PromptService.SubstitutePlaceholder: the target prompt is inserted literally. JavaScript's `replace` expands `$&`, `$1` and `$$` in replacement text, so the model matches the code only for prompts without `$`.
- ImageService.CombinedText: the instructions are inserted literally. The source's `replace` would expand `$` patterns in them.
- The history thumbnail's size arithmetic and JPEG quality are not modelled (floating point and canvas). `ImageCompress.CompressImageToThumbnail` takes the canvas outcome as a parameter.
- History.HistoryManager.AddRecord: the thumbnail of the quota retry is a second oracle value. The model does not assume it equals the first one.
- ModelConfig.MigrateAll: the loader stops at a stored provider value that is `null`. There a property read throws and the rest of the pass is skipped. The model treats such a value like any other non-record value and goes on with the remaining keys.
- ModelConfig.ModelConfigEditor.HandleSave: the source swallows any failure of the copy into the model manager. The model lets every copy read and write succeed.
- The source reads the model manager's full list before copying, to find models to delete. That deletion is commented out in the source, and the read is not modelled.
- ModelConfig.ModelConfigEditor.HandleSave: the delayed reload of the model list after a save is not modelled. Neither is the success toast listing the model names.
- Other parts of the configuration editor are not modelled:
  - `loadModels` (packages/web/src/components/ModelConfig.tsx:212-299), with its five-minute cache and loading lock;
  - `testConnection` (packages/web/src/components/ModelConfig.tsx:582-615);
  - `handleConfigChange` (packages/web/src/components/ModelConfig.tsx:459-476);
  - `toggleApiKeyVisibility`;
  - the two effects that reload the cached list and pick an instance when the provider changes (packages/web/src/components/ModelConfig.tsx:166-198).
  `ModelService.ModelService.GetModelList` and `TestModelConnection` model the calls the first two make.
- ModelConfig.DeleteKeepsAnInstance: assumes the provider's instance ids are distinct. With duplicate ids one deletion can remove several instances.
- ModelConfig.SyncedConfig: the connection's `baseURL` is the instance's address as a string, even when it is empty. The source copies it the same way.
- TemplateEditor.UpdateContentRole: requires an index inside the message list. The source would write past the end of the array there, leaving a hole. The same holds for TemplateEditor.UpdateContentText.
- TemplateEditor.TemplateEditor.HandleDelete and TemplateEditor.TemplateEditor.HandleSave: the reload of the list after a successful delete or save is not modelled. `LoadTemplates` models the reload itself.
- The template type `optimize` that the editor gives new templates is modelled as an extra template-type tag.
- App.tsx's filtering of the template list by type (packages/web/src/App.tsx:101-176) is not modelled. Neither is the rest of that component's state handling. Its model lists and display names are modelled in `AppModels`.
- ModelSelector.OptionName: states that the shown name has no `/` and that a plain id is shown unchanged. It does not restate the full derivation, which `Base.LastSegment` and `Base.QuantName` state step by step. The same holds for ModelSelectorPanel.PanelName.
- A capability record `{ supportsVision }` is modelled as its boolean. An absent optional string is modelled as the empty string wherever the source treats both as falsy.
- Keyed.Dict stands for a `Map` or a plain object with non-numeric keys. Objects whose keys look like array indices, which JavaScript orders first, are not modelled.

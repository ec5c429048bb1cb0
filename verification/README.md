# health-disparity-backend, modelled in Dafny

This project models the logic core of a small HTTP backend that connects a
client app to an AI provider and a document store. It covers four parts:

- **Thread manager** (`Assistant`, bot/assistant.js). It finds or creates one
  provider conversation thread per (email, category) pair in a document store
  keyed by email. It also reshapes two provider results: run-then-list
  (`createRun`) and list-only (`getExistingMessages`).
- **Health-data validation** (`Zod`, `Insights`). A zod object schema checks
  eight string fields. `gender` must be one of eight literals.
- **Two-round tool-call protocol** (`Chat`, `Insights`). The first call offers
  a tool. Only if the model elects it (`finish_reason === "tool_calls"`) does a
  second call replay the conversation, plus the model's message and a `tool`
  turn, under a forced JSON schema. The answer is the parse of the final
  content. Both `getHealthInsights` and `getResourcesRecommendations` share
  this protocol.
- **Route envelope** (`Routes`, app.js). Each handler answers 200 with the
  result, or 500 with `{error: message}` when the operation throws.

External collaborators are inputs:

- The chat provider is a total function from request to reply (`Chat.Provider`).
- `JSON.parse` is a partial function (`Chat.Parser`).
- The run poller and the message lister are functions (`Assistant.RunPoller`,
  `Assistant.MessageLister`).
- The store read, the provider's thread creation and the store write of
  `checkOrCreateThread` are parameters (`readOk`, `create`, `writeOk`).

Every provider request an insight operation sends is recorded in
`Chat.Exchange.requests`, so the number of calls is stated in contracts. The
store is the `docs` field of the class `Assistant.ThreadStore`. Its `created`
field logs every provider thread the store creates.

JavaScript semantics that matter are written out in `Js`:

- Truthiness. `!threads[type]` treats `""`, `null`, `0` and `false` as missing.
- Property reads follow the prototype chain. A category named like an
  `Object.prototype` member (`"constructor"`, `"toString"`, ...) reads that
  truthy member, so no thread is ever created for it.
- `??` on a null or absent value.
- Property access on `null`/`undefined` throws a TypeError.

Some behaviour of the code worth knowing:

- The validator requires `city` (bot/function.js:57), although the tool
  declaration leaves it out of `required` (bot/function.js:32-40). A profile
  without `city` therefore fails validation (`Insights.CityIsRequired`).
- The resources tool declares twelve required string fields.
- Only an absent or null `tool_calls` gives an empty `tool_call_id`. An
  empty `tool_calls` array throws a TypeError before the second call.
- A stored falsy thread id (such as `""`) is overwritten by a new one on the
  next call (`Assistant.EmptyIdIsRecreated`).
- `getResourcesRecommendations` does not validate its body, but its prompt
  converts every field to a string. A field holding an object with its own
  `toString` key (`{"state": {"toString": 1}}`), or an array containing one,
  throws a TypeError before any provider call (`Insights.OwnToStringIsRejected`).
- `getExistingMessages` tests `response.data` for truthiness. An empty
  message array is still returned as `[]`.

## Model

| member | source | states |
|---|---|---|
| `Js.PropertyRead` | bot/assistant.js:31 | an own property wins; otherwise a name inherited from `Object.prototype` reads a truthy member; otherwise `undefined` |
| `Js.Member` | bot/function.js:166-178 | reading a property of null or undefined throws a TypeError; on an object it is the property read with its prototype chain |
| `Zod.FieldIssue` | bot/function.js:46-62 | a field has no issue iff it conforms; an enum issue only for a string outside the enum |
| `Zod.ObjectIssues` | bot/function.js:45-65 | no issues iff every shape field conforms; each issue names a failing field; every failing field is reported |
| `Zod.SafeParse` | bot/function.js:45-65 | the object passes iff it is a plain object whose fields all conform; a non-object fails as a whole |
| `Zod.SingleFailure` | bot/function.js:45-65 | when exactly one field fails, the issue list is that field's issue alone |
| `Chat.ToolCallId` | bot/function.js:112-114 | the id is the first tool call's id, `""` when `tool_calls` is absent, and a TypeError for an empty array |
| `Chat.FollowUp` | bot/function.js:106-116 | the second-round conversation is the original messages unchanged, then the model's message, then a tool turn whose content is the model content or `""` |
| `Chat.FinalContent` | bot/function.js:119 | the final content is the first choice's content or `""`; a missing `choices` or first choice throws |
| `Chat.ToolRound` | bot/function.js:95-123 | one call and `null` unless the tool is elected; an elected tool with an empty `tool_calls` throws a TypeError after one call; otherwise a second call with the follow-up conversation, no tools and the forced format; when the second reply has a first choice, the answer is the parsed final content if it parses (`""` when the content is null) and a parse error otherwise; parse failure, provider failure and a missing final choice are thrown, not turned into `null` |
| `Insights.PropValues` | bot/function.js:83-91 | the prompt's values are the data's properties, in the listed order |
| `Insights.HealthValidation` | bot/function.js:45-65 | the zod validator accepts exactly the data satisfying `ValidHealthData` (both directions) |
| `Insights.GenderMustBeListed` | bot/function.js:47-56 | with all fields strings, validation passes iff `gender` is one of the eight literals, else exactly one enum issue at `gender` |
| `Insights.ValidDataPrompt` | bot/function.js:83-91 | for valid data the prompt interpolates exactly the eight own field values, in order, and each converts to a string |
| `Insights.GetHealthInsights` | bot/function.js:9-124 | invalid data throws a non-empty validation error and makes no provider call; valid data runs the protocol with the health tool, the disparity format and the data's fields in the prompt |
| `Insights.GetResourcesRecommendations` | bot/function.js:126-213 | no local validation: a body reaches the provider iff it is not null or undefined and every prompt field converts to a string; otherwise a TypeError with no call; never a validation error |
| `Insights.FlatBodyReachesProvider` | bot/function.js:166-183 | a body whose resource fields are each absent or a primitive always reaches the provider |
| `Insights.OwnToStringIsRejected` | bot/function.js:166-178 | a `state` object with its own `toString` key makes the prompt throw a TypeError before any call |
| `Insights.CityIsRequired` | bot/function.js:32-57 | `city` is declared but not required by the tool, yet every profile with all declared-required fields as strings, a listed gender and no string `city` fails validation with exactly one issue at `city` and makes no provider call |
| `Insights.ProfileWithoutCityIssues` | bot/function.js:45-65 | one concrete profile without `city` gets exactly one type issue, at `city`, and no provider call |
| `Assistant.StartDoc` | bot/assistant.js:16-28 | the starting document is the stored one, or `{email, threads: {}}` when none is stored |
| `Assistant.FindOrCreate` | bot/assistant.js:13-46 | a truthy existing thread (an inherited member name included) means no creation, no write and the stored document returned; a missing or falsy one creates exactly one thread; email and other categories are preserved; after a successful creation the stored entry equals the returned document; every failure is `null` and leaves the store unchanged, a failed write writing nothing |
| `Assistant.RepeatIsStable` | bot/assistant.js:26-41 | a second call after a successful one returns the same document and creates and writes nothing, provided the id is non-empty |
| `Assistant.FirstThreadForEmail` | bot/assistant.js:16-41 | a never-seen email gets one new thread for any category not named like an inherited member, and `{email, threads: {category: id}}` is stored and returned |
| `Assistant.InheritedNameIsNeverCreated` | bot/assistant.js:16-31 | for a never-seen email and a category such as `"constructor"`, nothing is created or written and `{email, threads: {}}` is returned |
| `Assistant.EmptyIdIsRecreated` | bot/assistant.js:31-34 | a stored `""` id reads as missing, so the next call creates another thread |
| `Assistant.ThreadStore.constructor` | bot/assistant.js:22 | the store starts with the given documents and no created threads |
| `Assistant.ThreadStore.CheckOrCreateThread` | bot/assistant.js:13-46 | the method's result, new store and created-thread log are those of `FindOrCreate`; on `null` the store is unchanged |
| `Assistant.CreateRun` | bot/assistant.js:60-71 | messages of the run's thread only when the status is completed; `null` for every other status; a failure of the run or of the listing propagates |
| `Assistant.GetExistingMessages` | bot/assistant.js:74-81 | `response.data` when truthy (an empty array included), otherwise `null`; provider failures propagate |
| `Routes.Respond` | app.js:37-42 | 200 with the value iff the operation returned; 500 with the route's error body iff it threw |
| `Routes.PostCheckOrCreateThread` | app.js:45-53 | always 200; the body is `null` exactly when the operation failed; the store and the created-thread log afterwards are those of `FindOrCreate` |
| `Routes.PostGetHealthInsights` | app.js:75-83 | invalid data is a 500; a model that does not elect the tool is a 200 with `null` |
| `Routes.PostGetResourcesRecommendations` | app.js:85-93 | a null or undefined body, or one with a field the prompt cannot convert, is a 500; otherwise a model that does not elect the tool is a 200 with `null` |
| `Routes.PostCreateRun` | app.js:65-73 | a run that did not complete is a 200 with `null`; 500 exactly when the operation throws |
| `Routes.GetExistingMessagesRoute` | app.js:35-43 | a listing failure is a 500; a listing without truthy data is a 200 with `null` |

## Left out

- `addMessage` (bot/assistant.js:50-56) forwards its arguments to the provider unchanged. There is nothing to state about it.
- The response-format schemas of bot/data.js are represented only by their names (`Chat.ResponseFormat`). Nothing checks answers against them locally.
- The wording of the system and user prompts is not modelled. A user turn is its template's name plus the interpolated field values.
- The internals of `JSON.parse`, zod and `zodFunction` are not modelled. The parser is a parameter. The validator covers only the string and string-enum fields the health schema uses, in zod's default mode that accepts unknown keys.
- The model name sent with each completion request is not modelled.
- The read-modify-write race in `checkOrCreateThread` is not modelled. Each call is atomic in the model.
- The polling inside `createAndPoll` is not modelled. The poller returns the run once it stops.
- Firestore's own rejection of invalid document ids (an empty email, say) is not modelled separately. It is one of the ways the read can fail (`readOk`).
- The model assumes every stored document has the shape this code writes. A stored document without a `threads` object would throw and give `null`; that case is not modelled.
- `type` and `email` are strings in the model. An absent `type` would be used as the key `"undefined"`. An absent `email` makes the store's `doc()` throw inside the `try`; the model covers that as a failed read (`readOk` false).
- Assistant.FindOrCreate: a failed store write (`writeOk` false) is modelled as writing nothing, so the store is unchanged after it. A write the store commits before reporting a failure (a deadline exceeded on the client, say) is not modelled.
- Routes.PostCreateRun: the body for a completed run is `{data: ...}`, the page's `data` only. The code sends the provider's whole page object, whose other fields are not modelled.
- Assistant.FirstThreadForEmail: holds only for a category not named like an inherited `Object.prototype` member; for such a name the code finds the inherited member and creates nothing (`Assistant.InheritedNameIsNeverCreated`).
- Assistant.FindOrCreate: the first-time-email creation promise likewise excludes inherited member names, which have their own ensures.
- Insights.GetResourcesRecommendations: a non-nullish body reaches the provider only when every prompt field converts to a string; a body with a field that does not convert throws instead (its own ensures).
- Routes.PostGetResourcesRecommendations: the 200-with-`null` promise likewise holds only for a body whose prompt fields all convert; the others are a 500.
- Js.Stringifies: models the string conversion of parsed JSON only. Values with a callable `toString`, `valueOf` or `Symbol.toPrimitive` cannot occur in a request body and are not modelled.
- Js.Member: on a value that is neither an object nor null/undefined it reads `undefined`; the members of the string, number and array prototypes are not modelled, and none of the profile field names it is used with is one of them.
- Numbers are reals, so `NaN`, which is falsy, is not represented.
- A null and an absent model `content` or `tool_calls` are both `None`. The code treats them alike, but they would serialize differently in the echoed model message.
- HTTP transport is not modelled: helmet, compression, CORS, the 10kb body cap, the rate limiter, `/health`, server start-up and the SIGTERM handler.
- Client construction from environment secrets is not modelled: firebase/config.js and bot/openaiConfig.js.

/**
  The HTTP handlers' envelope: each route awaits its operation inside a
  try/catch and answers 200 with the result as JSON, or 500 with a fixed
  `{error: message}` body when the operation throws.
 */
module Routes {
  import opened Js
  import opened Chat
  import opened Insights
  import opened Assistant

  datatype HttpResponse = HttpResponse(status: int, body: JsValue)

  function ErrorBody(message: string): JsValue {
    Obj(map["error" := Str(message)])
  }

  /** 200 with the value when the operation returned, 500 with the route's message when it threw. */
  function Respond(c: Completion<JsValue>, message: string): (h: HttpResponse)
    ensures h.status == 200 <==> c.Normal?
    ensures h.status == 200 || h.status == 500
    ensures c.Normal? ==> h.body == c.value
    ensures c.Throw? ==> h.body == ErrorBody(message)
  {
    match c
    case Normal(v) => HttpResponse(200, v)
    case Throw(_) => HttpResponse(500, ErrorBody(message))
  }

  /** A thread document as JSON, `null` for `None`. */
  function ThreadDocJson(r: Option<ThreadDoc>): JsValue {
    match r
    case None => Null
    case Some(d) => Obj(map["email" := Str(d.email), "threads" := Obj(d.threads)])
  }

  /** POST /checkOrCreateThread. The operation never throws, so even a store or
      provider failure is answered with 200 and a `null` body. */
  method PostCheckOrCreateThread(store: ThreadStore, category: string, email: string,
                                 readOk: bool, create: Completion<string>, writeOk: bool)
    returns (h: HttpResponse)
    modifies store
    ensures h.status == 200
    ensures h.body.Null? <==> FindOrCreate(old(store.docs), category, email, readOk, create, writeOk).result.None?
    ensures h.body == ThreadDocJson(FindOrCreate(old(store.docs), category, email, readOk, create, writeOk).result)
    ensures store.docs == FindOrCreate(old(store.docs), category, email, readOk, create, writeOk).docs
    ensures store.created ==
      old(store.created) + FindOrCreate(old(store.docs), category, email, readOk, create, writeOk).created
  {
    var r := store.CheckOrCreateThread(category, email, readOk, create, writeOk);
    h := Respond(Normal(ThreadDocJson(r)), "Error checking or creating thread");
  }

  /** POST /getHealthInsights. Invalid data is a 500; a model that does not elect
      the tool is a 200 with a `null` body. */
  function PostGetHealthInsights(data: JsValue, provider: Provider, parse: Parser): (h: HttpResponse)
    ensures !ValidHealthData(data) ==> h == HttpResponse(500, ErrorBody("Error getting health insights"))
    ensures ValidHealthData(data) && provider(FirstRequest(HealthMessages(data), [HealthTool])).Answered? &&
            provider(FirstRequest(HealthMessages(data), [HealthTool])).response.choices.Some? &&
            !ElectsTool(provider(FirstRequest(HealthMessages(data), [HealthTool])).response.choices.value) ==>
      h == HttpResponse(200, Null)
  {
    Respond(GetHealthInsights(data, provider, parse).result, "Error getting health insights")
  }

  /** POST /getResourcesRecommendations: a body that is null or undefined, or that holds
      a field the prompt cannot convert to a string, is a 500; for any other body a
      model that does not elect the tool is a 200 with a `null` body. */
  function PostGetResourcesRecommendations(data: JsValue, provider: Provider, parse: Parser): (h: HttpResponse)
    ensures data.Null? || data.Undefined? ==>
      h == HttpResponse(500, ErrorBody("Error getting resource recommendations"))
    ensures !data.Null? && !data.Undefined? && !PromptStringifies(data, ResourceFields) ==>
      h == HttpResponse(500, ErrorBody("Error getting resource recommendations"))
    ensures !data.Null? && !data.Undefined? && PromptStringifies(data, ResourceFields) &&
            provider(FirstRequest(ResourcesMessages(data), [ResourcesTool])).Answered? &&
            provider(FirstRequest(ResourcesMessages(data), [ResourcesTool])).response.choices.Some? &&
            !ElectsTool(provider(FirstRequest(ResourcesMessages(data), [ResourcesTool])).response.choices.value) ==>
      h == HttpResponse(200, Null)
  {
    Respond(GetResourcesRecommendations(data, provider, parse).result, "Error getting resource recommendations")
  }

  /** POST /createRun: a run that did not complete, whatever its status, is a 200
      with a `null` body; a provider failure is a 500. */
  function PostCreateRun(threadId: string, assistantId: string, instructions: string,
                         createAndPoll: RunPoller, listMessages: MessageLister): (h: HttpResponse)
    ensures createAndPoll(RunRequest(threadId, assistantId, instructions)).Normal? &&
            createAndPoll(RunRequest(threadId, assistantId, instructions)).value.status != Completed ==>
      h == HttpResponse(200, Null)
    ensures h.status == 500 <==> CreateRun(threadId, assistantId, instructions, createAndPoll, listMessages).Throw?
  {
    var r := match CreateRun(threadId, assistantId, instructions, createAndPoll, listMessages)
      case Throw(e) => Throw(e)
      case Normal(None) => Normal(Null)
      case Normal(Some(page)) => Normal(Obj(map["data" := page.data]));
    Respond(r, "Error creating run")
  }

  /** GET /getExistingMessages/:threadId: a listing without (truthy) data is a 200 with a `null` body. */
  function GetExistingMessagesRoute(threadId: string, listMessages: MessageLister): (h: HttpResponse)
    ensures listMessages(threadId).Throw? ==> h == HttpResponse(500, ErrorBody("Error getting existing messages"))
    ensures listMessages(threadId).Normal? && !Truthy(listMessages(threadId).value.data) ==> h == HttpResponse(200, Null)
  {
    Respond(GetExistingMessages(threadId, listMessages), "Error getting existing messages")
  }
}

/**
  The thread manager: per-user conversation threads kept in a document store
  keyed by email, plus the two provider calls whose results it reshapes
  (running an assistant on a thread, listing a thread's messages).

  The store is the `docs` field of a `ThreadStore`; every provider thread the
  manager creates is appended to its `created` log. The three points where a
  call can fail (the store read, the provider's thread creation, the store
  write) are parameters of the operation.
 */
module Assistant {
  import opened Js

  /** A stored thread document: its owner's email and a map from category to thread id. */
  datatype ThreadDoc = ThreadDoc(email: string, threads: map<string, JsValue>)

  /** The document a call starts from: the stored one, or `{email, threads: {}}` when there is none. */
  function StartDoc(docs: map<string, ThreadDoc>, email: string): (d: ThreadDoc)
    ensures email in docs ==> d == docs[email]
    ensures email !in docs ==> d.email == email && d.threads == map[]
  {
    if email in docs then docs[email] else ThreadDoc(email, map[])
  }

  /** `threadDoc.threads[category]` is truthy: an absent key, `""`, `null` and the other
      falsy values all count as no thread, while a category named like an inherited
      `Object.prototype` member (`"constructor"`, `"toString"`, ...) reads that member
      and counts as present. */
  predicate HasThread(d: ThreadDoc, category: string) {
    Truthy(PropertyRead(d.threads, category))
  }

  /** One call's outcome: what it returned (`None` is `null`), the store after it,
      and the provider threads it created. */
  datatype Step = Step(result: Option<ThreadDoc>, docs: map<string, ThreadDoc>, created: seq<string>)

  /** Find or create the thread for `category` in the document of `email`.
      `readOk` and `writeOk` say whether the store read and write succeed,
      `create` is what the provider's thread creation returns or throws. */
  function FindOrCreate(docs: map<string, ThreadDoc>, category: string, email: string,
                        readOk: bool, create: Completion<string>, writeOk: bool): (s: Step)
    // a failed read returns null and changes nothing
    ensures !readOk ==> s == Step(None, docs, [])
    // an existing truthy thread: no creation, no write, the stored document returned as it is
    ensures readOk && HasThread(StartDoc(docs, email), category) ==>
      s == Step(Some(StartDoc(docs, email)), docs, [])
    // a missing or falsy thread: exactly one provider thread is created when the provider answers
    ensures readOk && !HasThread(StartDoc(docs, email), category) ==>
      s.created == (if create.Normal? then [create.value] else [])
    // a first-time email has a thread created, unless the category names an inherited member
    ensures readOk && email !in docs && category !in InheritedKeys && create.Normal? ==>
      s.created == [create.value]
    // a category named like an inherited member and not stored as an own key is never created
    ensures readOk && category in InheritedKeys && category !in StartDoc(docs, email).threads ==>
      s == Step(Some(StartDoc(docs, email)), docs, [])
    // the returned document keeps the email and every other category, and maps
    // `category` to the new thread id when one was created
    ensures s.result.Some? ==>
      s.result.value.email == StartDoc(docs, email).email &&
      s.result.value.threads - {category} == StartDoc(docs, email).threads - {category} &&
      (s.created != [] ==> Lookup(s.result.value.threads, category) == Str(s.created[0]))
    // after a creation that succeeded the store entry for `email` is exactly the
    // returned document, and no other entry changed
    ensures s.result.Some? && s.created != [] ==> s.docs == docs[email := s.result.value]
    // every failure is null and leaves the store as it was
    ensures s.result.None? <==>
      !readOk || (!HasThread(StartDoc(docs, email), category) && (create.Throw? || !writeOk))
    ensures s.result.None? || s.created == [] ==> s.docs == docs
  {
    if !readOk then Step(None, docs, [])
    else
      var start := StartDoc(docs, email);
      if HasThread(start, category) then Step(Some(start), docs, [])
      else match create
        case Throw(_) => Step(None, docs, [])
        case Normal(id) =>
          var updated := start.(threads := start.threads[category := Str(id)]);
          if writeOk then Step(Some(updated), docs[email := updated], [id])
          else Step(None, docs, [id])
  }

  /** A second call right after a successful one returns the same document, creates
      nothing and writes nothing, provided the thread id is not the empty string. */
  lemma RepeatIsStable(docs: map<string, ThreadDoc>, category: string, email: string,
                       create: Completion<string>, writeOk: bool, create2: Completion<string>, writeOk2: bool)
    requires FindOrCreate(docs, category, email, true, create, writeOk).result.Some?
    requires create.Normal? ==> create.value != ""
    ensures var s := FindOrCreate(docs, category, email, true, create, writeOk);
      FindOrCreate(s.docs, category, email, true, create2, writeOk2) == Step(s.result, s.docs, [])
  {
  }

  /** A first request for a never-seen email with everything succeeding creates one
      thread and stores and returns `{email, threads: {category: id}}`. */
  lemma FirstThreadForEmail(docs: map<string, ThreadDoc>, category: string, email: string, id: string)
    requires email !in docs && category !in InheritedKeys
    ensures var doc := ThreadDoc(email, map[category := Str(id)]);
      FindOrCreate(docs, category, email, true, Normal(id), true) == Step(Some(doc), docs[email := doc], [id])
  {
  }

  /** For a never-seen email, a category such as `"constructor"` reads the inherited
      member, which is truthy: nothing is created or written, and `{email, threads: {}}`
      is returned. */
  lemma InheritedNameIsNeverCreated(docs: map<string, ThreadDoc>, category: string, email: string,
                                    create: Completion<string>, writeOk: bool)
    requires email !in docs && category in InheritedKeys
    ensures FindOrCreate(docs, category, email, true, create, writeOk) ==
      Step(Some(ThreadDoc(email, map[])), docs, [])
  {
  }

  /** An empty-string thread id is stored but reads as missing, so the next call
      creates another provider thread. */
  lemma EmptyIdIsRecreated(docs: map<string, ThreadDoc>, category: string, email: string,
                           writeOk: bool, create2: Completion<string>, writeOk2: bool)
    requires FindOrCreate(docs, category, email, true, Normal(""), writeOk).created == [""]
    requires FindOrCreate(docs, category, email, true, Normal(""), writeOk).result.Some?
    ensures var s := FindOrCreate(docs, category, email, true, Normal(""), writeOk);
      s.docs[email].threads[category] == Str("") &&
      FindOrCreate(s.docs, category, email, true, create2, writeOk2).created ==
        (if create2.Normal? then [create2.value] else [])
  {
  }

  /** The document store and the log of provider threads created through it. */
  class ThreadStore {
    /** The `thread` collection: documents keyed by email. */
    var docs: map<string, ThreadDoc>
    /** Ids of the provider threads created, oldest first. */
    var created: seq<string>

    constructor (initial: map<string, ThreadDoc>)
      ensures docs == initial && created == []
    {
      docs := initial;
      created := [];
    }

    /** Find or create the thread for `category` in `email`'s document; every
        failure is caught and reported as `null`. */
    method CheckOrCreateThread(category: string, email: string,
                               readOk: bool, create: Completion<string>, writeOk: bool)
      returns (r: Option<ThreadDoc>)
      modifies this
      ensures var s := FindOrCreate(old(docs), category, email, readOk, create, writeOk);
        r == s.result && docs == s.docs && created == old(created) + s.created
      ensures r.None? ==> docs == old(docs)
    {
      var threadDoc := ThreadDoc(email, map[]);
      if !readOk {
        return None;
      }
      if email in docs {
        threadDoc := docs[email];
      }
      if !Truthy(PropertyRead(threadDoc.threads, category)) {
        match create
        case Throw(_) =>
          return None;
        case Normal(id) =>
          created := created + [id];
          threadDoc := threadDoc.(threads := threadDoc.threads[category := Str(id)]);
          if !writeOk {
            return None;
          }
          docs := docs[email := threadDoc];
      }
      return Some(threadDoc);
    }
  }

  /** The states a run can report. */
  datatype RunStatus =
    | Queued | InProgress | RequiresAction | Cancelling | Cancelled
    | Failed | Completed | Incomplete | Expired

  datatype RunRequest = RunRequest(threadId: string, assistantId: string, instructions: string)

  /** A run once polling has stopped: the thread it ran on and its status. */
  datatype Run = Run(threadId: string, status: RunStatus)

  /** A listed page of a thread's messages; `data` holds the messages. */
  datatype MessagePage = MessagePage(data: JsValue)

  type RunPoller = RunRequest -> Completion<Run>
  type MessageLister = string -> Completion<MessagePage>

  /** Run the assistant on a thread and, only if the run completed, list the
      messages of the run's thread; any other status is `null` (`None`).
      Provider failures propagate. */
  function CreateRun(threadId: string, assistantId: string, instructions: string,
                     createAndPoll: RunPoller, listMessages: MessageLister): (r: Completion<Option<MessagePage>>)
    ensures createAndPoll(RunRequest(threadId, assistantId, instructions)).Throw? ==>
      r == Throw(createAndPoll(RunRequest(threadId, assistantId, instructions)).error)
    ensures r.Normal? && r.value.Some? <==>
      createAndPoll(RunRequest(threadId, assistantId, instructions)).Normal? &&
      createAndPoll(RunRequest(threadId, assistantId, instructions)).value.status == Completed &&
      listMessages(createAndPoll(RunRequest(threadId, assistantId, instructions)).value.threadId).Normal?
    ensures r.Normal? && r.value.Some? ==>
      listMessages(createAndPoll(RunRequest(threadId, assistantId, instructions)).value.threadId) ==
        Normal(r.value.value)
    ensures createAndPoll(RunRequest(threadId, assistantId, instructions)).Normal? &&
            createAndPoll(RunRequest(threadId, assistantId, instructions)).value.status != Completed ==>
      r == Normal(None)
    // a failed listing after a completed run propagates as well
    ensures createAndPoll(RunRequest(threadId, assistantId, instructions)).Normal? &&
            createAndPoll(RunRequest(threadId, assistantId, instructions)).value.status == Completed &&
            listMessages(createAndPoll(RunRequest(threadId, assistantId, instructions)).value.threadId).Throw? ==>
      r == Throw(listMessages(createAndPoll(RunRequest(threadId, assistantId, instructions)).value.threadId).error)
  {
    match createAndPoll(RunRequest(threadId, assistantId, instructions))
    case Throw(e) => Throw(e)
    case Normal(run) =>
      if run.status == Completed then
        match listMessages(run.threadId)
        case Throw(e) => Throw(e)
        case Normal(page) => Normal(Some(page))
      else Normal(None)
  }

  /** A thread's message array, or `null` when the listing carries no (truthy)
      `data`; an empty array is still returned as it is. Provider failures propagate. */
  function GetExistingMessages(threadId: string, listMessages: MessageLister): (r: Completion<JsValue>)
    ensures listMessages(threadId).Throw? ==> r == Throw(listMessages(threadId).error)
    ensures listMessages(threadId).Normal? ==> r.Normal?
    ensures r.Normal? && Truthy(listMessages(threadId).value.data) ==> r.value == listMessages(threadId).value.data
    ensures r.Normal? && !Truthy(listMessages(threadId).value.data) ==> r.value == Null
    ensures listMessages(threadId).Normal? && listMessages(threadId).value.data.Arr? ==>
      r == Normal(listMessages(threadId).value.data)
  {
    match listMessages(threadId)
    case Throw(e) => Throw(e)
    case Normal(page) => if Truthy(page.data) then Normal(page.data) else Normal(Null)
  }
}

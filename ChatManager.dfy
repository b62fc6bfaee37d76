/** The conversation log (`ChatManager`): sending a prompt appends the user's
    message and a placeholder answer with one loading slot per platform;
    each task result then replaces its platform's slot. The concurrent task
    group is modelled as a sequential loop over the results in the order
    they arrive; the main-actor hops and the `[weak self]` escape are not
    modelled. */
module ChatManager {
  import opened Wrappers
  import opened Messages
  import opened ApiManager

  /** What a fetch task yields: the answer, or the description of the
      error it caught. */
  type TaskResult = Result<string, string>

  /** The `do … catch` of a fetch task: an answer passes, a thrown error
      becomes its `localizedDescription`. */
  function TaskResultOf(r: Result<string, RequestError>): (t: TaskResult)
    ensures t.Success? <==> r.Success?
    ensures r.Success? ==> t.value == r.value
    ensures r.Failure? ==> t.error == LocalizedDescription(r.error)
  {
    match r
    case Success(v) => Success(v)
    case Failure(e) => Failure(LocalizedDescription(e))
  }

  /** The error text used when a failure carries none. */
  const FailedToGetResponse: string := "Failed to get response"

  /** The slot `updateResponse` builds: the answer with no error, or no
      content with the given error (or the fallback text). */
  function Answered(platform: Platform, response: Option<string>, error: Option<string>): (r: AIResponse)
    ensures r.platform == platform && !r.isLoading && WellFormed(r)
    ensures response.Some? ==> r.content == response.value && r.error == None
    ensures response.None? ==> r.content == "" && r.error == Some(error.GetOr(FailedToGetResponse))
  {
    if response.Some? then MakeResponse(platform, response.value, false)
    else MakeResponse(platform, "", false, Some(error.GetOr(FailedToGetResponse)))
  }

  /** `firstIndex(where: { $0.platform == platform })`. */
  function FirstIndexOf(rs: seq<AIResponse>, platform: Platform): (r: Option<nat>)
    ensures r.Some? ==> r.value < |rs| && rs[r.value].platform == platform
    ensures r.Some? ==> forall j :: 0 <= j < r.value ==> rs[j].platform != platform
    ensures r.None? <==> forall j :: 0 <= j < |rs| ==> rs[j].platform != platform
  {
    if rs == [] then None
    else if rs[0].platform == platform then Some(0)
    else
      match FirstIndexOf(rs[1..], platform)
      case Some(k) => Some(k + 1)
      case None => None
  }

  /** Where the platforms of two slot lists agree, so does every first index. */
  lemma FirstIndexSamePlatforms(rs: seq<AIResponse>, ss: seq<AIResponse>, platform: Platform)
    requires |rs| == |ss|
    requires forall k :: 0 <= k < |rs| ==> rs[k].platform == ss[k].platform
    ensures FirstIndexOf(rs, platform) == FirstIndexOf(ss, platform)
  {
  }

  /** The log after `updateResponse`: the first slot of `platform` in the
      indexed message is replaced by `Answered(…)`; an index past the end
      or a platform without a slot leaves the log as it was. */
  function Updated(ms: seq<Message>, platform: Platform, response: Option<string>, error: Option<string>,
                   messageIndex: nat): (r: seq<Message>)
    ensures |r| == |ms|
    ensures forall i :: 0 <= i < |ms| && i != messageIndex ==> r[i] == ms[i]
    ensures messageIndex >= |ms| ==> r == ms
    ensures (messageIndex < |ms| && forall k :: 0 <= k < |ms[messageIndex].responses|
                                      ==> ms[messageIndex].responses[k].platform != platform) ==> r == ms
    ensures messageIndex < |ms| ==> SameHeader(r[messageIndex], ms[messageIndex])
    ensures messageIndex < |ms| ==> |r[messageIndex].responses| == |ms[messageIndex].responses|
    ensures messageIndex < |ms| ==> forall k :: 0 <= k < |ms[messageIndex].responses| ==>
              r[messageIndex].responses[k] ==
                if FirstIndexOf(ms[messageIndex].responses, platform) == Some(k)
                then Answered(platform, response, error)
                else ms[messageIndex].responses[k]
    ensures AllWellFormed(ms) ==> AllWellFormed(r)
  {
    if messageIndex >= |ms| then ms
    else
      var message := ms[messageIndex];
      match FirstIndexOf(message.responses, platform)
      case None => ms
      case Some(index) =>
        ms[messageIndex := message.(responses := message.responses[index := Answered(platform, response, error)])]
  }

  /** The slot a task result settles its platform's slot to. */
  function SlotFor(platform: Platform, t: TaskResult): (r: AIResponse)
    ensures r.platform == platform && !r.isLoading && WellFormed(r)
    ensures t.Success? ==> r.content == t.value && r.error == None
    ensures t.Failure? ==> r.content == "" && r.error == Some(t.error)
  {
    match t
    case Success(s) => Answered(platform, Some(s), None)
    case Failure(d) => Answered(platform, None, Some(d))
  }

  /** One step of the `for await` loop: the `switch` over the result. */
  function ApplyResult(ms: seq<Message>, messageIndex: nat, arrival: (Platform, TaskResult)): (r: seq<Message>)
    ensures |r| == |ms|
    ensures forall i :: 0 <= i < |ms| && i != messageIndex ==> r[i] == ms[i]
    ensures messageIndex < |ms| ==> SameHeader(r[messageIndex], ms[messageIndex])
    ensures messageIndex < |ms| ==> |r[messageIndex].responses| == |ms[messageIndex].responses|
    ensures AllWellFormed(ms) ==> AllWellFormed(r)
  {
    match arrival.1
    case Success(response) => Updated(ms, arrival.0, Some(response), None, messageIndex)
    case Failure(description) => Updated(ms, arrival.0, None, Some(description), messageIndex)
  }

  /** The log after the loop has applied `arrivals`, first to last: as
      long as the log, and every slot keeps its shape. */
  function ApplyAll(ms: seq<Message>, messageIndex: nat, arrivals: seq<(Platform, TaskResult)>): (r: seq<Message>)
    ensures |r| == |ms|
    ensures AllWellFormed(ms) ==> AllWellFormed(r)
    decreases |arrivals|
  {
    if arrivals == [] then ms
    else ApplyResult(ApplyAll(ms, messageIndex, arrivals[..|arrivals| - 1]), messageIndex, arrivals[|arrivals| - 1])
  }

  /** Whatever arrives, only the slots of the indexed message change: every
      other message, the indexed message's header and its slot count stay. */
  lemma {:induction false} ApplyAllFrame(ms: seq<Message>, messageIndex: nat, arrivals: seq<(Platform, TaskResult)>)
    ensures var r := ApplyAll(ms, messageIndex, arrivals);
            && (forall i :: 0 <= i < |ms| && i != messageIndex ==> r[i] == ms[i])
            && (messageIndex < |ms| ==> SameHeader(r[messageIndex], ms[messageIndex])
                                        && |r[messageIndex].responses| == |ms[messageIndex].responses|)
    decreases |arrivals|
  {
    if arrivals != [] {
      ApplyAllFrame(ms, messageIndex, arrivals[..|arrivals| - 1]);
    }
  }

  /** The results of the four tasks, arriving in the order `order`. */
  function Arrivals(order: seq<Platform>, outcome: Platform -> TaskResult): (r: seq<(Platform, TaskResult)>)
    ensures |r| == |order|
    ensures forall i :: 0 <= i < |order| ==> r[i] == (order[i], outcome(order[i]))
  {
    seq(|order|, i requires 0 <= i < |order| => (order[i], outcome(order[i])))
  }

  /** The slots of `rs` once the platforms in `order` have reported: each
      platform's first slot is settled, every other slot is as it was. */
  function Settle(rs: seq<AIResponse>, order: seq<Platform>, outcome: Platform -> TaskResult): (r: seq<AIResponse>)
    ensures |r| == |rs|
    ensures forall k :: 0 <= k < |rs| ==> r[k].platform == rs[k].platform
  {
    seq(|rs|, k requires 0 <= k < |rs| =>
      if rs[k].platform in order && FirstIndexOf(rs, rs[k].platform) == Some(k)
      then SlotFor(rs[k].platform, outcome(rs[k].platform))
      else rs[k])
  }

  /** One result applied to a log, in closed form. */
  lemma ApplyResultAt(ms: seq<Message>, messageIndex: nat, q: Platform, t: TaskResult)
    requires messageIndex < |ms|
    ensures var rs := ms[messageIndex].responses;
            ApplyResult(ms, messageIndex, (q, t)) ==
              match FirstIndexOf(rs, q)
              case None => ms
              case Some(j) => ms[messageIndex := ms[messageIndex].(responses := rs[j := SlotFor(q, t)])]
  {
  }

  /** One more platform reporting settles that platform's first slot. */
  lemma SettleStep(rs: seq<AIResponse>, pre: seq<Platform>, q: Platform, outcome: Platform -> TaskResult)
    ensures var rs1 := Settle(rs, pre, outcome);
            Settle(rs, pre + [q], outcome) ==
              match FirstIndexOf(rs1, q)
              case None => rs1
              case Some(j) => rs1[j := SlotFor(q, outcome(q))]
  {
    var rs1 := Settle(rs, pre, outcome);
    FirstIndexSamePlatforms(rs1, rs, q);
    var target := Settle(rs, pre + [q], outcome);
    var got := match FirstIndexOf(rs1, q)
               case None => rs1
               case Some(j) => rs1[j := SlotFor(q, outcome(q))];
    forall k | 0 <= k < |rs|
      ensures got[k] == target[k]
    {
      var p := rs[k].platform;
      assert p in pre + [q] <==> p in pre || p == q;
    }
  }

  /** Applying the results for `order` settles exactly the slots of the
      platforms in `order`, whatever the order and whatever repeats it has. */
  lemma {:induction false} ApplyArrivals(ms: seq<Message>, messageIndex: nat, order: seq<Platform>,
                                         outcome: Platform -> TaskResult)
    requires messageIndex < |ms|
    ensures ApplyAll(ms, messageIndex, Arrivals(order, outcome))
            == ms[messageIndex := ms[messageIndex].(responses := Settle(ms[messageIndex].responses, order, outcome))]
    decreases |order|
  {
    var m := ms[messageIndex];
    var rs := m.responses;
    if order == [] {
      assert Settle(rs, order, outcome) == rs;
      assert ms[messageIndex := m.(responses := rs)] == ms;
    } else {
      var pre, q := order[..|order| - 1], order[|order| - 1];
      var arrivals := Arrivals(order, outcome);
      assert arrivals[..|arrivals| - 1] == Arrivals(pre, outcome);
      ApplyArrivals(ms, messageIndex, pre, outcome);
      var m1 := ms[messageIndex := m.(responses := Settle(rs, pre, outcome))];
      assert ApplyAll(ms, messageIndex, arrivals) == ApplyResult(m1, messageIndex, (q, outcome(q)));
      ApplyResultAt(m1, messageIndex, q, outcome(q));
      assert order == pre + [q];
      SettleStep(rs, pre, q, outcome);
    }
  }

  /** Every slot of `rs` settled by its platform's result. */
  function SettleAll(rs: seq<AIResponse>, outcome: Platform -> TaskResult): (r: seq<AIResponse>)
    ensures |r| == |rs|
    ensures forall k :: 0 <= k < |rs| ==> r[k].platform == rs[k].platform && !r[k].isLoading
  {
    var r := seq(|rs|, k requires 0 <= k < |rs| => SlotFor(rs[k].platform, outcome(rs[k].platform)));
    assert forall k :: 0 <= k < |rs| ==> r[k] == SlotFor(rs[k].platform, outcome(rs[k].platform));
    r
  }

  /** Once every platform has reported, every slot of a message whose
      platforms are distinct is settled by its platform's result, and no
      other message has changed; the order of arrival plays no part. */
  lemma AllArrivedSettles(ms: seq<Message>, messageIndex: nat, order: seq<Platform>,
                          outcome: Platform -> TaskResult)
    requires messageIndex < |ms| && DistinctPlatforms(ms[messageIndex].responses)
    requires forall p: Platform :: p in order
    ensures ApplyAll(ms, messageIndex, Arrivals(order, outcome))
            == ms[messageIndex := ms[messageIndex].(responses := SettleAll(ms[messageIndex].responses, outcome))]
  {
    ApplyArrivals(ms, messageIndex, order, outcome);
    var rs := ms[messageIndex].responses;
    assert Settle(rs, order, outcome) == SettleAll(rs, outcome);
  }

  /** Every arrival order of the same results leaves the same log. */
  lemma ArrivalOrderIrrelevant(ms: seq<Message>, messageIndex: nat, order1: seq<Platform>, order2: seq<Platform>,
                               outcome: Platform -> TaskResult)
    requires forall p: Platform :: p in order1 <==> p in order2
    ensures ApplyAll(ms, messageIndex, Arrivals(order1, outcome)) == ApplyAll(ms, messageIndex, Arrivals(order2, outcome))
  {
    if messageIndex < |ms| {
      ApplyArrivals(ms, messageIndex, order1, outcome);
      ApplyArrivals(ms, messageIndex, order2, outcome);
      var rs := ms[messageIndex].responses;
      assert Settle(rs, order1, outcome) == Settle(rs, order2, outcome);
    } else {
      ApplyAllPastEnd(ms, messageIndex, Arrivals(order1, outcome));
      ApplyAllPastEnd(ms, messageIndex, Arrivals(order2, outcome));
    }
  }

  /** Results for an index past the end of the log change nothing. */
  lemma {:induction false} ApplyAllPastEnd(ms: seq<Message>, messageIndex: nat, arrivals: seq<(Platform, TaskResult)>)
    requires messageIndex >= |ms|
    ensures ApplyAll(ms, messageIndex, arrivals) == ms
    decreases |arrivals|
  {
    if arrivals != [] {
      ApplyAllPastEnd(ms, messageIndex, arrivals[..|arrivals| - 1]);
    }
  }

  /** The placeholder's slots: one pending slot per platform, in `allCases` order. */
  function PendingSlots(): (r: seq<AIResponse>)
    ensures |r| == |AllCases()| && DistinctPlatforms(r)
    ensures forall k :: 0 <= k < |r| ==> r[k].platform == AllCases()[k]
    ensures forall k :: 0 <= k < |r| ==> r[k].isLoading && r[k].content == "" && r[k].error == None
  {
    seq(|AllCases()|, k requires 0 <= k < |AllCases()| => Pending(AllCases()[k]))
  }

  /** The slots once every platform has reported, in `allCases` order. */
  function AnsweredSlots(outcome: Platform -> TaskResult): (r: seq<AIResponse>)
    ensures |r| == |AllCases()|
    ensures forall k :: 0 <= k < |r| ==> r[k] == SlotFor(AllCases()[k], outcome(AllCases()[k]))
    ensures forall k :: 0 <= k < |r| ==> !r[k].isLoading
  {
    seq(|AllCases()|, k requires 0 <= k < |AllCases()| => SlotFor(AllCases()[k], outcome(AllCases()[k])))
  }

  /** A provider's structured error reaches its slot as "<name>: <message>". */
  lemma ProviderErrorReachesSlot(platform: Platform, status: int, message: string)
    requires status != 200
    ensures var t := TaskResultOf(ClassifyReply(platform, Received(Some(status),
                       Success(Json.JObject(map["error" := Json.JString(message)])))));
            SlotFor(platform, t).error == Some(RawValue(platform) + ": " + message)
            && SlotFor(platform, t).content == "" && !SlotFor(platform, t).isLoading
  {
  }

  class ChatManager {
    var messages: seq<Message>
    var isProcessing: bool

    /** Every slot in the log keeps the slot shape. */
    ghost predicate Valid()
      reads this
    {
      AllWellFormed(messages)
    }

    constructor ()
      ensures Valid() && messages == [] && !isProcessing
    {
      messages := [];
      isProcessing := false;
    }

    /** The synchronous part of `sendMessage`: appends the user message and
        the placeholder, sets `isProcessing`, and returns the index the
        fetch task is started with. `sentAt` and `placeholderAt` are the two
        `Date()` readings. */
    method SendMessage(content: string, sentAt: Timestamp, placeholderAt: Timestamp) returns (messageIndex: nat)
      requires Valid()
      modifies this
      ensures Valid() && isProcessing
      ensures messages == old(messages) + [MakeMessage(content, true, sentAt),
                                           MakeMessage("", false, placeholderAt, PendingSlots())]
      ensures messageIndex == |messages| - 1
    {
      var userMessage := MakeMessage(content, true, sentAt);
      messages := messages + [userMessage];

      var aiResponses: seq<AIResponse> := [];
      var platforms := AllCases();
      for i := 0 to |platforms|
        invariant |aiResponses| == i
        invariant forall k :: 0 <= k < i ==> aiResponses[k] == Pending(platforms[k])
      {
        aiResponses := aiResponses + [Pending(platforms[i])];
      }
      assert aiResponses == PendingSlots();

      var aiMessage := MakeMessage("", false, placeholderAt, aiResponses);
      messages := messages + [aiMessage];
      isProcessing := true;
      messageIndex := |messages| - 1;
    }

    /** `updateResponse(platform:response:error:messageIndex:)`. */
    method UpdateResponse(platform: Platform, response: Option<string>, error: Option<string>, messageIndex: nat)
      requires Valid()
      modifies this
      ensures Valid() && isProcessing == old(isProcessing)
      ensures messages == Updated(old(messages), platform, response, error, messageIndex)
    {
      if messageIndex >= |messages| {
        return;
      }
      var message := messages[messageIndex];
      var index := FirstIndexOf(message.responses, platform);
      if index.Some? {
        var updatedResponse: AIResponse;
        if response.Some? {
          updatedResponse := MakeResponse(platform, response.value, false);
        } else {
          var errorMessage := error.GetOr(FailedToGetResponse);
          updatedResponse := MakeResponse(platform, "", false, Some(errorMessage));
        }
        message := message.(responses := message.responses[index.value := updatedResponse]);
        messages := messages[messageIndex := message];
      }
    }

    /** The result loop of `fetchResponses`: applies each task result in
        arrival order, then clears `isProcessing`. */
    method FetchResponses(messageIndex: nat, arrivals: seq<(Platform, TaskResult)>)
      requires Valid()
      modifies this
      ensures Valid() && !isProcessing
      ensures messages == ApplyAll(old(messages), messageIndex, arrivals)
    {
      for i := 0 to |arrivals|
        invariant Valid() && isProcessing == old(isProcessing)
        invariant messages == ApplyAll(old(messages), messageIndex, arrivals[..i])
      {
        assert arrivals[..i + 1][..i] == arrivals[..i];
        var (platform, result) := arrivals[i];
        match result
        case Success(response) =>
          UpdateResponse(platform, Some(response), None, messageIndex);
        case Failure(description) =>
          UpdateResponse(platform, None, Some(description), messageIndex);
      }
      assert arrivals[..|arrivals|] == arrivals;
      isProcessing := false;
    }

    /** A whole exchange: `sendMessage` followed by its fetch task, with the
        four results arriving in `order`. Whatever the order, the log ends
        with the user message and an answer message whose every slot is
        settled, and `isProcessing` is false. */
    method SendAndCollect(content: string, sentAt: Timestamp, placeholderAt: Timestamp,
                          order: seq<Platform>, outcome: Platform -> TaskResult)
      requires Valid()
      requires forall p: Platform :: p in order
      modifies this
      ensures Valid() && !isProcessing
      ensures messages == old(messages) + [MakeMessage(content, true, sentAt),
                                           MakeMessage("", false, placeholderAt, AnsweredSlots(outcome))]
    {
      var messageIndex := SendMessage(content, sentAt, placeholderAt);
      ghost var sent := messages;
      FetchResponses(messageIndex, Arrivals(order, outcome));
      AllArrivedSettles(sent, messageIndex, order, outcome);
      assert SettleAll(PendingSlots(), outcome) == AnsweredSlots(outcome);
    }
  }
}

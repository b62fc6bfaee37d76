/** The value types of the conversation log: `Message`, `AIResponse` and the
    `AIPlatform` enumeration. Identities (`UUID`) are not modelled; a
    timestamp is an opaque integer supplied by the caller. */
module Messages {
  import opened Wrappers

  type Timestamp = int

  /** The four providers, declared in this order. */
  datatype Platform = ChatGPT | Gemini | Claude | Perplexity

  /** The enumeration's raw value (its display name). */
  function RawValue(p: Platform): (r: string)
    ensures |r| > 0
  {
    match p
    case ChatGPT => "ChatGPT"
    case Gemini => "Gemini"
    case Claude => "Claude"
    case Perplexity => "Perplexity"
  }

  /** `AIPlatform.allCases`: every platform exactly once, in declaration order. */
  function AllCases(): (r: seq<Platform>)
    ensures |r| == 4
    ensures forall i, j :: 0 <= i < j < |r| ==> r[i] != r[j]
    ensures r[0] == ChatGPT && r[3] == Perplexity
  {
    [ChatGPT, Gemini, Claude, Perplexity]
  }

  /** Every platform occurs in `AllCases()`. */
  lemma AllCasesComplete(p: Platform)
    ensures p in AllCases()
  {
    var r := AllCases();
    match p
    case ChatGPT => assert r[0] == p;
    case Gemini => assert r[1] == p;
    case Claude => assert r[2] == p;
    case Perplexity => assert r[3] == p;
  }

  /** The SF Symbol shown for a platform. */
  function IconName(p: Platform): (r: string)
    ensures |r| > 0
  {
    match p
    case ChatGPT => "brain"
    case Gemini => "sparkles"
    case Claude => "text.bubble"
    case Perplexity => "magnifyingglass"
  }

  /** Distinct platforms have distinct raw values. */
  lemma RawValueInjective(p: Platform, q: Platform)
    ensures RawValue(p) == RawValue(q) ==> p == q
  {
    if p != q {
      assert RawValue(p)[0] != RawValue(q)[0] || RawValue(p)[1] != RawValue(q)[1];
    }
  }

  /** Distinct platforms have distinct icons. */
  lemma IconNameInjective(p: Platform, q: Platform)
    ensures IconName(p) == IconName(q) ==> p == q
  {
    if p != q {
      assert IconName(p)[0] != IconName(q)[0] || |IconName(p)| != |IconName(q)|;
    }
  }

  /** One provider's slot in an answer message. */
  datatype AIResponse = AIResponse(platform: Platform, content: string, isLoading: bool, error: Option<string>)

  /** `AIResponse.init` with its default arguments. */
  function MakeResponse(platform: Platform, content: string := "", isLoading: bool := true,
                        error: Option<string> := None): (r: AIResponse)
    ensures r.platform == platform && r.content == content
    ensures r.isLoading == isLoading && r.error == error
  {
    AIResponse(platform, content, isLoading, error)
  }

  /** The slot a platform holds before its answer arrives. */
  function Pending(platform: Platform): (r: AIResponse)
    ensures r.platform == platform && r.isLoading && r.content == "" && r.error == None
  {
    MakeResponse(platform)
  }

  /** The shape every slot keeps: a loading slot has neither content nor
      error, and a slot with an error has no content. */
  predicate WellFormed(r: AIResponse) {
    && (r.isLoading ==> r.content == "" && r.error.None?)
    && (r.error.Some? ==> r.content == "" && !r.isLoading)
  }

  /** One entry of the log. Only `responses` can change after creation. */
  datatype Message = Message(content: string, isUser: bool, timestamp: Timestamp, responses: seq<AIResponse>)

  /** `Message.init` with its default `responses`. */
  function MakeMessage(content: string, isUser: bool, timestamp: Timestamp,
                       responses: seq<AIResponse> := []): (r: Message)
    ensures r.content == content && r.isUser == isUser && r.timestamp == timestamp
    ensures r.responses == responses
  {
    Message(content, isUser, timestamp, responses)
  }

  /** Two messages agree on everything the Swift struct declares with `let`. */
  predicate SameHeader(m: Message, n: Message) {
    m.content == n.content && m.isUser == n.isUser && m.timestamp == n.timestamp
  }

  /** No platform owns two slots of `rs`. */
  predicate DistinctPlatforms(rs: seq<AIResponse>) {
    forall i, j :: 0 <= i < j < |rs| ==> rs[i].platform != rs[j].platform
  }

  /** Every slot of every message keeps the slot shape. */
  predicate AllWellFormed(ms: seq<Message>) {
    forall i, k :: 0 <= i < |ms| && 0 <= k < |ms[i].responses| ==> WellFormed(ms[i].responses[k])
  }
}

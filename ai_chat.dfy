/** The chat assistant's logic: the keyword classifier that picks a reply for a query,
    the guard that decides whether a send attempt produces a message at all, and the
    badge on the floating chat button. */
module AIChat {
  import opened Wrappers
  import opened Text

  /** A service or an industry as the classifier sees it: its id and its title. The
      description, which only the reply prose shows, is left out. */
  datatype Service = Service(id: string, title: string)
  datatype Industry = Industry(id: string, title: string)
  /** A canned answer and the phrases that trigger it. */
  datatype FaqTopic = FaqTopic(keywords: seq<string>, response: string)
  datatype KnowledgeBase = KnowledgeBase(services: seq<Service>, industries: seq<Industry>, faqs: seq<FaqTopic>)

  /** The kind of reply and the record it is built from; the reply prose itself is a
      template over these records and the company constants. */
  datatype Reply =
    | ServiceReply(service: Service)
    | IndustryReply(industry: Industry)
    | FaqReply(response: string)
    | ServicesList
    | DefaultReply

  /** The AI branch reads a property of the `ai-ml` service; a table without that
      service makes it read a property of `undefined`, which throws. */
  datatype ResponseError = MissingAiService

  /** The first index from `i` on whose element satisfies `p` (`for … return`, `find`). */
  function FindFrom<T>(xs: seq<T>, p: T -> bool, i: nat): (r: Option<nat>)
    requires i <= |xs|
    ensures r.Some? ==> i <= r.value < |xs| && p(xs[r.value]) && forall k :: i <= k < r.value ==> !p(xs[k])
    ensures r.None? <==> forall k :: i <= k < |xs| ==> !p(xs[k])
    decreases |xs| - i
  {
    if i == |xs| then None
    else if p(xs[i]) then Some(i)
    else FindFrom(xs, p, i + 1)
  }

  /** The first element satisfying `p`, by index. */
  function FindFirst<T>(xs: seq<T>, p: T -> bool): (r: Option<nat>)
    ensures r.Some? ==> r.value < |xs| && p(xs[r.value]) && forall k :: 0 <= k < r.value ==> !p(xs[k])
    ensures r.None? <==> forall k :: 0 <= k < |xs| ==> !p(xs[k])
  {
    FindFrom(xs, p, 0)
  }

  /** A service answers a (lowercased) query when one space-separated word of its
      lowercased title occurs in it, or its id with the first `-` turned into a space
      does. */
  predicate ServiceMatches(s: Service, q: string) {
    var words := Split(ToLower(s.title), ' ');
    (exists k :: 0 <= k < |words| && Contains(q, words[k])) || Contains(q, ReplaceFirst(s.id, '-', ' '))
  }

  /** An industry answers when its lowercased title or its id occurs in the query. */
  predicate IndustryMatches(ind: Industry, q: string) {
    Contains(q, ToLower(ind.title)) || Contains(q, ind.id)
  }

  /** A topic answers when one of its keywords occurs in the query. */
  predicate FaqMatches(f: FaqTopic, q: string) {
    exists k :: 0 <= k < |f.keywords| && Contains(q, f.keywords[k])
  }

  /** A general question about what the company offers. */
  predicate AsksForServices(q: string) {
    Contains(q, "service") || Contains(q, "offer") || Contains(q, "do you")
  }

  /** A question about artificial intelligence. */
  predicate AsksAboutAi(q: string) {
    Contains(q, "ai") || Contains(q, "artificial intelligence") || Contains(q, "machine learning") || Contains(q, "ml")
  }

  predicate IsAiService(s: Service) {
    s.id == "ai-ml"
  }

  /** `generateAIResponse`: lowercase the query, then try the services, the industries
      and the topics in table order, then the general-services phrases, then the AI
      phrases, and fall back to the default reply. The first hit wins. */
  function GenerateAIResponse(kb: KnowledgeBase, query: string): Result<Reply, ResponseError> {
    var q := ToLower(query);
    match FindFirst(kb.services, s => ServiceMatches(s, q))
    case Some(i) => Success(ServiceReply(kb.services[i]))
    case None =>
      match FindFirst(kb.industries, ind => IndustryMatches(ind, q))
      case Some(i) => Success(IndustryReply(kb.industries[i]))
      case None =>
        match FindFirst(kb.faqs, f => FaqMatches(f, q))
        case Some(i) => Success(FaqReply(kb.faqs[i].response))
        case None =>
          if AsksForServices(q) then Success(ServicesList)
          else if AsksAboutAi(q) then
            match FindFirst(kb.services, IsAiService)
            case Some(i) => Success(ServiceReply(kb.services[i]))
            case None => Failure(MissingAiService)
          else Success(DefaultReply)
  }

  // The categories of a lowercased query `q`, by table position.

  predicate ServiceHit(kb: KnowledgeBase, q: string, i: int) {
    0 <= i < |kb.services| && ServiceMatches(kb.services[i], q)
  }

  predicate IndustryHit(kb: KnowledgeBase, q: string, i: int) {
    0 <= i < |kb.industries| && IndustryMatches(kb.industries[i], q)
  }

  predicate FaqHit(kb: KnowledgeBase, q: string, i: int) {
    0 <= i < |kb.faqs| && FaqMatches(kb.faqs[i], q)
  }

  predicate AiServiceAt(kb: KnowledgeBase, i: int) {
    0 <= i < |kb.services| && IsAiService(kb.services[i])
  }

  /** No service, industry or topic answers `q`. */
  predicate NoTableHit(kb: KnowledgeBase, q: string) {
    (forall i | 0 <= i < |kb.services| :: !ServiceHit(kb, q, i)) &&
    (forall i | 0 <= i < |kb.industries| :: !IndustryHit(kb, q, i)) &&
    (forall i | 0 <= i < |kb.faqs| :: !FaqHit(kb, q, i))
  }

  /** The first matching service answers, whatever else the query mentions. */
  lemma ReplyFirstService(kb: KnowledgeBase, query: string, i: int)
    requires ServiceHit(kb, ToLower(query), i)
    requires forall k :: 0 <= k < i ==> !ServiceHit(kb, ToLower(query), k)
    ensures GenerateAIResponse(kb, query) == Success(ServiceReply(kb.services[i]))
  {
    var q := ToLower(query);
    var r := FindFirst(kb.services, s => ServiceMatches(s, q));
    assert ServiceMatches(kb.services[i], q);
    assert r.Some?;
    assert ServiceHit(kb, q, r.value);
    assert r.value >= i;
    assert r.value <= i;
  }

  /** With no service matching, the first matching industry answers. */
  lemma ReplyFirstIndustry(kb: KnowledgeBase, query: string, i: int)
    requires forall k :: !ServiceHit(kb, ToLower(query), k)
    requires IndustryHit(kb, ToLower(query), i)
    requires forall k :: 0 <= k < i ==> !IndustryHit(kb, ToLower(query), k)
    ensures GenerateAIResponse(kb, query) == Success(IndustryReply(kb.industries[i]))
  {
    var q := ToLower(query);
    assert FindFirst(kb.services, s => ServiceMatches(s, q)).None? by {
      forall k | 0 <= k < |kb.services|
        ensures !ServiceMatches(kb.services[k], q)
      {
        assert !ServiceHit(kb, q, k);
      }
    }
    var r := FindFirst(kb.industries, ind => IndustryMatches(ind, q));
    assert IndustryMatches(kb.industries[i], q);
    assert r.Some?;
    assert IndustryHit(kb, q, r.value);
    assert r.value >= i;
    assert r.value <= i;
  }

  /** With no service or industry matching, the first matching topic answers with its
      canned response. */
  lemma ReplyFirstFaq(kb: KnowledgeBase, query: string, i: int)
    requires forall k :: !ServiceHit(kb, ToLower(query), k)
    requires forall k :: !IndustryHit(kb, ToLower(query), k)
    requires FaqHit(kb, ToLower(query), i)
    requires forall k :: 0 <= k < i ==> !FaqHit(kb, ToLower(query), k)
    ensures GenerateAIResponse(kb, query) == Success(FaqReply(kb.faqs[i].response))
  {
    var q := ToLower(query);
    NoServiceNoIndustry(kb, q);
    var r := FindFirst(kb.faqs, f => FaqMatches(f, q));
    assert FaqMatches(kb.faqs[i], q);
    assert r.Some?;
    assert FaqHit(kb, q, r.value);
    assert r.value >= i;
    assert r.value <= i;
  }

  /** Restates the absence of hits as the `None` results of the first two searches. */
  lemma NoServiceNoIndustry(kb: KnowledgeBase, q: string)
    requires forall k :: !ServiceHit(kb, q, k)
    requires forall k :: !IndustryHit(kb, q, k)
    ensures FindFirst(kb.services, s => ServiceMatches(s, q)).None?
    ensures FindFirst(kb.industries, ind => IndustryMatches(ind, q)).None?
  {
    forall k | 0 <= k < |kb.services|
      ensures !ServiceMatches(kb.services[k], q)
    {
      assert !ServiceHit(kb, q, k);
    }
    forall k | 0 <= k < |kb.industries|
      ensures !IndustryMatches(kb.industries[k], q)
    {
      assert !IndustryHit(kb, q, k);
    }
  }

  /** Restates the absence of table hits as the `None` results of all three searches. */
  lemma NoTableSearchHit(kb: KnowledgeBase, q: string)
    requires NoTableHit(kb, q)
    ensures FindFirst(kb.services, s => ServiceMatches(s, q)).None?
    ensures FindFirst(kb.industries, ind => IndustryMatches(ind, q)).None?
    ensures FindFirst(kb.faqs, f => FaqMatches(f, q)).None?
  {
    NoServiceNoIndustry(kb, q);
    forall k | 0 <= k < |kb.faqs|
      ensures !FaqMatches(kb.faqs[k], q)
    {
      assert !FaqHit(kb, q, k);
    }
  }

  /** A hit in any table rules out the later categories. */
  lemma TableHitFound(kb: KnowledgeBase, q: string)
    requires !NoTableHit(kb, q)
    ensures FindFirst(kb.services, s => ServiceMatches(s, q)).Some? ||
            FindFirst(kb.industries, ind => IndustryMatches(ind, q)).Some? ||
            FindFirst(kb.faqs, f => FaqMatches(f, q)).Some?
  {
    if exists i :: ServiceHit(kb, q, i) {
      var i :| ServiceHit(kb, q, i);
      assert ServiceMatches(kb.services[i], q);
    } else if exists i :: IndustryHit(kb, q, i) {
      var i :| IndustryHit(kb, q, i);
      assert IndustryMatches(kb.industries[i], q);
    } else {
      assert !(forall i | 0 <= i < |kb.faqs| :: !FaqHit(kb, q, i));
      var i :| 0 <= i < |kb.faqs| && FaqHit(kb, q, i);
      assert FaqMatches(kb.faqs[i], q);
    }
  }

  /** The services overview is given exactly when no table answers and the query asks
      what the company offers. */
  lemma ReplyServicesList(kb: KnowledgeBase, query: string)
    ensures GenerateAIResponse(kb, query) == Success(ServicesList) <==>
      NoTableHit(kb, ToLower(query)) && AsksForServices(ToLower(query))
  {
    var q := ToLower(query);
    if NoTableHit(kb, q) {
      NoTableSearchHit(kb, q);
    } else {
      TableHitFound(kb, q);
    }
  }

  /** Past the general phrases, an AI question is answered with the first `ai-ml`
      service, and fails when the table has none. */
  lemma ReplyAi(kb: KnowledgeBase, query: string)
    requires NoTableHit(kb, ToLower(query))
    requires !AsksForServices(ToLower(query)) && AsksAboutAi(ToLower(query))
    ensures GenerateAIResponse(kb, query).Failure? <==> forall i :: !AiServiceAt(kb, i)
    ensures forall i :: AiServiceAt(kb, i) && (forall k :: 0 <= k < i ==> !AiServiceAt(kb, k)) ==>
      GenerateAIResponse(kb, query) == Success(ServiceReply(kb.services[i]))
  {
    var q := ToLower(query);
    NoTableSearchHit(kb, q);
    var r := FindFirst(kb.services, IsAiService);
    if r.Some? {
      assert AiServiceAt(kb, r.value);
      forall i | AiServiceAt(kb, i) && (forall k :: 0 <= k < i ==> !AiServiceAt(kb, k))
        ensures r.value == i
      {
      }
    } else {
      forall i | 0 <= i < |kb.services|
        ensures !AiServiceAt(kb, i)
      {
        assert !IsAiService(kb.services[i]);
      }
    }
  }

  /** The default reply comes exactly when nothing at all matches. */
  lemma ReplyDefault(kb: KnowledgeBase, query: string)
    ensures GenerateAIResponse(kb, query) == Success(DefaultReply) <==>
      NoTableHit(kb, ToLower(query)) && !AsksForServices(ToLower(query)) && !AsksAboutAi(ToLower(query))
  {
    var q := ToLower(query);
    if NoTableHit(kb, q) {
      NoTableSearchHit(kb, q);
    } else {
      TableHitFound(kb, q);
    }
  }

  /** Every reply is built from the tables: a service or industry reply carries one of
      their records, and a topic reply one of the canned responses. */
  lemma ReplyFromTables(kb: KnowledgeBase, query: string)
    ensures GenerateAIResponse(kb, query).Success? && GenerateAIResponse(kb, query).value.ServiceReply? ==>
      GenerateAIResponse(kb, query).value.service in kb.services
    ensures GenerateAIResponse(kb, query).Success? && GenerateAIResponse(kb, query).value.IndustryReply? ==>
      GenerateAIResponse(kb, query).value.industry in kb.industries
    ensures GenerateAIResponse(kb, query).Success? && GenerateAIResponse(kb, query).value.FaqReply? ==>
      exists i :: 0 <= i < |kb.faqs| && kb.faqs[i].response == GenerateAIResponse(kb, query).value.response
  {
    var q := ToLower(query);
    var r := GenerateAIResponse(kb, query);
    var services := FindFirst(kb.services, s => ServiceMatches(s, q));
    var industries := FindFirst(kb.industries, ind => IndustryMatches(ind, q));
    var faqs := FindFirst(kb.faqs, f => FaqMatches(f, q));
    var ai := FindFirst(kb.services, IsAiService);
    if services.Some? {
      assert r == Success(ServiceReply(kb.services[services.value]));
    } else if industries.Some? {
      assert r == Success(IndustryReply(kb.industries[industries.value]));
    } else if faqs.Some? {
      assert r == Success(FaqReply(kb.faqs[faqs.value].response));
    } else if !AsksForServices(q) && AsksAboutAi(q) && ai.Some? {
      assert r == Success(ServiceReply(kb.services[ai.value]));
    }
  }

  /** Only the lowercased query matters: two queries that agree up to ASCII case get
      the same reply. */
  lemma ReplyIgnoresCase(kb: KnowledgeBase, query: string)
    ensures GenerateAIResponse(kb, ToLower(query)) == GenerateAIResponse(kb, query)
  {
    ToLowerIdempotent(query);
  }

  /** A service title with an empty word (a doubled, leading or trailing space) makes
      that service answer every query it is reached for: `includes('')` always holds. */
  lemma EmptyTitleWordMatchesAll(s: Service, q: string)
    requires "" in Split(ToLower(s.title), ' ')
    ensures ServiceMatches(s, q)
  {
    ContainsEmpty(q);
    var words := Split(ToLower(s.title), ' ');
    var k :| 0 <= k < |words| && words[k] == "";
    assert Contains(q, words[k]);
  }

  /** The site's own tables (`SERVICES`, `INDUSTRIES` and the five FAQ topics), with
      the ids and titles the classifier reads. Each topic's response stands for its
      reply text by naming the topic. */
  function CodeXpKnowledgeBase(): KnowledgeBase {
    KnowledgeBase(
      [ Service("web-development", "Web Development"),
        Service("mobile-apps", "Mobile Applications"),
        Service("data-analytics", "Data Analytics"),
        Service("consulting", "IT Consulting"),
        Service("training", "Training & Development"),
        Service("ai-ml", "AI & Machine Learning") ],
      [ Industry("healthcare", "Healthcare"),
        Industry("finance", "Finance"),
        Industry("education", "Education"),
        Industry("retail", "Retail") ],
      [ FaqTopic(["contact", "reach", "call", "email", "phone", "talk"], "contact"),
        FaqTopic(["price", "cost", "pricing", "quote", "budget", "how much"], "pricing"),
        FaqTopic(["who", "about", "company", "codexp", "what is"], "about"),
        FaqTopic(["location", "where", "based", "office", "address"], "location"),
        FaqTopic(["hire", "work with", "project", "start", "begin", "get started"], "getting-started") ])
  }

  /** A failure needs a missing `ai-ml` service: a table that has one always answers. */
  lemma AnswersWithAiService(kb: KnowledgeBase, query: string, i: int)
    requires AiServiceAt(kb, i)
    ensures GenerateAIResponse(kb, query).Success?
  {
    assert FindFirst(kb.services, IsAiService).Some?;
  }

  /** With the site's tables the assistant always answers: the `ai-ml` service exists,
      so the AI branch never reads `undefined`. */
  lemma CodeXpAlwaysAnswers(query: string)
    ensures GenerateAIResponse(CodeXpKnowledgeBase(), query).Success?
  {
    var kb := CodeXpKnowledgeBase();
    assert kb.services[5].id == "ai-ml";
    AnswersWithAiService(kb, query, 5);
  }

  /** `handleSendMessage`'s guard: an explicit text (a suggestion or the initial query)
      is sent as given when non-empty; otherwise the input field is trimmed, and an
      empty result sends nothing. */
  function MessageToSend(text: Option<string>, inputValue: string): (m: Option<string>)
    ensures m.Some? ==> m.value != ""
    ensures text.Some? && text.value != "" ==> m == Some(text.value)
    ensures m.None? <==> (text.None? || text.value == "") && forall k :: 0 <= k < |inputValue| ==> IsJsSpace(inputValue[k])
  {
    TrimBlank(inputValue);
    var messageText := if text.Some? && text.value != "" then text.value else Trim(inputValue);
    if messageText == "" then None else Some(messageText)
  }

  /** Without an explicit text the message is the trimmed input: it neither starts nor
      ends with white space. */
  lemma MessageFromInputIsTrimmed(inputValue: string)
    ensures MessageToSend(None, inputValue).Some? ==>
      MessageToSend(None, inputValue).value == Trim(inputValue) &&
      !IsJsSpace(MessageToSend(None, inputValue).value[0]) &&
      !IsJsSpace(MessageToSend(None, inputValue).value[|Trim(inputValue)| - 1])
  {
    TrimIdempotent(inputValue);
  }

  /** What the badge on the floating button shows. */
  datatype BadgeLabel = Exchanges(count: nat) | Alert

  /** The floating button's badge: with `n` messages, half of them rounded up (one per
      question and answer); with none but unread ones flagged, `!`; otherwise no badge. */
  function Badge(hasUnread: bool, n: nat): (b: Option<BadgeLabel>)
    ensures b.None? <==> !hasUnread && n == 0
    ensures b == Some(Alert) <==> hasUnread && n == 0
    ensures b.Some? && b.value.Exchanges? ==> n > 0 && 2 * b.value.count - 1 <= n <= 2 * b.value.count
  {
    if hasUnread || n > 0 then Some(if n > 0 then Exchanges((n + 1) / 2) else Alert) else None
  }

  /** The floating button: absent while the chat is open; otherwise its badge and a
      tooltip that offers to continue an existing conversation. */
  datatype ChatButton = ChatButton(badge: Option<BadgeLabel>, tooltip: string)

  function FloatingChatButton(isOpen: bool, hasUnread: bool, n: nat): (v: Option<ChatButton>)
    ensures v.None? <==> isOpen
    ensures v.Some? ==> v.value.badge == Badge(hasUnread, n)
    ensures v.Some? ==> (v.value.tooltip == "Continue conversation" <==> n > 0)
  {
    if isOpen then None
    else Some(ChatButton(Badge(hasUnread, n), if n > 0 then "Continue conversation" else "Ask AI Assistant"))
  }
}

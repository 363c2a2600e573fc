/** The LLM engine: a rate-limit-aware retry loop around an abstract Groq
    client, a forgiving JSON reply parser, LLM-based enrichment with
    defaults, and task recommendation with a keyword fallback. */
module LlmEngine {
  import opened Text
  import opened Json
  import opened Keywords

  /** The categories named to the LLM. */
  const Categories: seq<string> := [
    "Code Generation", "Image Generation", "Video Generation", "Audio & Speech",
    "Data Analysis", "Writing & Content", "Automation & Agents", "Search & Research",
    "Chatbot & Assistant", "Other"
  ]

  /** The task → keywords table of the recommender, in declaration order. */
  function TaskKeywords(): (r: Table)
    ensures |r| == 9
  {
    seq(9, i requires 0 <= i < 9 => TaskRule(i))
  }

  /** One task category and its keywords. */
  function TaskRule(i: nat): (string, seq<string>)
    requires i < 9
  {
    match i
    case 0 =>
      ("Code Generation", ["code", "coding", "programming", "developer", "debug", "script", "function",
        "github", "python", "javascript", "build app", "software"])
    case 1 =>
      ("Image Generation", ["image", "photo", "picture", "art", "illustration", "logo", "design",
        "visual", "draw", "generate image"])
    case 2 =>
      ("Video Generation", ["video", "animation", "movie", "clip", "reel", "youtube", "short film"])
    case 3 =>
      ("Audio & Speech", ["audio", "voice", "speech", "podcast", "transcribe", "tts", "music", "sound",
        "record"])
    case 4 =>
      ("Data Analysis", ["data", "analyse", "analyze", "analytics", "chart", "graph", "csv", "excel",
        "dashboard", "sql", "statistics", "insights"])
    case 5 =>
      ("Writing & Content", ["write", "writing", "blog", "article", "essay", "content", "seo",
        "copywrite", "social media", "caption"])
    case 6 =>
      ("Automation & Agents", ["automate", "automation", "workflow", "agent", "task", "schedule",
        "pipeline", "bot", "integrate"])
    case 7 =>
      ("Search & Research", ["search", "research", "find", "browse", "information", "fact",
        "knowledge", "answer"])
    case _ =>
      ("Chatbot & Assistant", ["chat", "chatbot", "assistant", "conversation", "customer support",
        "help", "question"])
  }

  // ---------------------------------------------------------------------------
  // _call_groq: retries over an abstract client

  /** The reply that tells callers to use the keyword fallback. */
  const Fallback := "__FALLBACK__"
  const MaxAttempts: nat := 3

  /** What the client does on one attempt: answers, or raises with a message. */
  datatype ClientOutcome = Success(text: string) | Error(message: string)

  /** An error is a rate limit when its message mentions "429" or "rate_limit". */
  predicate RateLimited(o: ClientOutcome) {
    o.Error? && (Contains(o.message, "429") || Contains(o.message, "rate_limit"))
  }

  /** The reply of a call and the waits (in seconds) slept before retries. */
  datatype GroqReply = GroqReply(reply: string, waits: seq<nat>)

  /** The retry loop from attempt `attempt` on; `respond(n)` is the client's
      outcome on attempt n. */
  function GroqFrom(respond: nat -> ClientOutcome, attempt: nat): GroqReply
    requires attempt <= MaxAttempts
    decreases MaxAttempts - attempt
  {
    if attempt == MaxAttempts then GroqReply(Fallback, [])
    else
      match respond(attempt)
      case Success(text) => GroqReply(Strip(text), [])
      case Error(_) =>
        if RateLimited(respond(attempt)) then
          var rest := GroqFrom(respond, attempt + 1);
          GroqReply(rest.reply, [3 * (attempt + 1)] + rest.waits)
        else GroqReply(Fallback, [])
  }

  /** _call_groq: "{}" without a client, otherwise the retry loop. */
  function GroqCall(hasClient: bool, respond: nat -> ClientOutcome): GroqReply {
    if hasClient then GroqFrom(respond, 0) else GroqReply("{}", [])
  }

  /** _call_groq as the loop it is: the sleeps are recorded in `waits`. */
  method CallGroq(hasClient: bool, respond: nat -> ClientOutcome) returns (reply: string, waits: seq<nat>)
    ensures GroqReply(reply, waits) == GroqCall(hasClient, respond)
  {
    if !hasClient {
      return "{}", [];
    }
    waits := [];
    var attempt := 0;
    assert After([], GroqFrom(respond, 0)) == GroqFrom(respond, 0);
    while attempt < MaxAttempts
      invariant attempt <= MaxAttempts
      invariant After(waits, GroqFrom(respond, attempt)) == GroqFrom(respond, 0)
    {
      var outcome := respond(attempt);
      if outcome.Success? {
        GroqAnswered(respond, attempt);
        return Strip(outcome.text), waits;
      }
      if !RateLimited(outcome) {
        GroqGivesUp(respond, attempt);
        return Fallback, waits;
      }
      GroqRetries(respond, attempt, waits);
      waits := waits + [3 * (attempt + 1)];
      attempt := attempt + 1;
    }
    return Fallback, waits;
  }

  /** A reply of the loop preceded by the waits already slept. */
  function After(waits: seq<nat>, r: GroqReply): GroqReply {
    GroqReply(r.reply, waits + r.waits)
  }

  lemma GroqAnswered(respond: nat -> ClientOutcome, attempt: nat)
    requires attempt < MaxAttempts && respond(attempt).Success?
    ensures GroqFrom(respond, attempt) == GroqReply(Strip(respond(attempt).text), [])
  {
  }

  lemma GroqGivesUp(respond: nat -> ClientOutcome, attempt: nat)
    requires attempt < MaxAttempts && respond(attempt).Error? && !RateLimited(respond(attempt))
    ensures GroqFrom(respond, attempt) == GroqReply(Fallback, [])
  {
  }

  lemma GroqRetries(respond: nat -> ClientOutcome, attempt: nat, waits: seq<nat>)
    requires attempt < MaxAttempts && RateLimited(respond(attempt))
    ensures After(waits, GroqFrom(respond, attempt))
         == After(waits + [3 * (attempt + 1)], GroqFrom(respond, attempt + 1))
  {
    var rest := GroqFrom(respond, attempt + 1);
    assert GroqFrom(respond, attempt).waits == [3 * (attempt + 1)] + rest.waits;
    assert waits + ([3 * (attempt + 1)] + rest.waits) == waits + [3 * (attempt + 1)] + rest.waits;
  }

  /** The k-th wait of the retry loop is 3(k+1) seconds and follows a
      rate-limited attempt; there are at most three attempts. */
  lemma {:induction false} GroqWaits(respond: nat -> ClientOutcome, attempt: nat)
    requires attempt <= MaxAttempts
    ensures attempt + |GroqFrom(respond, attempt).waits| <= MaxAttempts
    ensures forall k :: 0 <= k < |GroqFrom(respond, attempt).waits| ==>
              GroqFrom(respond, attempt).waits[k] == 3 * (attempt + k + 1)
              && RateLimited(respond(attempt + k))
    decreases MaxAttempts - attempt
  {
    if attempt < MaxAttempts && RateLimited(respond(attempt)) {
      GroqWaits(respond, attempt + 1);
      var r := GroqFrom(respond, attempt);
      var rest := GroqFrom(respond, attempt + 1);
      assert r.waits == [3 * (attempt + 1)] + rest.waits;
      forall k | 0 <= k < |r.waits|
        ensures r.waits[k] == 3 * (attempt + k + 1) && RateLimited(respond(attempt + k))
      {
        if k > 0 {
          assert r.waits[k] == rest.waits[k - 1];
          assert attempt + k == (attempt + 1) + (k - 1);
        }
      }
    }
  }

  /** After its waits the retry loop stopped because attempts ran out, an
      attempt answered (returned stripped), or an error was not a rate limit. */
  lemma {:induction false} GroqStop(respond: nat -> ClientOutcome, attempt: nat)
    requires attempt <= MaxAttempts
    ensures var r := GroqFrom(respond, attempt);
            var n := attempt + |r.waits|;
            if n < MaxAttempts && respond(n).Success? then r.reply == Strip(respond(n).text)
            else r.reply == Fallback && (n < MaxAttempts ==> !RateLimited(respond(n)))
    decreases MaxAttempts - attempt
  {
    if attempt < MaxAttempts && RateLimited(respond(attempt)) {
      GroqStop(respond, attempt + 1);
      var r := GroqFrom(respond, attempt);
      var rest := GroqFrom(respond, attempt + 1);
      assert r == GroqReply(rest.reply, [3 * (attempt + 1)] + rest.waits);
      assert attempt + |r.waits| == (attempt + 1) + |rest.waits|;
    }
  }

  /** No client: "{}" at once. With one: at most three attempts, waits of
      3, 6, 9 seconds only after rate limits, and the answer of the first
      attempt that is not rate-limited (stripped), or the fallback sentinel. */
  lemma {:induction false} CallGroqSpec(hasClient: bool, respond: nat -> ClientOutcome)
    ensures var r := GroqCall(hasClient, respond);
            && (!hasClient ==> r == GroqReply("{}", []))
            && |r.waits| <= MaxAttempts
            && (forall k :: 0 <= k < |r.waits| ==> r.waits[k] == 3 * (k + 1) && RateLimited(respond(k)))
            && (hasClient ==>
                  var n := |r.waits|;
                  if n < MaxAttempts && respond(n).Success? then r.reply == Strip(respond(n).text)
                  else r.reply == Fallback)
  {
    var r := GroqCall(hasClient, respond);
    if hasClient {
      assert r == GroqFrom(respond, 0);
      GroqWaits(respond, 0);
      GroqStop(respond, 0);
      forall k | 0 <= k < |r.waits| ensures r.waits[k] == 3 * (k + 1) && RateLimited(respond(k)) {
        assert 0 + k == k;
      }
    } else {
      assert r == GroqReply("{}", []);
    }
  }

  /** Three rate limits in a row: waits of 3, 6 and 9, then the fallback. */
  lemma {:induction false} RateLimitsExhaustRetries(respond: nat -> ClientOutcome)
    requires forall k :: 0 <= k < MaxAttempts ==> RateLimited(respond(k))
    ensures GroqCall(true, respond) == GroqReply(Fallback, [3, 6, 9])
  {
    assert RateLimited(respond(0)) && RateLimited(respond(1)) && RateLimited(respond(2));
    assert GroqFrom(respond, 2) == GroqReply(Fallback, [9]);
  }

  // ---------------------------------------------------------------------------
  // _parse_json_safe

  /** `re.sub(r"```json|```", "", s)`: a left-to-right scan removing fences. */
  function StripFences(s: string): (r: string)
    ensures |r| <= |s|
    ensures '`' !in s ==> r == s
  {
    if |s| >= 7 && s[..7] == "```json" then
      assert s[0] == s[..7][0];
      StripFences(s[7..])
    else if |s| >= 3 && s[..3] == "```" then
      assert s[0] == s[..3][0];
      StripFences(s[3..])
    else if s == [] then []
    else [s[0]] + StripFences(s[1..])
  }

  /** Both markers go: a reply fenced as ```json ... ``` leaves exactly its body. */
  lemma FencedReplyUnwrapped(body: string)
    requires '`' !in body
    ensures StripFences("```json" + body + "```") == body
  {
    var s := "```json" + body + "```";
    assert s[..7] == "```json" && s[7..] == body + "```";
    FenceAfterText(body);
  }

  /** Text followed by a closing fence loses just the fence. */
  lemma {:induction false} FenceAfterText(body: string)
    requires '`' !in body
    ensures StripFences(body + "```") == body
  {
    var s := body + "```";
    if body == [] {
      assert s[..3] == "```" && s[3..] == [];
    } else {
      assert s[0] == body[0] != '`';
      assert "```json"[0] == '`' && "```"[0] == '`';
      assert !(|s| >= 7 && s[..7] == "```json") by { if |s| >= 7 { assert s[..7][0] == s[0]; } }
      assert s[..3] != "```" by { assert s[..3][0] == s[0]; }
      assert s != [];
      assert s[1..] == body[1..] + "```";
      assert StripFences(s) == [s[0]] + StripFences(s[1..]);
      FenceAfterText(body[1..]);
      assert body == [body[0]] + body[1..];
    }
  }

  /** `re.search(r"\{.*\}", s, re.DOTALL)`: the span from the first '{' to the
      last '}' (greedy, not balanced), when some '{' precedes some '}'. */
  function BraceSpan(s: string): (r: Option<(nat, nat)>)
    ensures r.Some? ==>
              && r.value.0 < r.value.1 < |s| && s[r.value.0] == '{' && s[r.value.1] == '}'
              && (forall k :: 0 <= k < r.value.0 ==> s[k] != '{')
              && (forall k :: r.value.1 < k < |s| ==> s[k] != '}')
    ensures r.None? <==> forall i, j :: 0 <= i < j < |s| && s[i] == '{' ==> s[j] != '}'
  {
    var i := FindFrom(s, '{', 0);
    var j := FindLast(s, '}');
    if i < |s| && j < |s| && i < j then Some((i, j)) else None
  }

  /** The text _parse_json_safe tries first. */
  function Cleaned(text: string): string {
    Strip(StripFences(text))
  }

  /** _parse_json_safe as written: `loads` is json.loads (None: a decode
      error); whatever value it yields is returned, objects or not. */
  function ParseJsonSafeAsWritten(text: string, loads: string -> Option<Value>): Value {
    var t := Cleaned(text);
    match loads(t)
    case Some(v) => v
    case None =>
      match BraceSpan(t)
      case Some(span) =>
        (match loads(t[span.0..span.1 + 1])
         case Some(v) => v
         case None => JObj(map[]))
      case None => JObj(map[])
  }

  /** _parse_json_safe as its callers need it: always a dict, the empty one
      when neither the cleaned text nor its brace span decodes to an object. */
  function ParseJsonSafe(text: string, loads: string -> Option<Value>): (r: Object)
    ensures ParseJsonSafeAsWritten(text, loads).JObj? ==> JObj(r) == ParseJsonSafeAsWritten(text, loads)
    ensures !ParseJsonSafeAsWritten(text, loads).JObj? ==> r == map[]
    ensures r != map[] ==>
              loads(Cleaned(text)) == Some(JObj(r))
              || (loads(Cleaned(text)).None? && BraceSpan(Cleaned(text)).Some?
                  && var span := BraceSpan(Cleaned(text)).value;
                     loads(Cleaned(text)[span.0..span.1 + 1]) == Some(JObj(r)))
  {
    match ParseJsonSafeAsWritten(text, loads)
    case JObj(m) => m
    case _ => map[]
  }

  // ---------------------------------------------------------------------------
  // classify_and_enrich_tool

  /** The fields classify_and_enrich_tool returns and their defaults. */
  function EnrichmentDefaults(description: string): Object {
    map[
      "category" := JStr("Other"),
      "best_for_tasks" := JArr([]),
      "summary" := JStr(Take(description, 200)),
      "audience_fit" := JObj(map[]),
      "tags" := JArr([]),
      "pricing_hint" := JStr("Unknown")
    ]
  }

  function WithDefaults(parsed: Object, description: string): (r: Object)
    ensures r.Keys == EnrichmentDefaults(description).Keys
    ensures forall k :: k in r ==>
              r[k] == if k in parsed then parsed[k] else EnrichmentDefaults(description)[k]
  {
    map k | k in EnrichmentDefaults(description) ::
      if k in parsed then parsed[k] else EnrichmentDefaults(description)[k]
  }

  /** classify_and_enrich_tool as written: `reply` is what _call_groq
      returned; None stands for the AttributeError `.get` raises when the
      parsed reply is not an object. */
  function ClassifyAndEnrichAsWritten(description: string, reply: string,
                                      loads: string -> Option<Value>): Option<Object> {
    match ParseJsonSafeAsWritten(reply, loads)
    case JObj(m) => Some(WithDefaults(m, description))
    case _ => None
  }

  /** classify_and_enrich_tool over the dict-valued parser: the six fields,
      each the reply's value when present, otherwise its default. */
  function ClassifyAndEnrich(description: string, reply: string,
                             loads: string -> Option<Value>): (r: Object)
    ensures r.Keys == EnrichmentDefaults(description).Keys
    ensures forall k :: k in r ==>
              r[k] == GetOr(ParseJsonSafe(reply, loads), k, EnrichmentDefaults(description)[k])
    ensures ClassifyAndEnrichAsWritten(description, reply, loads).Some? ==>
              ClassifyAndEnrichAsWritten(description, reply, loads) == Some(r)
  {
    WithDefaults(ParseJsonSafe(reply, loads), description)
  }

  /** A reply that decodes to a JSON list makes the source raise. */
  lemma ListReplyRaises()
    ensures var loads := (s: string) => if s == "[1]" then Some(JArr([JNum(1.0)])) else None;
            && ClassifyAndEnrichAsWritten("", "[1]", loads).None?
            && ClassifyAndEnrich("", "[1]", loads) == EnrichmentDefaults("")
  {
    var loads := (s: string) => if s == "[1]" then Some(JArr([JNum(1.0)])) else None;
    CleanTextKept("[1]");
    assert ParseJsonSafeAsWritten("[1]", loads) == JArr([JNum(1.0)]);
    assert ParseJsonSafe("[1]", loads) == map[];
    NothingParsedGivesDefaults("");
  }

  /** A reply without fences or surrounding blanks is parsed as it is. */
  lemma CleanTextKept(s: string)
    requires '`' !in s && (s == [] || (!IsSpace(s[0]) && !IsSpace(s[|s| - 1])))
    ensures Cleaned(s) == s
  {
    StripUnchanged(s);
  }

  /** An empty parse leaves every field at its default. */
  lemma NothingParsedGivesDefaults(description: string)
    ensures WithDefaults(map[], description) == EnrichmentDefaults(description)
  {
  }

  /** Without a client the reply is "{}", so every field takes its default
      (category "Other"). */
  lemma {:induction false} NoClientGivesDefaults(description: string, respond: nat -> ClientOutcome,
                                                 loads: string -> Option<Value>)
    requires loads("{}") == Some(JObj(map[]))
    ensures ClassifyAndEnrich(description, GroqCall(false, respond).reply, loads)
         == EnrichmentDefaults(description)
  {
    CleanTextKept("{}");
    assert ParseJsonSafe("{}", loads) == map[];
    NothingParsedGivesDefaults(description);
  }

  // ---------------------------------------------------------------------------
  // keyword_recommend

  /** The task category used when no task keyword matches. */
  const DefaultTaskCategory := "Chatbot & Assistant"

  /** The placeholder for a missing recommended or alternative tool. */
  const NoName := "—"

  function TaskScores(task: string): (r: seq<nat>)
    ensures |r| == |TaskKeywords()|
  {
    seq(|TaskKeywords()|, i requires 0 <= i < |TaskKeywords()| => Hits(Lower(task), TaskKeywords()[i].1))
  }

  /** The first task category with the most hits, or the default on none. */
  function TaskCategory(task: string): (c: string)
    ensures (forall i :: 0 <= i < |TaskKeywords()| ==> TaskScores(task)[i] == 0) ==> c == DefaultTaskCategory
    ensures c in CategoryNames(TaskKeywords())
  {
    var scores := TaskScores(task);
    var i := FirstMax(scores);
    assert TaskKeywords()[i].0 == CategoryNames(TaskKeywords())[i];
    assert DefaultTaskCategory == CategoryNames(TaskKeywords())[8];
    if scores[i] == 0 then DefaultTaskCategory else TaskKeywords()[i].0
  }

  /** Whether a record's category equals `c` (`t.get("category") == c`,
      where a missing key reads as None). */
  predicate HasCategory(t: Object, c: Value) {
    GetOr(t, "category", JNull) == c
  }

  /** The records a list comprehension with condition `keep` retains, in order. */
  function Filter<T>(s: seq<T>, keep: T -> bool): (r: seq<T>)
    ensures |r| <= |s|
    ensures forall k :: 0 <= k < |r| ==> keep(r[k])
  {
    if s == [] then []
    else (if keep(s[0]) then [s[0]] else []) + Filter(s[1..], keep)
  }

  /** The conditions `t.get("category") == c` and `t.get("category") != c`. */
  function Matches(c: Value): Object -> bool {
    t => HasCategory(t, c)
  }

  function Misses(c: Value): Object -> bool {
    t => !HasCategory(t, c)
  }

  /** `[t for t in tools if t.get("category") == c]`. */
  function InCategory(tools: seq<Object>, c: Value): (r: seq<Object>)
    ensures forall k :: 0 <= k < |r| ==> HasCategory(r[k], c)
    ensures |r| <= |tools|
  {
    Filter(tools, Matches(c))
  }

  /** `[t for t in tools if t.get("category") != c]`. */
  function OutOfCategory(tools: seq<Object>, c: Value): (r: seq<Object>)
    ensures forall k :: 0 <= k < |r| ==> !HasCategory(r[k], c)
    ensures |r| <= |tools|
  {
    Filter(tools, Misses(c))
  }

  /** The two comprehensions split the catalog: together they hold every
      tool exactly as often as the catalog does. */
  lemma CategorySplit(tools: seq<Object>, c: Value)
    ensures multiset(InCategory(tools, c) + OutOfCategory(tools, c)) == multiset(tools)
    ensures |InCategory(tools, c)| + |OutOfCategory(tools, c)| == |tools|
  {
    FilterSplit(tools, Matches(c), Misses(c));
  }

  /** Filtering by a condition and by its negation splits a sequence. */
  lemma {:induction false} FilterSplit<T>(s: seq<T>, keep: T -> bool, drop: T -> bool)
    requires forall x :: drop(x) == !keep(x)
    ensures multiset(Filter(s, keep) + Filter(s, drop)) == multiset(s)
    ensures |Filter(s, keep)| + |Filter(s, drop)| == |s|
  {
    if s != [] {
      var x, rest := s[0], s[1..];
      var a, b := Filter(rest, keep), Filter(rest, drop);
      FilterSplit(rest, keep, drop);
      assert s == [x] + rest;
      assert multiset(s) == multiset{x} + multiset(a) + multiset(b);
      if keep(x) {
        assert Filter(s, keep) == [x] + a && Filter(s, drop) == b;
      } else {
        assert Filter(s, keep) == a && Filter(s, drop) == [x] + b;
      }
    }
  }

  /** What recommend_tool_for_task can return. */
  datatype Recommendation =
    | NoTools
    | Keyword(recommended: string, alternative: string, taskCategory: string, top5: seq<Object>)
    | Llm(reply: Object)

  /** The `method` field of each kind of recommendation. */
  function MethodOf(r: Recommendation): string {
    match r
    case NoTools => "error"
    case Keyword(_, _, _, _) => "keyword_fallback"
    case Llm(reply) => "groq_llm"
  }

  /** keyword_recommend: matching-category tools first, then the rest, cut
      to five; the first two name the pick and the alternative. */
  function KeywordRecommend(task: string, tools: seq<Object>): (r: Recommendation)
    ensures r.Keyword? && r.taskCategory == TaskCategory(task)
    ensures r.recommended == if r.top5 == [] then NoName else NameOr(r.top5[0], NoName)
    ensures r.alternative == if |r.top5| < 2 then NoName else NameOr(r.top5[1], NoName)
  {
    var cat := TaskCategory(task);
    var ranked := Take(InCategory(tools, JStr(cat)) + OutOfCategory(tools, JStr(cat)), 5);
    Keyword(
      if ranked == [] then NoName else NameOr(ranked[0], NoName),
      if |ranked| < 2 then NoName else NameOr(ranked[1], NoName),
      cat,
      ranked)
  }

  /** The ranking cut to five holds min(5, n) catalog tools, none more
      often than in the catalog. */
  lemma {:induction false} RankingSize(tools: seq<Object>, c: Value)
    ensures var top := Take(InCategory(tools, c) + OutOfCategory(tools, c), 5);
            && |top| == (if |tools| < 5 then |tools| else 5)
            && multiset(top) <= multiset(tools)
  {
    CategorySplit(tools, c);
    PrefixMultiset(InCategory(tools, c) + OutOfCategory(tools, c), 5);
  }

  /** A prefix holds no element more often than the whole sequence. */
  lemma PrefixMultiset<T>(s: seq<T>, n: nat)
    ensures multiset(Take(s, n)) <= multiset(s)
  {
    var top := Take(s, n);
    assert s == top + s[|top|..];
    assert multiset(s) == multiset(top) + multiset(s[|top|..]);
  }

  /** In the ranking every tool of category `c` precedes every other. */
  lemma {:induction false} RankingOrder(tools: seq<Object>, c: Value)
    ensures var all := InCategory(tools, c) + OutOfCategory(tools, c);
            forall i, j :: 0 <= i < j < |all| && HasCategory(all[j], c) ==> HasCategory(all[i], c)
  {
    var inc := InCategory(tools, c);
    var out := OutOfCategory(tools, c);
    var all := inc + out;
    forall i, j | 0 <= i < j < |all| && HasCategory(all[j], c)
      ensures HasCategory(all[i], c)
    {
      assert j < |inc|;
      assert all[i] == inc[i];
    }
  }

  /** The top five of keyword_recommend: the ranking for the task category,
      cut to five. */
  lemma {:induction false} KeywordTop5(task: string, tools: seq<Object>)
    ensures var r := KeywordRecommend(task, tools);
            var c := JStr(TaskCategory(task));
            && |r.top5| == (if |tools| < 5 then |tools| else 5)
            && r.top5 == Take(InCategory(tools, c) + OutOfCategory(tools, c), 5)
            && multiset(r.top5) <= multiset(tools)
            && (forall i, j :: 0 <= i < j < |r.top5| && HasCategory(r.top5[j], c) ==> HasCategory(r.top5[i], c))
  {
    var c := JStr(TaskCategory(task));
    RankingSize(tools, c);
    RankingOrder(tools, c);
    var all := InCategory(tools, c) + OutOfCategory(tools, c);
    var top := Take(all, 5);
    assert forall k :: 0 <= k < |top| ==> top[k] == all[k];
  }

  /** The task category is the first task category with the most hits, or
      "Chatbot & Assistant" when none hits. */
  lemma {:induction false} TaskCategoryIsFirstMaximal(task: string, i: nat)
    requires i < |TaskKeywords()|
    requires TaskScores(task)[i] > 0
    ensures TaskCategory(task) == TaskKeywords()[i].0
        <==> (&& (forall j :: 0 <= j < |TaskKeywords()| ==> TaskScores(task)[j] <= TaskScores(task)[i])
              && (forall j :: 0 <= j < i ==> TaskScores(task)[j] < TaskScores(task)[i]))
  {
    var scores := TaskScores(task);
    var m := FirstMax(scores);
    FirstMaxIsUnique(scores, i);
    assert scores[m] > 0;
    TaskNamesDistinct();
  }

  lemma TaskNamesDistinct()
    ensures forall a, b :: 0 <= a < b < 9 ==> TaskRule(a).0 != TaskRule(b).0
  {
  }

  // ---------------------------------------------------------------------------
  // recommend_tool_for_task

  /** `t.get('summary', t.get('description', ''))`: the text the prompt
      cuts to 120 characters. */
  function PromptBlurb(t: Object): Value {
    if "summary" in t then t["summary"] else GetOr(t, "description", JStr(""))
  }

  /** Building the prompt's list of the first 25 tools raises: `t['name']`
      on a tool without a name (KeyError), or `[:120]` on a blurb that is
      neither text nor a list (TypeError). */
  predicate PromptListRaises(tools: seq<Object>) {
    exists i :: 0 <= i < |tools| && i < 25
                && ("name" !in tools[i] || !(PromptBlurb(tools[i]).JStr? || PromptBlurb(tools[i]).JArr?))
  }

  /** recommend_tool_for_task as written: `None` stands for an exception,
      either while the prompt's tool list is built (PromptListRaises) or
      the AttributeError raised at `result.get` when the reply decodes to
      a truthy value that is not a dict; a falsy one fails `not result`. */
  function RecommendToolForTaskAsWritten(task: string, tools: seq<Object>, hasClient: bool,
                                         respond: nat -> ClientOutcome,
                                         loads: string -> Option<Value>): Option<Recommendation> {
    if tools == [] then Some(NoTools)
    else if !hasClient then Some(KeywordRecommend(task, tools))
    else if PromptListRaises(tools) then None
    else
      var raw := GroqCall(true, respond).reply;
      if raw == Fallback || raw == "" || raw == "{}" then Some(KeywordRecommend(task, tools))
      else
        var result := ParseJsonSafeAsWritten(raw, loads);
        if !Truthy(result) then Some(KeywordRecommend(task, tools))
        else
          match result
          case JObj(m) =>
            if "recommended_tool" in m && Truthy(m["recommended_tool"]) then
              Some(Llm(m["method" := JStr("groq_llm")]))
            else Some(KeywordRecommend(task, tools))
          case _ => None
  }

  /** recommend_tool_for_task: an error result on an empty catalog, the
      keyword fallback without a client or on an unusable reply, else the
      parsed reply stamped with method "groq_llm". */
  function RecommendToolForTask(task: string, tools: seq<Object>, hasClient: bool,
                                respond: nat -> ClientOutcome,
                                loads: string -> Option<Value>): (r: Recommendation)
    ensures r.NoTools? <==> tools == []
    ensures r.Keyword? ==> r == KeywordRecommend(task, tools)
    ensures tools != [] && !hasClient ==> r == KeywordRecommend(task, tools)
    ensures r.Llm? ==>
              && hasClient
              && "recommended_tool" in r.reply && Truthy(r.reply["recommended_tool"])
              && "method" in r.reply && r.reply["method"] == JStr(MethodOf(r))
              && var raw := GroqCall(true, respond).reply;
                 raw != Fallback && raw != "" && raw != "{}"
                 && r.reply == ParseJsonSafe(raw, loads)["method" := JStr("groq_llm")]
    ensures tools != [] && hasClient ==>
              var raw := GroqCall(true, respond).reply;
              var result := ParseJsonSafe(raw, loads);
              (r.Llm? <==> raw != Fallback && raw != "" && raw != "{}"
                           && "recommended_tool" in result && Truthy(result["recommended_tool"]))
    ensures RecommendToolForTaskAsWritten(task, tools, hasClient, respond, loads).Some? ==>
              RecommendToolForTaskAsWritten(task, tools, hasClient, respond, loads) == Some(r)
  {
    if tools == [] then NoTools
    else if !hasClient then KeywordRecommend(task, tools)
    else
      var raw := GroqCall(true, respond).reply;
      if raw == Fallback || raw == "" || raw == "{}" then KeywordRecommend(task, tools)
      else
        var result := ParseJsonSafe(raw, loads);
        if result == map[] || !("recommended_tool" in result && Truthy(result["recommended_tool"])) then
          KeywordRecommend(task, tools)
        else Llm(result["method" := JStr("groq_llm")])
  }

  /** Exhausted retries (or any terminal error) fall back to keywords. */
  lemma {:induction false} FallbackReplyUsesKeywords(task: string, tools: seq<Object>,
                                                     respond: nat -> ClientOutcome,
                                                     loads: string -> Option<Value>)
    requires tools != []
    requires GroqCall(true, respond).reply == Fallback
    ensures RecommendToolForTask(task, tools, true, respond, loads) == KeywordRecommend(task, tools)
    ensures MethodOf(RecommendToolForTask(task, tools, true, respond, loads)) == "keyword_fallback"
  {
  }

  /** A usable Groq reply that decodes to a truthy value other than an
      object makes the source raise; the corrected model uses keywords. */
  lemma TruthyNonObjectRaises(task: string, tools: seq<Object>, respond: nat -> ClientOutcome,
                              loads: string -> Option<Value>)
    requires tools != []
    requires GroqCall(true, respond).reply !in {Fallback, "", "{}"}
    requires Truthy(ParseJsonSafeAsWritten(GroqCall(true, respond).reply, loads))
    requires !ParseJsonSafeAsWritten(GroqCall(true, respond).reply, loads).JObj?
    ensures RecommendToolForTaskAsWritten(task, tools, true, respond, loads).None?
    ensures RecommendToolForTask(task, tools, true, respond, loads) == KeywordRecommend(task, tools)
  {
    var raw := GroqCall(true, respond).reply;
    assert ParseJsonSafe(raw, loads) == map[];
  }

  /** The source raises exactly in two cases: the prompt's tool list
      cannot be built, or a usable reply decodes to a truthy non-dict.
      Without a client it never raises. */
  lemma RecommendationRaisesExactly(task: string, tools: seq<Object>, hasClient: bool,
                                    respond: nat -> ClientOutcome, loads: string -> Option<Value>)
    ensures !hasClient ==> RecommendToolForTaskAsWritten(task, tools, hasClient, respond, loads).Some?
    ensures hasClient ==>
              var raw := GroqCall(true, respond).reply;
              var result := ParseJsonSafeAsWritten(raw, loads);
              (RecommendToolForTaskAsWritten(task, tools, hasClient, respond, loads).None? <==>
                 tools != [] &&
                 (PromptListRaises(tools)
                  || (raw !in {Fallback, "", "{}"} && Truthy(result) && !result.JObj?)))
  {
  }

  /** A first tool whose summary is null shows the prompt-list raise: the
      source fails before Groq is asked, the corrected model answers. */
  lemma NullSummaryRaises(task: string, respond: nat -> ClientOutcome, loads: string -> Option<Value>)
    ensures var tools := [map["name" := JStr("Tool"), "summary" := JNull]];
            && RecommendToolForTaskAsWritten(task, tools, true, respond, loads).None?
            && !RecommendToolForTask(task, tools, true, respond, loads).NoTools?
  {
    var tools := [map["name" := JStr("Tool"), "summary" := JNull]];
    assert PromptBlurb(tools[0]) == JNull;
    assert PromptListRaises(tools);
  }

  /** The Groq answer `[1]`, decoded as a list, shows it. */
  lemma ListReplyRecommendationRaises(task: string, tools: seq<Object>)
    requires tools != []
    ensures var respond := (n: nat) => Success("[1]");
            var loads := (s: string) => if s == "[1]" then Some(JArr([JNum(1.0)])) else None;
            && RecommendToolForTaskAsWritten(task, tools, true, respond, loads).None?
            && RecommendToolForTask(task, tools, true, respond, loads) == KeywordRecommend(task, tools)
  {
    var respond := (n: nat) => Success("[1]");
    var loads := (s: string) => if s == "[1]" then Some(JArr([JNum(1.0)])) else None;
    CleanTextKept("[1]");
    assert GroqCall(true, respond).reply == "[1]";
    assert ParseJsonSafeAsWritten("[1]", loads) == JArr([JNum(1.0)]);
    TruthyNonObjectRaises(task, tools, respond, loads);
  }

  // ---------------------------------------------------------------------------
  // generate_trend_summary: tools per category

  /** `t.get("category", "Other")`. */
  function CategoryKey(t: Object): Value {
    GetOr(t, "category", JStr("Other"))
  }

  /** How many tools have category key `c`. */
  function CountCategory(tools: seq<Object>, c: Value): (n: nat)
    ensures n <= |tools|
  {
    if tools == [] then 0
    else CountCategory(tools[..|tools| - 1], c) + (if CategoryKey(tools[|tools| - 1]) == c then 1 else 0)
  }

  /** The category keys of the tools, in order. */
  function CategoryKeys(tools: seq<Object>): (r: seq<Value>)
    ensures |r| == |tools|
  {
    seq(|tools|, i requires 0 <= i < |tools| => CategoryKey(tools[i]))
  }

  /** The count of a category is how often it occurs among the tools'
      category keys. */
  lemma {:induction false} CountIsMultiplicity(tools: seq<Object>, c: Value)
    ensures CountCategory(tools, c) == multiset(CategoryKeys(tools))[c]
  {
    if tools != [] {
      var init := tools[..|tools| - 1];
      CountIsMultiplicity(init, c);
      assert CategoryKeys(tools) == CategoryKeys(init) + [CategoryKey(tools[|tools| - 1])];
    }
  }

  /** The `categories` dict of generate_trend_summary, built by increments. */
  method CategoryCounts(tools: seq<Object>) returns (counts: map<Value, nat>)
    ensures forall c :: c in counts <==> CountCategory(tools, c) > 0
    ensures forall c :: c in counts ==> counts[c] == CountCategory(tools, c)
  {
    counts := map[];
    for i := 0 to |tools|
      invariant forall c :: c in counts <==> CountCategory(tools[..i], c) > 0
      invariant forall c :: c in counts ==> counts[c] == CountCategory(tools[..i], c)
    {
      var cat := CategoryKey(tools[i]);
      assert tools[..i + 1][..i] == tools[..i];
      counts := counts[cat := (if cat in counts then counts[cat] else 0) + 1];
    }
    assert tools[..|tools|] == tools;
  }
}

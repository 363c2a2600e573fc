/** Hybrid keyword + LLM classification of one tool: a keyword scorer over a
    fixed category table, and a confidence-gated policy deciding whether the
    injected LLM classifier is called and whose category is kept. */
module Classifier {
  import opened Text
  import opened Json
  import opened Keywords

  /** The category → keywords table, in declaration order. */
  function KeywordRules(): (r: Table)
    ensures |r| == 9
  {
    seq(9, i requires 0 <= i < 9 => KeywordRule(i))
  }

  /** One category of the table and its keywords. */
  function KeywordRule(i: nat): (string, seq<string>)
    requires i < 9
  {
    match i
    case 0 =>
      ("Code Generation", ["code", "coding", "programming", "developer", "github", "copilot",
        "IDE", "autocomplete", "refactor", "debugging", "python", "javascript"])
    case 1 =>
      ("Image Generation", ["image", "photo", "art", "picture", "illustration", "stable diffusion",
        "dall-e", "midjourney", "text-to-image", "artwork", "visual", "generate image"])
    case 2 =>
      ("Video Generation", ["video", "animation", "movie", "film", "cinematic", "text-to-video",
        "runway", "sora", "clip", "render"])
    case 3 =>
      ("Audio & Speech", ["audio", "voice", "speech", "tts", "transcription", "podcast",
        "music", "sound", "whisper", "elevenlabs", "clone voice"])
    case 4 =>
      ("Data Analysis", ["data", "analytics", "dashboard", "chart", "sql", "csv", "excel",
        "visualization", "bi", "insights", "statistics", "tableau"])
    case 5 =>
      ("Writing & Content", ["write", "writing", "blog", "seo", "copywriting", "content",
        "essay", "article", "marketing copy", "social media", "jasper"])
    case 6 =>
      ("Automation & Agents", ["automate", "automation", "workflow", "agent", "pipeline",
        "zapier", "n8n", "task", "autonomous", "schedule", "bot"])
    case 7 =>
      ("Search & Research", ["search", "research", "browse", "web", "real-time", "citation",
        "knowledge", "perplexity", "question answering", "fact"])
    case _ =>
      ("Chatbot & Assistant", ["chat", "chatbot", "assistant", "conversation", "customer service",
        "support", "dialogue", "gpt", "claude", "gemini"])
  }

  /** The category of a text with no keyword evidence. */
  const Other := "Other"

  datatype KeywordScore = KeywordScore(category: string, confidence: real)

  /** Per-category hit counts of a text, in table order; keywords and text
      are compared lower-cased. */
  function Scores(text: string): (r: seq<nat>)
    ensures |r| == |KeywordRules()|
  {
    seq(|KeywordRules()|, i requires 0 <= i < |KeywordRules()| =>
      Hits(Lower(text), LowerAll(KeywordRules()[i].1)))
  }

  function Min(a: real, b: real): real { if a <= b then a else b }
  function Max(a: real, b: real): real { if a >= b then a else b }

  /** `round(x, 2)` for a value in [0, 1], rounding halves up. */
  function Round2(x: real): (r: real)
    requires 0.0 <= x <= 1.0
    ensures 0.0 <= r <= 1.0
    ensures x >= 0.005 ==> r >= 0.01
  {
    (x * 100.0 + 0.5).Floor as real / 100.0
  }

  /** `min(best / max(0.3 * total, 1), 1)` rounded to two decimals. */
  function Confidence(best: nat, total: nat): (c: real)
    ensures 0.0 <= c <= 1.0
  {
    var d := Max(0.3 * total as real, 1.0);
    Round2(Min(best as real / d, 1.0))
  }

  /** keyword_classify: the first category with the most hits and its
      confidence, or ("Other", 0.0) when nothing matches. */
  function KeywordClassify(text: string): (r: KeywordScore)
    ensures 0.0 <= r.confidence <= 1.0
    ensures r.category == Other || r.category in CategoryNames(KeywordRules())
  {
    var scores := Scores(text);
    var i := FirstMax(scores);
    assert KeywordRules()[i].0 == CategoryNames(KeywordRules())[i];
    if scores[i] == 0 then KeywordScore(Other, 0.0)
    else KeywordScore(KeywordRules()[i].0, Confidence(scores[i], |KeywordRules()[i].1|))
  }

  /** The four outcomes of the confidence-gated policy. */
  datatype Path = KeywordOnly | LlmPrimary | HybridBlend | HybridOverride

  /** hybrid_classify's gate: the LLM is consulted whenever it is present;
      0.4 and 0.6 are inclusive lower bounds of the hybrid paths. */
  function DecidePath(confidence: real, hasLlm: bool): (p: Path)
    ensures p == KeywordOnly <==> !hasLlm
    ensures p == LlmPrimary <==> hasLlm && confidence < 0.4
    ensures p == HybridBlend <==> hasLlm && 0.4 <= confidence < 0.6
    ensures p == HybridOverride <==> hasLlm && 0.6 <= confidence
  {
    if confidence >= 0.4 && hasLlm then
      if confidence >= 0.6 then HybridOverride else HybridBlend
    else if hasLlm then LlmPrimary
    else KeywordOnly
  }

  function MethodName(p: Path): string {
    match p
    case KeywordOnly => "keyword_only"
    case LlmPrimary => "llm"
    case _ => "hybrid"
  }

  /** The keys hybrid_classify itself writes into an LLM result. */
  predicate Stamped(k: string) {
    k == "category" || k == "classification_method" || k == "keyword_confidence"
  }

  /** hybrid_classify: `llm` is the injected classifier (None when absent);
      it is applied at most once, to (name, description). Its contract is
      stated by the three lemmas below, so that callers unfold it only on
      demand. */
  function HybridClassify(name: string, description: string,
                          llm: Option<(string, string) -> Object>): Object
  {
    var kw := KeywordClassify(name + " " + description);
    match DecidePath(kw.confidence, llm.Some?)
    case HybridOverride =>
      llm.value(name, description)["category" := JStr(kw.category)]
        ["classification_method" := JStr("hybrid")]["keyword_confidence" := JNum(kw.confidence)]
    case HybridBlend =>
      llm.value(name, description)
        ["classification_method" := JStr("hybrid")]["keyword_confidence" := JNum(kw.confidence)]
    case LlmPrimary =>
      llm.value(name, description)
        ["classification_method" := JStr("llm")]["keyword_confidence" := JNum(kw.confidence)]
    case KeywordOnly =>
      map[
        "category" := JStr(kw.category),
        "best_for_tasks" := JArr([]),
        "summary" := JStr(Take(description, 200)),
        "audience_fit" := JObj(map[]),
        "tags" := JArr([]),
        "pricing_hint" := JStr("Unknown"),
        "classification_method" := JStr("keyword_only"),
        "keyword_confidence" := JNum(kw.confidence)
      ]
  }

  /** The keys hybrid_classify stamps: the keyword confidence, the path
      taken, and a category that is the keyword one on the keyword-only and
      override paths and the LLM's on the other two. */
  lemma HybridStamps(name: string, description: string, llm: Option<(string, string) -> Object>)
    ensures var r := HybridClassify(name, description, llm);
            var kw := KeywordClassify(name + " " + description);
            var path := DecidePath(kw.confidence, llm.Some?);
            && Get(r, "keyword_confidence") == Some(JNum(kw.confidence))
            && Get(r, "classification_method") == Some(JStr(MethodName(path)))
            && (path == KeywordOnly || path == HybridOverride ==>
                  Get(r, "category") == Some(JStr(kw.category)))
            && (path == LlmPrimary || path == HybridBlend ==>
                  Get(r, "category") == Get(llm.value(name, description), "category"))
  {
  }

  /** Every other field of the LLM's result is kept as it is. */
  lemma HybridPassThrough(name: string, description: string, llm: (string, string) -> Object)
    ensures forall k :: !Stamped(k) ==>
              Get(HybridClassify(name, description, Some(llm)), k) == Get(llm(name, description), k)
  {
  }

  /** Without an LLM the record has exactly the eight keyword-only fields,
      with their documented defaults. */
  lemma HybridKeywordOnlyRecord(name: string, description: string)
    ensures var r := HybridClassify(name, description, None);
            && r.Keys == {"category", "best_for_tasks", "summary", "audience_fit", "tags",
                          "pricing_hint", "classification_method", "keyword_confidence"}
            && r["summary"] == JStr(Take(description, 200))
            && r["best_for_tasks"] == JArr([]) && r["tags"] == JArr([])
            && r["audience_fit"] == JObj(map[]) && r["pricing_hint"] == JStr("Unknown")
  {
  }

  // ---------------------------------------------------------------------------
  // Properties of the keyword scorer

  lemma TableFacts()
    ensures forall i :: 0 <= i < |KeywordRules()| ==> 1 <= |KeywordRules()[i].1| <= 12
    ensures forall i, j :: 0 <= i < j < |KeywordRules()| ==> KeywordRules()[i].0 != KeywordRules()[j].0
    ensures Other !in CategoryNames(KeywordRules())
  {
    KeywordCounts();
    NamesDistinct();
    OtherNotInTable();
  }

  lemma KeywordCounts()
    ensures forall i :: 0 <= i < 9 ==> 1 <= |KeywordRule(i).1| <= 12
  {
  }

  lemma NamesDistinct()
    ensures forall i, j :: 0 <= i < j < 9 ==> KeywordRule(i).0 != KeywordRule(j).0
  {
  }

  lemma OtherNotInTable()
    ensures forall i :: 0 <= i < 9 ==> KeywordRule(i).0 != Other
  {
  }

  /** Some evidence always gives a positive confidence. */
  lemma {:induction false} ConfidencePositive(best: nat, total: nat)
    requires 1 <= best && total <= 12
    ensures Confidence(best, total) > 0.0
  {
    var d := Max(0.3 * total as real, 1.0);
    assert 1.0 <= d <= 3.6;
    assert best as real / d >= 1.0 / d by {
      assert best as real >= 1.0;
    }
    assert 1.0 / d >= 0.005;
  }

  /** The result is ("Other", 0.0) exactly when no keyword of any category
      occurs in the lower-cased text. */
  lemma {:induction false} NoHitsIffOther(text: string)
    ensures (KeywordClassify(text).category == Other)
        <==> (forall i :: 0 <= i < |KeywordRules()| ==> Scores(text)[i] == 0)
    ensures (KeywordClassify(text).confidence == 0.0)
        <==> (forall i :: 0 <= i < |KeywordRules()| ==> Scores(text)[i] == 0)
  {
    var scores := Scores(text);
    var i := FirstMax(scores);
    TableFacts();
    if scores[i] != 0 {
      ConfidencePositive(scores[i], |KeywordRules()[i].1|);
      assert KeywordClassify(text).category == CategoryNames(KeywordRules())[i];
    }
  }

  /** The tie-break: the returned table category is the first one holding
      the maximal, non-zero hit count, and only that one is returned. */
  lemma {:induction false} FirstMaximalCategoryWins(text: string, i: nat)
    requires i < |KeywordRules()|
    ensures KeywordClassify(text).category == KeywordRules()[i].0
        <==> (&& Scores(text)[i] > 0
              && (forall j :: 0 <= j < |KeywordRules()| ==> Scores(text)[j] <= Scores(text)[i])
              && (forall j :: 0 <= j < i ==> Scores(text)[j] < Scores(text)[i]))
  {
    var scores := Scores(text);
    var m := FirstMax(scores);
    TableFacts();
    FirstMaxIsUnique(scores, i);
    if KeywordClassify(text).category == KeywordRules()[i].0 {
      assert CategoryNames(KeywordRules())[i] == KeywordRules()[i].0;
      assert scores[m] != 0;
      assert KeywordRules()[m].0 == KeywordRules()[i].0;
    }
  }

  lemma {:induction false} LowerIdempotent(s: string)
    ensures Lower(Lower(s)) == Lower(s)
  {
    assert forall i :: 0 <= i < |s| ==> LowerChar(LowerChar(s[i])) == LowerChar(s[i]);
  }

  /** Matching ignores case: a text and its lower-cased form score alike. */
  lemma {:induction false} CaseInsensitive(text: string)
    ensures KeywordClassify(Lower(text)) == KeywordClassify(text)
  {
    LowerIdempotent(text);
    assert Scores(Lower(text)) == Scores(text);
  }

  // ---------------------------------------------------------------------------
  // Properties of the decision policy

  /** With no LLM every tool takes the keyword-only path, whose category is
      the keyword category (a table key or "Other"). */
  lemma {:induction false} NoLlmIsKeywordOnly(name: string, description: string)
    ensures var r := HybridClassify(name, description, None);
            var kw := KeywordClassify(name + " " + description);
            && r["classification_method"] == JStr("keyword_only")
            && r["category"] == JStr(kw.category)
            && (kw.category == Other || kw.category in CategoryNames(KeywordRules()))
  {
    var r := HybridClassify(name, description, None);
    HybridStamps(name, description, None);
    HybridKeywordOnlyRecord(name, description);
    assert Get(r, "classification_method") == Some(JStr("keyword_only"));
  }
}

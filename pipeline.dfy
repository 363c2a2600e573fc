/** The end-to-end run: gather raw tools, classify and enrich each one, and
    replace the stored catalog with the result. */
module Pipeline {
  import opened Text
  import opened Json
  import opened Keywords
  import opened Classifier
  import LlmEngine
  import opened Catalog
  import Scraper

  /** The tool store: the rows of the tools table, in insertion order. */
  class Store {
    var tools: seq<Object>

    constructor ()
      ensures tools == []
    {
      tools := [];
    }

    /** clear_tools: deletes every row. */
    method Clear()
      modifies this
      ensures tools == []
    {
      tools := [];
    }

    /** save_tool: inserts one row. */
    method Save(t: Object)
      modifies this
      ensures tools == old(tools) + [t]
    {
      tools := tools + [t];
    }
  }

  /** `tool.get("source", "Unknown")`. */
  function SourceOf(t: RawTool): string {
    match t.source
    case Some(s) => s
    case None => "Unknown"
  }

  /** The keys process_tools writes over the classification result. */
  predicate Identity(k: string) {
    k == "name" || k == "description" || k == "source"
  }

  /** One step of process_tools: the classification of a tool, with the
      tool's name, description and source written over it. */
  function Stamp(t: RawTool, classified: Object): (r: Object)
    ensures Get(r, "name") == Some(JStr(t.name))
    ensures Get(r, "description") == Some(JStr(t.description))
    ensures Get(r, "source") == Some(JStr(SourceOf(t)))
    ensures forall k :: !Identity(k) ==> Get(r, k) == Get(classified, k)
  {
    classified["name" := JStr(t.name)]["description" := JStr(t.description)]["source" := JStr(SourceOf(t))]
  }

  /** hybrid_classify as process_tools calls it: with classify_and_enrich_tool
      (`llm`) as the LLM classifier when `useLlm` holds, and none otherwise. */
  function Hybrid(useLlm: bool, llm: (string, string) -> Object): (string, string) -> Object {
    (name: string, description: string) =>
      HybridClassify(name, description, if useLlm then Some(llm) else None)
  }

  /** The records process_tools builds with classifier `classify`, in input
      order. */
  function EnrichedAll(raw: seq<RawTool>, classify: (string, string) -> Object): (r: seq<Object>)
    ensures |r| == |raw|
  {
    if raw == [] then []
    else
      var t := raw[|raw| - 1];
      EnrichedAll(raw[..|raw| - 1], classify) + [Stamp(t, classify(t.name, t.description))]
  }

  /** Each output record is the stamped classification of the input record
      at the same position. */
  lemma {:induction false} EnrichedAllAt(raw: seq<RawTool>, classify: (string, string) -> Object, i: nat)
    requires i < |raw|
    ensures EnrichedAll(raw, classify)[i] == Stamp(raw[i], classify(raw[i].name, raw[i].description))
  {
    if i < |raw| - 1 {
      EnrichedAllAt(raw[..|raw| - 1], classify, i);
    }
  }

  /** process_tools. */
  method ProcessTools(raw: seq<RawTool>, useLlm: bool, llm: (string, string) -> Object)
    returns (enriched: seq<Object>)
    ensures enriched == EnrichedAll(raw, Hybrid(useLlm, llm))
  {
    var classify := Hybrid(useLlm, llm);
    enriched := [];
    for i := 0 to |raw|
      invariant enriched == EnrichedAll(raw[..i], classify)
    {
      assert raw[..i + 1][..i] == raw[..i] && raw[..i + 1][i] == raw[i];
      var result := classify(raw[i].name, raw[i].description);
      enriched := enriched + [Stamp(raw[i], result)];
    }
    assert raw[..|raw|] == raw;
  }

  /** Each record process_tools returns is hybrid_classify's result for the
      tool at the same position, stamped with the tool's identity. */
  lemma ProcessedRecord(raw: seq<RawTool>, useLlm: bool, llm: (string, string) -> Object, i: nat)
    requires i < |raw|
    ensures EnrichedAll(raw, Hybrid(useLlm, llm))[i]
         == Stamp(raw[i], HybridClassify(raw[i].name, raw[i].description, if useLlm then Some(llm) else None))
  {
    EnrichedAllAt(raw, Hybrid(useLlm, llm), i);
  }

  /** classify_and_enrich_tool wired to its client: `hasClient` tells whether
      a Groq key was configured and `respond(name, description)` is the
      client's behaviour on that tool's prompt. */
  function WiredEnrich(hasClient: bool, respond: (string, string) -> (nat -> LlmEngine.ClientOutcome),
                       loads: string -> Option<Value>): (string, string) -> Object
  {
    (name: string, description: string) =>
      LlmEngine.ClassifyAndEnrich(description, LlmEngine.GroqCall(hasClient, respond(name, description)).reply, loads)
  }

  /** The store step of run_pipeline: clear the table, then save each
      record in order. */
  method ReplaceAll(store: Store, records: seq<Object>)
    modifies store
    ensures store.tools == records
  {
    store.Clear();
    for i := 0 to |records|
      invariant store.tools == records[..i]
    {
      store.Save(records[i]);
      assert records[..i + 1] == records[..i] + [records[i]];
    }
    assert records[..|records|] == records;
  }

  /** run_pipeline's scrape, classify and store steps, followed by the
      category counts of the trend summary over what was stored. The live
      sources' outcomes are parameters. */
  method RunPipeline(store: Store, useSample: bool, useLlm: bool, llm: (string, string) -> Object,
                     results: seq<Scraper.Fetch>, browsed: seq<RawTool>)
    returns (enriched: seq<Object>, counts: map<Value, nat>)
    modifies store
    ensures store.tools == enriched
    ensures var raw := if useSample then SampleTools()
                       else Scraper.Dedup(Scraper.Supplemented(Scraper.Live(results) + browsed));
            enriched == EnrichedAll(raw, Hybrid(useLlm, llm))
    ensures forall c :: c in counts <==> LlmEngine.CountCategory(enriched, c) > 0
    ensures forall c :: c in counts ==> counts[c] == LlmEngine.CountCategory(enriched, c)
  {
    var raw: seq<RawTool>;
    if useSample {
      raw := SampleTools();
    } else {
      raw := Scraper.ScrapeAllSources(results, browsed);
    }
    enriched := ProcessTools(raw, useLlm, llm);
    ReplaceAll(store, enriched);
    counts := LlmEngine.CategoryCounts(store.tools);
  }

  // ---------------------------------------------------------------------------
  // Properties of a run

  /** The classifier's keyword categories plus "Other" are exactly the
      categories the LLM prompt offers, in the same order. */
  lemma CategoryTablesAgree()
    ensures CategoryNames(KeywordRules()) + [Other] == LlmEngine.Categories
  {
  }

  /** Without the LLM every stored tool is keyword-classified, with a
      category from the keyword table or "Other". */
  lemma {:induction false} NoLlmRecordsAreKeywordOnly(t: RawTool)
    ensures var r := Stamp(t, HybridClassify(t.name, t.description, None));
            && Get(r, "classification_method") == Some(JStr("keyword_only"))
            && exists c :: c in LlmEngine.Categories && Get(r, "category") == Some(JStr(c))
  {
    var kw := KeywordClassify(t.name + " " + t.description);
    HybridStamps(t.name, t.description, None);
    CategoryTablesAgree();
    assert kw.category in LlmEngine.Categories;
  }

  /** Without a client, the wired enrichment reports category "Other". */
  lemma UnwiredIsOther(name: string, description: string,
                       respond: (string, string) -> (nat -> LlmEngine.ClientOutcome),
                       loads: string -> Option<Value>)
    requires loads("{}") == Some(JObj(map[]))
    ensures Get(WiredEnrich(false, respond, loads)(name, description), "category") == Some(JStr("Other"))
  {
    LlmEngine.NoClientGivesDefaults(description, respond(name, description), loads);
  }

  /** With the LLM requested but no key configured, a tool's category is
      "Other" unless keyword evidence alone reaches the override threshold
      of 0.6, in which case it is the keyword category. */
  lemma {:induction false} NoKeyMeansOtherBelowOverride(t: RawTool,
                                                        respond: (string, string) -> (nat -> LlmEngine.ClientOutcome),
                                                        loads: string -> Option<Value>)
    requires loads("{}") == Some(JObj(map[]))
    ensures var kw := KeywordClassify(t.name + " " + t.description);
            var r := Stamp(t, HybridClassify(t.name, t.description, Some(WiredEnrich(false, respond, loads))));
            Get(r, "category") == Some(JStr(if kw.confidence >= 0.6 then kw.category else "Other"))
  {
    var enrich := WiredEnrich(false, respond, loads);
    var kw := KeywordClassify(t.name + " " + t.description);
    var h := HybridClassify(t.name, t.description, Some(enrich));
    UnwiredIsOther(t.name, t.description, respond, loads);
    HybridStamps(t.name, t.description, Some(enrich));
    assert Get(h, "category") == Some(JStr(if kw.confidence >= 0.6 then kw.category else "Other"));
    assert !Identity("category");
  }
}

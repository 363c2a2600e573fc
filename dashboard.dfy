/** The dashboard's top-five fallback: when a recommendation carries no
    top-five list, one is rebuilt from the catalog, the recommended tool
    first, the alternative second and the rest in category order. */
module Dashboard {
  import opened Text
  import opened Json
  import opened LlmEngine

  /** `if not result.get("top5", [])`: whether the fallback runs. */
  predicate NeedsFallback(r: Recommendation) {
    match r
    case NoTools => true
    case Keyword(_, _, _, top5) => top5 == []
    case Llm(reply) => !Truthy(GetOr(reply, "top5", JArr([])))
  }

  /** The fallback's inputs: the task category and the two names to place
      first (recommended, then alternative). */
  datatype FallbackKeys = FallbackKeys(taskCategory: Value, names: seq<string>)

  /** `d.get(k, default)` for a field read as text; None when the value is
      not a string, where the dashboard's `.lower()` raises. */
  function TextField(d: Object, k: string, default: string): Option<string> {
    if k !in d then Some(default)
    else if d[k].JStr? then Some(d[k].s)
    else None
  }

  /** The fields the fallback reads from each kind of result; the error
      result is the fixed record recommend_tool_for_task returns. */
  function FallbackInputs(r: Recommendation): Option<FallbackKeys> {
    match r
    case NoTools => Some(FallbackKeys(JStr("—"), ["No tools", "—"]))
    case Keyword(rec, alt, cat, _) => Some(FallbackKeys(JStr(cat), [rec, alt]))
    case Llm(reply) =>
      match (TextField(reply, "recommended_tool", ""), TextField(reply, "alternative", ""))
      case (Some(rec), Some(alt)) => Some(FallbackKeys(GetOr(reply, "task_category", JStr("")), [rec, alt]))
      case _ => None
  }

  /** Matching category first, then the rest, each in catalog order. */
  function Pool(catalog: seq<Object>, taskCategory: Value): seq<Object> {
    InCategory(catalog, taskCategory) + OutOfCategory(catalog, taskCategory)
  }

  /** Whether a record's name equals `name` ignoring case. */
  predicate NameMatches(t: Object, name: string) {
    Lower(NameOr(t, "")) == Lower(name)
  }

  /** `next((t for t in pool if ...), None)`: the first record of the pool
      whose name matches (its contract is FindByNameFinds). */
  function FindByName(pool: seq<Object>, name: string): Option<Object> {
    if pool == [] then None
    else if NameMatches(pool[0], name) then Some(pool[0])
    else FindByName(pool[1..], name)
  }

  /** FindByName yields the first matching record, and nothing exactly when
      no record matches. */
  lemma {:induction false} FindByNameFinds(pool: seq<Object>, name: string)
    ensures var m := FindByName(pool, name);
            && (m.Some? ==> exists i :: 0 <= i < |pool| && pool[i] == m.value && NameMatches(pool[i], name)
                                        && forall j :: 0 <= j < i ==> !NameMatches(pool[j], name))
            && (m.None? <==> forall i :: 0 <= i < |pool| ==> !NameMatches(pool[i], name))
  {
    if pool != [] && !NameMatches(pool[0], name) {
      FindByNameFinds(pool[1..], name);
      assert forall i :: 0 < i < |pool| ==> pool[i] == pool[1..][i - 1];
      var m := FindByName(pool, name);
      if m.Some? {
        var i :| 0 <= i < |pool[1..]| && pool[1..][i] == m.value && NameMatches(pool[1..][i], name)
                 && forall j :: 0 <= j < i ==> !NameMatches(pool[1..][j], name);
        assert pool[i + 1] == m.value;
        assert forall j :: 0 <= j < i + 1 ==> !NameMatches(pool[j], name) by {
          forall j | 0 < j < i + 1 ensures !NameMatches(pool[j], name) {
            assert pool[j] == pool[1..][j - 1];
          }
        }
      }
    }
  }

  /** One round of the first loop: a match that is a non-empty record not
      yet placed is appended. */
  function Place(ordered: seq<Object>, found: Option<Object>): seq<Object> {
    if found.Some? && found.value != map[] && found.value !in ordered then ordered + [found.value]
    else ordered
  }

  /** The records placed by the first loop. */
  function Front(pool: seq<Object>, names: seq<string>): seq<Object> {
    if names == [] then []
    else Place(Front(pool, names[..|names| - 1]), FindByName(pool, names[|names| - 1]))
  }

  /** The second loop: every pool record not yet present is appended. */
  function AppendNew(ordered: seq<Object>, pool: seq<Object>): seq<Object> {
    if pool == [] then ordered
    else
      var o := AppendNew(ordered, pool[..|pool| - 1]);
      if pool[|pool| - 1] in o then o else o + [pool[|pool| - 1]]
  }

  /** The full reordering before the cut to five. */
  function Ordered(taskCategory: Value, names: seq<string>, catalog: seq<Object>): seq<Object> {
    var pool := Pool(catalog, taskCategory);
    AppendNew(Front(pool, names), pool)
  }

  /** The dashboard's fallback construction of the top five. */
  method FallbackTop5(taskCategory: Value, names: seq<string>, catalog: seq<Object>)
    returns (top5: seq<Object>)
    ensures top5 == Take(Ordered(taskCategory, names, catalog), 5)
  {
    var pool := Pool(catalog, taskCategory);
    var ordered: seq<Object> := [];
    for k := 0 to |names|
      invariant ordered == Front(pool, names[..k])
    {
      assert names[..k + 1][..k] == names[..k];
      var found := FindByName(pool, names[k]);
      ghost var placed := Place(ordered, found);
      if found.Some? && found.value != map[] && found.value !in ordered {
        ordered := ordered + [found.value];
      }
      assert ordered == placed;
    }
    assert names[..|names|] == names;
    var front := ordered;
    for k := 0 to |pool|
      invariant ordered == AppendNew(front, pool[..k])
    {
      assert pool[..k + 1][..k] == pool[..k];
      assert pool[..k + 1][k] == pool[k];
      if pool[k] !in ordered {
        ordered := ordered + [pool[k]];
      }
    }
    assert pool[..|pool|] == pool;
    top5 := Take(ordered, 5);
  }

  /** What the recommendation page lists: the result's own `top5`, or the
      rebuilt five. */
  datatype Shown = OwnTop5 | Rebuilt(tools: seq<Object>)

  /** The block at the head of the result display: keep a truthy `top5`,
      otherwise rebuild it; `None` when reading the names raises. */
  method DashboardTop5(r: Recommendation, catalog: seq<Object>) returns (shown: Option<Shown>)
    ensures shown == Some(OwnTop5) <==> !NeedsFallback(r)
    ensures shown.None? <==> NeedsFallback(r) && FallbackInputs(r).None?
    ensures shown.Some? && shown.value.Rebuilt? ==>
              && NeedsFallback(r) && FallbackInputs(r).Some?
              && var keys := FallbackInputs(r).value;
                 shown.value.tools == Take(Ordered(keys.taskCategory, keys.names, catalog), 5)
  {
    if !NeedsFallback(r) {
      return Some(OwnTop5);
    }
    var inputs := FallbackInputs(r);
    if inputs.None? {
      return None;
    }
    var top5 := FallbackTop5(inputs.value.taskCategory, inputs.value.names, catalog);
    return Some(Rebuilt(top5));
  }

  // ---------------------------------------------------------------------------
  // Properties of the fallback

  predicate NoDuplicates(s: seq<Object>) {
    forall i, j :: 0 <= i < j < |s| ==> s[i] != s[j]
  }

  /** Appending the missing pool records keeps what was placed as a prefix,
      adds no duplicate and ends up holding exactly the placed and pool
      records. */
  lemma {:induction false} AppendNewFacts(ordered: seq<Object>, pool: seq<Object>)
    requires NoDuplicates(ordered)
    ensures var r := AppendNew(ordered, pool);
            && |ordered| <= |r| && r[..|ordered|] == ordered
            && NoDuplicates(r)
            && forall x :: x in r <==> x in ordered || x in pool
  {
    if pool != [] {
      var init := pool[..|pool| - 1];
      AppendNewFacts(ordered, init);
      var o := AppendNew(ordered, init);
      assert forall x :: x in pool <==> x in init || x == pool[|pool| - 1];
      if pool[|pool| - 1] !in o {
        var r := o + [pool[|pool| - 1]];
        assert r[..|ordered|] == o[..|ordered|];
      }
    }
  }

  /** The position of the first occurrence of `x` in `pool`. */
  function IndexIn(pool: seq<Object>, x: Object): (i: nat)
    requires x in pool
    ensures i < |pool| && pool[i] == x
    ensures forall k :: 0 <= k < i ==> pool[k] != x
  {
    if pool[0] == x then 0 else 1 + IndexIn(pool[1..], x)
  }

  /** A record met in a prefix of the pool is first met at the same place. */
  lemma {:induction false} IndexInPrefix(pool: seq<Object>, n: nat, x: Object)
    requires n <= |pool| && x in pool[..n]
    ensures IndexIn(pool[..n], x) == IndexIn(pool, x)
  {
    var i := IndexIn(pool[..n], x);
    var j := IndexIn(pool, x);
    assert pool[..n][i] == pool[i];
  }

  /** The records the second loop appends follow one another in pool
      order (by first occurrence), and every pool record ends up present. */
  lemma {:induction false} AppendNewInPoolOrder(ordered: seq<Object>, pool: seq<Object>)
    ensures var r := AppendNew(ordered, pool);
            && |ordered| <= |r| && r[..|ordered|] == ordered
            && (forall x :: x in pool ==> x in r)
            && (forall k :: |ordered| <= k < |r| ==> r[k] in pool)
            && forall i, j :: |ordered| <= i < j < |r| ==> IndexIn(pool, r[i]) < IndexIn(pool, r[j])
  {
    if pool != [] {
      var n := |pool| - 1;
      var init, x := pool[..n], pool[n];
      AppendNewInPoolOrder(ordered, init);
      var o := AppendNew(ordered, init);
      assert forall y :: y in init ==> y in pool;
      forall k | |ordered| <= k < |o|
        ensures IndexIn(init, o[k]) == IndexIn(pool, o[k])
      {
        IndexInPrefix(pool, n, o[k]);
      }
      assert forall y :: y in pool ==> y in init || y == x;
      if x !in o {
        var r := o + [x];
        assert x !in init;
        assert IndexIn(pool, x) == n;
        assert r[..|ordered|] == o[..|ordered|];
        forall i | |ordered| <= i < |o|
          ensures IndexIn(pool, r[i]) < IndexIn(pool, r[|o|])
        {
          assert r[i] == o[i];
        }
      }
    }
  }

  /** The first loop places distinct, non-empty pool records, at most one
      per name. */
  lemma {:induction false} FrontFacts(pool: seq<Object>, names: seq<string>)
    ensures var f := Front(pool, names);
            && NoDuplicates(f) && |f| <= |names|
            && forall x :: x in f ==> x in pool && x != map[]
  {
    if names != [] {
      FrontFacts(pool, names[..|names| - 1]);
      FindByNameFinds(pool, names[|names| - 1]);
    }
  }

  /** The rebuilt order lists every catalog record once and nothing else. */
  lemma OrderedIsCatalogWithoutRepeats(taskCategory: Value, names: seq<string>, catalog: seq<Object>)
    ensures var o := Ordered(taskCategory, names, catalog);
            && NoDuplicates(o)
            && forall x :: x in o <==> x in catalog
  {
    var pool := Pool(catalog, taskCategory);
    FrontFacts(pool, names);
    AppendNewFacts(Front(pool, names), pool);
    CategorySplit(catalog, taskCategory);
    assert forall x :: x in pool <==> x in multiset(pool);
  }

  /** After distinct placed records, AppendNew lists exactly the other pool
      records, once each, in pool order. */
  lemma {:induction false} RestOfAppend(f: seq<Object>, pool: seq<Object>)
    requires NoDuplicates(f)
    ensures var o := AppendNew(f, pool);
            && |f| <= |o| && o[..|f|] == f
            && (forall x :: x in pool && x !in f ==> x in o[|f|..])
            && (forall k :: |f| <= k < |o| ==> o[k] in pool && o[k] !in f)
            && (forall i, j :: |f| <= i < j < |o| ==> IndexIn(pool, o[i]) < IndexIn(pool, o[j]))
  {
    var o := AppendNew(f, pool);
    AppendNewFacts(f, pool);
    AppendNewInPoolOrder(f, pool);
    assert forall m :: 0 <= m < |f| ==> o[m] == o[..|f|][m];
    forall x | x in pool && x !in f
      ensures x in o[|f|..]
    {
      var k :| 0 <= k < |o| && o[k] == x;
      assert o[|f|..][k - |f|] == x;
    }
  }

  /** Records kept in pool order inherit the pool's category-first order. */
  lemma CategoryFirstInherited(pool: seq<Object>, o: seq<Object>, from: nat, c: Value)
    requires forall i, j :: 0 <= i < j < |pool| && HasCategory(pool[j], c) ==> HasCategory(pool[i], c)
    requires forall k :: from <= k < |o| ==> o[k] in pool
    requires forall i, j :: from <= i < j < |o| ==> IndexIn(pool, o[i]) < IndexIn(pool, o[j])
    ensures forall i, j :: from <= i < j < |o| && HasCategory(o[j], c) ==> HasCategory(o[i], c)
  {
    forall i, j | from <= i < j < |o| && HasCategory(o[j], c)
      ensures HasCategory(o[i], c)
    {
      var a, b := IndexIn(pool, o[i]), IndexIn(pool, o[j]);
      assert pool[a] == o[i] && pool[b] == o[j];
    }
  }

  /** After the placed names, the rebuilt order is the rest of the pool in
      pool order, each record once: so matching-category tools still come
      before the others there. */
  lemma RestFollowsPool(taskCategory: Value, names: seq<string>, catalog: seq<Object>)
    ensures var pool := Pool(catalog, taskCategory);
            var f := Front(pool, names);
            var o := Ordered(taskCategory, names, catalog);
            && |f| <= |o| && o[..|f|] == f
            && (forall x :: x in pool && x !in f ==> x in o[|f|..])
            && (forall k :: |f| <= k < |o| ==> o[k] in pool && o[k] !in f)
            && (forall i, j :: |f| <= i < j < |o| ==> IndexIn(pool, o[i]) < IndexIn(pool, o[j]))
            && (forall i, j :: |f| <= i < j < |o| && HasCategory(o[j], taskCategory) ==>
                  HasCategory(o[i], taskCategory))
  {
    var pool := Pool(catalog, taskCategory);
    var f := Front(pool, names);
    FrontFacts(pool, names);
    RestOfAppend(f, pool);
    RankingOrder(catalog, taskCategory);
    CategoryFirstInherited(pool, AppendNew(f, pool), |f|, taskCategory);
  }

  /** A non-empty catalog always yields between one and five tools, each
      from the catalog and none twice. */
  lemma FallbackTop5Bounds(taskCategory: Value, names: seq<string>, catalog: seq<Object>)
    requires catalog != []
    ensures var t := Take(Ordered(taskCategory, names, catalog), 5);
            && 1 <= |t| <= 5 && NoDuplicates(t)
            && forall x :: x in t ==> x in catalog
  {
    OrderedIsCatalogWithoutRepeats(taskCategory, names, catalog);
    var o := Ordered(taskCategory, names, catalog);
    assert catalog[0] in o;
  }

  /** The first loop over the two names unfolded: the recommended tool's
      match is placed, then the alternative's. Front is defined on the last
      name, so RecommendedThenAlternative needs this two-step unfolding to
      reason about each placement separately (PlacedLead). */
  lemma FrontOfTwo(pool: seq<Object>, rec: string, alt: string)
    ensures Front(pool, [rec, alt]) == Place(Place([], FindByName(pool, rec)), FindByName(pool, alt))
  {
    assert [rec, alt][..1] == [rec];
    assert [rec][..0] == [];
    assert Front(pool, [rec][..0]) == [];
    assert Front(pool, [rec]) == Place([], FindByName(pool, rec));
  }

  /** The two placed records lead the reordering of `pool`. */
  lemma {:induction false} PlacedLead(pool: seq<Object>, m1: Option<Object>, m2: Option<Object>)
    requires m1.Some? ==> m1.value in pool
    requires m2.Some? ==> m2.value in pool
    ensures var o := AppendNew(Place(Place([], m1), m2), pool);
            && (m1.Some? && m1.value != map[] ==> |o| >= 1 && o[0] == m1.value)
            && (m1.Some? && m1.value != map[] && m2.Some? && m2.value != map[] && m2.value != m1.value ==>
                  |o| >= 2 && o[1] == m2.value)
  {
    var f := Place(Place([], m1), m2);
    assert NoDuplicates(f);
    AppendNewFacts(f, pool);
    var o := AppendNew(f, pool);
    assert o[..|f|] == f;
    if m1.Some? && m1.value != map[] {
      assert f[0] == m1.value;
      assert o[0] == o[..|f|][0];
      if m2.Some? && m2.value != map[] && m2.value != m1.value {
        assert f == [m1.value, m2.value];
        assert o[1] == o[..|f|][1];
      }
    }
  }

  /** A recommended tool found in the catalog (as a non-empty record) comes
      first; an alternative found, different and non-empty, comes second. */
  lemma RecommendedThenAlternative(taskCategory: Value, rec: string, alt: string, catalog: seq<Object>)
    ensures var pool := Pool(catalog, taskCategory);
            var o := Ordered(taskCategory, [rec, alt], catalog);
            var m1 := FindByName(pool, rec);
            var m2 := FindByName(pool, alt);
            && (m1.Some? && m1.value != map[] ==> |o| >= 1 && o[0] == m1.value)
            && (m1.Some? && m1.value != map[] && m2.Some? && m2.value != map[] && m2.value != m1.value ==>
                  |o| >= 2 && o[1] == m2.value)
  {
    var pool := Pool(catalog, taskCategory);
    FrontOfTwo(pool, rec, alt);
    FindByNameFinds(pool, rec);
    FindByNameFinds(pool, alt);
    PlacedLead(pool, FindByName(pool, rec), FindByName(pool, alt));
  }

  /** A keyword result on a non-empty catalog carries its own top five, so
      the fallback never runs for it. */
  lemma KeywordResultKeepsItsTop5(task: string, tools: seq<Object>)
    requires tools != []
    ensures !NeedsFallback(KeywordRecommend(task, tools))
  {
    KeywordTop5(task, tools);
  }

  /** On the page, whose catalog is never empty: a keyword result shows its
      own five, and a rebuilt list holds one to five distinct catalog tools. */
  lemma PageShowsOneToFive(task: string, catalog: seq<Object>, hasClient: bool,
                           respond: nat -> ClientOutcome, loads: string -> Option<Value>)
    requires catalog != []
    ensures var r := RecommendToolForTask(task, catalog, hasClient, respond, loads);
            && !r.NoTools?
            && (r.Keyword? ==> !NeedsFallback(r))
            && (NeedsFallback(r) && FallbackInputs(r).Some? ==>
                  var keys := FallbackInputs(r).value;
                  var t := Take(Ordered(keys.taskCategory, keys.names, catalog), 5);
                  1 <= |t| <= 5 && NoDuplicates(t) && forall x :: x in t ==> x in catalog)
  {
    var r := RecommendToolForTask(task, catalog, hasClient, respond, loads);
    if r.Keyword? {
      KeywordResultKeepsItsTop5(task, catalog);
    }
    if NeedsFallback(r) && FallbackInputs(r).Some? {
      var keys := FallbackInputs(r).value;
      FallbackTop5Bounds(keys.taskCategory, keys.names, catalog);
    }
  }

  /** When it runs on a keyword result, the fallback's pool is the keyword
      ranking's, so both put matching-category tools first. */
  lemma FallbackPoolIsKeywordRanking(task: string, tools: seq<Object>)
    ensures var r := KeywordRecommend(task, tools);
            FallbackInputs(r).Some?
            && r.top5 == Take(Pool(tools, FallbackInputs(r).value.taskCategory), 5)
  {
    var r := KeywordRecommend(task, tools);
    assert FallbackInputs(r).value.taskCategory == JStr(TaskCategory(task));
    KeywordTop5(task, tools);
  }
}

/** Source aggregation: the per-source record rules of the GitHub list and
    the Hugging Face API, failure-isolated merging, supplementing with the
    sample catalog, and order-stable deduplication by normalised name. */
module Scraper {
  import opened Text
  import opened Catalog



  // ---------------------------------------------------------------------------
  // Source 1: the GitHub awesome list, one record per matching markdown line

  const GithubSource := "GitHub Awesome AI Tools"

  predicate IsBullet(c: char) { c == '-' || c == '*' }
  predicate IsSeparator(c: char) { c == '-' || c == '–' || c == ':' }

  /** `re.match(r"\s*[-*]\s+\[([^\]]+)\]\(([^)]+)\)\s*[-–:]\s*(.+)", line)`
      for a line without '\n': groups 1 (the name) and 3 (the description).
      Every step is forced: each class stops at the first character that
      must follow it, so no backtracking is needed except for `\s*(.+)`,
      which keeps one trailing blank when the rest is all blanks. */
  function MatchLine(line: string): (m: Option<(string, string)>)
    ensures m.Some? ==> |m.value.0| >= 1 && |m.value.1| >= 1 && ']' !in m.value.0
  {
    var a := SkipSpaces(line, 0);
    if a == |line| || !IsBullet(line[a]) then None
    else if a + 1 == |line| || !IsSpace(line[a + 1]) then None
    else
      var b := SkipSpaces(line, a + 1);
      if b == |line| || line[b] != '[' then None
      else
        var c := FindFrom(line, ']', b + 1);
        if c == |line| || c == b + 1 then None
        else if c + 1 == |line| || line[c + 1] != '(' then None
        else
          var d := FindFrom(line, ')', c + 2);
          if d == |line| || d == c + 2 then None
          else
            var e := SkipSpaces(line, d + 1);
            if e == |line| || !IsSeparator(line[e]) then None
            else
              var rest := line[e + 1..];
              var w := SkipSpaces(rest, 0);
              if w < |rest| then Some((line[b + 1..c], rest[w..]))
              else if rest != [] then Some((line[b + 1..c], rest[|rest| - 1..]))
              else None
  }

  /** The documented list line `- [name](url) - description` is accepted,
      and its groups are exactly the name and the description. */
  lemma ListLineMatches(name: string, url: string, desc: string)
    requires name != [] && ']' !in name
    requires url != [] && ')' !in url
    requires desc != [] && !IsSpace(desc[0])
    ensures MatchLine("- [" + name + "](" + url + ") - " + desc) == Some((name, desc))
  {
    var line := "- [" + name + "](" + url + ") - " + desc;
    var n, u := |name|, |url|;
    ListLineShape(name, url, desc);
    assert SkipSpaces(line, 0) == 0;
    assert SkipSpaces(line, 1) == 2;
    assert FindFrom(line, ']', 3) == 3 + n;
    assert FindFrom(line, ')', 5 + n) == 5 + n + u;
    assert SkipSpaces(line, 6 + n + u) == 7 + n + u;
    var rest := line[8 + n + u..];
    assert rest == [' '] + desc;
    assert SkipSpaces(rest, 0) == 1;
  }

  /** Where each part of a list line sits. */
  lemma ListLineShape(name: string, url: string, desc: string)
    requires ']' !in name && ')' !in url
    ensures var line := "- [" + name + "](" + url + ") - " + desc;
            var n, u := |name|, |url|;
            && |line| == 9 + n + u + |desc|
            && line[0] == '-' && line[1] == ' ' && line[2] == '['
            && line[3..3 + n] == name && (forall j :: 3 <= j < 3 + n ==> line[j] != ']')
            && line[3 + n] == ']' && line[4 + n] == '('
            && (forall j :: 5 + n <= j < 5 + n + u ==> line[j] != ')')
            && line[5 + n + u] == ')' && line[6 + n + u] == ' '
            && line[7 + n + u] == '-' && line[8 + n + u..] == [' '] + desc
  {
    var line := "- [" + name + "](" + url + ") - " + desc;
    var n, u := |name|, |url|;
    assert line[3..3 + n] == name;
    assert forall j :: 3 <= j < 3 + n ==> line[j] == name[j - 3];
    assert line[5 + n..5 + n + u] == url;
    assert forall j :: 5 + n <= j < 5 + n + u ==> line[j] == url[j - 5 - n];
    assert line[5 + n + u..9 + n + u] == ") - ";
    assert line[9 + n + u..] == desc;
  }

  /** The record a line yields: stripped name of 3 to 59 characters and a
      stripped description over 15 characters, cut to 500. */
  function GithubRecord(line: string): (r: Option<RawTool>)
    ensures r.Some? ==> 2 < |r.value.name| < 60 && 15 < |r.value.description| <= 500
                        && r.value.source == Some(GithubSource)
  {
    match MatchLine(line)
    case None => None
    case Some(groups) =>
      var name := Strip(groups.0);
      var desc := Strip(groups.1);
      if |name| > 2 && |desc| > 15 && |name| < 60 then Some(RawTool(name, Take(desc, 500), Some(GithubSource)))
      else None
  }

  /** The records of the lines, in line order. */
  function GithubRecords(lines: seq<string>): (r: seq<RawTool>)
    ensures forall t :: t in r ==> 2 < |t.name| < 60 && 15 < |t.description| <= 500
                                   && t.source == Some(GithubSource)
  {
    if lines == [] then []
    else
      GithubRecords(lines[..|lines| - 1])
      + match GithubRecord(lines[|lines| - 1]) case Some(t) => [t] case None => []
  }

  /** scrape_github_awesome_list: `body` is the README text, None when the
      request failed or did not answer 200. */
  method ScrapeGithubAwesomeList(body: Option<string>) returns (tools: seq<RawTool>)
    ensures |tools| <= 40
    ensures forall t :: t in tools ==> 2 < |t.name| < 60 && 15 < |t.description| <= 500
                                       && t.source == Some(GithubSource)
    ensures tools == if body.None? then [] else Take(GithubRecords(Split(body.value, '\n')), 40)
  {
    if body.None? {
      return [];
    }
    var lines := Split(body.value, '\n');
    var found: seq<RawTool> := [];
    for i := 0 to |lines|
      invariant found == GithubRecords(lines[..i])
    {
      assert lines[..i + 1][..i] == lines[..i];
      match GithubRecord(lines[i]) {
        case Some(t) => found := found + [t];
        case None =>
      }
    }
    assert lines[..|lines|] == lines;
    tools := Take(found, 40);
  }

  // ---------------------------------------------------------------------------
  // Source 2: the Hugging Face spaces API

  const HuggingFaceSource := "Hugging Face Spaces"

  /** One entry of the API's answer: its id, its card's short description
      ("" when absent) and its tags. */
  datatype Space = Space(id: string, shortDescription: string, tags: seq<string>)

  /** The description of a space: its own when at least 10 characters long,
      else one built from its first five tags, else a fixed sentence. */
  function SpaceDescription(s: Space): (d: string)
    ensures |d| >= 10
    ensures |s.shortDescription| >= 10 ==> d == s.shortDescription
  {
    if |s.shortDescription| < 10 then
      if s.tags != [] then "AI tool on Hugging Face. Tags: " + Join(Take(s.tags, 5), ", ")
      else "AI tool hosted on Hugging Face Spaces."
    else s.shortDescription
  }

  /** The display name of a space: the last path segment of its id with
      dashes turned to blanks, title-cased (`title` is `str.title`). */
  function SpaceName(s: Space, title: string -> string): string {
    var parts := Split(s.id, '/');
    title(ReplaceChar(parts[|parts| - 1], '-', ' '))
  }

  function HuggingFaceRecords(spaces: seq<Space>, title: string -> string): (r: seq<RawTool>)
    ensures forall t :: t in r ==> 1 <= |t.name| <= 80 && 10 <= |t.description| <= 500
                                   && t.source == Some(HuggingFaceSource)
  {
    if spaces == [] then []
    else
      var s := spaces[|spaces| - 1];
      var name := SpaceName(s, title);
      HuggingFaceRecords(spaces[..|spaces| - 1], title)
      + if name != "" then [RawTool(Take(name, 80), Take(SpaceDescription(s), 500), Some(HuggingFaceSource))]
        else []
  }

  /** scrape_huggingface_spaces: `spaces` is the decoded answer, None when
      the request failed or did not answer 200. */
  method ScrapeHuggingFaceSpaces(spaces: Option<seq<Space>>, title: string -> string)
    returns (tools: seq<RawTool>)
    ensures forall t :: t in tools ==> 1 <= |t.name| <= 80 && 10 <= |t.description| <= 500
                                       && t.source == Some(HuggingFaceSource)
    ensures tools == if spaces.None? then [] else HuggingFaceRecords(spaces.value, title)
  {
    tools := [];
    if spaces.None? {
      return;
    }
    var all := spaces.value;
    for i := 0 to |all|
      invariant tools == HuggingFaceRecords(all[..i], title)
    {
      assert all[..i + 1][..i] == all[..i];
      var name := SpaceName(all[i], title);
      if name != "" {
        tools := tools + [RawTool(Take(name, 80), Take(SpaceDescription(all[i]), 500), Some(HuggingFaceSource))];
      }
    }
    assert all[..|all|] == all;
  }

  // ---------------------------------------------------------------------------
  // scrape_all_sources: merge, supplement, deduplicate

  /** What a gathered source yields: its list, or an exception. */
  datatype Fetch = Fetched(tools: seq<RawTool>) | Failed

  /** The records of the gathered sources, in source order; failures add none. */
  function Live(results: seq<Fetch>): seq<RawTool> {
    if results == [] then []
    else
      Live(results[..|results| - 1])
      + match results[|results| - 1] case Fetched(ts) => ts case Failed => []
  }

  lemma {:induction false} LiveAppend(a: seq<Fetch>, b: seq<Fetch>)
    ensures Live(a + b) == Live(a) + Live(b)
    decreases |b|
  {
    if b == [] {
      assert a + b == a;
    } else {
      LiveAppend(a, b[..|b| - 1]);
      assert (a + b)[..|a + b| - 1] == a + b[..|b| - 1];
      assert (a + b)[|a + b| - 1] == b[|b| - 1];
    }
  }

  /** A failed source contributes no records and does not disturb the others. */
  lemma {:induction false} FailedSourceContributesNothing(before: seq<Fetch>, after: seq<Fetch>)
    ensures Live(before + [Failed] + after) == Live(before + after)
  {
    LiveAppend(before + [Failed], after);
    LiveAppend(before, [Failed]);
    LiveAppend(before, after);
    assert Live([Failed]) == [];
  }

  /** The gathered lists, in order, then the browser scraper's list. */
  method MergeSources(results: seq<Fetch>, browsed: seq<RawTool>) returns (all: seq<RawTool>)
    ensures all == Live(results) + browsed
  {
    all := [];
    for i := 0 to |results|
      invariant all == Live(results[..i])
    {
      assert results[..i + 1][..i] == results[..i];
      if results[i].Fetched? {
        all := all + results[i].tools;
      }
    }
    assert results[..|results|] == results;
    all := all + browsed;
  }

  /** Fewer than 10 live records: the sample catalog is appended after them. */
  function Supplemented(live: seq<RawTool>): seq<RawTool> {
    if |live| < 10 then live + SampleTools() else live
  }

  /** The deduplication key: `name.lower().strip()`. */
  function Key(t: RawTool): string {
    Strip(Lower(t.name))
  }

  /** Keys of length 1 or less are dropped. */
  predicate ValidKey(k: string) { |k| > 1 }

  /** The deduplication loop from a given `seen` set on. */
  function DedupFrom(key: RawTool -> string, seen: set<string>, xs: seq<RawTool>): seq<RawTool>
    decreases |xs|
  {
    if xs == [] then []
    else if key(xs[0]) !in seen && ValidKey(key(xs[0])) then
      [xs[0]] + DedupFrom(key, seen + {key(xs[0])}, xs[1..])
    else DedupFrom(key, seen, xs[1..])
  }

  function Dedup(xs: seq<RawTool>): seq<RawTool> {
    DedupFrom(Key, {}, xs)
  }

  /** The deduplication loop of scrape_all_sources, over the key function
      it uses (Key at its one call site). */
  method Deduplicate(key: RawTool -> string, all: seq<RawTool>) returns (unique: seq<RawTool>)
    ensures unique == DedupFrom(key, {}, all)
  {
    var seen: set<string> := {};
    unique := [];
    for i := 0 to |all|
      invariant unique + DedupFrom(key, seen, all[i..]) == DedupFrom(key, {}, all)
    {
      ghost var rest := all[i + 1..];
      assert all[i..] == [all[i]] + rest;
      var k := key(all[i]);
      if k !in seen && ValidKey(k) {
        ghost var later := DedupFrom(key, seen + {k}, rest);
        assert unique + [all[i]] + later == unique + ([all[i]] + later);
        seen := seen + {k};
        unique := unique + [all[i]];
      }
    }
  }

  /** scrape_all_sources over its sources' results. */
  method ScrapeAllSources(results: seq<Fetch>, browsed: seq<RawTool>) returns (unique: seq<RawTool>)
    ensures unique == Dedup(Supplemented(Live(results) + browsed))
  {
    var all := MergeSources(results, browsed);
    if |all| < 10 {
      all := all + SampleTools();
    }
    unique := Deduplicate(Key, all);
  }

  // ---------------------------------------------------------------------------
  // Properties of deduplication

  predicate KeysDistinct(key: RawTool -> string, d: seq<RawTool>) {
    forall i, j :: 0 <= i < j < |d| ==> key(d[i]) != key(d[j])
  }

  /** `a` is `b` with some elements left out, order kept. */
  predicate IsSubsequence<T(==)>(a: seq<T>, b: seq<T>)
    decreases |b|
  {
    a == [] || (b != [] && ((a[0] == b[0] && IsSubsequence(a[1..], b[1..])) || IsSubsequence(a, b[1..])))
  }

  lemma {:induction false} SubsequenceMembers<T>(a: seq<T>, b: seq<T>)
    requires IsSubsequence(a, b)
    ensures forall x :: x in a ==> x in b
    decreases |b|
  {
    if a != [] {
      if a[0] == b[0] && IsSubsequence(a[1..], b[1..]) {
        SubsequenceMembers(a[1..], b[1..]);
        assert forall x :: x in a ==> x == a[0] || x in a[1..];
      } else {
        SubsequenceMembers(a, b[1..]);
      }
    }
  }

  /** The output keeps input order, its keys are pairwise distinct, of
      length 2 or more, and new with respect to `seen`. */
  lemma {:induction false} DedupProperties(key: RawTool -> string, seen: set<string>, xs: seq<RawTool>)
    decreases |xs|
    ensures var d := DedupFrom(key, seen, xs);
            && IsSubsequence(d, xs)
            && KeysDistinct(key, d)
            && (forall k :: 0 <= k < |d| ==> ValidKey(key(d[k])) && key(d[k]) !in seen)
  {
    if xs != [] {
      var k0 := key(xs[0]);
      if k0 !in seen && ValidKey(k0) {
        DedupProperties(key, seen + {k0}, xs[1..]);
        var rest := DedupFrom(key, seen + {k0}, xs[1..]);
        var d := [xs[0]] + rest;
        assert d[1..] == rest;
        forall i, j | 0 <= i < j < |d| ensures key(d[i]) != key(d[j]) {
          if i > 0 { assert d[i] == rest[i - 1]; }
          assert d[j] == rest[j - 1];
        }
        forall k | 0 <= k < |d| ensures ValidKey(key(d[k])) && key(d[k]) !in seen {
          if k > 0 { assert d[k] == rest[k - 1]; }
        }
      } else {
        DedupProperties(key, seen, xs[1..]);
        var d := DedupFrom(key, seen, xs[1..]);
        assert d == [] || IsSubsequence(d, xs[1..]);
      }
    }
  }

  /** Whether `xs[i]` is the first record of `xs` with its key. */
  predicate FirstWithKey(key: RawTool -> string, xs: seq<RawTool>, i: int)
    requires 0 <= i < |xs|
  {
    forall j :: 0 <= j < i ==> key(xs[j]) != key(xs[i])
  }

  /** The first record with each usable key survives, unchanged. */
  lemma {:induction false} FirstOccurrenceKept(key: RawTool -> string, seen: set<string>, xs: seq<RawTool>, i: nat)
    requires i < |xs| && ValidKey(key(xs[i])) && key(xs[i]) !in seen && FirstWithKey(key, xs, i)
    ensures xs[i] in DedupFrom(key, seen, xs)
    decreases i
  {
    if i > 0 {
      var k0 := key(xs[0]);
      var seen' := if k0 !in seen && ValidKey(k0) then seen + {k0} else seen;
      assert key(xs[i]) != k0;
      assert xs[1..][i - 1] == xs[i];
      FirstOccurrenceKept(key, seen', xs[1..], i - 1);
    }
  }

  /** A first occurrence in `xs[1..]` whose key differs from `xs[0]`'s is a
      first occurrence in `xs`. */
  lemma FirstWithKeyShift(key: RawTool -> string, xs: seq<RawTool>, i: nat)
    requires i + 1 < |xs| && FirstWithKey(key, xs[1..], i) && key(xs[0]) != key(xs[i + 1])
    ensures FirstWithKey(key, xs, i + 1)
  {
    forall j | 0 < j < i + 1 ensures key(xs[j]) != key(xs[i + 1]) {
      assert xs[j] == xs[1..][j - 1];
    }
  }

  /** Every surviving record is the first of the input with its key. */
  lemma {:induction false} SurvivorsAreFirst(key: RawTool -> string, seen: set<string>, xs: seq<RawTool>)
    decreases |xs|
    ensures forall u :: u in DedupFrom(key, seen, xs) ==>
              exists i :: 0 <= i < |xs| && xs[i] == u && FirstWithKey(key, xs, i)
  {
    if xs != [] {
      var k0 := key(xs[0]);
      var seen' := if k0 !in seen && ValidKey(k0) then seen + {k0} else seen;
      var d := DedupFrom(key, seen', xs[1..]);
      SurvivorsAreFirst(key, seen', xs[1..]);
      DedupProperties(key, seen', xs[1..]);
      assert DedupFrom(key, seen, xs) == if seen' == seen then d else [xs[0]] + d;
      forall u | u in DedupFrom(key, seen, xs)
        ensures exists i :: 0 <= i < |xs| && xs[i] == u && FirstWithKey(key, xs, i)
      {
        if u == xs[0] {
          assert FirstWithKey(key, xs, 0);
        } else {
          assert u in d;
          var i :| 0 <= i < |xs[1..]| && xs[1..][i] == u && FirstWithKey(key, xs[1..], i);
          // A survivor's key is usable and not in seen', where xs[0]'s key
          // either is or is unusable.
          var p :| 0 <= p < |d| && d[p] == u;
          assert key(u) != k0;
          FirstWithKeyShift(key, xs, i);
        }
      }
    }
  }

  /** Every usable key of the input appears in the output. */
  lemma {:induction false} KeysCovered(key: RawTool -> string, seen: set<string>, xs: seq<RawTool>, i: nat)
    requires i < |xs| && ValidKey(key(xs[i]))
    ensures key(xs[i]) in seen || exists u :: u in DedupFrom(key, seen, xs) && key(u) == key(xs[i])
    decreases i
  {
    var k0 := key(xs[0]);
    if i == 0 {
      if k0 !in seen {
        assert xs[0] in DedupFrom(key, seen, xs);
      }
    } else {
      var seen' := if k0 !in seen && ValidKey(k0) then seen + {k0} else seen;
      assert xs[1..][i - 1] == xs[i];
      KeysCovered(key, seen', xs[1..], i - 1);
      if key(xs[i]) == k0 && k0 !in seen {
        assert xs[0] in DedupFrom(key, seen, xs);
      }
    }
  }

  /** A list with distinct usable keys, none in `seen`, passes unchanged. */
  lemma {:induction false} DedupOfClean(key: RawTool -> string, seen: set<string>, xs: seq<RawTool>)
    requires KeysDistinct(key, xs)
    requires forall k :: 0 <= k < |xs| ==> ValidKey(key(xs[k])) && key(xs[k]) !in seen
    ensures DedupFrom(key, seen, xs) == xs
    decreases |xs|
  {
    if xs != [] {
      var k0 := key(xs[0]);
      forall k | 0 <= k < |xs[1..]| ensures ValidKey(key(xs[1..][k])) && key(xs[1..][k]) !in seen + {k0} {
        assert xs[1..][k] == xs[k + 1];
      }
      DedupOfClean(key, seen + {k0}, xs[1..]);
    }
  }

  /** Deduplication is idempotent. */
  lemma DedupIdempotent(xs: seq<RawTool>)
    ensures Dedup(Dedup(xs)) == Dedup(xs)
  {
    DedupProperties(Key, {}, xs);
    DedupOfClean(Key, {}, Dedup(xs));
  }

  /** The key of the plain spelling used by CaseAndBlanksCollapse. */
  lemma PlainKey(a: RawTool)
    requires a.name == "GPT Helper"
    ensures Key(a) == "gpt helper"
  {
    assert Lower("GPT Helper") == "gpt helper";
    StripUnchanged("gpt helper");
  }

  /** The key of the padded, lower-case spelling used by CaseAndBlanksCollapse. */
  lemma PaddedKey(b: RawTool)
    requires b.name == " gpt helper "
    ensures Key(b) == "gpt helper"
  {
    var padded := " gpt helper ";
    assert Lower(padded) == padded;
    assert SkipSpaces(padded, 1) == 1;
    assert SkipSpaces(padded, 0) == 1;
    var left := padded[1..];
    assert StripLeft(padded) == left;
    assert TextEnd(left, 10) == 10;
    assert TextEnd(left, 11) == 10;
    assert left[..10] == "gpt helper";
  }

  /** Two spellings of one name that differ only in case and surrounding
      blanks collapse to the first record. */
  lemma CaseAndBlanksCollapse(first: string, second: string)
    ensures var a := RawTool("GPT Helper", first, Some("A"));
            var b := RawTool(" gpt helper ", second, Some("B"));
            Dedup([a, b]) == [a]
  {
    var a := RawTool("GPT Helper", first, Some("A"));
    var b := RawTool(" gpt helper ", second, Some("B"));
    PlainKey(a);
    PaddedKey(b);
    assert [a, b][1..] == [b];
    assert [b][1..] == [];
    assert DedupFrom(Key, {"gpt helper"}, [b]) == [];
    assert ValidKey(Key(a)) && {} + {Key(a)} == {"gpt helper"};
    assert Dedup([a, b]) == [a] + DedupFrom(Key, {"gpt helper"}, [b]);
  }

  /** The sample catalog is added exactly when live sources are sparse: with
      fewer than 10 live records every usable sample key is in the output;
      otherwise every output record is a live one. */
  lemma SupplementIffSparse(live: seq<RawTool>)
    ensures |live| < 10 ==>
              forall s :: s in SampleTools() && ValidKey(Key(s)) ==>
                exists u :: u in Dedup(Supplemented(live)) && Key(u) == Key(s)
    ensures |live| >= 10 ==> forall u :: u in Dedup(Supplemented(live)) ==> u in live
  {
    if |live| < 10 {
      AppendedKeysSurvive(Key, live, SampleTools());
    } else {
      DedupProperties(Key, {}, live);
      SubsequenceMembers(Dedup(live), live);
    }
  }

  /** Every usable key of records appended after `front` has a survivor. */
  lemma AppendedKeysSurvive(key: RawTool -> string, front: seq<RawTool>, extra: seq<RawTool>)
    ensures forall s :: s in extra && ValidKey(key(s)) ==>
              exists u :: u in DedupFrom(key, {}, front + extra) && key(u) == key(s)
  {
    var all := front + extra;
    forall s | s in extra && ValidKey(key(s))
      ensures exists u :: u in DedupFrom(key, {}, all) && key(u) == key(s)
    {
      var k :| 0 <= k < |extra| && extra[k] == s;
      assert all[|front| + k] == s;
      KeysCovered(key, {}, all, |front| + k);
    }
  }
}

/** Keyword tables (an ordered list of categories, each with its keywords),
    hit counting and the first-maximum choice shared by the tool classifier
    and the task recommender. */
module Keywords {
  import opened Text

  /** A category name and its keywords, in declaration order. */
  type Table = seq<(string, seq<string>)>

  /** The category names of a table, in order. */
  function CategoryNames(table: Table): (r: seq<string>)
    ensures |r| == |table|
  {
    seq(|table|, i requires 0 <= i < |table| => table[i].0)
  }

  /** How many of `keywords` occur as substrings of `text`. */
  function Hits(text: string, keywords: seq<string>): (n: nat)
    ensures n <= |keywords|
    ensures n == 0 <==> forall k :: 0 <= k < |keywords| ==> !Contains(text, keywords[k])
  {
    if keywords == [] then 0
    else (if Contains(text, keywords[0]) then 1 else 0) + Hits(text, keywords[1..])
  }

  /** The first index holding the largest element: Python's
      `max(scores, key=scores.get)` over an insertion-ordered dict. */
  function FirstMax(s: seq<nat>): (i: nat)
    requires |s| > 0
    ensures i < |s|
    ensures forall j :: 0 <= j < |s| ==> s[j] <= s[i]
    ensures forall j :: 0 <= j < i ==> s[j] < s[i]
  {
    if |s| == 1 then 0
    else
      var k := FirstMax(s[..|s| - 1]);
      if s[|s| - 1] > s[k] then |s| - 1 else k
  }

  /** FirstMax is the only index that is maximal and beats every earlier one. */
  lemma FirstMaxIsUnique(s: seq<nat>, i: nat)
    requires i < |s|
    ensures FirstMax(s) == i
        <==> (forall j :: 0 <= j < |s| ==> s[j] <= s[i]) && (forall j :: 0 <= j < i ==> s[j] < s[i])
  {
  }
}

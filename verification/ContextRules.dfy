/** What a bounded context takes in: every reference and memory that fits when its turn comes, and of a document's text
    the longest halving that fits. */
module ContextRules {
  import opened Core
  import opened ContextBudget

  // One step at a time

  function Halved(s: string, times: nat): string {
    if times == 0 then s else Halved(s[..|s| / 2], times - 1)
  }

  /** `content` is the first of s, its first half, its first quarter ... that fits, or nothing when none does. */
  ghost predicate LongestHalving(r: Context, id: string, s: string, content: string, budget: nat) {
    exists k: nat ::
      && content == Halved(s, k)
      && (content == "" || Size(WithContent(r, id, content)) <= budget)
      && forall j :: 0 <= j < k ==> Halved(s, j) != "" && Size(WithContent(r, id, Halved(s, j))) > budget
  }

  /** The reference is taken exactly when it fits; with it comes the text, cut to the room that is left but for eight
      characters and then halved until it fits; anything missing is marked. */
  ghost predicate DocumentTaken(r: Context, d: Document, budget: nat, r1: Context) {
    var cited := r.(references := r.references + [d.reference]);
    if Size(cited) > budget then r1 == r.(truncated := true)
    else exists content ::
      && LongestHalving(cited, d.reference.id,
                        Prefix(d.text, budget - 8 - Size(WithContent(cited, d.reference.id, ""))), content, budget)
      && r1 == Context(r.query, if content == "" then r.knowledge else r.knowledge + [Entry(d.reference.id, content)],
                       r.memories, r.references + [d.reference], r.truncated || |content| < d.chars)
  }

  /** A memory is taken exactly when it fits. */
  predicate MemoryTaken(r: Context, m: Memory, budget: nat, r1: Context) {
    if Size(r.(memories := r.memories + [m])) <= budget then r1 == r.(memories := r.memories + [m])
    else r1 == r.(truncated := true)
  }

  /** The stages of a filling: the documents in the order of the search, then the memories. */
  ghost predicate Stages(
    query: string, docs: seq<Document>, memories: seq<Memory>, budget: nat, stages: seq<Context>)
  {
    && |stages| == |docs| + |memories| + 1
    && stages[0] == Context(Prefix(query, 256), [], [], [], false)
    && (forall n :: 0 <= n < |docs| ==> DocumentTaken(stages[n], docs[n], budget, stages[n + 1]))
    && (forall n :: 0 <= n < |memories| ==>
          MemoryTaken(stages[|docs| + n], memories[n], budget, stages[|docs| + n + 1]))
  }

  lemma {:induction false} FitIsLongest(r: Context, id: string, s: string, budget: nat)
    ensures LongestHalving(r, id, s, Fit(r, id, s, budget), budget)
    decreases |s|
  {
    hide Size;
    var content := Fit(r, id, s, budget);
    if Size(WithContent(r, id, s)) <= budget || s == "" {
      assert content == Halved(s, 0);
    } else {
      var half := s[..|s| / 2];
      FitIsLongest(r, id, half, budget);
      var k: nat :| content == Halved(half, k) && (content == "" || Size(WithContent(r, id, content)) <= budget)
        && forall j :: 0 <= j < k ==> Halved(half, j) != "" && Size(WithContent(r, id, Halved(half, j))) > budget;
      forall j | 0 <= j < k + 1
        ensures Halved(s, j) != "" && Size(WithContent(r, id, Halved(s, j))) > budget
      {
        assert j > 0 ==> Halved(s, j) == Halved(half, j - 1);
      }
      assert content == Halved(s, k + 1);
    }
  }

  lemma AddTakes(r: Context, d: Document, budget: nat)
    ensures DocumentTaken(r, d, budget, AddDocument(r, d, budget))
  {
    hide Size, Fit, LongestHalving, Prefix;
    var cited := r.(references := r.references + [d.reference]);
    var room := budget - Size(WithContent(cited, d.reference.id, "")) - 8;
    FitIsLongest(cited, d.reference.id, Prefix(d.text, room), budget);
  }

  lemma {:induction false} DocumentStages(query: string, docs: seq<Document>, budget: nat) returns (stages: seq<Context>)
    ensures Stages(query, docs, [], budget, stages)
    ensures stages[|docs|] == AddDocuments(Start(query), docs, budget)
  {
    hide DocumentTaken, AddDocument;
    if docs == [] {
      return [Start(query)];
    }
    var front := docs[..|docs| - 1];
    var before := DocumentStages(query, front, budget);
    AddTakes(before[|front|], docs[|front|], budget);
    stages := before + [AddDocument(before[|front|], docs[|front|], budget)];
    forall n | 0 <= n < |docs|
      ensures DocumentTaken(stages[n], docs[n], budget, stages[n + 1])
    {
      if n < |front| {
        assert DocumentTaken(before[n], front[n], budget, before[n + 1]);
      }
    }
  }

  lemma {:induction false} AllStages(query: string, docs: seq<Document>, memories: seq<Memory>, budget: nat)
    returns (stages: seq<Context>)
    ensures Stages(query, docs, memories, budget, stages)
    ensures stages[|docs| + |memories|] == AddMemories(AddDocuments(Start(query), docs, budget), memories, budget)
    decreases |memories|
  {
    hide DocumentTaken, Size;
    if memories == [] {
      stages := DocumentStages(query, docs, budget);
      return;
    }
    var front := memories[..|memories| - 1];
    var before := AllStages(query, docs, front, budget);
    var last := |docs| + |front|;
    stages := before + [AddMemory(before[last], memories[|front|], budget)];
    forall n | 0 <= n < |docs|
      ensures DocumentTaken(stages[n], docs[n], budget, stages[n + 1])
    {
      assert DocumentTaken(before[n], docs[n], budget, before[n + 1]);
    }
    forall n | 0 <= n < |memories|
      ensures MemoryTaken(stages[|docs| + n], memories[n], budget, stages[|docs| + n + 1])
    {
      if n < |front| {
        assert MemoryTaken(before[|docs| + n], front[n], budget, before[|docs| + n + 1]);
      }
    }
  }

  /** The context with its query halved so many times. */
  function Asking(r: Context, times: nat): Context {
    if times == 0 then r else r.(query := Halved(r.query, times), truncated := true)
  }

  /** The query is cut to the longest of its halvings that fits. */
  ghost predicate Asked(r: Context, budget: nat, result: Context) {
    exists k: nat ::
      result == Asking(r, k) && forall j :: 0 <= j < k ==> Halved(r.query, j) != "" && Size(Asking(r, j)) > budget
  }

  lemma {:induction false} ShortenIs(r: Context, budget: nat)
    ensures Asked(r, budget, ShortenQuery(r, budget))
    decreases |r.query|
  {
    hide Size;
    var result := ShortenQuery(r, budget);
    if Size(r) <= budget || r.query == "" {
      assert result == Asking(r, 0);
    } else {
      var shorter := r.(query := r.query[..|r.query| / 2], truncated := true);
      ShortenIs(shorter, budget);
      var k: nat :| result == Asking(shorter, k)
        && forall j :: 0 <= j < k ==> Halved(shorter.query, j) != "" && Size(Asking(shorter, j)) > budget;
      forall j | 0 <= j < k + 1
        ensures Halved(r.query, j) != "" && Size(Asking(r, j)) > budget
      {
        if j > 0 {
          assert Asking(r, j) == Asking(shorter, j - 1);
        }
      }
      assert result == Asking(r, k + 1);
    }
  }

  /** Whatever fits when its turn comes is in the result, in that order; nothing else is. */
  lemma WhatFitsIsIn(query: string, docs: seq<Document>, memories: seq<Memory>, budget: nat)
    returns (stages: seq<Context>)
    requires budget >= 256
    ensures Stages(query, docs, memories, budget, stages)
    ensures Asked(stages[|docs| + |memories|], budget, Assembled(query, docs, memories, budget))
    ensures Size(Assembled(query, docs, memories, budget)) <= budget
  {
    hide DocumentTaken, MemoryTaken, Size, Asked, AddDocuments, AddMemories, ShortenQuery;
    stages := AllStages(query, docs, memories, budget);
    WithinBudget(query, docs, memories, budget);
    ShortenIs(AddMemories(AddDocuments(Start(query), docs, budget), memories, budget), budget);
  }

  // Nothing is left out without need

  /** Everything that was found. */
  function Everything(query: string, docs: seq<Document>, memories: seq<Memory>): Context {
    Context(Prefix(query, 256), seq(|docs|, n requires 0 <= n < |docs| => Entry(docs[n].reference.id, docs[n].text)),
            memories, seq(|docs|, n requires 0 <= n < |docs| => docs[n].reference), false)
  }

  /** Part of a context, with the same query and mark. */
  predicate PartOf(a: Context, b: Context) {
    a.query == b.query && a.truncated == b.truncated && a.knowledge <= b.knowledge && a.memories <= b.memories
    && a.references <= b.references
  }

  lemma {:induction false} JoinGrows(a: seq<string>, b: seq<string>)
    requires a <= b
    ensures |Join(a)| <= |Join(b)|
  {
    if |a| == 1 {
      assert b[0] == a[0];
    } else if a != [] {
      JoinGrows(a[1..], b[1..]);
    }
  }

  function EntryTexts(knowledge: seq<Entry>): seq<string> {
    seq(|knowledge|, n requires 0 <= n < |knowledge| => EntryText(knowledge[n]))
  }

  function MemoryTexts(memories: seq<Memory>): seq<string> {
    seq(|memories|, n requires 0 <= n < |memories| => MemoryText(memories[n]))
  }

  function ReferenceTexts(references: seq<Reference>): seq<string> {
    seq(|references|, n requires 0 <= n < |references| => ReferenceText(references[n]))
  }

  /** What a context costs besides its lists. */
  function Frame(query: string, truncated: bool): int {
    Size(Context(query, [], [], [], truncated))
  }

  lemma SizeIsSum(r: Context)
    ensures Size(r) == Frame(r.query, r.truncated) + |Join(EntryTexts(r.knowledge))| + |Join(MemoryTexts(r.memories))|
                       + |Join(ReferenceTexts(r.references))|
  {
    hide EntryText, MemoryText, ReferenceText, Quote;
    ListsAre(r.knowledge, r.memories, r.references);
    ListsAre([], [], []);
    hide Lists;
  }

  lemma ListsAre(knowledge: seq<Entry>, memories: seq<Memory>, references: seq<Reference>)
    ensures |Lists(knowledge, memories, references)|
      == |", \"knowledge\": "| + |", \"memories\": "| + |", \"references\": "| + 6
         + |Join(EntryTexts(knowledge))| + |Join(MemoryTexts(memories))| + |Join(ReferenceTexts(references))|
  {
    hide EntryText, MemoryText, ReferenceText, Join;
  }

  lemma PartIsSmaller(a: Context, b: Context)
    requires PartOf(a, b)
    ensures Size(a) <= Size(b)
  {
    hide Size, EntryText, MemoryText, ReferenceText;
    SizeIsSum(a);
    SizeIsSum(b);
    JoinGrows(EntryTexts(a.knowledge), EntryTexts(b.knowledge));
    JoinGrows(MemoryTexts(a.memories), MemoryTexts(b.memories));
    JoinGrows(ReferenceTexts(a.references), ReferenceTexts(b.references));
  }

  lemma {:induction false} EscapeIsLonger(s: string)
    ensures |Escape(s)| >= |s|
  {
    if s != "" {
      EscapeIsLonger(s[1..]);
    }
  }

  lemma {:induction false} JoinLast(items: seq<string>, x: string, y: string)
    ensures |Join(items + [x])| - |x| == |Join(items + [y])| - |y|
  {
    if items != [] {
      JoinLast(items[1..], x, y);
      assert (items + [x])[1..] == items[1..] + [x];
      assert (items + [y])[1..] == items[1..] + [y];
    }
  }

  lemma EntryCosts(id: string, content: string)
    ensures |EntryText(Entry(id, content))| >= |EntryText(Entry(id, ""))| + |content|
  {
    EscapeIsLonger(content);
    assert Escape("") == "";
    hide Escape;
  }

  lemma ContentCosts(r: Context, id: string, content: string)
    ensures Size(WithContent(r, id, content)) >= Size(WithContent(r, id, "")) + |content|
  {
    hide Size, EntryText, Join;
    var cut, bare := Entry(id, content), Entry(id, "");
    EntryCosts(id, content);
    SizeIsSum(WithContent(r, id, content));
    SizeIsSum(WithContent(r, id, ""));
    JoinLast(EntryTexts(r.knowledge), EntryText(cut), EntryText(bare));
    assert EntryTexts(r.knowledge + [cut]) == EntryTexts(r.knowledge) + [EntryText(cut)];
    assert EntryTexts(r.knowledge + [bare]) == EntryTexts(r.knowledge) + [EntryText(bare)];
  }

  /** Eight characters to spare are enough for everything: then no document is cut, no memory is dropped and the mark is
      not set. */
  lemma EverythingFits(query: string, docs: seq<Document>, memories: seq<Memory>, budget: nat)
    requires forall n :: 0 <= n < |docs| ==> 1 <= |docs[n].text| == docs[n].chars
    requires Size(Everything(query, docs, memories)) + 8 <= budget
    ensures Assembled(query, docs, memories, budget) == Everything(query, docs, memories)
  {
    hide Size, AddDocuments, AddMemories;
    DocumentsWhole(query, docs, memories, budget, |docs|);
    MemoriesWhole(query, docs, memories, budget, |memories|);
    assert docs[..|docs|] == docs && memories[..|memories|] == memories;
  }

  lemma {:induction false} DocumentsWhole(query: string, docs: seq<Document>, memories: seq<Memory>, budget: nat, n: nat)
    requires n <= |docs| && forall k :: 0 <= k < |docs| ==> 1 <= |docs[k].text| == docs[k].chars
    requires Size(Everything(query, docs, memories)) + 8 <= budget
    ensures AddDocuments(Start(query), docs[..n], budget) == Everything(query, docs[..n], [])
  {
    hide Size, AddDocument;
    if n > 0 {
      DocumentsWhole(query, docs, memories, budget, n - 1);
      assert docs[..n][..n - 1] == docs[..n - 1];
      var r, d, whole := Everything(query, docs[..n - 1], []), docs[n - 1], Everything(query, docs[..n], []);
      var cited := r.(references := r.references + [d.reference]);
      assert whole.references == cited.references;
      assert whole.knowledge == cited.knowledge + [Entry(d.reference.id, d.text)];
      assert whole == WithContent(cited, d.reference.id, d.text);
      PartIsSmaller(whole, Everything(query, docs, memories));
      PartIsSmaller(cited, whole);
      OneWhole(r, d, budget);
    }
  }

  lemma OneWhole(r: Context, d: Document, budget: nat)
    requires 1 <= |d.text| == d.chars
    requires var cited := r.(references := r.references + [d.reference]);
      Size(cited) <= budget && Size(WithContent(cited, d.reference.id, d.text)) + 8 <= budget
    ensures AddDocument(r, d, budget)
      == WithContent(r.(references := r.references + [d.reference]), d.reference.id, d.text)
  {
    hide Size, Fit;
    var cited := r.(references := r.references + [d.reference]);
    ContentCosts(cited, d.reference.id, d.text);
    FitsWhole(cited, d.reference.id, d.text, budget);
    assert Prefix(d.text, budget - Size(WithContent(cited, d.reference.id, "")) - 8) == d.text by {
      assert d.text[..|d.text|] == d.text;
    }
  }

  lemma FitsWhole(r: Context, id: string, content: string, budget: nat)
    requires Size(WithContent(r, id, content)) <= budget
    ensures Fit(r, id, content, budget) == content
  {
    hide Size;
  }

  lemma {:induction false} MemoriesWhole(query: string, docs: seq<Document>, memories: seq<Memory>, budget: nat, n: nat)
    requires n <= |memories| && Size(Everything(query, docs, memories)) + 8 <= budget
    ensures AddMemories(Everything(query, docs, []), memories[..n], budget) == Everything(query, docs, memories[..n])
  {
    hide Size;
    if n > 0 {
      MemoriesWhole(query, docs, memories, budget, n - 1);
      assert memories[..n][..n - 1] == memories[..n - 1];
      assert memories[..n] == memories[..n - 1] + [memories[n - 1]];
      PartIsSmaller(Everything(query, docs, memories[..n]), Everything(query, docs, memories));
    }
  }

  // Which memories are offered

  /** Row n of the table of memories is offered to a run: a long-term memory, or one of the run's own. */
  predicate Offered(m: Memory, run: string) {
    || run == "" || m.scope == "long"
    || (m.source.Some? && |m.source.value| >= |run| + 4
        && (m.source.value[..4] == "run:" || m.source.value[..4] == "job:") && m.source.value[4..|run| + 4] == run)
  }

  lemma {:induction false} ForRunOffers(memories: seq<Memory>, run: string)
    ensures forall m :: m in ForRun(memories, run) <==> m in memories && Offered(m, run)
    ensures (forall n :: 0 <= n < |memories| ==> Offered(memories[n], run)) ==> ForRun(memories, run) == memories
  {
    if memories != [] {
      var front, last := memories[..|memories| - 1], memories[|memories| - 1];
      ForRunOffers(front, run);
      assert memories == front + [last];
      AllowedIsOffered(last, run);
      hide Allowed, Offered;
      forall m ensures m in memories <==> m in front || m == last {
      }
    }
  }

  lemma AllowedIsOffered(m: Memory, run: string)
    ensures Allowed(m, run) <==> Offered(m, run)
  {
    if m.source.Some? {
      var s := m.source.value;
      if |s| >= |run| + 4 {
        var own := s[..4] + s[4..|run| + 4];
        assert s[..|run| + 4] == own;
        assert "run:" + run <= s <==> s[..|run| + 4] == "run:" + run;
        assert "job:" + run <= s <==> s[..|run| + 4] == "job:" + run;
        assert s[4..|run| + 4] == s[..|run| + 4][4..] && s[..4] == s[..|run| + 4][..4];
        assert ("run:" + run)[..4] == "run:" && ("run:" + run)[4..] == run;
        assert ("job:" + run)[..4] == "job:" && ("job:" + run)[4..] == run;
      }
    }
  }

  // What everything costs

  /** The characters of an escaped text. */
  function Written(s: string): nat {
    |Escape(s)|
  }

  /** How many characters each part costs, keys and punctuation included; between two items of a list there are two more. */
  lemma CostsExactly(query: string, truncated: bool, e: Entry, f: Reference, m: Memory)
    ensures Frame(query, truncated) == Written(query) + 79 + if truncated then 4 else 5
    ensures |EntryText(e)| == Written(e.id) + Written(e.content) + 25
    ensures |ReferenceText(f)| == Written(f.id) + Written(f.source) + Written(f.path) + Written(f.sha256) + |f.revision| + |f.available|
                                  + |f.observed| + 109
    ensures |MemoryText(m)| == Written(m.key) + |m.value| + Written(m.scope)
                               + (if m.source.Some? then Written(m.source.value) + 2 else 4) + |m.revision| + Written(m.sha256) + 105
  {
    hide Escape;
  }

  lemma {:induction false} JoinCosts(items: seq<string>, x: string)
    ensures |Join(items + [x])| == |Join(items)| + |x| + if items == [] then 0 else 2
  {
    if |items| > 1 {
      JoinCosts(items[1..], x);
      assert (items + [x])[1..] == items[1..] + [x];
    } else if |items| == 1 {
      assert (items + [x])[1..] == [x];
    }
  }

  // The text of a string

  function HexValue(c: char): int {
    if '0' <= c <= '9' then c as int - 48 else if 'a' <= c <= 'f' then c as int - 87 else 0
  }

  /** What a reader makes of the text between two quotes (section 7 of RFC 8259): nothing, if it holds a bare quote, a control
      character or an escape that it does not know. */
  function Read(s: string): Option<string> {
    if s == "" then Some("")
    else if s[0] as int < 32 || s[0] == '\"' then None
    else if s[0] != '\\' then Then(s[0], Read(s[1..]))
    else if |s| < 2 then None
    else if s[1] == '\"' || s[1] == '\\' then Then(s[1], Read(s[2..]))
    else if s[1] == 'b' then Then(8 as char, Read(s[2..]))
    else if s[1] == 'f' then Then(12 as char, Read(s[2..]))
    else if s[1] == 'n' then Then('\n', Read(s[2..]))
    else if s[1] == 'r' then Then('\r', Read(s[2..]))
    else if s[1] == 't' then Then('\t', Read(s[2..]))
    else if s[1] == 'u' && |s| >= 6 && s[2] == '0' && s[3] == '0' && HexValue(s[4]) < 2 then
      Then((HexValue(s[4]) * 16 + HexValue(s[5])) as char, Read(s[6..]))
    else None
  }

  function Then(c: char, rest: Option<string>): Option<string> {
    if rest.None? then None else Some([c] + rest.value)
  }

  lemma ReadOne(c: char, rest: string)
    ensures Read(EscapeChar(c) + rest) == Then(c, Read(rest))
  {
    var s := EscapeChar(c) + rest;
    assert s[|EscapeChar(c)|..] == rest;
    if c as int < 32 && |EscapeChar(c)| == 6 {
      assert s[2] == '0' && s[3] == '0';
      HexReads(c as int / 16);
      HexReads(c as int % 16);
      assert [s[4]] == Hex(c as int / 16) && [s[5]] == Hex(c as int % 16);
    }
  }

  lemma HexReads(d: int)
    requires 0 <= d < 16
    ensures |Hex(d)| == 1 && HexValue(Hex(d)[0]) == d
  {
  }

  /** Whatever a text holds, a reader of the JSON gets it back. */
  lemma {:induction false} EveryTextReadsBack(s: string)
    ensures Read(Escape(s)) == Some(s)
  {
    if s != "" {
      EveryTextReadsBack(s[1..]);
      ReadOne(s[0], Escape(s[1..]));
      assert [s[0]] + s[1..] == s;
    }
  }
}

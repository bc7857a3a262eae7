/** Assembling a bounded context: the serialised result, the greedy filling, and its cuts. */
module ContextBudget {
  import opened Core

  // The result and its JSON text

  /** Numbers are given by the text that JSON writes for them. */
  datatype Reference = Reference(
    id: string, source: string, path: string, sha256: string, revision: string, available: string, observed: string)

  datatype Entry = Entry(id: string, content: string)

  /** `value` is the JSON text of the remembered value. */
  datatype Memory = Memory(
    key: string, value: string, scope: string, source: Option<string>, revision: string, sha256: string)

  datatype Context = Context(
    query: string, knowledge: seq<Entry>, memories: seq<Memory>, references: seq<Reference>, truncated: bool)

  /** A search hit: its text is an excerpt of a document of `chars` characters. */
  datatype Document = Document(reference: Reference, text: string, chars: nat)

  function EscapeChar(c: char): string {
    if c == '\"' || c == '\\' then ['\\', c]
    else if c == '\n' then "\\n"
    else if c == '\r' then "\\r"
    else if c == '\t' then "\\t"
    else if c as int == 8 then "\\b"
    else if c as int == 12 then "\\f"
    else if c as int < 32 then "\\u00" + Hex(c as int / 16) + Hex(c as int % 16)
    else [c]
  }

  function Hex(d: int): string {
    if 0 <= d < 10 then ['0' + d as char] else if 10 <= d < 16 then ['a' + (d - 10) as char] else "?"
  }

  function Escape(s: string): string {
    if s == "" then "" else EscapeChar(s[0]) + Escape(s[1..])
  }

  function Quote(s: string): string {
    "\"" + Escape(s) + "\""
  }

  function Join(items: seq<string>): string {
    if items == [] then "" else if |items| == 1 then items[0] else items[0] + ", " + Join(items[1..])
  }

  function List(items: seq<string>): string {
    "[" + Join(items) + "]"
  }

  function EntryText(e: Entry): string {
    "{\"id\": " + Quote(e.id) + ", \"content\": " + Quote(e.content) + "}"
  }

  function ReferenceText(r: Reference): string {
    "{\"id\": " + Quote(r.id) + ", \"source\": " + Quote(r.source) + ", \"reference_path\": " + Quote(r.path)
    + ", \"sha256\": " + Quote(r.sha256) + ", \"revision\": " + r.revision + ", \"available_at\": " + r.available
    + ", \"observed_at\": " + r.observed + "}"
  }

  function MemoryText(m: Memory): string {
    "{\"key\": " + Quote(m.key) + ", \"value\": " + m.value + ", \"scope\": " + Quote(m.scope) + ", \"source\": "
    + (if m.source.Some? then Quote(m.source.value) else "null") + ", \"revision\": " + m.revision
    + ", \"sha256\": " + Quote(m.sha256) + ", \"trust\": \"unverified_memory\"}"
  }

  function Lists(knowledge: seq<Entry>, memories: seq<Memory>, references: seq<Reference>): string {
    ", \"knowledge\": " + List(seq(|knowledge|, n requires 0 <= n < |knowledge| => EntryText(knowledge[n])))
    + ", \"memories\": " + List(seq(|memories|, n requires 0 <= n < |memories| => MemoryText(memories[n])))
    + ", \"references\": " + List(seq(|references|, n requires 0 <= n < |references| => ReferenceText(references[n])))
  }

  function Json(r: Context): string {
    "{\"query\": " + Quote(r.query) + Lists(r.knowledge, r.memories, r.references)
    + ", \"truncated\": " + (if r.truncated then "true" else "false") + "}"
  }

  function Size(r: Context): nat {
    |Json(r)|
  }

  // Filling

  function Prefix(s: string, n: int): string {
    if n <= 0 then "" else if n <= |s| then s[..n] else s
  }

  function WithContent(r: Context, id: string, content: string): Context {
    r.(knowledge := r.knowledge + [Entry(id, content)])
  }

  /** Halves the content until the result fits or nothing is left. */
  function Fit(r: Context, id: string, content: string, budget: nat): string
    decreases |content|
  {
    if Size(WithContent(r, id, content)) <= budget || content == "" then content
    else Fit(r, id, content[..|content| / 2], budget)
  }

  function AddDocument(r: Context, d: Document, budget: nat): Context {
    var r1 := r.(references := r.references + [d.reference]);
    if Size(r1) > budget then r.(truncated := true)
    else
      var room := budget - Size(WithContent(r1, d.reference.id, "")) - 8;
      var content := Fit(r1, d.reference.id, Prefix(d.text, room), budget);
      var r2 := if content == "" then r1 else WithContent(r1, d.reference.id, content);
      if |content| < d.chars then r2.(truncated := true) else r2
  }

  function AddDocuments(r: Context, docs: seq<Document>, budget: nat): Context {
    if docs == [] then r else AddDocument(AddDocuments(r, docs[..|docs| - 1], budget), docs[|docs| - 1], budget)
  }

  function AddMemory(r: Context, m: Memory, budget: nat): Context {
    var r1 := r.(memories := r.memories + [m]);
    if Size(r1) > budget then r.(truncated := true) else r1
  }

  function AddMemories(r: Context, memories: seq<Memory>, budget: nat): Context {
    if memories == [] then r
    else AddMemory(AddMemories(r, memories[..|memories| - 1], budget), memories[|memories| - 1], budget)
  }

  function ShortenQuery(r: Context, budget: nat): Context
    decreases |r.query|
  {
    if Size(r) <= budget || r.query == "" then r
    else ShortenQuery(r.(query := r.query[..|r.query| / 2], truncated := true), budget)
  }

  /** Short-term memories of other runs are left out. */
  predicate Allowed(m: Memory, run: string) {
    run == "" || m.scope == "long" || (m.source.Some? && ("run:" + run <= m.source.value || "job:" + run <= m.source.value))
  }

  function ForRun(memories: seq<Memory>, run: string): seq<Memory> {
    if memories == [] then []
    else if Allowed(memories[|memories| - 1], run) then ForRun(memories[..|memories| - 1], run) + [memories[|memories| - 1]]
    else ForRun(memories[..|memories| - 1], run)
  }

  function Start(query: string): Context {
    Context(Prefix(query, 256), [], [], [], false)
  }

  function Assembled(query: string, docs: seq<Document>, memories: seq<Memory>, budget: nat): Context {
    ShortenQuery(AddMemories(AddDocuments(Start(query), docs, budget), memories, budget), budget)
  }

  /** `assemble`, given what the search and the memory query returned. */
  method Assemble(query: string, docs: seq<Document>, memories: seq<Memory>, run: string, budget: int)
    returns (r: Option<Context>)
    ensures r.Some? <==> 256 <= budget <= 65536
    ensures r.Some? ==> r.value == Assembled(query, docs, ForRun(memories, run), budget)
  {
    if !(256 <= budget <= 65536) {
      return None;
    }
    hide AddDocuments, AddMemories, ShortenQuery, ForRun;
    var result := Start(query);
    result := EachDocument(result, docs, budget);
    result := EachMemory(result, memories, run, budget);
    result := Shortened(result, budget);
    return Some(result);
  }

  method EachDocument(r: Context, docs: seq<Document>, budget: nat) returns (result: Context)
    ensures result == AddDocuments(r, docs, budget)
  {
    hide AddDocument;
    result := r;
    for n := 0 to |docs|
      invariant result == AddDocuments(r, docs[..n], budget)
    {
      assert docs[..n + 1][..n] == docs[..n];
      result := OneDocument(result, docs[n], budget);
    }
    assert docs[..|docs|] == docs;
  }

  method EachMemory(r: Context, memories: seq<Memory>, run: string, budget: nat) returns (result: Context)
    ensures result == AddMemories(r, ForRun(memories, run), budget)
  {
    hide AddMemory, Allowed;
    result := r;
    for n := 0 to |memories|
      invariant result == AddMemories(r, ForRun(memories[..n], run), budget)
    {
      assert memories[..n + 1][..n] == memories[..n];
      if Allowed(memories[n], run) {
        MemoriesSnoc(r, ForRun(memories[..n], run), memories[n], budget);
        result := OneMemory(result, memories[n], budget);
      }
    }
    assert memories[..|memories|] == memories;
  }

  lemma MemoriesSnoc(r: Context, memories: seq<Memory>, m: Memory, budget: nat)
    ensures AddMemories(r, memories + [m], budget) == AddMemory(AddMemories(r, memories, budget), m, budget)
  {
  }

  method OneDocument(r: Context, d: Document, budget: nat) returns (result: Context)
    ensures result == AddDocument(r, d, budget)
  {
    hide Size;
    result := r.(references := r.references + [d.reference]);
    if Size(result) > budget {
      return r.(truncated := true);
    }
    ghost var base := result;
    var id := d.reference.id;
    result := result.(knowledge := result.knowledge + [Entry(id, "")]);
    var room := budget - Size(result) - 8;
    var content := if room <= 0 then "" else if room <= |d.text| then d.text[..room] else d.text;
    result := r.(references := r.references + [d.reference], knowledge := r.knowledge + [Entry(id, content)]);
    while Size(result) > budget && content != ""
      invariant result == WithContent(base, id, content)
      invariant Fit(base, id, content, budget) == Fit(base, id, Prefix(d.text, room), budget)
      decreases |content|
    {
      content := content[..|content| / 2];
      result := result.(knowledge := r.knowledge + [Entry(id, content)]);
    }
    if content == "" {
      result := result.(knowledge := r.knowledge);
    }
    if |content| < d.chars {
      result := result.(truncated := true);
    }
  }

  method OneMemory(r: Context, m: Memory, budget: nat) returns (result: Context)
    ensures result == AddMemory(r, m, budget)
  {
    hide Size;
    result := r.(memories := r.memories + [m]);
    if Size(result) > budget {
      result := r.(truncated := true);
    }
  }

  method Shortened(r: Context, budget: nat) returns (result: Context)
    ensures result == ShortenQuery(r, budget)
  {
    hide Size;
    result := r;
    while Size(result) > budget && result.query != ""
      invariant ShortenQuery(result, budget) == ShortenQuery(r, budget)
      decreases |result.query|
    {
      result := result.(query := result.query[..|result.query| / 2], truncated := true);
    }
  }

  // Sizes

  lemma {:induction false} ShorterEscape(s: string, n: nat)
    requires n <= |s|
    ensures |Escape(s[..n])| <= |Escape(s)|
  {
    if n > 0 {
      ShorterEscape(s[1..], n - 1);
      assert s[..n][1..] == s[1..][..n - 1];
    }
  }

  lemma EmptySize(truncated: bool)
    ensures Size(Context("", [], [], [], truncated)) <= 256
  {
  }

  /** Within the budget, or nothing but the query. */
  predicate FitsOrBare(r: Context, budget: nat) {
    Size(r) <= budget || (r.knowledge == [] && r.memories == [] && r.references == [])
  }

  lemma {:induction false} FitFits(r: Context, id: string, content: string, budget: nat)
    ensures var c := Fit(r, id, content, budget);
      c <= content && (c != "" ==> Size(WithContent(r, id, c)) <= budget)
    decreases |content|
  {
    hide Size;
    if !(Size(WithContent(r, id, content)) <= budget || content == "") {
      FitFits(r, id, content[..|content| / 2], budget);
    }
  }

  lemma MarkFits(r: Context, budget: nat)
    requires FitsOrBare(r, budget)
    ensures FitsOrBare(r.(truncated := true), budget)
  {
  }

  lemma DocumentFits(r: Context, d: Document, budget: nat)
    requires FitsOrBare(r, budget)
    ensures FitsOrBare(AddDocument(r, d, budget), budget)
  {
    hide Size, Fit;
    var r1 := r.(references := r.references + [d.reference]);
    if Size(r1) > budget {
      MarkFits(r, budget);
    } else {
      var room := budget - Size(WithContent(r1, d.reference.id, "")) - 8;
      FitFits(r1, d.reference.id, Prefix(d.text, room), budget);
      var content := Fit(r1, d.reference.id, Prefix(d.text, room), budget);
      MarkFits(if content == "" then r1 else WithContent(r1, d.reference.id, content), budget);
    }
  }

  lemma {:induction false} DocumentsFit(r: Context, docs: seq<Document>, budget: nat)
    requires FitsOrBare(r, budget)
    ensures FitsOrBare(AddDocuments(r, docs, budget), budget)
  {
    hide FitsOrBare, AddDocument;
    if docs != [] {
      DocumentsFit(r, docs[..|docs| - 1], budget);
      DocumentFits(AddDocuments(r, docs[..|docs| - 1], budget), docs[|docs| - 1], budget);
    }
  }

  lemma {:induction false} MemoriesFit(r: Context, memories: seq<Memory>, budget: nat)
    requires FitsOrBare(r, budget)
    ensures FitsOrBare(AddMemories(r, memories, budget), budget)
  {
    hide Size;
    if memories != [] {
      MemoriesFit(r, memories[..|memories| - 1], budget);
      MarkFits(AddMemories(r, memories[..|memories| - 1], budget), budget);
    }
  }

  lemma {:induction false} ShortenFits(r: Context, budget: nat)
    requires FitsOrBare(r, budget) && budget >= 256
    ensures Size(ShortenQuery(r, budget)) <= budget
    ensures var s := ShortenQuery(r, budget);
      s.knowledge == r.knowledge && s.memories == r.memories && s.references == r.references && s.query <= r.query
      && (s.truncated <==> r.truncated || |s.query| < |r.query|)
    decreases |r.query|
  {
    hide Size;
    if Size(r) > budget {
      if r.query == "" {
        assert r == Context("", [], [], [], r.truncated);
        EmptySize(r.truncated);
      } else {
        ShortenFits(r.(query := r.query[..|r.query| / 2], truncated := true), budget);
      }
    }
  }

  /** For every set of documents and memories the serialised context is within the budget. */
  lemma WithinBudget(query: string, docs: seq<Document>, memories: seq<Memory>, budget: nat)
    requires budget >= 256
    ensures Size(Assembled(query, docs, memories, budget)) <= budget
  {
    hide Size, AddDocuments, AddMemories, ShortenQuery;
    DocumentsFit(Start(query), docs, budget);
    var r := AddDocuments(Start(query), docs, budget);
    MemoriesFit(r, memories, budget);
    ShortenFits(AddMemories(r, memories, budget), budget);
  }

  // Contents

  /** An excerpt of one of the documents, whose reference is in the result. */
  predicate Backed(r: Context, docs: seq<Document>, e: Entry) {
    e.content != "" && exists n ::
      0 <= n < |docs| && docs[n].reference in r.references && docs[n].reference.id == e.id && e.content <= docs[n].text
  }

  predicate ReferenceFound(f: Reference, docs: seq<Document>) {
    exists n :: 0 <= n < |docs| && docs[n].reference == f
  }

  predicate References(r: Context, docs: seq<Document>) {
    forall k :: 0 <= k < |r.references| ==> ReferenceFound(r.references[k], docs)
  }

  predicate Sound(r: Context, docs: seq<Document>) {
    References(r, docs) && forall k :: 0 <= k < |r.knowledge| ==> Backed(r, docs, r.knowledge[k])
  }

  lemma SoundNext(r: Context, r1: Context, docs: seq<Document>, d: Document)
    requires Sound(r, docs)
    requires (r1.references == r.references || r1.references == r.references + [d.reference])
    requires r1.knowledge == r.knowledge
      || exists e :: r1.knowledge == r.knowledge + [e] && e.content != "" && e.id == d.reference.id && e.content <= d.text
                     && d.reference in r1.references
    ensures Sound(r1, docs + [d])
  {
    var more := docs + [d];
    assert forall n :: 0 <= n < |docs| ==> more[n] == docs[n];
    assert more[|docs|] == d;
    forall k | 0 <= k < |r1.references|
      ensures ReferenceFound(r1.references[k], more)
    {
      if k < |r.references| {
        assert ReferenceFound(r.references[k], docs);
        var n :| 0 <= n < |docs| && docs[n].reference == r.references[k];
        assert more[n].reference == r1.references[k];
      }
    }
    forall k | 0 <= k < |r1.knowledge|
      ensures Backed(r1, more, r1.knowledge[k])
    {
      if k < |r.knowledge| {
        assert Backed(r, docs, r.knowledge[k]);
        var n :| 0 <= n < |docs| && docs[n].reference in r.references && docs[n].reference.id == r.knowledge[k].id
          && r.knowledge[k].content <= docs[n].text;
        assert more[n].reference in r1.references;
      } else {
        assert more[|docs|].reference in r1.references;
      }
    }
  }

  lemma {:induction false} DocumentsSound(query: string, docs: seq<Document>, budget: nat)
    ensures Sound(AddDocuments(Start(query), docs, budget), docs)
  {
    hide Sound, AddDocument, Start;
    if docs == [] {
      NothingIsSound(query);
    } else {
      var front, d := docs[..|docs| - 1], docs[|docs| - 1];
      DocumentsSound(query, front, budget);
      assert docs == front + [d];
      OneSound(AddDocuments(Start(query), front, budget), front, d, budget);
    }
  }

  lemma OneSound(r: Context, front: seq<Document>, d: Document, budget: nat)
    requires Sound(r, front)
    ensures Sound(AddDocument(r, d, budget), front + [d])
  {
    hide Size, Sound, Fit;
    var r1 := r.(references := r.references + [d.reference]);
    var room := budget - Size(WithContent(r1, d.reference.id, "")) - 8;
    FitFits(r1, d.reference.id, Prefix(d.text, room), budget);
    var content := Fit(r1, d.reference.id, Prefix(d.text, room), budget);
    var e := Entry(d.reference.id, content);
    assert content <= d.text;
    SoundNext(r, AddDocument(r, d, budget), front, d);
  }

  lemma NothingIsSound(query: string)
    ensures Sound(Start(query), [])
  {
  }

  lemma {:induction false} MemoriesOnly(r: Context, memories: seq<Memory>, budget: nat)
    ensures var s := AddMemories(r, memories, budget);
      s.knowledge == r.knowledge && s.references == r.references && s.query == r.query
      && |s.memories| <= |r.memories| + |memories|
      && (s.truncated <==> r.truncated || |s.memories| < |r.memories| + |memories|)
  {
    hide Size;
    if memories != [] {
      MemoriesOnly(r, memories[..|memories| - 1], budget);
    }
  }

  /** Every piece of knowledge is a non-empty prefix of the text of a document whose reference is in the result,
      and every reference names a document that was found. */
  lemma KnowledgeIsReferenced(query: string, docs: seq<Document>, memories: seq<Memory>, budget: nat)
    requires budget >= 256
    ensures Sound(Assembled(query, docs, memories, budget), docs)
  {
    hide Size, AddDocuments, AddMemories, ShortenQuery;
    DocumentsSound(query, docs, budget);
    DocumentsFit(Start(query), docs, budget);
    var r := AddDocuments(Start(query), docs, budget);
    MemoriesFit(r, memories, budget);
    MemoriesOnly(r, memories, budget);
    ShortenFits(AddMemories(r, memories, budget), budget);
    SoundSame(r, Assembled(query, docs, memories, budget), docs);
  }

  lemma SoundSame(r: Context, s: Context, docs: seq<Document>)
    requires Sound(r, docs) && s.knowledge == r.knowledge && s.references == r.references
    ensures Sound(s, docs)
  {
  }

  // What `truncated` says

  function Chars(knowledge: seq<Entry>): nat {
    if knowledge == [] then 0 else Chars(knowledge[..|knowledge| - 1]) + |knowledge[|knowledge| - 1].content|
  }

  function TotalChars(docs: seq<Document>): nat {
    if docs == [] then 0 else TotalChars(docs[..|docs| - 1]) + docs[|docs| - 1].chars
  }

  lemma CharsSnoc(knowledge: seq<Entry>, e: Entry)
    ensures Chars(knowledge + [e]) == Chars(knowledge) + |e.content|
  {
  }

  lemma {:induction false} DocumentsTruncated(query: string, docs: seq<Document>, budget: nat)
    requires forall n :: 0 <= n < |docs| ==> 1 <= |docs[n].text| <= docs[n].chars
    ensures var r := AddDocuments(Start(query), docs, budget);
      && r.query == Prefix(query, 256) && r.memories == [] && Chars(r.knowledge) <= TotalChars(docs)
      && (r.truncated <==> Chars(r.knowledge) < TotalChars(docs))
  {
    hide AddDocument;
    if docs != [] {
      DocumentsTruncated(query, docs[..|docs| - 1], budget);
      DocumentTruncates(AddDocuments(Start(query), docs[..|docs| - 1], budget), docs[|docs| - 1], budget);
    }
  }

  lemma DocumentTruncates(r: Context, d: Document, budget: nat)
    requires 1 <= |d.text| <= d.chars
    ensures var r1 := AddDocument(r, d, budget);
      && r1.query == r.query && r1.memories == r.memories && Chars(r1.knowledge) <= Chars(r.knowledge) + d.chars
      && (r1.truncated <==> r.truncated || Chars(r1.knowledge) < Chars(r.knowledge) + d.chars)
  {
    hide Size, Fit;
    var r1 := r.(references := r.references + [d.reference]);
    var room := budget - Size(WithContent(r1, d.reference.id, "")) - 8;
    FitFits(r1, d.reference.id, Prefix(d.text, room), budget);
    var content := Fit(r1, d.reference.id, Prefix(d.text, room), budget);
    CharsSnoc(r.knowledge, Entry(d.reference.id, content));
    hide Chars;
  }

  /** The result says it is truncated exactly when something is missing from it: characters of a document, a
      memory, or part of the query's first 256 characters. */
  lemma TruncatedExactly(query: string, docs: seq<Document>, memories: seq<Memory>, budget: nat)
    requires budget >= 256 && forall n :: 0 <= n < |docs| ==> 1 <= |docs[n].text| <= docs[n].chars
    ensures var r := Assembled(query, docs, memories, budget);
      r.truncated <==>
        Chars(r.knowledge) < TotalChars(docs) || |r.memories| < |memories| || |r.query| < |Prefix(query, 256)|
  {
    hide Size, AddDocuments, AddMemories, ShortenQuery;
    DocumentsTruncated(query, docs, budget);
    DocumentsFit(Start(query), docs, budget);
    var r := AddDocuments(Start(query), docs, budget);
    MemoriesFit(r, memories, budget);
    MemoriesOnly(r, memories, budget);
    ShortenFits(AddMemories(r, memories, budget), budget);
  }
}

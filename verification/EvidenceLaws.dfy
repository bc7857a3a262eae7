/** What any query of the evidence and of the memories can see, and what later writes can change of it. */
module EvidenceLaws {
  import opened Core
  import opened Evidence

  // Revisions

  /** Revisions of each series count 1, 2, 3, ... in the order of the table. */
  predicate Numbered(docs: seq<Doc>) {
    docs == [] ||
    (Numbered(docs[..|docs| - 1])
     && docs[|docs| - 1].revision == Versions(docs[..|docs| - 1], docs[|docs| - 1].series) + 1)
  }

  lemma {:induction false} NumberedBounds(docs: seq<Doc>, n: nat)
    requires Numbered(docs) && n < |docs|
    ensures 1 <= docs[n].revision <= Versions(docs, docs[n].series)
  {
    if n < |docs| - 1 {
      NumberedBounds(docs[..|docs| - 1], n);
    }
  }

  lemma {:induction false} RevisionsIncrease(docs: seq<Doc>, m: nat, n: nat)
    requires Numbered(docs) && m < n < |docs| && docs[m].series == docs[n].series
    ensures docs[m].revision < docs[n].revision
  {
    if n < |docs| - 1 {
      RevisionsIncrease(docs[..|docs| - 1], m, n);
    } else {
      NumberedBounds(docs[..|docs| - 1], m);
    }
  }

  lemma {:induction false} LatestIs(docs: seq<Doc>, s: Series)
    requires Numbered(docs)
    ensures match Latest(docs, s)
      case None => Versions(docs, s) == 0
      case Some(d) => d in docs && d.series == s && d.revision == Versions(docs, s)
  {
    if docs != [] {
      LatestIs(docs[..|docs| - 1], s);
    }
  }

  /** An ingest changes nothing or appends the next revision of its series. */
  lemma IngestInv(docs: seq<Doc>, uuid: Id, q: Submission, now: real)
    requires Numbered(docs) && Ingest(docs, uuid, q, now).Ok?
    ensures var (docs1, d) := Ingest(docs, uuid, q, now).value;
      && Numbered(docs1) && d in docs1 && d.series == q.series && d.content == q.content
      && (docs1 == docs
          || (docs1 == docs + [d] && d !in docs && d == NewDoc(uuid, q, Versions(docs, q.series) + 1, now)))
  {
    LatestIs(docs, q.series);
    var (docs1, d) := Ingest(docs, uuid, q, now).value;
    if docs1 != docs {
      assert docs1[..|docs1| - 1] == docs;
    }
  }

  // Queries

  /** The highest eligible revision of its series. */
  predicate Top(docs: seq<Doc>, d: Doc, moment: real, known: Option<real>) {
    && d in docs && Eligible(d, moment, known)
    && forall n :: 0 <= n < |docs| && docs[n].series == d.series && Eligible(docs[n], moment, known) ==>
         docs[n].revision <= d.revision
  }

  lemma TopUnique(docs: seq<Doc>, a: Doc, b: Doc, moment: real, known: Option<real>)
    requires Numbered(docs) && Top(docs, a, moment, known) && Top(docs, b, moment, known) && a.series == b.series
    ensures a == b
  {
    var m :| 0 <= m < |docs| && docs[m] == a;
    var n :| 0 <= n < |docs| && docs[n] == b;
    if m < n {
      RevisionsIncrease(docs, m, n);
    } else if n < m {
      RevisionsIncrease(docs, n, m);
    }
  }

  /** A query sees the highest eligible revision of a series unless that one has expired: at most one revision
      of each series, none that an eligible one replaced, and none that was not yet available or observed. */
  lemma SeenIsTop(docs: seq<Doc>, d: Doc, moment: real, known: Option<real>)
    requires Numbered(docs)
    ensures d in Seen(docs, moment, known) <==> Top(docs, d, moment, known) && !Expired(d, moment)
    ensures d in Seen(docs, moment, known) ==>
      d.available <= moment && d.validFrom <= moment && (known.Some? ==> d.observed <= known.value)
    ensures forall o :: d in Seen(docs, moment, known) && o in Seen(docs, moment, known) && o.series == d.series ==> o == d
  {
    forall o | d in Seen(docs, moment, known) && o in Seen(docs, moment, known) && o.series == d.series
      ensures o == d
    {
      TopUnique(docs, o, d, moment, known);
    }
  }

  /** When the highest eligible revision has expired, the series shows nothing. */
  lemma ExpiryRevivesNothing(docs: seq<Doc>, top: Doc, d: Doc, moment: real, known: Option<real>)
    requires Numbered(docs) && Top(docs, top, moment, known) && Expired(top, moment) && d.series == top.series
    ensures d !in Seen(docs, moment, known)
  {
    if d in Seen(docs, moment, known) {
      TopUnique(docs, d, top, moment, known);
    }
  }

  // Later ingests

  /** What appending a document does to a view. */
  function SeenWith(docs: seq<Doc>, d: Doc, moment: real, known: Option<real>): set<Doc> {
    if !Eligible(d, moment, known) then Seen(docs, moment, known)
    else
      (set o | o in Seen(docs, moment, known) && o.series != d.series)
      + if Expired(d, moment) then {} else {d}
  }

  lemma AppendedView(docs: seq<Doc>, d: Doc, moment: real, known: Option<real>)
    requires Numbered(docs + [d]) && d !in docs
    ensures Seen(docs + [d], moment, known) == SeenWith(docs, d, moment, known)
  {
    var docs1 := docs + [d];
    assert docs1[..|docs|] == docs && docs1[|docs|] == d;
    forall n | 0 <= n < |docs| && docs[n].series == d.series
      ensures docs[n].revision < d.revision
    {
      NumberedBounds(docs, n);
    }
    hide Eligible, Numbered;
    forall o
      ensures o in Seen(docs1, moment, known) <==> o in SeenWith(docs, d, moment, known)
    {
      if o in docs {
        AppendedDoc(docs, d, o, moment, known);
      }
    }
  }

  lemma AppendedDoc(docs: seq<Doc>, d: Doc, o: Doc, moment: real, known: Option<real>)
    requires o in docs && forall n :: 0 <= n < |docs| && docs[n].series == d.series ==> docs[n].revision < d.revision
    ensures Visible(docs + [d], o, moment, known)
      <==> Visible(docs, o, moment, known) && !(o.series == d.series && Eligible(d, moment, known))
  {
    hide Eligible, Expired;
    var docs1 := docs + [d];
    assert forall n :: 0 <= n < |docs| ==> docs1[n] == docs[n];
    assert docs1[|docs|] == d;
    assert o.series == d.series ==> o.revision < d.revision;
  }

  /** A view is unchanged by a new document exactly when the document is not eligible in it, or is eligible but
      expired and replaces nothing that was seen. A past `known_at` rules a document out only when its stamp is
      later. */
  lemma ViewKeptExactly(docs: seq<Doc>, uuid: Id, q: Submission, now: real, moment: real, known: Option<real>)
    requires Numbered(docs) && Ingest(docs, uuid, q, now).Ok? && Ingest(docs, uuid, q, now).value.0 != docs
    ensures var (docs1, d) := Ingest(docs, uuid, q, now).value;
      Seen(docs1, moment, known) == Seen(docs, moment, known)
      <==> || (known.Some? && known.value < now) || moment < Or(q.validFrom, now) || moment < Or(q.available, now)
           || (q.validUntil.Some? && q.validUntil.value <= moment
               && forall o :: o in Seen(docs, moment, known) ==> o.series != q.series)
  {
    IngestInv(docs, uuid, q, now);
    var (docs1, d) := Ingest(docs, uuid, q, now).value;
    AppendedView(docs, d, moment, known);
    hide Ingest, Visible, Numbered;
    assert d !in Seen(docs, moment, known);
    if Eligible(d, moment, known) && !Expired(d, moment) {
      assert d in SeenWith(docs, d, moment, known);
    }
  }

  datatype Write = Write(uuid: Id, q: Submission, now: real)

  function Written(docs: seq<Doc>, w: Write): seq<Doc> {
    match Ingest(docs, w.uuid, w.q, w.now)
    case Ok((docs1, _)) => docs1
    case Err(_) => docs
  }

  function WrittenAll(docs: seq<Doc>, ws: seq<Write>): seq<Doc> {
    if ws == [] then docs else Written(WrittenAll(docs, ws[..|ws| - 1]), ws[|ws| - 1])
  }

  /** A view with a past `known_at` is unchanged by any number of ingests stamped after it. */
  lemma {:induction false} PastViewUnchanged(docs: seq<Doc>, ws: seq<Write>, moment: real, known: real)
    requires Numbered(docs) && forall n :: 0 <= n < |ws| ==> known < ws[n].now
    ensures Numbered(WrittenAll(docs, ws)) && docs <= WrittenAll(docs, ws)
    ensures Seen(WrittenAll(docs, ws), moment, Some(known)) == Seen(docs, moment, Some(known))
  {
    hide Ingest, Seen, Numbered;
    if ws != [] {
      var front, w := ws[..|ws| - 1], ws[|ws| - 1];
      PastViewUnchanged(docs, front, moment, known);
      var docs0 := WrittenAll(docs, front);
      if Ingest(docs0, w.uuid, w.q, w.now).Ok? {
        IngestInv(docs0, w.uuid, w.q, w.now);
        if Written(docs0, w) != docs0 {
          ViewKeptExactly(docs0, w.uuid, w.q, w.now, moment, Some(known));
        }
      }
    }
  }

  /** An ingest that read its clock before a view was taken, and commits after it, changes that view. */
  lemma LateCommitChangesPastView()
    ensures exists docs, uuid, q, stamp, known, moment ::
      && Numbered(docs) && Ingest(docs, uuid, q, stamp).Ok? && stamp <= known <= moment
      && Seen(Ingest(docs, uuid, q, stamp).value.0, moment, Some(known)) != Seen(docs, moment, Some(known))
  {
    var q := Submission(Series(1, 1), "x", None, None, None, None, None);
    var docs: seq<Doc> := [];
    assert Ingest(docs, 1, q, 10.0).Ok? && Ingest(docs, 1, q, 10.0).value.0 != docs;
    ViewKeptExactly(docs, 1, q, 10.0, 20.0, Some(15.0));
  }

  /** Without a provenance a document is never seen at a time before it was ingested, whatever validity it
      claims. */
  lemma NoBackdatingWithoutProvenance(docs: seq<Doc>, uuid: Id, q: Submission, now: real, moment: real, known: Option<real>)
    requires Numbered(docs) && Ingest(docs, uuid, q, now).Ok? && q.provenance.None? && moment < now
    ensures var docs1 := Ingest(docs, uuid, q, now).value.0;
      Seen(docs1, moment, known) == Seen(docs, moment, known)
  {
    if Ingest(docs, uuid, q, now).value.0 != docs {
      ViewKeptExactly(docs, uuid, q, now, moment, known);
    }
  }

  // Memories

  function Count(versions: seq<Version>, key: Id): nat {
    if versions == [] then 0 else Count(versions[..|versions| - 1], key) + if versions[|versions| - 1].key == key then 1 else 0
  }

  /** The newest version follows the earlier ones of its key in number and in time. */
  predicate Follows(before: seq<Version>, v: Version) {
    && v.revision == Count(before, v.key) + 1
    && var last := LastVersion(before, v.key);
    && (last.Some? ==> last.value.updated <= v.updated && last.value.created == v.created)
    && (last.None? ==> v.created == v.updated)
  }

  predicate Recorded(versions: seq<Version>) {
    versions == [] || (Recorded(versions[..|versions| - 1]) && Follows(versions[..|versions| - 1], versions[|versions| - 1]))
  }

  function RowOf(v: Version): Row {
    Row(v.value, v.scope, v.source, v.created, v.updated, v.expires)
  }

  /** The table of current values holds the last version of every key, and no other key. */
  ghost predicate Current(m: Memories) {
    forall key: Id ::
      (key in m.current <==> LastVersion(m.versions, key).Some?)
      && (key in m.current ==> m.current[key] == RowOf(LastVersion(m.versions, key).value))
  }

  ghost predicate MemoryInv(m: Memories) {
    Recorded(m.versions) && Current(m)
  }

  lemma {:induction false} LastIs(versions: seq<Version>, key: Id)
    requires Recorded(versions)
    ensures match LastVersion(versions, key)
      case None => Count(versions, key) == 0
      case Some(v) => v in versions && v.key == key && v.revision == Count(versions, key)
  {
    if versions != [] {
      LastIs(versions[..|versions| - 1], key);
    }
  }

  lemma LastSnoc(versions: seq<Version>, v: Version, key: Id)
    requires Recorded(versions) && Follows(versions, v)
    ensures Recorded(versions + [v])
    ensures LastVersion(versions + [v], key) == if v.key == key then Some(v) else LastVersion(versions, key)
  {
    assert (versions + [v])[..|versions|] == versions;
    LastIs(versions, key);
  }

  lemma RememberInv(m: Memories, key: Id, value: Id, scope: Scope, ttl: Option<real>, source: Option<Id>, now: real)
    requires MemoryInv(m) && Remember(m, key, value, scope, ttl, source, now).Ok?
    ensures var (m1, v) := Remember(m, key, value, scope, ttl, source, now).value;
      MemoryInv(m1) && m1.versions == m.versions + [v] && v.key == key && v.updated == now && Follows(m.versions, v)
  {
    var (m1, v) := Remember(m, key, value, scope, ttl, source, now).value;
    LastIs(m.versions, key);
    assert Follows(m.versions, v);
    hide Follows, Count;
    forall k: Id
      ensures LastVersion(m1.versions, k) == if k == key then Some(v) else LastVersion(m.versions, k)
      ensures Recorded(m1.versions)
    {
      LastSnoc(m.versions, v, k);
    }
    hide Recorded;
    forall k: Id
      ensures k in m1.current <==> LastVersion(m1.versions, k).Some?
      ensures k in m1.current ==> m1.current[k] == RowOf(LastVersion(m1.versions, k).value)
    {
      assert k in m.current <==> LastVersion(m.versions, k).Some?;
      assert k in m.current ==> m.current[k] == RowOf(LastVersion(m.versions, k).value);
    }
    CreatedKept(m, key, value, scope, ttl, source, now);
  }

  lemma CreatedKept(m: Memories, key: Id, value: Id, scope: Scope, ttl: Option<real>, source: Option<Id>, now: real)
    requires Current(m) && Remember(m, key, value, scope, ttl, source, now).Ok?
    ensures var (m1, v) := Remember(m, key, value, scope, ttl, source, now).value;
      key in m1.current && m1.current[key] == RowOf(v)
  {
  }

  lemma {:induction false} WithoutMembers(versions: seq<Version>, key: Id)
    ensures forall v :: v in Without(versions, key) <==> v in versions && v.key != key
  {
    if versions != [] {
      WithoutMembers(versions[..|versions| - 1], key);
      assert versions == versions[..|versions| - 1] + [versions[|versions| - 1]];
    }
  }

  lemma {:induction false} WithoutOther(versions: seq<Version>, key: Id, other: Id)
    ensures other != key ==>
      Count(Without(versions, key), other) == Count(versions, other)
      && LastVersion(Without(versions, key), other) == LastVersion(versions, other)
    ensures LastVersion(Without(versions, key), key).None?
  {
    if versions != [] {
      var kept, v := Without(versions[..|versions| - 1], key), versions[|versions| - 1];
      WithoutOther(versions[..|versions| - 1], key, other);
      assert (kept + [v])[..|kept|] == kept;
    }
  }

  /** Forgetting a key erases every version of it and keeps the numbering of every other key. */
  lemma {:induction false} WithoutKeeps(versions: seq<Version>, key: Id)
    requires Recorded(versions)
    ensures Recorded(Without(versions, key))
  {
    if versions != [] {
      var front, v := versions[..|versions| - 1], versions[|versions| - 1];
      WithoutKeeps(front, key);
      WithoutOther(front, key, v.key);
      hide Count, LastVersion;
      var kept := Without(front, key);
      assert (kept + [v])[..|kept|] == kept;
    }
  }

  lemma ForgetInv(m: Memories, key: Id)
    requires MemoryInv(m)
    ensures MemoryInv(Forget(m, key))
  {
    WithoutKeeps(m.versions, key);
    WithoutOther(m.versions, key, key);
    hide Recorded;
    forall k: Id
      ensures k in (m.current - {key}) <==> LastVersion(Without(m.versions, key), k).Some?
      ensures k in (m.current - {key}) ==> m.current[k] == RowOf(LastVersion(Without(m.versions, key), k).value)
    {
      if k != key {
        WithoutOther(m.versions, key, k);
        assert k in m.current <==> LastVersion(m.versions, k).Some?;
      }
    }
  }

  /** After `forget` no query, at any time, recalls the key; other keys are recalled as before. */
  lemma ForgetErases(m: Memories, key: Id, v: Version, moment: real, known: Option<real>, scope: Option<Scope>)
    requires MemoryInv(m)
    ensures Recalled(Forget(m, key).versions, v, moment, known, scope)
      <==> v.key != key && Recalled(m.versions, v, moment, known, scope)
  {
    WithoutMembers(m.versions, key);
    var kept := Without(m.versions, key);
    hide MemoryInv, Without;
    if v.key != key {
      assert forall n :: 0 <= n < |kept| ==> kept[n] in m.versions;
      assert forall n :: 0 <= n < |m.versions| && m.versions[n].key == v.key ==> m.versions[n] in kept;
      var cutoff := if known.Some? then Min(moment, known.value) else moment;
      SameNewer(kept, m.versions, v, cutoff);
    }
  }

  /** Some newer version of the same key was recorded by the cutoff. */
  predicate Superseded(versions: seq<Version>, v: Version, cutoff: real) {
    exists n ::
      0 <= n < |versions| && versions[n].key == v.key && versions[n].revision > v.revision && versions[n].updated <= cutoff
  }

  lemma SameNewer(a: seq<Version>, b: seq<Version>, v: Version, cutoff: real)
    requires forall n :: 0 <= n < |a| ==> a[n] in b
    requires forall n :: 0 <= n < |b| && b[n].key == v.key ==> b[n] in a
    ensures Superseded(a, v, cutoff) <==> Superseded(b, v, cutoff)
  {
  }

  lemma {:induction false} VersionBounds(versions: seq<Version>, n: nat)
    requires Recorded(versions) && n < |versions|
    ensures 1 <= versions[n].revision <= Count(versions, versions[n].key)
    ensures LastVersion(versions, versions[n].key).Some?
    ensures versions[n].updated <= LastVersion(versions, versions[n].key).value.updated
  {
    var front := versions[..|versions| - 1];
    LastIs(front, versions[n].key);
    if n < |versions| - 1 {
      VersionBounds(front, n);
    }
  }

  /** What a memory query recalls changes with a later `remember` of the key exactly when the new version was
      recorded by the cutoff: it then takes the place of the earlier one. */
  lemma RecallAfterRemember(
    m: Memories, key: Id, value: Id, scope: Scope, ttl: Option<real>, source: Option<Id>, now: real,
    o: Version, moment: real, known: Option<real>, wanted: Option<Scope>)
    requires MemoryInv(m) && Remember(m, key, value, scope, ttl, source, now).Ok? && o in m.versions
    ensures var (m1, v) := Remember(m, key, value, scope, ttl, source, now).value;
      var cutoff := if known.Some? then Min(moment, known.value) else moment;
      && (Recalled(m1.versions, o, moment, known, wanted)
          <==> Recalled(m.versions, o, moment, known, wanted) && !(o.key == key && now <= cutoff))
      && (Recalled(m1.versions, v, moment, known, wanted)
          <==> now <= cutoff && (v.expires.Some? ==> v.expires.value > moment) && (wanted.Some? ==> scope == wanted.value))
  {
    hide Remember, Follows, Current, LastVersion, Count;
    RememberInv(m, key, value, scope, ttl, source, now);
    var (m1, v) := Remember(m, key, value, scope, ttl, source, now).value;
    NewVersion(m, key, value, scope, ttl, source, now);
    hide Recorded;
    assert m1.versions[|m.versions|] == v;
    assert forall n :: 0 <= n < |m.versions| ==> m1.versions[n] == m.versions[n];
    assert o.key == key ==> o.revision < v.revision;
  }

  lemma NewVersion(m: Memories, key: Id, value: Id, scope: Scope, ttl: Option<real>, source: Option<Id>, now: real)
    requires MemoryInv(m) && Remember(m, key, value, scope, ttl, source, now).Ok?
    ensures var v := Remember(m, key, value, scope, ttl, source, now).value.1;
      v.scope == scope && forall n :: 0 <= n < |m.versions| && m.versions[n].key == key ==> m.versions[n].revision < v.revision
  {
    LastIs(m.versions, key);
    forall n | 0 <= n < |m.versions| && m.versions[n].key == key
      ensures m.versions[n].revision <= Count(m.versions, key) && LastVersion(m.versions, key).Some?
    {
      VersionBounds(m.versions, n);
    }
  }

  datatype Note = Note(key: Id, value: Id, scope: Scope, ttl: Option<real>, source: Option<Id>, now: real)

  function Noted(m: Memories, n: Note): Memories {
    match Remember(m, n.key, n.value, n.scope, n.ttl, n.source, n.now)
    case Ok((m1, _)) => m1
    case Err(_) => m
  }

  function NotedAll(m: Memories, notes: seq<Note>): Memories {
    if notes == [] then m else Noted(NotedAll(m, notes[..|notes| - 1]), notes[|notes| - 1])
  }

  /** A memory query with a past cutoff is unchanged by any number of notes made after it. */
  lemma {:induction false} PastRecallUnchanged(
    m: Memories, notes: seq<Note>, v: Version, moment: real, known: Option<real>, scope: Option<Scope>)
    requires MemoryInv(m)
    requires forall n :: 0 <= n < |notes| ==> (if known.Some? then Min(moment, known.value) else moment) < notes[n].now
    ensures MemoryInv(NotedAll(m, notes))
    ensures Recalled(NotedAll(m, notes).versions, v, moment, known, scope) <==> Recalled(m.versions, v, moment, known, scope)
  {
    hide Remember, Recalled, MemoryInv;
    if notes != [] {
      var front, n := notes[..|notes| - 1], notes[|notes| - 1];
      PastRecallUnchanged(m, front, v, moment, known, scope);
      NoteAfterCutoff(NotedAll(m, front), n, v, moment, known, scope);
    }
  }

  lemma NoteAfterCutoff(m: Memories, n: Note, v: Version, moment: real, known: Option<real>, scope: Option<Scope>)
    requires MemoryInv(m) && (if known.Some? then Min(moment, known.value) else moment) < n.now
    ensures MemoryInv(Noted(m, n))
    ensures Recalled(Noted(m, n).versions, v, moment, known, scope) <==> Recalled(m.versions, v, moment, known, scope)
  {
    if Remember(m, n.key, n.value, n.scope, n.ttl, n.source, n.now).Ok? {
      RememberInv(m, n.key, n.value, n.scope, n.ttl, n.source, n.now);
      var (m1, v1) := Remember(m, n.key, n.value, n.scope, n.ttl, n.source, n.now).value;
      hide Remember, MemoryInv;
      if v in m.versions {
        RecallAfterRemember(m, n.key, n.value, n.scope, n.ttl, n.source, n.now, v, moment, known, scope);
      }
    }
  }

  /** At most one version of each key is recalled: the last one recorded by the cutoff. */
  lemma OneRecalled(versions: seq<Version>, v: Version, n: nat, moment: real, known: Option<real>, scope: Option<Scope>)
    requires Recorded(versions) && Recalled(versions, v, moment, known, scope) && n < |versions| && versions[n].key == v.key
    ensures var cutoff := if known.Some? then Min(moment, known.value) else moment;
      versions[n].updated <= cutoff ==> versions[n].revision <= v.revision
    ensures Recalled(versions, versions[n], moment, known, scope) ==> versions[n] == v
  {
    var m :| 0 <= m < |versions| && versions[m] == v;
    if m < n {
      VersionsIncrease(versions, m, n);
    } else if n < m {
      VersionsIncrease(versions, n, m);
    }
  }

  lemma {:induction false} VersionsIncrease(versions: seq<Version>, m: nat, n: nat)
    requires Recorded(versions) && m < n < |versions| && versions[m].key == versions[n].key
    ensures versions[m].revision < versions[n].revision && versions[m].updated <= versions[n].updated
    ensures versions[m].created == versions[n].created
  {
    var front := versions[..|versions| - 1];
    if n < |versions| - 1 {
      VersionsIncrease(front, m, n);
    } else {
      VersionBounds(front, m);
      LastIs(front, versions[n].key);
      var last := LastVersion(front, versions[n].key).value;
      var k :| 0 <= k < |front| && front[k] == last;
      if k < m {
        VersionsIncrease(front, k, m);
      } else if m < k {
        VersionsIncrease(front, m, k);
      }
    }
  }
}

/** Which documents and memories are stored, and which are shown, told by their fields. */
module EvidenceRules {
  import opened Core
  import opened Evidence
  import opened EvidenceLaws

  // Documents

  /** Row n is the last of its series. */
  predicate LastRow(docs: seq<Doc>, s: Series, n: int) {
    0 <= n < |docs| && docs[n].series == s && forall m :: n < m < |docs| ==> docs[m].series != s
  }

  lemma {:induction false} LatestIsLastRow(docs: seq<Doc>, s: Series)
    requires Numbered(docs)
    ensures Latest(docs, s).None? <==> forall n :: 0 <= n < |docs| ==> docs[n].series != s
    ensures forall n :: LastRow(docs, s, n) ==> Latest(docs, s) == Some(docs[n])
  {
    LatestIs(docs, s);
    forall n | 0 <= n < |docs| && docs[n].series == s
      ensures Latest(docs, s).Some?
      ensures LastRow(docs, s, n) ==> Latest(docs, s) == Some(docs[n])
    {
      NumberedBounds(docs, n);
      assert Latest(docs, s).Some?;
      var m :| 0 <= m < |docs| && docs[m] == Latest(docs, s).value;
      if LastRow(docs, s, n) && m < n {
        RevisionsIncrease(docs, m, n);
      }
    }
  }

  /** The submission says nothing that row d does not say; times it leaves open are not compared. */
  predicate SaidAlready(d: Doc, q: Submission) {
    && d.content == q.content && (q.validFrom == None || q.validFrom == Some(d.validFrom))
    && d.validUntil == q.validUntil && (q.available == None || q.available == Some(d.available))
    && d.published == q.published && d.provenance == q.provenance
  }

  /** At most a million characters; a validity that ends after it begins; an availability in the past only with a
      provenance; and a publication no later than the availability. */
  predicate InOrder(q: Submission, now: real) {
    && 1 <= |q.content| <= 1000000
    && (q.validUntil.Some? ==> q.validUntil.value > if q.validFrom.Some? then q.validFrom.value else now)
    && (q.available.Some? && q.provenance.None? ==> q.available.value >= now)
    && (q.published.Some? ==> q.published.value <= if q.available.Some? then q.available.value else now)
  }

  /** The row stored for a submission: what it says, with the clock for the times it leaves open. */
  predicate Stores(d: Doc, q: Submission, now: real) {
    && d.series == q.series && d.content == q.content && d.validUntil == q.validUntil && d.published == q.published
    && d.provenance == q.provenance && d.createdAt == now && d.observed == now
    && Some(d.validFrom) == (if q.validFrom.Some? then q.validFrom else Some(now))
    && Some(d.available) == (if q.available.Some? then q.available else Some(now))
  }

  predicate IdTaken(docs: seq<Doc>, id: Id) {
    exists n :: 0 <= n < |docs| && docs[n].id == id
  }

  /** A submission in order is answered by the last row of its series when that says the same, and becomes the next
      revision otherwise; nothing else is stored. */
  lemma IngestedExactly(docs: seq<Doc>, uuid: Id, q: Submission, now: real, n: int)
    requires Numbered(docs) && (LastRow(docs, q.series, n) || (n == -1 && forall m :: 0 <= m < |docs| ==> docs[m].series != q.series))
    ensures var repeated := n >= 0 && SaidAlready(docs[n], q);
      && (Ingest(docs, uuid, q, now).Ok? <==> InOrder(q, now) && (repeated || !IdTaken(docs, uuid)))
      && (InOrder(q, now) && repeated ==> Ingest(docs, uuid, q, now) == Ok((docs, docs[n])))
      && (InOrder(q, now) && !repeated && !IdTaken(docs, uuid) ==>
            var (docs1, d) := Ingest(docs, uuid, q, now).value;
            docs1 == docs + [d] && Stores(d, q, now) && d.id == uuid && d.revision == if n < 0 then 1 else docs[n].revision + 1)
  {
    LatestIsLastRow(docs, q.series);
    hide Latest, Numbered;
  }

  /** Known by the cutoff: begun and available by the moment, and observed by the time that is asked about. */
  predicate KnownBy(d: Doc, moment: real, known: Option<real>) {
    moment >= d.validFrom && moment >= d.available && (known == None || known.value >= d.observed)
  }

  /** A query shows a row exactly when it was known by the cutoff, has not run out at the moment, and is the newest of
      its series that was known: every later row was not. */
  lemma ShownExactly(docs: seq<Doc>, n: nat, moment: real, known: Option<real>)
    requires Numbered(docs) && n < |docs|
    ensures docs[n] in Seen(docs, moment, known) <==>
      && KnownBy(docs[n], moment, known) && (docs[n].validUntil == None || moment < docs[n].validUntil.value)
      && forall m :: n < m < |docs| && docs[m].series == docs[n].series ==> !KnownBy(docs[m], moment, known)
  {
    forall m | 0 <= m < |docs| && docs[m].series == docs[n].series
      ensures docs[m].revision > docs[n].revision <==> m > n
    {
      if m > n {
        RevisionsIncrease(docs, n, m);
      } else if m < n {
        RevisionsIncrease(docs, m, n);
      }
    }
    hide Numbered;
  }

  // Memories

  /** A value is remembered exactly when its time to live is not negative and the clock has not gone back behind the last
      version of the key; the new version says what was asked for and runs out after that time. */
  lemma RememberedExactly(
    m: Memories, key: Id, value: Id, scope: Scope, ttl: Option<real>, source: Option<Id>, now: real, n: int)
    requires MemoryInv(m)
    requires || (0 <= n < |m.versions| && m.versions[n].key == key
                 && forall k :: n < k < |m.versions| ==> m.versions[k].key != key)
             || (n == -1 && forall k :: 0 <= k < |m.versions| ==> m.versions[k].key != key)
    ensures Remember(m, key, value, scope, ttl, source, now).Ok? <==>
      (ttl.Some? ==> ttl.value >= 0.0) && (n >= 0 ==> m.versions[n].updated <= now)
    ensures Remember(m, key, value, scope, ttl, source, now).Ok? ==>
      var (m1, v) := Remember(m, key, value, scope, ttl, source, now).value;
      && m1.versions == m.versions + [v] && m1.current.Keys == m.current.Keys + {key} && m1.current[key] == RowOf(v)
      && (forall other :: other in m.current && other != key ==> m1.current[other] == m.current[other])
      && v.key == key && v.value == value && v.scope == scope && v.source == source && v.updated == now
      && v.expires == (if ttl.Some? then Some(now + ttl.value) else None)
      && (n < 0 ==> v.created == now && v.revision == 1)
      && (n >= 0 ==> v.created == m.versions[n].created && v.revision == m.versions[n].revision + 1)
  {
    LastIsLatest(m.versions, key, n);
    hide LastVersion, Recorded, Count;
    if Remember(m, key, value, scope, ttl, source, now).Ok? {
      CreatedKept(m, key, value, scope, ttl, source, now);
    }
  }

  lemma {:induction false} LastIsLatest(versions: seq<Version>, key: Id, n: int)
    requires Recorded(versions)
    requires || (0 <= n < |versions| && versions[n].key == key && forall k :: n < k < |versions| ==> versions[k].key != key)
             || (n == -1 && forall k :: 0 <= k < |versions| ==> versions[k].key != key)
    ensures LastVersion(versions, key) == if n < 0 then None else Some(versions[n])
  {
    if versions != [] {
      var front := versions[..|versions| - 1];
      if n == |front| {
        LastIs(front, key);
      } else {
        LastIsLatest(front, key, n);
      }
    }
  }

  lemma {:induction false} VersionsIncrease(versions: seq<Version>, m: nat, n: nat)
    requires Recorded(versions) && m < n < |versions| && versions[m].key == versions[n].key
    ensures versions[m].revision < versions[n].revision
  {
    if n < |versions| - 1 {
      VersionsIncrease(versions[..|versions| - 1], m, n);
    } else {
      VersionBounds(versions[..|versions| - 1], m);
    }
  }

  /** A version is recalled exactly when it was recorded by the moment and by the time that is asked about, has not run out
      at the moment, has the scope that is asked for, and every later version of its key was recorded after either. */
  lemma RecalledExactly(m: Memories, n: nat, moment: real, known: Option<real>, scope: Option<Scope>)
    requires MemoryInv(m) && n < |m.versions|
    ensures var v, recorded := m.versions[n], (t: real) => t <= moment && (known.Some? ==> t <= known.value);
      Recalled(m.versions, v, moment, known, scope) <==>
        && recorded(v.updated) && (v.expires.Some? ==> moment < v.expires.value) && (scope == None || scope == Some(v.scope))
        && forall k :: n < k < |m.versions| && m.versions[k].key == v.key ==> !recorded(m.versions[k].updated)
  {
    forall k | 0 <= k < |m.versions| && m.versions[k].key == m.versions[n].key
      ensures m.versions[k].revision > m.versions[n].revision <==> k > n
    {
      if k > n {
        VersionsIncrease(m.versions, n, k);
      } else if k < n {
        VersionsIncrease(m.versions, k, n);
      }
    }
    hide MemoryInv;
  }
}

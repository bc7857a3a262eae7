/** The versioned evidence of one tenant, as values. */
module Evidence {
  import opened Core

  type Id = nat

  datatype Series = Series(source: Id, kind: Id)

  datatype Doc = Doc(
    id: Id, series: Series, content: string, createdAt: real, validFrom: real, validUntil: Option<real>,
    revision: nat, available: real, observed: real, published: Option<real>, provenance: Option<Id>)

  datatype Submission = Submission(
    series: Series, content: string, validFrom: Option<real>, validUntil: Option<real>, available: Option<real>,
    published: Option<real>, provenance: Option<Id>)

  datatype EvidenceError = BadContent | EmptyValidity | UnexplainedBackfill | PublishedAfterAvailable | Collision

  const MAX_DOCUMENT_CHARS := 1000000

  /** How many revisions of a series there are. */
  function Versions(docs: seq<Doc>, s: Series): nat {
    if docs == [] then 0 else Versions(docs[..|docs| - 1], s) + if docs[|docs| - 1].series == s then 1 else 0
  }

  /** ORDER BY revision DESC LIMIT 1. */
  function Latest(docs: seq<Doc>, s: Series): Option<Doc> {
    if docs == [] then None
    else
      var rest, last := Latest(docs[..|docs| - 1], s), docs[|docs| - 1];
      if last.series == s && (rest.None? || last.revision > rest.value.revision) then Some(last) else rest
  }

  function Or(x: Option<real>, default_: real): real {
    if x.Some? then x.value else default_
  }

  /** `ingest` finds the same document already there. */
  predicate Repeats(latest: Option<Doc>, q: Submission) {
    && latest.Some? && latest.value.content == q.content
    && (q.validFrom.Some? ==> latest.value.validFrom == q.validFrom.value)
    && latest.value.validUntil == q.validUntil
    && (q.available.Some? ==> latest.value.available == q.available.value)
    && latest.value.published == q.published && latest.value.provenance == q.provenance
  }

  function Refused(q: Submission, now: real): Option<EvidenceError> {
    if !(1 <= |q.content| <= MAX_DOCUMENT_CHARS) then Some(BadContent)
    else if q.validUntil.Some? && q.validUntil.value <= Or(q.validFrom, now) then Some(EmptyValidity)
    else if Or(q.available, now) < now && q.provenance.None? then Some(UnexplainedBackfill)
    else if q.published.Some? && q.published.value > Or(q.available, now) then Some(PublishedAfterAvailable)
    else None
  }

  function NewDoc(uuid: Id, q: Submission, revision: nat, now: real): Doc {
    Doc(uuid, q.series, q.content, now, Or(q.validFrom, now), q.validUntil, revision, Or(q.available, now), now,
        q.published, q.provenance)
  }

  /** `ingest`: `now` is read before the transaction begins; `uuid` is the identifier drawn. */
  function Ingest(docs: seq<Doc>, uuid: Id, q: Submission, now: real): Result<(seq<Doc>, Doc), EvidenceError> {
    if Refused(q, now).Some? then Err(Refused(q, now).value)
    else
      var latest := Latest(docs, q.series);
      if Repeats(latest, q) then Ok((docs, latest.value))
      else if exists n :: 0 <= n < |docs| && docs[n].id == uuid then Err(Collision)
      else
        var d := NewDoc(uuid, q, if latest.Some? then latest.value.revision + 1 else 1, now);
        Ok((docs + [d], d))
  }

  // What a query can see

  /** Begun, available, and observed by the cutoff. */
  predicate Eligible(d: Doc, moment: real, known: Option<real>) {
    d.validFrom <= moment && d.available <= moment && (known.Some? ==> d.observed <= known.value)
  }

  predicate Expired(d: Doc, moment: real) {
    d.validUntil.Some? && d.validUntil.value <= moment
  }

  /** `_visible`. */
  predicate Visible(docs: seq<Doc>, d: Doc, moment: real, known: Option<real>) {
    && d in docs && Eligible(d, moment, known) && !Expired(d, moment)
    && !exists n ::
         0 <= n < |docs| && docs[n].series == d.series && docs[n].revision > d.revision && Eligible(docs[n], moment, known)
  }

  function Seen(docs: seq<Doc>, moment: real, known: Option<real>): set<Doc> {
    set d | d in docs && Visible(docs, d, moment, known)
  }

  // The store

  class ContextStore {
    var docs: seq<Doc>
    var versions: seq<Version>
    var current: map<Id, Row>

    ghost function Memory(): Memories
      reads this
    {
      Memories(versions, current)
    }

    constructor ()
      ensures docs == [] && Memory() == Memories([], map[])
    {
      docs, versions, current := [], [], map[];
    }

    method LatestOf(s: Series) returns (latest: Option<Doc>)
      ensures latest == Latest(docs, s)
    {
      latest := None;
      for n := 0 to |docs|
        invariant latest == Latest(docs[..n], s)
      {
        assert docs[..n + 1][..n] == docs[..n];
        if docs[n].series == s && (latest.None? || docs[n].revision > latest.value.revision) {
          latest := Some(docs[n]);
        }
      }
      assert docs[..|docs|] == docs;
    }

    method IngestDocument(uuid: Id, q: Submission, now: real) returns (r: Result<Doc, EvidenceError>)
      modifies this`docs
      ensures match Ingest(old(docs), uuid, q, now)
        case Ok((docs1, d)) => docs == docs1 && r == Ok(d)
        case Err(e) => docs == old(docs) && r == Err(e)
    {
      hide Latest, Repeats;
      if !(1 <= |q.content| <= MAX_DOCUMENT_CHARS) {
        return Err(BadContent);
      }
      var start, available := Or(q.validFrom, now), Or(q.available, now);
      if q.validUntil.Some? && q.validUntil.value <= start {
        return Err(EmptyValidity);
      }
      if available < now && q.provenance.None? {
        return Err(UnexplainedBackfill);
      }
      if q.published.Some? && q.published.value > available {
        return Err(PublishedAfterAvailable);
      }
      var latest := LatestOf(q.series);
      if Repeats(latest, q) {
        RepeatsSome(latest, q);
        return Ok(latest.value);
      }
      if exists n :: 0 <= n < |docs| && docs[n].id == uuid {
        return Err(Collision);
      }
      var d := NewDoc(uuid, q, if latest.Some? then latest.value.revision + 1 else 1, now);
      docs := docs + [d];
      return Ok(d);
    }

    /** The candidate rows of `search`, before matching and ranking. */
    method Look(moment: real, known: Option<real>) returns (seen: set<Doc>)
      ensures seen == Seen(docs, moment, known)
    {
      seen := {};
      for n := 0 to |docs|
        invariant seen == set d | d in docs[..n] && Visible(docs, d, moment, known)
      {
        assert docs[..n + 1] == docs[..n] + [docs[n]];
        if Visible(docs, docs[n], moment, known) {
          seen := seen + {docs[n]};
        }
      }
      assert docs[..|docs|] == docs;
    }

    method LastOf(key: Id) returns (last: Option<Version>)
      ensures last == LastVersion(versions, key)
    {
      last := None;
      for n := 0 to |versions|
        invariant last == LastVersion(versions[..n], key)
      {
        assert versions[..n + 1][..n] == versions[..n];
        if versions[n].key == key && (last.None? || versions[n].revision > last.value.revision) {
          last := Some(versions[n]);
        }
      }
      assert versions[..|versions|] == versions;
    }

    method RememberValue(key: Id, value: Id, scope: Scope, ttl: Option<real>, source: Option<Id>, now: real)
      returns (r: Result<Version, MemoryError>)
      modifies this`versions, this`current
      ensures match Remember(old(Memory()), key, value, scope, ttl, source, now)
        case Ok((m1, v)) => Memory() == m1 && r == Ok(v)
        case Err(e) => Memory() == old(Memory()) && r == Err(e)
    {
      hide LastVersion;
      if ttl.Some? && ttl.value < 0.0 {
        return Err(BadTtl);
      }
      var expiry := if ttl.Some? then Some(now + ttl.value) else None;
      var previous := LastOf(key);
      if previous.Some? && previous.value.updated > now {
        return Err(ClockMovedBackwards);
      }
      var revision := if previous.Some? then previous.value.revision + 1 else 1;
      var created := if previous.Some? then previous.value.created else now;
      var v := Version(key, revision, value, scope, source, created, now, expiry);
      versions := versions + [v];
      if key in current {
        current := current[key := current[key].(value := value, scope := scope, source := source, updated := now, expires := expiry)];
      } else {
        current := current[key := Row(value, scope, source, now, now, expiry)];
      }
      return Ok(v);
    }

    /** `forget`; the kept versions are copied in their order. */
    method ForgetKey(key: Id) returns (removed: bool)
      modifies this`versions, this`current
      ensures Memory() == Forget(old(Memory()), key)
      ensures removed <==> key in old(current) || exists n :: 0 <= n < |old(versions)| && old(versions)[n].key == key
    {
      var kept: seq<Version> := [];
      removed := key in current;
      for n := 0 to |versions|
        invariant kept == Without(versions[..n], key)
        invariant removed <==> key in current || exists k :: 0 <= k < n && versions[k].key == key
      {
        assert versions[..n + 1][..n] == versions[..n];
        if versions[n].key == key {
          removed := true;
        } else {
          kept := kept + [versions[n]];
        }
      }
      assert versions[..|versions|] == versions;
      versions, current := kept, current - {key};
    }
  }

  lemma RepeatsSome(latest: Option<Doc>, q: Submission)
    requires Repeats(latest, q)
    ensures latest.Some?
  {
  }

  // Memories

  datatype Scope = Short | Long | OtherScope(name: Id)

  datatype Version = Version(
    key: Id, revision: nat, value: Id, scope: Scope, source: Option<Id>, created: real, updated: real,
    expires: Option<real>)

  /** A row of the table that holds only the current value of each key. */
  datatype Row = Row(value: Id, scope: Scope, source: Option<Id>, created: real, updated: real, expires: Option<real>)

  datatype Memories = Memories(versions: seq<Version>, current: map<Id, Row>)

  datatype MemoryError = BadTtl | ClockMovedBackwards

  function LastVersion(versions: seq<Version>, key: Id): Option<Version> {
    if versions == [] then None
    else
      var rest, last := LastVersion(versions[..|versions| - 1], key), versions[|versions| - 1];
      if last.key == key && (rest.None? || last.revision > rest.value.revision) then Some(last) else rest
  }

  function Remember(m: Memories, key: Id, value: Id, scope: Scope, ttl: Option<real>, source: Option<Id>, now: real)
    : Result<(Memories, Version), MemoryError>
  {
    if ttl.Some? && ttl.value < 0.0 then Err(BadTtl)
    else
      var expiry := if ttl.Some? then Some(now + ttl.value) else None;
      var previous := LastVersion(m.versions, key);
      if previous.Some? && previous.value.updated > now then Err(ClockMovedBackwards)
      else
        var v := Version(key, if previous.Some? then previous.value.revision + 1 else 1, value, scope, source,
                         if previous.Some? then previous.value.created else now, now, expiry);
        var row :=
          if key in m.current then
            m.current[key].(value := value, scope := scope, source := source, updated := now, expires := expiry)
          else Row(value, scope, source, now, now, expiry);
        Ok((Memories(m.versions + [v], m.current[key := row]), v))
  }

  function Without(versions: seq<Version>, key: Id): seq<Version> {
    if versions == [] then []
    else if versions[|versions| - 1].key == key then Without(versions[..|versions| - 1], key)
    else Without(versions[..|versions| - 1], key) + [versions[|versions| - 1]]
  }

  function Forget(m: Memories, key: Id): Memories {
    Memories(Without(m.versions, key), m.current - {key})
  }

  /** `memories` before its row limit: the last version recorded by the cutoff, unless it has expired. */
  predicate Recalled(versions: seq<Version>, v: Version, moment: real, known: Option<real>, scope: Option<Scope>) {
    var cutoff := if known.Some? then Min(moment, known.value) else moment;
    && v in versions && v.updated <= cutoff && (v.expires.Some? ==> v.expires.value > moment)
    && (scope.Some? ==> v.scope == scope.value)
    && !exists n ::
         0 <= n < |versions| && versions[n].key == v.key && versions[n].revision > v.revision && versions[n].updated <= cutoff
  }
}

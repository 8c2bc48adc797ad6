/** The local story cache: a document collection keyed by `userfeedId`,
    searched by `clubhouseId`, and filtered for push and catch-up. The
    collection is a sequence of documents in natural (insertion) order. */
module LocalDb {
  import opened Records

  // ---------------------------------------------------------------------------
  // The collection as a value
  // ---------------------------------------------------------------------------

  /** The index of the first element satisfying `p`, as `findOne` scans a
      collection in natural order. */
  function FirstIndex<T>(s: seq<T>, p: T -> bool): (k: Option<nat>)
    ensures k.Some? ==> k.value < |s| && p(s[k.value])
    ensures k.Some? ==> forall j :: 0 <= j < k.value ==> !p(s[j])
    ensures k.None? <==> forall j :: 0 <= j < |s| ==> !p(s[j])
  {
    if s == [] then None
    else if p(s[0]) then Some(0)
    else match FirstIndex(s[1..], p)
      case None => None
      case Some(k) => Some(k + 1)
  }

  /** The `userfeedId`s stored in a collection. */
  function Ids(docs: seq<Doc>): set<string>
  {
    set d | d in docs :: d.userfeedId
  }

  /** At most one document per `userfeedId`. */
  predicate Unique(docs: seq<Doc>)
  {
    forall i, j :: 0 <= i < j < |docs| ==> docs[i].userfeedId != docs[j].userfeedId
  }

  /** The query filter of findStories: `clubhouseId: {$exists: inClubhouse, $ne: 0}`
      and `userfeedData.status: {$in: pushable}`. An absent `clubhouseId`
      satisfies `$ne: 0`. */
  predicate Eligible(d: Doc, inClubhouse: bool, pushable: seq<string>)
  {
    d.clubhouseId.Some? == inClubhouse
    && d.clubhouseId != Some(0)
    && d.userfeedData.status in pushable
  }

  /** The documents findStories returns, in natural order. */
  function Select(docs: seq<Doc>, inClubhouse: bool, pushable: seq<string>): (r: seq<Doc>)
    ensures forall d :: d in r <==> d in docs && Eligible(d, inClubhouse, pushable)
    ensures |r| <= |docs|
  {
    if docs == [] then []
    else
      var rest := Select(docs[1..], inClubhouse, pushable);
      assert forall d :: d in docs <==> d == docs[0] || d in docs[1..];
      if Eligible(docs[0], inClubhouse, pushable) then [docs[0]] + rest else rest
  }

  /** The document findStory returns: the first one whose `clubhouseId` is `id`. */
  function FindStoryIn(docs: seq<Doc>, id: int): (r: Option<Doc>)
  {
    match FirstIndex(docs, (d: Doc) => d.clubhouseId == Some(id))
    case None => None
    case Some(k) => Some(docs[k])
  }

  /** `$set: incoming` on a stored document: each field present in the incoming
      record overwrites the stored one, and an absent field keeps its stored
      value. */
  function Merge(stored: Doc, incoming: Doc): Doc
  {
    Doc(
      incoming.userfeedId,
      incoming.userfeedData,
      if incoming.clubhouseId.Some? then incoming.clubhouseId else stored.clubhouseId,
      if incoming.clubhouseData.Some? then incoming.clubhouseData else stored.clubhouseData)
  }

  /** The index of the document an upsert of a record with this `userfeedId`
      matches. */
  function Slot(docs: seq<Doc>, userfeedId: string): Option<nat>
  {
    FirstIndex(docs, (d: Doc) => d.userfeedId == userfeedId)
  }

  /** `findOneAndUpdate({userfeedId}, {$set: record}, {upsert: true})`. */
  function UpsertOne(docs: seq<Doc>, r: Doc): seq<Doc>
  {
    match Slot(docs, r.userfeedId)
    case Some(k) => docs[k := Merge(docs[k], r)]
    case None => docs + [r]
  }

  /** updateAndCreateStoriesLocal: one upsert per record, in list order. */
  function UpsertAll(docs: seq<Doc>, rs: seq<Doc>): seq<Doc>
  {
    if rs == [] then docs else UpsertOne(UpsertAll(docs, rs[..|rs| - 1]), rs[|rs| - 1])
  }

  /** A record as seedDb marks it: `clubhouseId = 0`. */
  function SeedMark(d: Doc): (m: Doc)
  {
    d.(clubhouseId := Some(0))
  }

  /** The marks of seedDb, record by record. */
  function SeedMarks(ds: seq<Doc>): (ms: seq<Doc>)
    ensures |ms| == |ds|
    ensures forall i :: 0 <= i < |ds| ==> ms[i] == SeedMark(ds[i])
  {
    if ds == [] then [] else SeedMarks(ds[..|ds| - 1]) + [SeedMark(ds[|ds| - 1])]
  }

  // ---------------------------------------------------------------------------
  // Properties of the collection operations
  // ---------------------------------------------------------------------------

  lemma IdsOf(docs: seq<Doc>, k: nat)
    requires k < |docs|
    ensures docs[k].userfeedId in Ids(docs)
  {
  }

  /** The document findStory returns carries the requested id, and it returns
      nothing exactly when no document carries it. */
  lemma FindStoryInSpec(docs: seq<Doc>, id: int)
    ensures FindStoryIn(docs, id).Some? ==>
      FindStoryIn(docs, id).value in docs && FindStoryIn(docs, id).value.clubhouseId == Some(id)
    ensures FindStoryIn(docs, id).None? <==> forall d :: d in docs ==> d.clubhouseId != Some(id)
  {
    var p := (d: Doc) => d.clubhouseId == Some(id);
    if FindStoryIn(docs, id).None? {
      forall d | d in docs ensures d.clubhouseId != Some(id) {
        var j :| 0 <= j < |docs| && docs[j] == d;
        assert !p(docs[j]);
      }
    }
  }

  /** A seeded record (`clubhouseId == 0`) is returned by neither findStories
      call, and a `complete` story is never returned when only `planned` and
      `in_progress` are pushable. */
  lemma SelectExcludesSeededAndUnpushable(docs: seq<Doc>, inClubhouse: bool, pushable: seq<string>, d: Doc)
    requires d in Select(docs, inClubhouse, pushable)
    ensures d.clubhouseId != Some(0)
    ensures d.userfeedData.status in pushable
    ensures inClubhouse ==> d.clubhouseId.Some?
    ensures !inClubhouse ==> d.clubhouseId.None?
  {
  }

  /** The upsert matches the first document with the record's `userfeedId`;
      there is one when the id is stored. */
  lemma SlotSpec(docs: seq<Doc>, id: string)
    ensures Slot(docs, id).Some? <==> id in Ids(docs)
    ensures Slot(docs, id).Some? ==>
      Slot(docs, id).value < |docs| && docs[Slot(docs, id).value].userfeedId == id
    ensures Unique(docs) && Slot(docs, id).Some? ==>
      forall j :: 0 <= j < |docs| && docs[j].userfeedId == id ==> j == Slot(docs, id).value
  {
    var p := (d: Doc) => d.userfeedId == id;
    if id in Ids(docs) {
      var d :| d in docs && d.userfeedId == id;
      var j :| 0 <= j < |docs| && docs[j] == d;
      assert p(docs[j]);
    }
    if Slot(docs, id).Some? {
      IdsOf(docs, Slot(docs, id).value);
    }
  }

  /** One upsert: the record's id is stored afterwards, a new document is
      created exactly when the id was not stored, the matched document gets
      `$set` semantics, and every document with another id is untouched. */
  lemma UpsertOneSpec(docs: seq<Doc>, r: Doc)
    ensures r.userfeedId in Ids(docs) ==> |UpsertOne(docs, r)| == |docs|
    ensures r.userfeedId !in Ids(docs) ==> UpsertOne(docs, r) == docs + [r]
    ensures Ids(UpsertOne(docs, r)) == Ids(docs) + {r.userfeedId}
    ensures forall k :: 0 <= k < |docs| && docs[k].userfeedId != r.userfeedId ==>
      UpsertOne(docs, r)[k] == docs[k]
    ensures forall k :: 0 <= k < |docs| && docs[k].userfeedId == r.userfeedId && Unique(docs) ==>
      UpsertOne(docs, r)[k] == Merge(docs[k], r)
  {
    SlotSpec(docs, r.userfeedId);
    var res := UpsertOne(docs, r);
    match Slot(docs, r.userfeedId)
    case None =>
      assert res == docs + [r];
      assert Ids(res) == Ids(docs) + {r.userfeedId} by {
        forall x | x in Ids(res) ensures x in Ids(docs) + {r.userfeedId} {
          var d :| d in res && d.userfeedId == x;
          if d != r { assert d in docs; }
        }
        assert r in res;
      }
    case Some(k) =>
      assert Ids(res) == Ids(docs) + {r.userfeedId} by {
        forall x | x in Ids(res) ensures x in Ids(docs) {
          var d :| d in res && d.userfeedId == x;
          var j :| 0 <= j < |res| && res[j] == d;
          if j == k { IdsOf(docs, k); } else { IdsOf(docs, j); }
        }
        forall x | x in Ids(docs) ensures x in Ids(res) {
          var d :| d in docs && d.userfeedId == x;
          var j :| 0 <= j < |docs| && docs[j] == d;
          IdsOf(res, j);
        }
      }
  }

  /** An upsert keeps the collection free of duplicate `userfeedId`s. */
  lemma UpsertOneKeepsUnique(docs: seq<Doc>, r: Doc)
    requires Unique(docs)
    ensures Unique(UpsertOne(docs, r))
  {
    SlotSpec(docs, r.userfeedId);
    if Slot(docs, r.userfeedId).None? {
      forall j | 0 <= j < |docs| ensures docs[j].userfeedId != r.userfeedId {
        IdsOf(docs, j);
      }
    }
  }

  /** Repeating the same upsert leaves the collection unchanged. */
  lemma UpsertOneIdempotent(docs: seq<Doc>, r: Doc)
    ensures UpsertOne(UpsertOne(docs, r), r) == UpsertOne(docs, r)
  {
    var once := UpsertOne(docs, r);
    SlotSpec(docs, r.userfeedId);
    UpsertOneSpec(docs, r);
    var p := (d: Doc) => d.userfeedId == r.userfeedId;
    match Slot(docs, r.userfeedId)
    case Some(k) =>
      assert Slot(once, r.userfeedId) == Some(k) by {
        assert forall j :: 0 <= j < k ==> once[j] == docs[j];
        assert forall j :: 0 <= j < k ==> !p(once[j]);
        assert p(once[k]);
        FirstIndexAt(once, p, k);
      }
    case None =>
      assert Slot(once, r.userfeedId) == Some(|docs|) by {
        assert forall j :: 0 <= j < |docs| ==> !p(once[j]);
        assert p(once[|docs|]);
        FirstIndexAt(once, p, |docs|);
      }
  }

  /** The first index is determined by where `p` first holds. */
  lemma FirstIndexAt<T>(s: seq<T>, p: T -> bool, k: nat)
    requires k < |s| && p(s[k])
    requires forall j :: 0 <= j < k ==> !p(s[j])
    ensures FirstIndex(s, p) == Some(k)
  {
  }

  /** A batch upsert keeps the collection free of duplicate `userfeedId`s. */
  lemma {:induction false} UpsertAllKeepsUnique(docs: seq<Doc>, rs: seq<Doc>)
    requires Unique(docs)
    ensures Unique(UpsertAll(docs, rs))
  {
    if rs != [] {
      UpsertAllKeepsUnique(docs, rs[..|rs| - 1]);
      UpsertOneKeepsUnique(UpsertAll(docs, rs[..|rs| - 1]), rs[|rs| - 1]);
    }
  }

  /** After a batch upsert every record's id is stored, no stored id is lost,
      and documents only get added at the end: the collection grows by the
      number of ids it did not hold before, so upserting records whose ids are
      all stored creates no document. */
  lemma {:induction false} UpsertAllIds(docs: seq<Doc>, rs: seq<Doc>)
    ensures Ids(UpsertAll(docs, rs)) == Ids(docs) + set r | r in rs :: r.userfeedId
    ensures |UpsertAll(docs, rs)| >= |docs|
    ensures (forall r :: r in rs ==> r.userfeedId in Ids(docs)) ==> |UpsertAll(docs, rs)| == |docs|
  {
    if rs != [] {
      var init := rs[..|rs| - 1];
      var last := rs[|rs| - 1];
      UpsertAllIds(docs, init);
      UpsertOneSpec(UpsertAll(docs, init), last);
      assert forall r :: r in rs <==> r in init || r == last;
      assert (set r | r in rs :: r.userfeedId) == (set r | r in init :: r.userfeedId) + {last.userfeedId};
    }
  }

  /** A batch of records that carry no Clubhouse fields (a feed refresh) keeps
      every stored document's `clubhouseId` and `clubhouseData`: the `$set`
      only replaces the fields the records have. */
  lemma {:induction false} UpsertAllKeepsClubhouseFields(docs: seq<Doc>, rs: seq<Doc>, k: nat)
    requires k < |docs|
    requires forall r :: r in rs ==> r.clubhouseId.None? && r.clubhouseData.None?
    ensures k < |UpsertAll(docs, rs)|
    ensures UpsertAll(docs, rs)[k].clubhouseId == docs[k].clubhouseId
    ensures UpsertAll(docs, rs)[k].clubhouseData == docs[k].clubhouseData
    ensures UpsertAll(docs, rs)[k].userfeedId == docs[k].userfeedId
  {
    if rs != [] {
      var init := rs[..|rs| - 1];
      var last := rs[|rs| - 1];
      UpsertAllKeepsClubhouseFields(docs, init, k);
      var mid := UpsertAll(docs, init);
      assert last in rs;
      SlotSpec(mid, last.userfeedId);
    }
  }

  /** Some stored document has the record's `userfeedId` and its Clubhouse
      fields. */
  predicate Recorded(docs: seq<Doc>, r: Doc)
  {
    exists k :: 0 <= k < |docs| && docs[k].userfeedId == r.userfeedId
      && docs[k].clubhouseId == r.clubhouseId && docs[k].clubhouseData == r.clubhouseData
  }

  /** A batch of records with distinct `userfeedId`s that all carry Clubhouse
      fields (the final upsert of a pipeline run) stores each record's
      Clubhouse id and data under its `userfeedId`: a later upsert of another
      id never touches that document. */
  lemma {:induction false} UpsertAllRecords(docs: seq<Doc>, rs: seq<Doc>)
    requires Unique(rs)
    requires forall i :: 0 <= i < |rs| ==> rs[i].clubhouseId.Some? && rs[i].clubhouseData.Some?
    ensures forall i :: 0 <= i < |rs| ==> Recorded(UpsertAll(docs, rs), rs[i])
  {
    if rs != [] {
      var n := |rs| - 1;
      var init := rs[..n];
      var r := rs[n];
      UpsertAllRecords(docs, init);
      var mid := UpsertAll(docs, init);
      var after := UpsertOne(mid, r);
      UpsertOneSpec(mid, r);
      forall i | 0 <= i < |rs| ensures Recorded(after, rs[i]) {
        if i == n {
          match Slot(mid, r.userfeedId)
          case Some(k) =>
            assert after[k] == Merge(mid[k], r);
          case None =>
            assert after[|mid|] == r;
        } else {
          assert init[i] == rs[i];
          assert Recorded(mid, init[i]);
          var k :| 0 <= k < |mid| && mid[k].userfeedId == rs[i].userfeedId
            && mid[k].clubhouseId == rs[i].clubhouseId && mid[k].clubhouseData == rs[i].clubhouseData;
          assert after[k] == mid[k];
        }
      }
    }
  }

  /** findStories over a duplicate-free collection returns no two documents
      with the same `userfeedId`. */
  lemma {:induction false} SelectKeepsUnique(docs: seq<Doc>, inClubhouse: bool, pushable: seq<string>)
    requires Unique(docs)
    ensures Unique(Select(docs, inClubhouse, pushable))
  {
    if docs != [] {
      var tail := docs[1..];
      assert Unique(tail) by {
        forall i, j | 0 <= i < j < |tail| ensures tail[i].userfeedId != tail[j].userfeedId {
          assert tail[i] == docs[i + 1] && tail[j] == docs[j + 1];
        }
      }
      SelectKeepsUnique(tail, inClubhouse, pushable);
      var rest := Select(tail, inClubhouse, pushable);
      if Eligible(docs[0], inClubhouse, pushable) {
        var r := [docs[0]] + rest;
        forall i, j | 0 <= i < j < |r| ensures r[i].userfeedId != r[j].userfeedId {
          if i == 0 {
            assert r[j] == rest[j - 1] && rest[j - 1] in tail;
            var m :| 0 <= m < |tail| && tail[m] == rest[j - 1];
            assert docs[m + 1] == r[j];
          } else {
            assert r[i] == rest[i - 1] && r[j] == rest[j - 1];
          }
        }
      }
    }
  }

  /** Seeding into a collection whose records are all new and distinct keeps
      the collection free of duplicate ids. */
  lemma SeedKeepsUnique(docs: seq<Doc>, records: seq<Doc>)
    requires Unique(docs) && Unique(records)
    requires forall r :: r in records ==> r.userfeedId !in Ids(docs)
    ensures Unique(docs + SeedMarks(records))
  {
    var all := docs + SeedMarks(records);
    forall i, j | 0 <= i < j < |all| ensures all[i].userfeedId != all[j].userfeedId {
      if j >= |docs| && i < |docs| {
        assert records[j - |docs|] in records;
        IdsOf(docs, i);
      }
    }
  }

  /** The marking loop of seedDb: `clubhouseId = 0` on every record. */
  method MarkSeeded(records: seq<StoryRecord>)
    modifies records
    ensures forall k :: 0 <= k < |records| ==>
      records[k].userfeedId == old(records[k].userfeedId)
      && records[k].userfeedData == old(records[k].userfeedData)
      && records[k].clubhouseData == old(records[k].clubhouseData)
      && records[k].clubhouseId == Some(0)
  {
    var i := 0;
    while i < |records|
      invariant 0 <= i <= |records|
      invariant forall k :: 0 <= k < |records| ==>
        records[k].userfeedId == old(records[k].userfeedId)
        && records[k].userfeedData == old(records[k].userfeedData)
        && records[k].clubhouseData == old(records[k].clubhouseData)
      invariant forall k :: 0 <= k < i ==> records[k].clubhouseId == Some(0)
    {
      records[i].clubhouseId := Some(0);
      i := i + 1;
    }
  }

  /** The marking of seedDb, stated on the records' documents. */
  method MarkAll(records: seq<StoryRecord>)
    modifies records
    ensures Snapshots(records) == SeedMarks(old(Snapshots(records)))
  {
    ghost var before := Snapshots(records);
    MarkSeeded(records);
    FieldsToSeedMarks(records, before);
  }

  /** Story objects whose fields are those of `before` but for a zero
      `clubhouseId` serialise to the seed marks of `before`. */
  lemma FieldsToSeedMarks(records: seq<StoryRecord>, before: seq<Doc>)
    requires |before| == |records|
    requires forall k :: 0 <= k < |records| ==>
      records[k].userfeedId == before[k].userfeedId
      && records[k].userfeedData == before[k].userfeedData
      && records[k].clubhouseData == before[k].clubhouseData
      && records[k].clubhouseId == Some(0)
    ensures Snapshots(records) == SeedMarks(before)
  {
    SeedMarksOf(before, Snapshots(records));
  }

  /** Records that kept everything but `clubhouseId`, which is now 0, are
      the seed marks of what they were. */
  lemma SeedMarksOf(before: seq<Doc>, after: seq<Doc>)
    requires |after| == |before|
    requires forall k :: 0 <= k < |before| ==>
      after[k].userfeedId == before[k].userfeedId && after[k].userfeedData == before[k].userfeedData
      && after[k].clubhouseData == before[k].clubhouseData && after[k].clubhouseId == Some(0)
    ensures after == SeedMarks(before)
  {
  }

  // ---------------------------------------------------------------------------
  // The collection wrapper
  // ---------------------------------------------------------------------------

  /** The localDbUpdater object: the collection's contents (which outlive the
      process) and its connection state. `hasClient` is a non-null `client`,
      `open` a non-null `collection`. */
  class LocalDbUpdater {
    const statusesToPush: seq<string>
    var docs: seq<Doc>
    var hasClient: bool
    var open: bool

    constructor (statusesToPush: seq<string>, stored: seq<Doc>)
      ensures this.statusesToPush == statusesToPush
      ensures docs == stored && !hasClient && !open
    {
      this.statusesToPush := statusesToPush;
      docs := stored;
      hasClient := false;
      open := false;
    }

    /** initDbConnection: a client is created at once; the collection is set
        only when the connection succeeds. */
    method InitDbConnection(connects: bool)
      modifies this`hasClient, this`open
      ensures hasClient
      ensures open == (old(open) || connects)
    {
      hasClient := true;
      if connects {
        open := true;
      }
    }

    /** closeDbConnection: throws (and changes nothing) when there is no
        client; otherwise clears client and collection. */
    method CloseDbConnection() returns (ok: bool)
      modifies this`hasClient, this`open
      ensures ok == old(hasClient)
      ensures ok ==> !hasClient && !open
      ensures !ok ==> hasClient == old(hasClient) && open == old(open)
    {
      ok := hasClient;
      if ok {
        hasClient := false;
        open := false;
      }
    }

    /** seedDb: marks every record with `clubhouseId = 0`, then inserts them
        all. */
    method SeedDb(records: seq<StoryRecord>)
      requires open
      modifies this`docs, records
      ensures Snapshots(records) == SeedMarks(old(Snapshots(records)))
      ensures docs == old(docs) + Snapshots(records)
    {
      MarkAll(records);
      docs := docs + Snapshots(records);
    }

    /** storyCount: the number of stored documents. */
    method StoryCount() returns (n: nat)
      requires open
      ensures n == |docs|
    {
      n := |docs|;
    }

    /** findStory: a fresh object for the first document whose `clubhouseId`
        is `id`, or null. */
    method FindStory(id: int) returns (story: StoryRecord?)
      requires open
      ensures story == null <==> FindStoryIn(docs, id).None?
      ensures story != null ==> fresh(story) && FindStoryIn(docs, id) == Some(story.Snapshot())
    {
      match FindStoryIn(docs, id)
      case None =>
        story := null;
      case Some(d) =>
        story := new StoryRecord(d);
    }

    /** findStories: fresh objects for the documents of the push filter
        (`inClubhouse` false) or the catch-up filter (`inClubhouse` true). */
    method FindStories(inClubhouse: bool) returns (stories: seq<StoryRecord>)
      requires open
      ensures Snapshots(stories) == Select(docs, inClubhouse, statusesToPush)
      ensures forall i :: 0 <= i < |stories| ==> fresh(stories[i])
      ensures Distinct(stories)
    {
      stories := FromDocs(Select(docs, inClubhouse, statusesToPush));
    }

    /** updateAndCreateStoriesLocal: upserts every record by `userfeedId` and
        returns the list it was given. */
    method UpdateAndCreateStoriesLocal(records: seq<StoryRecord>) returns (result: seq<StoryRecord>)
      requires open
      modifies this`docs
      ensures docs == UpsertAll(old(docs), Snapshots(records))
      ensures result == records
    {
      ghost var incoming := Snapshots(records);
      var i := 0;
      while i < |records|
        invariant 0 <= i <= |records|
        invariant docs == UpsertAll(old(docs), incoming[..i])
      {
        assert incoming[..i + 1][..i] == incoming[..i];
        docs := UpsertOne(docs, records[i].Snapshot());
        i := i + 1;
      }
      assert incoming[..|records|] == incoming;
      result := records;
    }
  }
}

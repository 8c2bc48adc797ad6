/** The story record shared by every part of the sync: the in-memory object the
    pushers mutate in place (`StoryRecord`) and the value the cache collection
    stores (`Doc`). */
module Records {

  datatype Option<T> = None | Some(value: T)

  /** JavaScript string concatenation of a possibly missing field: a missing
      value is rendered as the text "undefined". */
  function JsText(s: Option<string>): (r: string)
    ensures s.Some? ==> r == s.value
    ensures s.None? ==> r == "undefined"
  {
    match s
    case Some(t) => t
    case None => "undefined"
  }

  /** The `userfeedData` sub-document: what a scraped feed row normalises to.
      `trueUrl` is only present after a story page has been fetched. */
  datatype UserfeedData = UserfeedData(
    id: string,
    status: string,
    title: string,
    desc: string,
    kind: string,
    redirectUrl: string,
    trueUrl: Option<string>)

  /** The part of the Clubhouse "create story" response the sync reads. */
  datatype ClubhouseData = ClubhouseData(
    id: int,
    name: string,
    workflowStateId: int,
    appUrl: string)

  /** A story document. `clubhouseId` and `clubhouseData` are `None` when the
      field is absent from the document; `Some(0)` marks a seeded record. */
  datatype Doc = Doc(
    userfeedId: string,
    userfeedData: UserfeedData,
    clubhouseId: Option<int>,
    clubhouseData: Option<ClubhouseData>)

  /** A story object as the JavaScript code holds it in memory. */
  class StoryRecord {
    var userfeedId: string
    var userfeedData: UserfeedData
    var clubhouseId: Option<int>
    var clubhouseData: Option<ClubhouseData>

    constructor (d: Doc)
      ensures Snapshot() == d
    {
      userfeedId := d.userfeedId;
      userfeedData := d.userfeedData;
      clubhouseId := d.clubhouseId;
      clubhouseData := d.clubhouseData;
    }

    /** The document this object serialises to. */
    function Snapshot(): Doc
      reads this
    {
      Doc(userfeedId, userfeedData, clubhouseId, clubhouseData)
    }
  }

  /** The documents a list of story objects serialises to, element by element. */
  function Snapshots(rs: seq<StoryRecord>): (ds: seq<Doc>)
    reads rs
    ensures |ds| == |rs|
    ensures forall i :: 0 <= i < |rs| ==> ds[i] == rs[i].Snapshot()
  {
    if rs == [] then [] else Snapshots(rs[..|rs| - 1]) + [rs[|rs| - 1].Snapshot()]
  }

  /** The same for a list whose slots may be `undefined` (null here). */
  function OptSnapshots(rs: seq<StoryRecord?>): (ds: seq<Option<Doc>>)
    reads set r | r in rs && r != null
    ensures |ds| == |rs|
    ensures forall i :: 0 <= i < |rs| ==>
      ds[i] == if rs[i] == null then None else Some(rs[i].Snapshot())
  {
    if rs == [] then []
    else
      var last := rs[|rs| - 1];
      OptSnapshots(rs[..|rs| - 1]) + [if last == null then None else Some(last.Snapshot())]
  }

  /** The story objects are pairwise different objects. */
  predicate Distinct(rs: seq<StoryRecord>)
  {
    forall i, j :: 0 <= i < j < |rs| ==> rs[i] != rs[j]
  }

  /** Deserialises documents into fresh story objects, as a database driver
      returns a query result. */
  method FromDocs(ds: seq<Doc>) returns (rs: seq<StoryRecord>)
    ensures Snapshots(rs) == ds
    ensures forall i :: 0 <= i < |rs| ==> fresh(rs[i])
    ensures Distinct(rs)
  {
    rs := [];
    var i := 0;
    while i < |ds|
      invariant 0 <= i <= |ds|
      invariant |rs| == i
      invariant forall k :: 0 <= k < i ==> rs[k].Snapshot() == ds[k]
      invariant forall k :: 0 <= k < |rs| ==> fresh(rs[k])
      invariant Distinct(rs)
    {
      var r := new StoryRecord(ds[i]);
      rs := rs + [r];
      i := i + 1;
    }
  }
}

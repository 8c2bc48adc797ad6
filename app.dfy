/** The application flows: the inbound status decision shared by the webhook
    and the startup catch-up, the outbound Userfeed-to-Clubhouse pipeline, and
    the startup sequence. Each flow is a function over the collection and the
    remotes' answers, and a method on the running app proved against it. */
module App {
  import opened Records
  import Config
  import opened LocalDb
  import opened ClubhousePusher
  import opened UserfeedPusher

  // ---------------------------------------------------------------------------
  // The column table
  // ---------------------------------------------------------------------------

  /** `idToColumns`: `Object.assign` of one `{[id]: column}` object per entry
      of `columnToIds`, in entry order, so a later entry with the same id
      wins. */
  function IdToColumns(entries: seq<(string, int)>): map<int, string>
  {
    if entries == [] then map[]
    else
      var last := entries[|entries| - 1];
      IdToColumns(entries[..|entries| - 1])[last.1 := last.0]
  }

  /** No later entry has the same id as entry `i`. */
  predicate LastWithId(entries: seq<(string, int)>, i: int)
    requires 0 <= i < |entries|
  {
    forall j :: i < j < |entries| ==> entries[j].1 != entries[i].1
  }

  /** The inverted table has exactly the ids of the entries as keys. */
  lemma {:induction false} IdToColumnsKeys(entries: seq<(string, int)>)
    ensures forall i :: 0 <= i < |entries| ==> entries[i].1 in IdToColumns(entries)
    ensures forall id :: id in IdToColumns(entries) ==> exists i :: 0 <= i < |entries| && entries[i].1 == id
  {
    if entries != [] {
      var init := entries[..|entries| - 1];
      IdToColumnsKeys(init);
      forall id | id in IdToColumns(entries)
        ensures exists i :: 0 <= i < |entries| && entries[i].1 == id
      {
        assert IdToColumns(entries) == IdToColumns(init)[entries[|entries| - 1].1 := entries[|entries| - 1].0];
        if id != entries[|entries| - 1].1 {
          assert id in IdToColumns(init);
          var i :| 0 <= i < |init| && init[i].1 == id;
          assert entries[i].1 == id;
        }
      }
    }
  }

  /** Each id maps to the column of the last entry carrying it. */
  lemma {:induction false} IdToColumnsLast(entries: seq<(string, int)>)
    ensures forall i :: 0 <= i < |entries| && LastWithId(entries, i) ==>
      entries[i].1 in IdToColumns(entries) && IdToColumns(entries)[entries[i].1] == entries[i].0
  {
    if entries != [] {
      var init := entries[..|entries| - 1];
      IdToColumnsLast(init);
      forall i | 0 <= i < |entries| && LastWithId(entries, i)
        ensures entries[i].1 in IdToColumns(entries) && IdToColumns(entries)[entries[i].1] == entries[i].0
      {
        if i < |init| {
          assert entries[|entries| - 1].1 != entries[i].1;
          assert LastWithId(init, i);
        }
      }
    }
  }

  /** `chConfig.idToColumns` as built at startup. */
  const IdTable: map<int, string> := IdToColumns(Config.ColumnToIds)

  /** The inversion loses nothing: every configured column is found again from
      its id, and the table holds no other id. */
  lemma IdTableInvertsColumns()
    ensures forall i :: 0 <= i < |Config.ColumnToIds| ==>
      Config.ColumnToIds[i].1 in IdTable && IdTable[Config.ColumnToIds[i].1] == Config.ColumnToIds[i].0
    ensures forall id :: id in IdTable ==> exists i :: 0 <= i < |Config.ColumnToIds| && Config.ColumnToIds[i].1 == id
  {
    IdToColumnsKeys(Config.ColumnToIds);
    IdToColumnsLast(Config.ColumnToIds);
    Config.ColumnIdsDistinct();
  }

  /** The Userfeed status a Clubhouse column id maps to:
      `statusMapping[idToColumns[id]]`, `None` when undefined. */
  function MappedStatus(columnId: int): Option<string>
  {
    if columnId in IdTable && IdTable[columnId] in Config.StatusMapping
    then Some(Config.StatusMapping[IdTable[columnId]])
    else None
  }

  /** A column id maps to a status exactly when it is a configured column's
      id, and then to that column's status, which is one of the three Userfeed
      statuses and never empty. */
  lemma MappedStatusSpec(columnId: int)
    ensures MappedStatus(columnId).Some? <==>
      exists i :: 0 <= i < |Config.ColumnToIds| && Config.ColumnToIds[i].1 == columnId
    ensures forall i :: 0 <= i < |Config.ColumnToIds| && Config.ColumnToIds[i].1 == columnId ==>
      MappedStatus(columnId) == Some(Config.StatusMapping[Config.ColumnToIds[i].0])
    ensures MappedStatus(columnId).Some? ==>
      MappedStatus(columnId).value in Config.UserfeedStatuses && MappedStatus(columnId).value != ""
  {
    IdTableInvertsColumns();
    Config.StatusMappingTotal();
    Config.StatusMappingValues();
    if exists i :: 0 <= i < |Config.ColumnToIds| && Config.ColumnToIds[i].1 == columnId {
      var i :| 0 <= i < |Config.ColumnToIds| && Config.ColumnToIds[i].1 == columnId;
      assert Config.ColumnToIds[i].0 in Config.ColumnNames();
    }
  }

  // ---------------------------------------------------------------------------
  // The inbound decision
  // ---------------------------------------------------------------------------

  /** `workflow_state_id: {new: ...}` of a change. */
  datatype StateChange = StateChange(newId: int)

  /** The `changes` object of an action; `workflowState` is `None` when it has
      no `workflow_state_id`. */
  datatype Changes = Changes(workflowState: Option<StateChange>)

  /** An action; `changes` is `None` when it has none. */
  datatype Action = Action(changes: Option<Changes>)

  /** A Clubhouse webhook event (or a synthetic one). An event without an
      `actions` list is an empty list here. */
  datatype Event = Event(primaryId: int, actions: seq<Action>)

  /** How processClubHouseChange ends: `Malformed` when reading `actions[0]`
      throws; `Ignored` when the first action changes no workflow state;
      `Untracked` when no cached story has the id (dereferencing the null story
      throws); `Unchanged` when the status needs no update; otherwise how the
      status update ends. */
  datatype ChangeOutcome =
    | Malformed
    | Ignored
    | Untracked
    | Unchanged
    | StatusUpdated
    | UpdateRejected
    | UpdatePending

  /** The outcome, the collection afterwards, and the status put sent. */
  datatype ChangeResult = ChangeResult(outcome: ChangeOutcome, docs: seq<Doc>, sent: Option<Request>)

  /** The new column id of an event's first action, if it changes one. */
  function NewColumnId(ev: Event): Option<int>
    requires |ev.actions| > 0
  {
    match ev.actions[0].changes
    case None => None
    case Some(c) =>
      match c.workflowState
      case None => None
      case Some(s) => Some(s.newId)
  }

  /** `newUfStatus && story.userfeedData.status != newUfStatus`. */
  predicate ShouldUpdate(mapped: Option<string>, cached: string)
  {
    mapped.Some? && mapped.value != "" && cached != mapped.value
  }

  /** processClubHouseChange over the collection. A successful status update
      is upserted back; a failed one is caught and logged. */
  function Process(docs: seq<Doc>, ev: Event, headers: map<string, string>, encode: string -> string,
                   page: PageFetch, accepts: FormRemote): ChangeResult
  {
    if |ev.actions| == 0 then ChangeResult(Malformed, docs, None)
    else
      match NewColumnId(ev)
      case None => ChangeResult(Ignored, docs, None)
      case Some(columnId) =>
        match FindStoryIn(docs, ev.primaryId)
        case None => ChangeResult(Untracked, docs, None)
        case Some(story) =>
          var mapped := MappedStatus(columnId);
          if !ShouldUpdate(mapped, story.userfeedData.status) then ChangeResult(Unchanged, docs, None)
          else
            var st := StatusUpdate(story, mapped.value, headers, encode, page, accepts);
            match st.outcome
            case Resolved => ChangeResult(StatusUpdated, UpsertAll(docs, [st.after]), st.sent)
            case Rejected => ChangeResult(UpdateRejected, docs, st.sent)
            case Pending => ChangeResult(UpdatePending, docs, st.sent)
  }

  /** An event whose first action changes no workflow state causes no lookup
      effect, no request and no write; only the first action is examined. */
  lemma NoStateChangeNoEffect(docs: seq<Doc>, ev: Event, headers: map<string, string>, encode: string -> string,
                              page: PageFetch, accepts: FormRemote)
    requires |ev.actions| > 0
    requires ev.actions[0].changes.None? || ev.actions[0].changes.value.workflowState.None?
    ensures Process(docs, ev, headers, encode, page, accepts) == ChangeResult(Ignored, docs, None)
  {
  }

  /** A status update is attempted exactly when the story is cached, the new
      column maps to a status and that status differs from the cached one;
      it puts that status to the story's page, and only a successful put
      changes the collection, in the story's own document, leaving every
      document with another `userfeedId` as it was. */
  lemma UpdateOnlyWhenStatusDiffers(docs: seq<Doc>, ev: Event, headers: map<string, string>,
                                    encode: string -> string, page: PageFetch, accepts: FormRemote)
    requires |ev.actions| > 0 && NewColumnId(ev).Some?
    ensures var r := Process(docs, ev, headers, encode, page, accepts);
      r.outcome in {StatusUpdated, UpdateRejected, UpdatePending} <==>
        FindStoryIn(docs, ev.primaryId).Some?
        && MappedStatus(NewColumnId(ev).value).Some?
        && FindStoryIn(docs, ev.primaryId).value.userfeedData.status != MappedStatus(NewColumnId(ev).value).value
    ensures var r := Process(docs, ev, headers, encode, page, accepts);
      r.outcome !in {StatusUpdated, UpdateRejected, UpdatePending} ==> r.sent.None?
    ensures var r := Process(docs, ev, headers, encode, page, accepts);
      r.sent.Some? ==> r.outcome in {StatusUpdated, UpdateRejected}
    ensures var r := Process(docs, ev, headers, encode, page, accepts);
      r.sent.Some? ==>
        var status := MappedStatus(NewColumnId(ev).value).value;
        r.sent.value.url[|r.sent.value.url| - |status|..] == status
    ensures var r := Process(docs, ev, headers, encode, page, accepts);
      r.outcome != StatusUpdated ==> r.docs == docs
    ensures var r := Process(docs, ev, headers, encode, page, accepts);
      r.outcome == StatusUpdated ==>
        var story := FindStoryIn(docs, ev.primaryId).value;
        |r.docs| == |docs|
        && forall k :: 0 <= k < |docs| && docs[k].userfeedId != story.userfeedId ==> r.docs[k] == docs[k]
  {
    var r := Process(docs, ev, headers, encode, page, accepts);
    var columnId := NewColumnId(ev).value;
    MappedStatusSpec(columnId);
    if FindStoryIn(docs, ev.primaryId).Some? && ShouldUpdate(MappedStatus(columnId), FindStoryIn(docs, ev.primaryId).value.userfeedData.status) {
      var story := FindStoryIn(docs, ev.primaryId).value;
      var status := MappedStatus(columnId).value;
      StatusUpdateSpec(story, status, headers, encode, page, accepts);
      FindStoryInSpec(docs, ev.primaryId);
      if r.sent.Some? {
        var p := page(story.userfeedData.redirectUrl).value;
        StatusRequestSpec(p.trueUrl, status, p.token, headers, encode);
      }
      if r.outcome == StatusUpdated {
        var after := StatusUpdate(story, status, headers, encode, page, accepts).after;
        UpsertSingle(docs, after);
        UpsertOneSpec(docs, after);
        var j :| 0 <= j < |docs| && docs[j] == story;
        IdsOf(docs, j);
      }
    }
  }

  /** After a successful update the story's document, the only one with its
      `userfeedId`, holds the mapped status and the resolved page URL and
      keeps its Clubhouse fields. */
  lemma StatusUpdatedStoresStatus(docs: seq<Doc>, ev: Event, headers: map<string, string>,
                                  encode: string -> string, page: PageFetch, accepts: FormRemote)
    requires Unique(docs) && |ev.actions| > 0
    requires Process(docs, ev, headers, encode, page, accepts).outcome == StatusUpdated
    ensures NewColumnId(ev).Some? && MappedStatus(NewColumnId(ev).value).Some?
    ensures FindStoryIn(docs, ev.primaryId).Some?
    ensures page(FindStoryIn(docs, ev.primaryId).value.userfeedData.redirectUrl).Some?
    ensures var r := Process(docs, ev, headers, encode, page, accepts);
      var story := FindStoryIn(docs, ev.primaryId).value;
      var status := MappedStatus(NewColumnId(ev).value).value;
      |r.docs| == |docs|
      && forall k :: 0 <= k < |docs| && docs[k].userfeedId == story.userfeedId ==>
        r.docs[k].userfeedData.status == status
        && r.docs[k].userfeedData.trueUrl == Some(page(story.userfeedData.redirectUrl).value.trueUrl)
        && r.docs[k].clubhouseId == docs[k].clubhouseId && r.docs[k].clubhouseData == docs[k].clubhouseData
  {
    var story := FindStoryIn(docs, ev.primaryId).value;
    var status := MappedStatus(NewColumnId(ev).value).value;
    var after := StatusUpdate(story, status, headers, encode, page, accepts).after;
    StatusUpdateSpec(story, status, headers, encode, page, accepts);
    FindStoryInSpec(docs, ev.primaryId);
    UpsertSingle(docs, after);
    UpsertOneSpec(docs, after);
    var j :| 0 <= j < |docs| && docs[j] == story;
    IdsOf(docs, j);
  }

  /** Replaying an event after it updated a status is a no-op: the cached
      story now has the mapped status. */
  lemma ProcessIdempotent(docs: seq<Doc>, ev: Event, headers: map<string, string>, encode: string -> string,
                          page: PageFetch, accepts: FormRemote)
    requires Unique(docs)
    requires Process(docs, ev, headers, encode, page, accepts).outcome == StatusUpdated
    ensures var once := Process(docs, ev, headers, encode, page, accepts).docs;
      Process(once, ev, headers, encode, page, accepts) == ChangeResult(Unchanged, once, None)
  {
    var id := ev.primaryId;
    var p := (d: Doc) => d.clubhouseId == Some(id);
    var k := FirstIndex(docs, p).value;
    var story := docs[k];
    assert FindStoryIn(docs, id) == Some(story);
    var status := MappedStatus(NewColumnId(ev).value).value;
    var after := StatusUpdate(story, status, headers, encode, page, accepts).after;
    StatusUpdateSpec(story, status, headers, encode, page, accepts);
    var once := Process(docs, ev, headers, encode, page, accepts).docs;
    assert once == UpsertAll(docs, [after]);
    UpsertSingle(docs, after);
    SlotSpec(docs, story.userfeedId);
    IdsOf(docs, k);
    UpsertOneSpec(docs, after);
    assert once[k] == Merge(docs[k], after);
    FirstIndexAt(once, p, k);
  }

  /** Upserting a one-record batch is one upsert. */
  lemma UpsertSingle(docs: seq<Doc>, r: Doc)
    ensures UpsertAll(docs, [r]) == UpsertOne(docs, r)
  {
    assert [r][..0] == [];
  }

  // ---------------------------------------------------------------------------
  // The startup catch-up
  // ---------------------------------------------------------------------------

  /** The event syncDataFromClubhouseToUserfeed builds for a tracked story:
      `None` when the story has no Clubhouse data (building it throws). */
  function CatchUpEvent(d: Doc): Option<Event>
    requires d.clubhouseId.Some?
  {
    match d.clubhouseData
    case None => None
    case Some(ch) =>
      Some(Event(d.clubhouseId.value, [Action(Some(Changes(Some(StateChange(ch.workflowStateId)))))]))
  }

  /** The catch-up event names the story's Clubhouse id and reports its
      cached workflow state as the new one. `clubhouseData` is only ever the
      create response, so that is the story's column when it was created. */
  lemma CatchUpEventSpec(d: Doc)
    requires d.clubhouseId.Some? && d.clubhouseData.Some?
    ensures CatchUpEvent(d).Some?
    ensures CatchUpEvent(d).value.primaryId == d.clubhouseId.value
    ensures |CatchUpEvent(d).value.actions| == 1
    ensures NewColumnId(CatchUpEvent(d).value) == Some(d.clubhouseData.value.workflowStateId)
  {
  }

  /** The catch-up replays the creation-time column: for a tracked story, a
      put is attempted exactly when the status mapped from the workflow state
      of its create response is defined and differs from its cached status,
      and any put carries that status, whatever column the story has been
      moved to since. */
  lemma CatchUpReplaysCreationColumn(docs: seq<Doc>, d: Doc, headers: map<string, string>,
                                     encode: string -> string, page: PageFetch, accepts: FormRemote)
    requires d.clubhouseId.Some? && d.clubhouseData.Some?
    requires FindStoryIn(docs, d.clubhouseId.value) == Some(d)
    ensures CatchUpEvent(d).Some?
    ensures var r := Process(docs, CatchUpEvent(d).value, headers, encode, page, accepts);
      var status := MappedStatus(d.clubhouseData.value.workflowStateId);
      (r.outcome in {StatusUpdated, UpdateRejected, UpdatePending} <==>
        status.Some? && status.value != d.userfeedData.status)
      && (r.sent.Some? ==> r.sent.value.url[|r.sent.value.url| - |status.value|..] == status.value)
  {
    CatchUpEventSpec(d);
    UpdateOnlyWhenStatusDiffers(docs, CatchUpEvent(d).value, headers, encode, page, accepts);
  }

  /** Every story of the list is tracked in Clubhouse. */
  predicate HasIds(stories: seq<Doc>)
  {
    forall k :: 0 <= k < |stories| ==> stories[k].clubhouseId.Some?
  }

  /** The stories findStories(true) returns are tracked. */
  lemma SelectedHaveIds(docs: seq<Doc>, pushable: seq<string>)
    ensures HasIds(Select(docs, true, pushable))
  {
    var tracked := Select(docs, true, pushable);
    forall k | 0 <= k < |tracked| ensures tracked[k].clubhouseId.Some? {
      assert tracked[k] in tracked;
    }
  }

  /** The catch-up run so far: the collection, the puts sent, each story's
      outcome, and whether the `forEach` is still running (a story without
      Clubhouse data stops it). */
  datatype CatchUpState = CatchUpState(docs: seq<Doc>, sent: seq<Request>, outcomes: seq<ChangeOutcome>, running: bool)

  /** syncDataFromClubhouseToUserfeed over the stories findStories(true)
      returned, one processClubHouseChange per story, in order. */
  function CatchUp(docs: seq<Doc>, stories: seq<Doc>, headers: map<string, string>, encode: string -> string,
                   page: PageFetch, accepts: FormRemote): CatchUpState
    requires HasIds(stories)
  {
    if stories == [] then CatchUpState(docs, [], [], true)
    else
      var prev := CatchUp(docs, stories[..|stories| - 1], headers, encode, page, accepts);
      CatchUpStep(prev, stories[|stories| - 1], headers, encode, page, accepts)
  }

  /** One callback of the `forEach`: nothing once it has stopped, a stop on a
      story without Clubhouse data, otherwise the story's event processed. */
  function CatchUpStep(prev: CatchUpState, story: Doc, headers: map<string, string>, encode: string -> string,
                       page: PageFetch, accepts: FormRemote): CatchUpState
    requires story.clubhouseId.Some?
  {
    if !prev.running then prev
    else
      match CatchUpEvent(story)
      case None => prev.(running := false)
      case Some(ev) =>
        var r := Process(prev.docs, ev, headers, encode, page, accepts);
        CatchUpState(r.docs, prev.sent + (if r.sent.Some? then [r.sent.value] else []), prev.outcomes + [r.outcome], true)
  }

  /** The catch-up over one more story is one more callback. */
  lemma CatchUpSnoc(docs: seq<Doc>, stories: seq<Doc>, i: nat, headers: map<string, string>,
                    encode: string -> string, page: PageFetch, accepts: FormRemote)
    requires HasIds(stories) && i < |stories|
    ensures CatchUp(docs, stories[..i + 1], headers, encode, page, accepts)
      == CatchUpStep(CatchUp(docs, stories[..i], headers, encode, page, accepts), stories[i], headers, encode, page, accepts)
  {
    assert stories[..i + 1][..i] == stories[..i];
  }

  /** Once a story without Clubhouse data has stopped the `forEach`, the
      stories after it are never processed. */
  lemma {:induction false} CatchUpStopped(docs: seq<Doc>, stories: seq<Doc>, i: nat, headers: map<string, string>,
                                          encode: string -> string, page: PageFetch, accepts: FormRemote)
    requires HasIds(stories)
    requires i <= |stories|
    requires !CatchUp(docs, stories[..i], headers, encode, page, accepts).running
    ensures CatchUp(docs, stories, headers, encode, page, accepts) == CatchUp(docs, stories[..i], headers, encode, page, accepts)
    decreases |stories|
  {
    if i < |stories| {
      var init := stories[..|stories| - 1];
      assert init[..i] == stories[..i];
      CatchUpStopped(docs, init, i, headers, encode, page, accepts);
    } else {
      assert stories[..i] == stories;
    }
  }

  /** The catch-up processes every tracked story it reaches, each with the
      event built from its own Clubhouse data, and sends no more puts than it
      processed stories. */
  lemma {:induction false} CatchUpCounts(docs: seq<Doc>, stories: seq<Doc>, headers: map<string, string>,
                                         encode: string -> string, page: PageFetch, accepts: FormRemote)
    requires HasIds(stories)
    ensures var c := CatchUp(docs, stories, headers, encode, page, accepts);
      |c.sent| <= |c.outcomes| <= |stories|
    ensures var c := CatchUp(docs, stories, headers, encode, page, accepts);
      c.running <==> forall d :: d in stories ==> d.clubhouseData.Some?
    ensures var c := CatchUp(docs, stories, headers, encode, page, accepts);
      c.running ==> |c.outcomes| == |stories|
  {
    if stories != [] {
      var init := stories[..|stories| - 1];
      assert forall d :: d in stories <==> d in init || d == stories[|stories| - 1];
      CatchUpCounts(docs, init, headers, encode, page, accepts);
    }
  }

  // ---------------------------------------------------------------------------
  // The outbound pipeline
  // ---------------------------------------------------------------------------

  /** How syncDataFromUserfeedToClubhouse ends: the feed load rejects, the link
      batch rejects or never settles (the final upsert is then skipped), or
      the whole chain resolves. */
  datatype SyncOutcome = LoadFailed | LinkRejected | LinkPending | Synced

  /** The outcome and the collection afterwards. */
  datatype SyncResult = SyncResult(outcome: SyncOutcome, docs: seq<Doc>)

  /** The present values of a list of optional records. */
  function Somes(xs: seq<Option<Doc>>): (r: seq<Doc>)
    ensures |r| <= |xs|
    ensures (forall i :: 0 <= i < |xs| ==> xs[i].Some?) ==>
      |r| == |xs| && forall i :: 0 <= i < |xs| ==> Some(r[i]) == xs[i]
  {
    if xs == [] then []
    else Somes(xs[..|xs| - 1]) + (if xs[|xs| - 1].Some? then [xs[|xs| - 1].value] else [])
  }

  /** The stories the pipeline creates in Clubhouse: after the feed refresh,
      those with no Clubhouse id and a pushable status. */
  function ToCreate(docs: seq<Doc>, parsed: seq<Doc>, pushable: seq<string>): seq<Doc>
  {
    Select(UpsertAll(docs, parsed), false, pushable)
  }

  /** syncDataFromUserfeedToClubhouse: load, upsert, findStories(false),
      createStories, linkStoriesToClubHouse, upsert, in that order. */
  function Sync(docs: seq<Doc>, feed: Option<seq<RawRow>>, pushable: seq<string>, token: string,
                api: ClubhouseApi, headers: map<string, string>, encode: string -> string,
                page: PageFetch, accepts: FormRemote): SyncResult
  {
    match Loaded(feed)
    case None => SyncResult(LoadFailed, docs)
    case Some(parsed) =>
      var cached := UpsertAll(docs, parsed);
      var created := CreateResults(Select(cached, false, pushable), token, api);
      var steps := LinkAll(created, headers, encode, page, accepts);
      match PromiseAll(Outcomes(steps))
      case Resolved => SyncResult(Synced, UpsertAll(cached, Somes(Afters(steps))))
      case Rejected => SyncResult(LinkRejected, cached)
      case Pending => SyncResult(LinkPending, cached)
  }

  /** A story whose cached document already has a Clubhouse id, seeded (0) or
      created, is never created again: a feed refresh keeps the id, and
      findStories(false) skips it. */
  lemma TrackedNeverRecreated(docs: seq<Doc>, parsed: seq<Doc>, pushable: seq<string>, k: nat)
    requires Unique(docs) && k < |docs| && docs[k].clubhouseId.Some?
    requires forall r :: r in parsed ==> r.clubhouseId.None? && r.clubhouseData.None?
    ensures forall d :: d in ToCreate(docs, parsed, pushable) ==> d.userfeedId != docs[k].userfeedId
  {
    var cached := UpsertAll(docs, parsed);
    UpsertAllKeepsClubhouseFields(docs, parsed, k);
    UpsertAllKeepsUnique(docs, parsed);
    forall d | d in ToCreate(docs, parsed, pushable)
      ensures d.userfeedId != docs[k].userfeedId
    {
      var j :| 0 <= j < |cached| && cached[j] == d;
      assert cached[j].clubhouseId.None?;
    }
  }

  /** Parsed feed records carry no Clubhouse fields. */
  lemma LoadedCarriesNoClubhouse(feed: Option<seq<RawRow>>)
    requires Loaded(feed).Some?
    ensures forall r :: r in Loaded(feed).value ==> r.clubhouseId.None? && r.clubhouseData.None?
  {
    var parsed := Loaded(feed).value;
    forall r | r in parsed ensures r.clubhouseId.None? && r.clubhouseData.None? {
      var i :| 0 <= i < |parsed| && parsed[i] == r;
      ParseDataSpec(feed.value[i]);
    }
  }

  /** Seeded stories are never pushed: a story stored with `clubhouseId` 0 is
      not among the stories a pipeline run creates. */
  lemma SeededNeverPushed(docs: seq<Doc>, feed: Option<seq<RawRow>>, pushable: seq<string>, k: nat)
    requires Unique(docs) && k < |docs| && docs[k].clubhouseId == Some(0)
    requires Loaded(feed).Some?
    ensures forall d :: d in ToCreate(docs, Loaded(feed).value, pushable) ==> d.userfeedId != docs[k].userfeedId
  {
    LoadedCarriesNoClubhouse(feed);
    TrackedNeverRecreated(docs, Loaded(feed).value, pushable, k);
  }

  /** When one create fails, its slot is undefined, linking it throws, the
      link batch rejects and the final upsert is skipped: none of the stories
      created in that run gets its Clubhouse id recorded. */
  lemma FailedCreateSkipsFinalUpsert(docs: seq<Doc>, feed: Option<seq<RawRow>>, pushable: seq<string>,
                                     token: string, api: ClubhouseApi, headers: map<string, string>,
                                     encode: string -> string, page: PageFetch, accepts: FormRemote, k: nat)
    requires Loaded(feed).Some?
    requires var toCreate := ToCreate(docs, Loaded(feed).value, pushable);
      k < |toCreate| && api(CreateRequest(token, BuildPayload(toCreate[k]))).None?
    ensures var r := Sync(docs, feed, pushable, token, api, headers, encode, page, accepts);
      r.outcome == LinkRejected && r.docs == UpsertAll(docs, Loaded(feed).value)
  {
    var toCreate := ToCreate(docs, Loaded(feed).value, pushable);
    var created := CreateResults(toCreate, token, api);
    assert created[k].None?;
    UndefinedSlotRejectsBatch(created, k, headers, encode, page, accepts);
  }

  /** A pipeline run that resolves records every story it created: the
      Clubhouse API answered that story's create, and the collection, still
      free of duplicate ids, stores the response's id and data under the
      story's `userfeedId`. */
  lemma SyncedStoresCreatedIds(docs: seq<Doc>, feed: Option<seq<RawRow>>, pushable: seq<string>,
                               token: string, api: ClubhouseApi, headers: map<string, string>,
                               encode: string -> string, page: PageFetch, accepts: FormRemote)
    requires Loaded(feed).Some? && Unique(docs)
    requires Sync(docs, feed, pushable, token, api, headers, encode, page, accepts).outcome == Synced
    ensures Unique(Sync(docs, feed, pushable, token, api, headers, encode, page, accepts).docs)
    ensures var toCreate := ToCreate(docs, Loaded(feed).value, pushable);
      var stored := Sync(docs, feed, pushable, token, api, headers, encode, page, accepts).docs;
      forall i :: 0 <= i < |toCreate| ==>
        var resp := api(CreateRequest(token, BuildPayload(toCreate[i])));
        resp.Some? && Recorded(stored, Created(toCreate[i], resp.value))
  {
    var parsed := Loaded(feed).value;
    var cached := UpsertAll(docs, parsed);
    UpsertAllKeepsUnique(docs, parsed);
    var toCreate := Select(cached, false, pushable);
    SelectKeepsUnique(cached, false, pushable);
    var created := CreateResults(toCreate, token, api);
    var steps := LinkAll(created, headers, encode, page, accepts);
    var linked := Somes(Afters(steps));
    LinkedStories(toCreate, token, api, headers, encode, page, accepts);
    UpsertAllRecords(cached, linked);
    UpsertAllKeepsUnique(cached, linked);
  }

  /** The stories a resolved link batch hands to the final upsert: one per
      created story, in order, each with its `userfeedId` and the Clubhouse
      fields of its create. */
  lemma LinkedStories(toCreate: seq<Doc>, token: string, api: ClubhouseApi, headers: map<string, string>,
                      encode: string -> string, page: PageFetch, accepts: FormRemote)
    requires Unique(toCreate)
    requires PromiseAll(Outcomes(LinkAll(CreateResults(toCreate, token, api), headers, encode, page, accepts))) == Resolved
    ensures var linked := Somes(Afters(LinkAll(CreateResults(toCreate, token, api), headers, encode, page, accepts)));
      |linked| == |toCreate| && Unique(linked)
      && forall i :: 0 <= i < |toCreate| ==>
        var resp := api(CreateRequest(token, BuildPayload(toCreate[i])));
        resp.Some? && linked[i].userfeedId == toCreate[i].userfeedId
        && linked[i].clubhouseId == Some(resp.value.id) && linked[i].clubhouseData == Some(resp.value)
  {
    var created := CreateResults(toCreate, token, api);
    var steps := LinkAll(created, headers, encode, page, accepts);
    var afters := Afters(steps);
    forall i | 0 <= i < |afters| ensures afters[i].Some? {
      ResolvedSlot(created, i, headers, encode, page, accepts);
    }
    var linked := Somes(afters);
    assert |linked| == |toCreate|;
    forall i | 0 <= i < |toCreate|
      ensures var resp := api(CreateRequest(token, BuildPayload(toCreate[i])));
        resp.Some? && linked[i].userfeedId == toCreate[i].userfeedId
        && linked[i].clubhouseId == Some(resp.value.id) && linked[i].clubhouseData == Some(resp.value)
    {
      ResolvedSlot(created, i, headers, encode, page, accepts);
      assert Some(linked[i]) == afters[i];
    }
    assert Unique(linked) by {
      forall i, j | 0 <= i < j < |linked| ensures linked[i].userfeedId != linked[j].userfeedId {
        assert linked[i].userfeedId == toCreate[i].userfeedId;
        assert linked[j].userfeedId == toCreate[j].userfeedId;
      }
    }
  }

  /** In a resolved link batch every slot held a created story, and the
      story it passes on is that story with its resolved URL recorded. */
  lemma ResolvedSlot(created: seq<Option<Doc>>, i: nat, headers: map<string, string>,
                     encode: string -> string, page: PageFetch, accepts: FormRemote)
    requires i < |created|
    requires PromiseAll(Outcomes(LinkAll(created, headers, encode, page, accepts))) == Resolved
    ensures created[i].Some? && page(created[i].value.userfeedData.redirectUrl).Some?
    ensures LinkAll(created, headers, encode, page, accepts)[i].after
      == Some(WithTrueUrl(created[i].value, page(created[i].value.userfeedData.redirectUrl).value))
  {
    if created[i].None? {
      UndefinedSlotRejectsBatch(created, i, headers, encode, page, accepts);
    }
    var steps := LinkAll(created, headers, encode, page, accepts);
    LinkAllAt(created, headers, encode, page, accepts, i);
    assert Outcomes(steps)[i] == Resolved;
    LinkOneSpec(created[i], headers, encode, page, accepts);
  }

  // ---------------------------------------------------------------------------
  // Startup
  // ---------------------------------------------------------------------------

  /** How startup ends: the connection fails, or seeding never finishes (its
      feed load rejects and nothing handles it), or the first pipeline run
      ends as given (the catch-up runs only after it resolves). The poll
      interval is scheduled exactly when seeding finished. */
  datatype StartupOutcome = NotConnected | SeedStalled | Ran(sync: SyncOutcome)

  /** The outcome, the collection afterwards, and the catch-up's puts. */
  datatype StartupResult = StartupResult(outcome: StartupOutcome, docs: seq<Doc>, sent: seq<Request>)

  /** shouldSeed and seedData: seed from the feed only when the collection is
      empty; `None` when the seed load rejects. */
  function Seeded(docs: seq<Doc>, seedFeed: Option<seq<RawRow>>): Option<seq<Doc>>
  {
    if |docs| != 0 then Some(docs)
    else
      match Loaded(seedFeed)
      case None => None
      case Some(parsed) => Some(docs + SeedMarks(parsed))
  }

  /** The startup script: connect, seed if empty, run the pipeline once and,
      when it resolves, the catch-up over the tracked stories. */
  function Startup(docs: seq<Doc>, connects: bool, seedFeed: Option<seq<RawRow>>, syncFeed: Option<seq<RawRow>>,
                   pushable: seq<string>, token: string, api: ClubhouseApi, headers: map<string, string>,
                   encode: string -> string, page: PageFetch, accepts: FormRemote): StartupResult
  {
    if !connects then StartupResult(NotConnected, docs, [])
    else
      match Seeded(docs, seedFeed)
      case None => StartupResult(SeedStalled, docs, [])
      case Some(seeded) =>
        var sync := Sync(seeded, syncFeed, pushable, token, api, headers, encode, page, accepts);
        if sync.outcome != Synced then StartupResult(Ran(sync.outcome), sync.docs, [])
        else
          var tracked := Select(sync.docs, true, pushable);
          SelectedHaveIds(sync.docs, pushable);
          var c := CatchUp(sync.docs, tracked, headers, encode, page, accepts);
          StartupResult(Ran(Synced), c.docs, c.sent)
  }

  /** Seeding runs only on an empty collection: otherwise the seed feed is
      never read. */
  lemma SeedOnlyWhenEmpty(docs: seq<Doc>, seedFeed: Option<seq<RawRow>>, other: Option<seq<RawRow>>)
    ensures |docs| != 0 ==> Seeded(docs, seedFeed) == Seeded(docs, other) == Some(docs)
    ensures |docs| == 0 ==> (Seeded(docs, seedFeed).Some? <==> Loaded(seedFeed).Some?)
    ensures |docs| == 0 && Loaded(seedFeed).Some? ==>
      Seeded(docs, seedFeed).value == SeedMarks(Loaded(seedFeed).value)
  {
  }

  /** A first start on an empty collection creates nothing in Clubhouse when
      the feed has not changed since seeding: every story was marked as
      seeded and the refresh keeps the mark. */
  lemma SeedThenSyncCreatesNothing(feed: Option<seq<RawRow>>, pushable: seq<string>)
    requires Loaded(feed).Some?
    ensures ToCreate(Seeded([], feed).value, Loaded(feed).value, pushable) == []
  {
    var parsed := Loaded(feed).value;
    var seeded := SeedMarks(parsed);
    assert Seeded([], feed).value == seeded;
    LoadedCarriesNoClubhouse(feed);
    SeedMarksStoreIds(parsed);
    UpsertAllIds(seeded, parsed);
    var cached := UpsertAll(seeded, parsed);
    forall j | 0 <= j < |cached| ensures cached[j].clubhouseId == Some(0) {
      UpsertAllKeepsClubhouseFields(seeded, parsed, j);
    }
    NothingEligible(cached, pushable);
  }

  /** A collection of seeded documents has nothing to create. */
  lemma NothingEligible(cached: seq<Doc>, pushable: seq<string>)
    requires forall j :: 0 <= j < |cached| ==> cached[j].clubhouseId == Some(0)
    ensures Select(cached, false, pushable) == []
  {
  }

  /** Seeding stores every record's id. */
  lemma SeedMarksStoreIds(parsed: seq<Doc>)
    ensures forall r :: r in parsed ==> r.userfeedId in Ids(SeedMarks(parsed))
  {
    forall r | r in parsed ensures r.userfeedId in Ids(SeedMarks(parsed)) {
      var i :| 0 <= i < |parsed| && parsed[i] == r;
      IdsOf(SeedMarks(parsed), i);
    }
  }

  /** The startup script connects first and does nothing else when that
      fails; polling is scheduled exactly when the seed phase finishes, which
      it does unless an empty collection meets a failed seed load; a stalled
      or unconnected start leaves the collection as it was; the catch-up puts
      statuses only after a fully resolved first pipeline run. */
  lemma StartupSpec(docs: seq<Doc>, connects: bool, seedFeed: Option<seq<RawRow>>, syncFeed: Option<seq<RawRow>>,
                    pushable: seq<string>, token: string, api: ClubhouseApi, headers: map<string, string>,
                    encode: string -> string, page: PageFetch, accepts: FormRemote)
    ensures var r := Startup(docs, connects, seedFeed, syncFeed, pushable, token, api, headers, encode, page, accepts);
      r.outcome == NotConnected <==> !connects
    ensures var r := Startup(docs, connects, seedFeed, syncFeed, pushable, token, api, headers, encode, page, accepts);
      r.outcome.Ran? <==> connects && (|docs| != 0 || Loaded(seedFeed).Some?)
    ensures var r := Startup(docs, connects, seedFeed, syncFeed, pushable, token, api, headers, encode, page, accepts);
      !r.outcome.Ran? ==> r.docs == docs && r.sent == []
    ensures var r := Startup(docs, connects, seedFeed, syncFeed, pushable, token, api, headers, encode, page, accepts);
      r.sent != [] ==> r.outcome == Ran(Synced)
    ensures var r := Startup(docs, connects, seedFeed, syncFeed, pushable, token, api, headers, encode, page, accepts);
      r.outcome.Ran? && r.outcome.sync != Synced ==>
        r.docs == Sync(Seeded(docs, seedFeed).value, syncFeed, pushable, token, api, headers, encode, page, accepts).docs
  {
  }

  // ---------------------------------------------------------------------------
  // The webhook
  // ---------------------------------------------------------------------------

  /** validWedhook: the hex HMAC-SHA256 of the re-serialised event under the
      secret equals the signature header exactly (a missing header never
      does). */
  predicate ValidWebhook(secret: string, header: Option<string>, ev: Event,
                         hmacHex: (string, string) -> string, stringify: Event -> string)
  {
    header == Some(hmacHex(secret, stringify(ev)))
  }

  /** `!chConfig.webhookSecret`: no secret, or the empty one. */
  predicate NoSecret(secret: Option<string>)
  {
    secret.None? || secret.value == ""
  }

  /** The webhook's answer and, when it was processed, the processing. */
  datatype WebhookResult = WebhookResult(status: int, change: Option<ChangeResult>)

  /** The webhook route: process and answer 200 when no secret is set or the
      signature is valid, otherwise answer 401. Processing that throws
      synchronously (no `actions[0]`) makes the framework answer 500. */
  function Webhook(secret: Option<string>, header: Option<string>, ev: Event,
                   hmacHex: (string, string) -> string, stringify: Event -> string,
                   docs: seq<Doc>, headers: map<string, string>, encode: string -> string,
                   page: PageFetch, accepts: FormRemote): WebhookResult
  {
    if NoSecret(secret) || ValidWebhook(secret.value, header, ev, hmacHex, stringify) then
      var r := Process(docs, ev, headers, encode, page, accepts);
      WebhookResult(if r.outcome == Malformed then 500 else 200, Some(r))
    else WebhookResult(401, None)
  }

  /** A webhook is processed exactly when no secret is set or the signature
      matches; a rejected one is answered 401 and changes nothing; a processed
      one is answered 200 unless its event has no actions. */
  lemma WebhookAcceptRule(secret: Option<string>, header: Option<string>, ev: Event,
                          hmacHex: (string, string) -> string, stringify: Event -> string,
                          docs: seq<Doc>, headers: map<string, string>, encode: string -> string,
                          page: PageFetch, accepts: FormRemote)
    ensures var w := Webhook(secret, header, ev, hmacHex, stringify, docs, headers, encode, page, accepts);
      w.change.Some? <==> NoSecret(secret) || header == Some(hmacHex(secret.value, stringify(ev)))
    ensures var w := Webhook(secret, header, ev, hmacHex, stringify, docs, headers, encode, page, accepts);
      w.status == 401 <==> w.change.None?
    ensures var w := Webhook(secret, header, ev, hmacHex, stringify, docs, headers, encode, page, accepts);
      w.status == 200 <==> w.change.Some? && |ev.actions| > 0
    ensures var w := Webhook(secret, header, ev, hmacHex, stringify, docs, headers, encode, page, accepts);
      w.change.Some? ==> w.change.value == Process(docs, ev, headers, encode, page, accepts)
  {
  }

  // ---------------------------------------------------------------------------
  // The running app
  // ---------------------------------------------------------------------------

  /** The app's three service objects and its webhook settings. The HMAC and
      the JSON serialiser are the platform's, taken as given functions. */
  class SyncApp {
    const ldb: LocalDbUpdater
    const chp: ClubHousePusher
    const ufp: UserfeedPusher
    const webhookSecret: Option<string>
    const hmacHex: (string, string) -> string
    const stringify: Event -> string

    constructor (ldb: LocalDbUpdater, chp: ClubHousePusher, ufp: UserfeedPusher, webhookSecret: Option<string>,
                 hmacHex: (string, string) -> string, stringify: Event -> string)
      ensures this.ldb == ldb && this.chp == chp && this.ufp == ufp
      ensures this.webhookSecret == webhookSecret && this.hmacHex == hmacHex && this.stringify == stringify
    {
      this.ldb := ldb;
      this.chp := chp;
      this.ufp := ufp;
      this.webhookSecret := webhookSecret;
      this.hmacHex := hmacHex;
      this.stringify := stringify;
    }

    /** processClubHouseChange, run to the end of its promise chain. */
    method ProcessClubHouseChange(ev: Event, page: PageFetch, accepts: FormRemote)
      returns (outcome: ChangeOutcome, sent: Option<Request>)
      requires ldb.open
      modifies ldb`docs
      ensures Process(old(ldb.docs), ev, ufp.headers, ufp.encode, page, accepts) == ChangeResult(outcome, ldb.docs, sent)
    {
      if |ev.actions| == 0 {
        return Malformed, None;
      }
      var changes := ev.actions[0].changes;
      if changes.None? || changes.value.workflowState.None? {
        return Ignored, None;
      }
      var story := ldb.FindStory(ev.primaryId);
      if story == null {
        return Untracked, None;
      }
      var mapped := MappedStatus(changes.value.workflowState.value.newId);
      if !ShouldUpdate(mapped, story.userfeedData.status) {
        return Unchanged, None;
      }
      var settled;
      settled, sent := ufp.UpdateStatus(story, mapped.value, page, accepts);
      match settled
      case Resolved =>
        var _ := ldb.UpdateAndCreateStoriesLocal([story]);
        outcome := StatusUpdated;
      case Rejected =>
        outcome := UpdateRejected;
      case Pending =>
        outcome := UpdatePending;
    }

    /** The webhook route: checks the signature when a secret is set, then
        processes the event and answers. */
    method HandleWebhook(header: Option<string>, ev: Event, page: PageFetch, accepts: FormRemote)
      returns (status: int)
      requires ldb.open
      modifies ldb`docs
      ensures var w := Webhook(webhookSecret, header, ev, hmacHex, stringify, old(ldb.docs), ufp.headers, ufp.encode, page, accepts);
        status == w.status && ldb.docs == (if w.change.Some? then w.change.value.docs else old(ldb.docs))
    {
      if NoSecret(webhookSecret) || header == Some(hmacHex(webhookSecret.value, stringify(ev))) {
        var outcome, _ := ProcessClubHouseChange(ev, page, accepts);
        status := if outcome == Malformed then 500 else 200;
      } else {
        status := 401;
      }
    }

    /** syncDataFromUserfeedToClubhouse, run to the end of its promise chain. */
    method SyncDataFromUserfeedToClubhouse(feed: Option<seq<RawRow>>, api: ClubhouseApi, page: PageFetch, accepts: FormRemote)
      returns (outcome: SyncOutcome)
      requires ldb.open
      modifies ldb`docs
      ensures Sync(old(ldb.docs), feed, ldb.statusesToPush, chp.apiToken, api, ufp.headers, ufp.encode, page, accepts)
        == SyncResult(outcome, ldb.docs)
    {
      var loaded := RefreshFromFeed(feed);
      if !loaded {
        return LoadFailed;
      }
      var settled, linked := PushNew(api, page, accepts);
      match settled
      case Rejected =>
        outcome := LinkRejected;
      case Pending =>
        outcome := LinkPending;
      case Resolved =>
        var _ := ldb.UpdateAndCreateStoriesLocal(linked);
        outcome := Synced;
    }

    /** The head of the pipeline: loadPosts, then updateAndCreateStoriesLocal
        of what it loaded. */
    method RefreshFromFeed(feed: Option<seq<RawRow>>) returns (loaded: bool)
      requires ldb.open
      modifies ldb`docs
      ensures loaded == Loaded(feed).Some?
      ensures ldb.docs == if loaded then UpsertAll(old(ldb.docs), Loaded(feed).value) else old(ldb.docs)
    {
      var posts := ufp.LoadPosts(feed);
      if posts.None? {
        return false;
      }
      var _ := ldb.UpdateAndCreateStoriesLocal(posts.value);
      loaded := true;
    }

    /** The middle of the pipeline: findStories(false), createStories and
        linkStoriesToClubHouse on the current collection, which it does not
        change. */
    method PushNew(api: ClubhouseApi, page: PageFetch, accepts: FormRemote)
      returns (settled: Settle, linked: seq<StoryRecord>)
      requires ldb.open
      ensures var steps := LinkAll(CreateResults(Select(ldb.docs, false, ldb.statusesToPush), chp.apiToken, api),
                                   ufp.headers, ufp.encode, page, accepts);
        settled == PromiseAll(Outcomes(steps))
        && (settled == Resolved ==> Snapshots(linked) == Somes(Afters(steps)))
    {
      var created := CreateNew(api);
      settled, linked := LinkCreated(created, page, accepts);
    }

    /** linkStoriesToClubHouse on the records createStories returned: the
        batch's settlement, and on success the linked records' documents. */
    method LinkCreated(created: seq<StoryRecord?>, page: PageFetch, accepts: FormRemote)
      returns (settled: Settle, linked: seq<StoryRecord>)
      modifies created
      ensures var steps := LinkAll(old(OptSnapshots(created)), ufp.headers, ufp.encode, page, accepts);
        settled == PromiseAll(Outcomes(steps))
        && (settled == Resolved ==> Snapshots(linked) == Somes(Afters(steps)))
    {
      ghost var steps := LinkAll(OptSnapshots(created), ufp.headers, ufp.encode, page, accepts);
      var comments;
      settled, linked, comments := ufp.LinkStoriesToClubHouse(created, page, accepts);
      if settled == Resolved {
        forall i | 0 <= i < |steps| ensures steps[i].after == Some(linked[i].Snapshot()) {
          assert created[i] == linked[i];
        }
        LinkedAfters(steps, Snapshots(linked));
      }
    }

    /** findStories(false) then createStories: fresh records for the
        untracked pushable stories, each left in its slot when created. */
    method CreateNew(api: ClubhouseApi) returns (created: seq<StoryRecord?>)
      requires ldb.open
      ensures OptSnapshots(created) == CreateResults(Select(ldb.docs, false, ldb.statusesToPush), chp.apiToken, api)
      ensures forall i :: 0 <= i < |created| && created[i] != null ==> fresh(created[i])
    {
      var toCreate := ldb.FindStories(false);
      created := chp.CreateStories(toCreate, api);
    }

    /** syncDataFromClubhouseToUserfeed: one processClubHouseChange per
        tracked story, until a story without Clubhouse data throws. */
    method SyncDataFromClubhouseToUserfeed(page: PageFetch, accepts: FormRemote) returns (c: CatchUpState)
      requires ldb.open
      modifies ldb`docs
      ensures HasIds(Select(old(ldb.docs), true, ldb.statusesToPush))
      ensures var tracked := Select(old(ldb.docs), true, ldb.statusesToPush);
        c == CatchUp(old(ldb.docs), tracked, ufp.headers, ufp.encode, page, accepts)
      ensures ldb.docs == c.docs
    {
      ghost var docs0 := ldb.docs;
      var stories := ldb.FindStories(true);
      ghost var tracked := Snapshots(stories);
      SelectedHaveIds(docs0, ldb.statusesToPush);
      c := CatchUpState(ldb.docs, [], [], true);
      var i := 0;
      while i < |stories| && c.running
        invariant 0 <= i <= |stories|
        invariant |tracked| == |stories|
        invariant forall k :: 0 <= k < |stories| ==> stories[k].Snapshot() == tracked[k]
        invariant HasIds(tracked)
        invariant c == CatchUp(docs0, tracked[..i], ufp.headers, ufp.encode, page, accepts)
        invariant ldb.docs == c.docs && ldb.open
      {
        CatchUpSnoc(docs0, tracked, i, ufp.headers, ufp.encode, page, accepts);
        c := CatchUpStory(stories[i], c, page, accepts);
        i := i + 1;
      }
      if i < |stories| {
        CatchUpStopped(docs0, tracked, i, ufp.headers, ufp.encode, page, accepts);
      } else {
        assert tracked[..i] == tracked;
      }
    }

    /** One callback of the catch-up's `forEach`, on a running catch-up. */
    method CatchUpStory(story: StoryRecord, c: CatchUpState, page: PageFetch, accepts: FormRemote)
      returns (next: CatchUpState)
      requires ldb.open && ldb.docs == c.docs && c.running && story.clubhouseId.Some?
      modifies ldb`docs
      ensures next == CatchUpStep(c, story.Snapshot(), ufp.headers, ufp.encode, page, accepts)
      ensures ldb.docs == next.docs
    {
      if story.clubhouseData.None? {
        return c.(running := false);
      }
      var ev := Event(story.clubhouseId.value,
        [Action(Some(Changes(Some(StateChange(story.clubhouseData.value.workflowStateId)))))]);
      var outcome, sent := ProcessClubHouseChange(ev, page, accepts);
      next := CatchUpState(ldb.docs, c.sent + (if sent.Some? then [sent.value] else []), c.outcomes + [outcome], true);
    }

    /** The startup script, run to its end; the poll timer is not modelled
        beyond whether it is scheduled (the outcome is `Ran`). */
    method Start(connects: bool, seedFeed: Option<seq<RawRow>>, syncFeed: Option<seq<RawRow>>,
                 api: ClubhouseApi, page: PageFetch, accepts: FormRemote)
      returns (outcome: StartupOutcome, sent: seq<Request>)
      modifies ldb`docs, ldb`hasClient, ldb`open
      ensures Startup(old(ldb.docs), connects, seedFeed, syncFeed, ldb.statusesToPush, chp.apiToken, api,
                      ufp.headers, ufp.encode, page, accepts) == StartupResult(outcome, ldb.docs, sent)
    {
      ldb.InitDbConnection(connects);
      if !connects {
        return NotConnected, [];
      }
      var seeded := ShouldSeed(seedFeed);
      if !seeded {
        return SeedStalled, [];
      }
      var synced := SyncDataFromUserfeedToClubhouse(syncFeed, api, page, accepts);
      if synced != Synced {
        return Ran(synced), [];
      }
      var c := SyncDataFromClubhouseToUserfeed(page, accepts);
      outcome, sent := Ran(Synced), c.sent;
    }

    /** shouldSeed with seedData: seeds from the feed only when the collection
        is empty; `false` when the seed load rejects and the promise never
        settles. */
    method ShouldSeed(seedFeed: Option<seq<RawRow>>) returns (seeded: bool)
      requires ldb.open
      modifies ldb`docs
      ensures seeded == Seeded(old(ldb.docs), seedFeed).Some?
      ensures ldb.docs == if seeded then Seeded(old(ldb.docs), seedFeed).value else old(ldb.docs)
    {
      var count := ldb.StoryCount();
      if count == 0 {
        var posts := ufp.LoadPosts(seedFeed);
        if posts.None? {
          return false;
        }
        ldb.SeedDb(posts.value);
      }
      seeded := true;
    }

    /** The exit handler: closes the database connection. */
    method Shutdown() returns (ok: bool)
      modifies ldb`hasClient, ldb`open
      ensures ok == old(ldb.hasClient) && (ok ==> !ldb.open)
    {
      ok := ldb.CloseDbConnection();
    }
  }

  /** When every link step left a story, the stories serialise to the steps'
      results. */
  lemma LinkedAfters(steps: seq<LinkStep>, linked: seq<Doc>)
    requires |steps| == |linked|
    requires forall i :: 0 <= i < |steps| ==> steps[i].after == Some(linked[i])
    ensures linked == Somes(Afters(steps))
  {
  }
}

/** Creating Clubhouse stories for cached Userfeed records: the request payload
    and the in-place update of a record with the created story. */
module ClubhousePusher {
  import opened Records

  /** The text between a story's description and its Userfeed link. */
  const LinkLabel: string := "\n\n Userfeed Story Link: "

  /** Every story is created in Clubhouse project 4 ... */
  const ProjectId: int := 4

  /** ... as a feature, whatever its Userfeed type. */
  const StoryType: string := "feature"

  /** The body of `POST /api/v2/stories`. `externalId` is `None` when the field
      is undefined and therefore left out of the JSON body. */
  datatype Payload = Payload(
    name: string,
    description: string,
    externalId: Option<string>,
    projectId: int,
    storyType: string)

  /** A create request: the API token travels as a query parameter. */
  datatype CreateRequest = CreateRequest(token: string, payload: Payload)

  /** The Clubhouse API as the sync sees it: the story it answers a create
      request with, or `None` when the request fails. */
  type ClubhouseApi = CreateRequest -> Option<ClubhouseData>

  /** buildDescription: the Userfeed description, the label, then the Userfeed
      link. */
  function BuildDescription(data: UserfeedData): (r: string)
    ensures |r| == |data.desc| + |LinkLabel| + |data.redirectUrl|
    ensures r[..|data.desc|] == data.desc
    ensures r[|data.desc|..|data.desc| + |LinkLabel|] == LinkLabel
    ensures r[|data.desc| + |LinkLabel|..] == data.redirectUrl
  {
    data.desc + LinkLabel + data.redirectUrl
  }

  /** The payload createStory sends for a record. The external id is read
      from the record's top-level `id` field, which story records never have,
      so it is always left out. */
  function BuildPayload(story: Doc): Payload
  {
    Payload(story.userfeedData.title, BuildDescription(story.userfeedData), None, ProjectId, StoryType)
  }

  /** A record after a successful create: `clubhouseId` and `clubhouseData`
      come from the response. */
  function Created(story: Doc, response: ClubhouseData): Doc
  {
    story.(clubhouseId := Some(response.id), clubhouseData := Some(response))
  }

  /** The outcome of createStory for a record: the updated record, or `None`
      (the promise resolves with `undefined`) when the request fails. */
  function CreateResult(story: Doc, token: string, api: ClubhouseApi): Option<Doc>
  {
    match api(CreateRequest(token, BuildPayload(story)))
    case Some(response) => Some(Created(story, response))
    case None => None
  }

  /** The state of a record after createStory, success or not. */
  function AfterCreate(story: Doc, token: string, api: ClubhouseApi): Doc
  {
    match CreateResult(story, token, api)
    case Some(d) => d
    case None => story
  }

  /** The results of createStories, slot by slot. */
  function CreateResults(stories: seq<Doc>, token: string, api: ClubhouseApi): (rs: seq<Option<Doc>>)
    ensures |rs| == |stories|
    ensures forall i :: 0 <= i < |stories| ==> rs[i] == CreateResult(stories[i], token, api)
  {
    if stories == [] then []
    else CreateResults(stories[..|stories| - 1], token, api) + [CreateResult(stories[|stories| - 1], token, api)]
  }

  /** The payload carries the story's title, then its description followed by
      its Userfeed link; it is always a feature of project 4 with no external
      id. */
  lemma PayloadContents(story: Doc)
    ensures BuildPayload(story).name == story.userfeedData.title
    ensures BuildPayload(story).description[..|story.userfeedData.desc|] == story.userfeedData.desc
    ensures var d := BuildPayload(story).description;
      |d| >= |story.userfeedData.redirectUrl|
      && d[|d| - |story.userfeedData.redirectUrl|..] == story.userfeedData.redirectUrl
    ensures BuildPayload(story).projectId == 4 && BuildPayload(story).storyType == "feature"
    ensures BuildPayload(story).externalId.None?
  {
    var d := BuildPayload(story).description;
    assert d[|d| - |story.userfeedData.redirectUrl|..]
      == d[|story.userfeedData.desc| + |LinkLabel|..];
  }

  /** Only the title, description and link reach Clubhouse: two records that
      agree on those get the same payload, whatever their type, status or
      Clubhouse fields. */
  lemma PayloadDependsOnlyOnText(a: Doc, b: Doc)
    requires a.userfeedData.title == b.userfeedData.title
    requires a.userfeedData.desc == b.userfeedData.desc
    requires a.userfeedData.redirectUrl == b.userfeedData.redirectUrl
    ensures BuildPayload(a) == BuildPayload(b)
  {
  }

  /** A successful create changes only the two Clubhouse fields, records the
      id of the response, and leaves the record outside the push filter; a
      failed create changes nothing. Creating again from the result sends the
      same request. */
  lemma CreateResultSpec(story: Doc, token: string, api: ClubhouseApi)
    ensures CreateResult(story, token, api).Some? <==> api(CreateRequest(token, BuildPayload(story))).Some?
    ensures CreateResult(story, token, api).Some? ==>
      var d := CreateResult(story, token, api).value;
      d.userfeedId == story.userfeedId
      && d.userfeedData == story.userfeedData
      && d.clubhouseData == api(CreateRequest(token, BuildPayload(story)))
      && d.clubhouseId == Some(d.clubhouseData.value.id)
      && BuildPayload(d) == BuildPayload(story)
    ensures CreateResult(story, token, api).None? ==> AfterCreate(story, token, api) == story
  {
  }

  /** A create keeps the Userfeed side of the record, so the payload built
      from the record afterwards is the one that was sent. */
  lemma AfterCreateKeepsPayload(story: Doc, token: string, api: ClubhouseApi)
    ensures AfterCreate(story, token, api).userfeedId == story.userfeedId
    ensures AfterCreate(story, token, api).userfeedData == story.userfeedData
    ensures BuildPayload(AfterCreate(story, token, api)) == BuildPayload(story)
  {
  }

  /** Pointwise: records whose Userfeed fields were kept and whose Clubhouse
      fields were set from the response exactly when there was one are the
      states and results createStory specifies. */
  lemma CreateOutcomes(before: seq<Doc>, now: seq<Doc>, outs: seq<Option<Doc>>, token: string, api: ClubhouseApi)
    requires |now| == |before| == |outs|
    requires forall k :: 0 <= k < |before| ==>
      now[k].userfeedId == before[k].userfeedId && now[k].userfeedData == before[k].userfeedData
    requires forall k :: 0 <= k < |before| ==>
      var resp := api(CreateRequest(token, BuildPayload(before[k])));
      (resp.Some? ==> now[k].clubhouseId == Some(resp.value.id) && now[k].clubhouseData == resp)
      && (resp.None? ==> now[k].clubhouseId == before[k].clubhouseId && now[k].clubhouseData == before[k].clubhouseData)
      && outs[k] == if resp.Some? then Some(now[k]) else None
    ensures forall k :: 0 <= k < |before| ==> now[k] == AfterCreate(before[k], token, api)
    ensures outs == CreateResults(before, token, api)
  {
  }

  /** What the Clubhouse API answers the create request for a record. */
  function Response(story: Doc, token: string, api: ClubhouseApi): Option<ClubhouseData>
  {
    api(CreateRequest(token, BuildPayload(story)))
  }

  /** During createStories: every object kept its Userfeed fields, and its
      Clubhouse fields are the response's once its slot (or one holding the
      same object) was processed, and the old ones where the request fails. */
  ghost predicate CreatedUpTo(stories: seq<StoryRecord>, before: seq<Doc>, token: string, api: ClubhouseApi, i: nat)
    reads stories
  {
    |stories| == |before|
    && forall k :: 0 <= k < |stories| ==> SlotCreated(stories[k], before[k], Response(before[k], token, api), k < i)
  }

  /** One object during createStories, as CreatedUpTo describes it. */
  ghost predicate SlotCreated(r: StoryRecord, before: Doc, resp: Option<ClubhouseData>, done: bool)
    reads r
  {
    r.userfeedId == before.userfeedId && r.userfeedData == before.userfeedData
    && (resp.None? ==> r.clubhouseId == before.clubhouseId && r.clubhouseData == before.clubhouseData)
    && (resp.Some? && done ==> r.clubhouseId == Some(resp.value.id) && r.clubhouseData == resp)
  }

  /** Once every slot is processed, the objects and the results are what
      createStory specifies slot by slot. */
  lemma CreatedAll(stories: seq<StoryRecord>, results: seq<StoryRecord?>, before: seq<Doc>, token: string, api: ClubhouseApi)
    requires CreatedUpTo(stories, before, token, api, |stories|)
    requires |results| == |stories|
    requires forall k :: 0 <= k < |stories| ==>
      results[k] == if Response(before[k], token, api).Some? then stories[k] else null
    ensures forall k :: 0 <= k < |stories| ==> stories[k].Snapshot() == AfterCreate(before[k], token, api)
    ensures forall k :: 0 <= k < |stories| ==>
      results[k] == if CreateResult(before[k], token, api).Some? then stories[k] else null
    ensures OptSnapshots(results) == CreateResults(before, token, api)
  {
    var now := Snapshots(stories);
    var outs := OptSnapshots(results);
    assert forall k :: 0 <= k < |stories| ==> SlotCreated(stories[k], before[k], Response(before[k], token, api), true);
    CreateOutcomes(before, now, outs, token, api);
  }

  /** The clubHousePusher object. */
  class ClubHousePusher {
    const apiToken: string

    constructor (apiToken: string)
      ensures this.apiToken == apiToken
    {
      this.apiToken := apiToken;
    }

    /** createStory: posts the payload; on success sets `clubhouseId` and
        `clubhouseData` on the same object and returns it, on failure leaves
        it untouched and returns `undefined` (null). */
    method CreateStory(data: StoryRecord, api: ClubhouseApi) returns (r: StoryRecord?, sent: CreateRequest)
      modifies data
      ensures sent == CreateRequest(apiToken, BuildPayload(old(data.Snapshot())))
      ensures r == (if api(sent).Some? then data else null)
      ensures data.userfeedId == old(data.userfeedId) && data.userfeedData == old(data.userfeedData)
      ensures api(sent).Some? ==>
        data.clubhouseId == Some(api(sent).value.id) && data.clubhouseData == api(sent)
      ensures api(sent).None? ==>
        data.clubhouseId == old(data.clubhouseId) && data.clubhouseData == old(data.clubhouseData)
    {
      sent := CreateRequest(apiToken, BuildPayload(data.Snapshot()));
      var response := api(sent);
      match response
      case Some(res) =>
        data.clubhouseId := Some(res.id);
        data.clubhouseData := Some(res);
        r := data;
      case None =>
        r := null;
    }

    /** createStories: one createStory per input, results in input order.
        The request sent for each input is `CreateRequest(apiToken,
        BuildPayload(...))` of its state on entry (see CreateStory). */
    method CreateStories(stories: seq<StoryRecord>, api: ClubhouseApi) returns (results: seq<StoryRecord?>)
      modifies stories
      ensures |results| == |stories|
      ensures forall i :: 0 <= i < |stories| ==>
        results[i] == if CreateResult(old(stories[i].Snapshot()), apiToken, api).Some? then stories[i] else null
      ensures forall i :: 0 <= i < |stories| ==>
        stories[i].Snapshot() == AfterCreate(old(stories[i].Snapshot()), apiToken, api)
      ensures OptSnapshots(results) == CreateResults(old(Snapshots(stories)), apiToken, api)
    {
      ghost var before := Snapshots(stories);
      results := CreateEach(stories, api);
      CreatedAll(stories, results, before, apiToken, api);
    }

    /** The loop of createStories: createStory on each input in turn. */
    method CreateEach(stories: seq<StoryRecord>, api: ClubhouseApi) returns (results: seq<StoryRecord?>)
      modifies stories
      ensures CreatedUpTo(stories, old(Snapshots(stories)), apiToken, api, |stories|)
      ensures |results| == |stories|
      ensures forall k :: 0 <= k < |stories| ==>
        results[k] == if Response(old(Snapshots(stories))[k], apiToken, api).Some? then stories[k] else null
    {
      ghost var before := Snapshots(stories);
      results := [];
      var i := 0;
      while i < |stories|
        invariant 0 <= i <= |stories|
        invariant CreatedUpTo(stories, before, apiToken, api, i)
        invariant |results| == i
        invariant forall k :: 0 <= k < i ==>
          results[k] == if Response(before[k], apiToken, api).Some? then stories[k] else null
      {
        var r := CreateSlot(stories, i, before, api);
        results := results + [r];
        i := i + 1;
      }
    }

    /** createStory on slot `i`; slots holding the same object see the same
        update. */
    method CreateSlot(stories: seq<StoryRecord>, i: nat, ghost before: seq<Doc>, api: ClubhouseApi)
      returns (r: StoryRecord?)
      requires i < |stories|
      requires CreatedUpTo(stories, before, apiToken, api, i)
      requires forall k :: 0 <= k < |stories| && stories[k] == stories[i] ==> before[k] == before[i]
      modifies stories[i]
      ensures CreatedUpTo(stories, before, apiToken, api, i + 1)
      ensures r == if Response(before[i], apiToken, api).Some? then stories[i] else null
    {
      PayloadDependsOnlyOnText(stories[i].Snapshot(), before[i]);
      var sent;
      r, sent := CreateStory(stories[i], api);
    }
  }
}

/** The scraped Userfeed side: normalising feed rows into story records, and
    the two form posts (status change and Clubhouse link comment), each preceded
    by a page fetch that records the story's resolved URL and yields its form
    token. */
module UserfeedPusher {
  import opened Records

  /** The prefix parseData puts before a story link's href. */
  const UserfeedOrigin: string := "https://www.userfeed.io"

  /** The `accept` header of the page fetches and the form posts. */
  const HtmlAccept: string :=
    "text/html,application/xhtml+xml,application/xml;q=0.9,image/webp,image/apng,*/*;q=0.8,application/signed-exchange;v=b3"

  /** The `content-type` header of the comment post. */
  const FormContentType: string := "application/x-www-form-urlencoded"

  /** The pieces of the comment form body around the token and the link. */
  const CommentHead: string := "authenticity_token="
  const CommentMid: string :=
    "&utf8=%E2%9C%93&comment%5Bbody%5D=Clubhouse+story+url%3A%26nbsp%3B%3Ca+href%3D%22"
  const CommentLinkSep: string := "%22%3E"
  const CommentTail: string := "%3C%2Fa%3E&comment%5Bvisibility%5D=internal"

  /** The form body of the status change, before the token. */
  const StatusBodyHead: string := "_method=put&authenticity_token="

  /** The path appended to a story's resolved URL for a status change. */
  const SetStatusPath: string := "/set_status?status="

  /** The path appended to a story's resolved URL for a comment. */
  const CommentsPath: string := "/comments"

  // ---------------------------------------------------------------------------
  // Feed rows
  // ---------------------------------------------------------------------------

  /** The first `<span>` of a row summary as parseData sees it: no span at all,
      a node without a child list, or a child list whose first entry carries
      text (`None` when the list is empty or its first child has no text). */
  datatype TypeSpan = NoSpan | NoChildList | Children(firstText: Option<string>)

  /** The values parseData extracts from a row's summary HTML: the type span,
      the text of the first link (`None` when there is no link or it has no
      child), its href (`None` when the attribute is absent), and the text of
      the first paragraph (`None` when there is none or it has no child). */
  datatype Summary = Summary(
    typeSpan: TypeSpan,
    title: Option<string>,
    href: Option<string>,
    desc: Option<string>)

  /** One row of the feed's JSON `data` array. */
  datatype RawRow = RawRow(rowId: string, status: string, summary: Summary)

  /** `sub` occurs in `s` at index `i`. */
  predicate OccursAt(s: string, sub: string, i: int)
  {
    0 <= i <= |s| - |sub| && s[i..i + |sub|] == sub
  }

  /** `s` contains `sub` (String.prototype.includes). */
  predicate Contains(s: string, sub: string)
    decreases |s|
  {
    |sub| <= |s| && (s[..|sub|] == sub || Contains(s[1..], sub))
  }

  /** The type text read from the span: `""` when the node has no child list;
      `None` where reading it throws a TypeError. */
  function TypeText(span: TypeSpan): Option<string>
  {
    match span
    case NoSpan => None
    case NoChildList => Some("")
    case Children(first) => first
  }

  /** The Userfeed type stored for a type text. */
  function KindOf(typeText: string): string
  {
    if Contains(typeText, "Bug") then "bug" else "feature"
  }

  /** parseData: the record built from a row, or `None` when extraction throws. */
  function ParseData(row: RawRow): Option<Doc>
  {
    var s := row.summary;
    if TypeText(s.typeSpan).None? || s.title.None? || s.desc.None? then None
    else
      Some(Doc(
        row.rowId,
        UserfeedData(
          row.rowId,
          row.status,
          s.title.value,
          s.desc.value,
          KindOf(TypeText(s.typeSpan).value),
          UserfeedOrigin + JsText(s.href),
          None),
        None,
        None))
  }

  /** parseObjects: every row parsed in order, or `None` as soon as one row
      throws. */
  function ParseAll(rows: seq<RawRow>): (r: Option<seq<Doc>>)
    ensures r.Some? <==> forall i :: 0 <= i < |rows| ==> ParseData(rows[i]).Some?
    ensures r.Some? ==>
      |r.value| == |rows| && forall i :: 0 <= i < |rows| ==> Some(r.value[i]) == ParseData(rows[i])
  {
    if rows == [] then Some([])
    else
      match ParseAll(rows[..|rows| - 1])
      case None => None
      case Some(init) =>
        match ParseData(rows[|rows| - 1])
        case None => None
        case Some(d) => Some(init + [d])
  }

  /** loadPosts: the parsed rows of the feed response, or `None` when the
      request fails or a row cannot be parsed. */
  function Loaded(feed: Option<seq<RawRow>>): Option<seq<Doc>>
  {
    match feed
    case None => None
    case Some(rows) => ParseAll(rows)
  }

  /** `includes` finds exactly the occurrences of `sub` in `s`. */
  lemma {:induction false} ContainsOccurrence(s: string, sub: string)
    ensures Contains(s, sub) <==> exists i :: OccursAt(s, sub, i)
    decreases |s|
  {
    if |sub| <= |s| && s[..|sub|] != sub {
      ContainsOccurrence(s[1..], sub);
      if Contains(s[1..], sub) {
        var j :| OccursAt(s[1..], sub, j);
        assert s[j + 1..j + 1 + |sub|] == s[1..][j..j + |sub|];
        assert OccursAt(s, sub, j + 1);
      }
      if i :| OccursAt(s, sub, i) {
        assert i != 0;
        assert s[1..][i - 1..i - 1 + |sub|] == s[i..i + |sub|];
        assert OccursAt(s[1..], sub, i - 1);
      }
    } else if |sub| <= |s| {
      assert OccursAt(s, sub, 0);
    }
  }

  /** A parsed row: `userfeedId` and `userfeedData.id` are both the row id, the
      status is copied, the record carries no Clubhouse fields and no resolved
      URL, and the link is the Userfeed origin followed by the href (the text
      "undefined" when the href is absent). Parsing fails exactly when the type
      span, the first link's text or the first paragraph's text cannot be
      read. */
  lemma ParseDataSpec(row: RawRow)
    ensures ParseData(row).None? <==>
      TypeText(row.summary.typeSpan).None? || row.summary.title.None? || row.summary.desc.None?
    ensures ParseData(row).Some? ==>
      var d := ParseData(row).value;
      d.userfeedId == row.rowId && d.userfeedData.id == row.rowId
      && d.userfeedData.status == row.status
      && Some(d.userfeedData.title) == row.summary.title
      && Some(d.userfeedData.desc) == row.summary.desc
      && d.clubhouseId.None? && d.clubhouseData.None? && d.userfeedData.trueUrl.None?
      && d.userfeedData.redirectUrl[..|UserfeedOrigin|] == UserfeedOrigin
      && d.userfeedData.redirectUrl[|UserfeedOrigin|..] == JsText(row.summary.href)
  {
    if ParseData(row).Some? {
      var u := ParseData(row).value.userfeedData.redirectUrl;
      assert u == UserfeedOrigin + JsText(row.summary.href);
    }
  }

  /** The type rule: a parsed row is a bug exactly when its type text contains
      "Bug", and a feature otherwise, in particular when the span has no child
      list. */
  lemma KindRule(row: RawRow)
    requires ParseData(row).Some?
    ensures var t := TypeText(row.summary.typeSpan).value;
      ParseData(row).value.userfeedData.kind == "bug" <==>
        exists i :: OccursAt(t, "Bug", i)
    ensures ParseData(row).value.userfeedData.kind in {"bug", "feature"}
    ensures row.summary.typeSpan.NoChildList? ==> ParseData(row).value.userfeedData.kind == "feature"
  {
    ContainsOccurrence(TypeText(row.summary.typeSpan).value, "Bug");
  }

  // ---------------------------------------------------------------------------
  // Requests and page fetches
  // ---------------------------------------------------------------------------

  /** An outgoing form request. */
  datatype Request = Request(verb: string, url: string, headers: map<string, string>, body: string)

  /** What getPostHtml and findFormAuthenticityToken extract from a story page:
      the URL the redirect ends at and the page's CSRF token. */
  datatype Page = Page(trueUrl: string, token: string)

  /** The story pages as the sync sees them, by redirect URL: `None` when the
      fetch fails or the page has no CSRF meta tag. */
  type PageFetch = string -> Option<Page>

  /** The Userfeed server's answer to a form request: whether it succeeds. */
  type FormRemote = Request -> bool

  /** How a promise ends: resolved, rejected, or never settled. */
  datatype Settle = Resolved | Rejected | Pending

  /** A copy of the stored headers with one header set. */
  function WithHeader(headers: map<string, string>, name: string, value: string): map<string, string>
  {
    headers[name := value]
  }

  /** Setting a header on the copy sets exactly that header and keeps every
      other stored header. */
  lemma WithHeaderSpec(headers: map<string, string>, name: string, value: string)
    ensures var r := WithHeader(headers, name, value);
      name in r && r[name] == value
      && (forall h :: h in headers && h != name ==> h in r && r[h] == headers[h])
      && r.Keys == headers.Keys + {name}
  {
  }

  /** findFormAuthenticityToken's update: `trueUrl` becomes the resolved URL. */
  function WithTrueUrl(d: Doc, p: Page): (r: Doc)
  {
    d.(userfeedData := d.userfeedData.(trueUrl := Some(p.trueUrl)))
  }

  /** The comment form body: the encoded token, then the encoded Clubhouse URL
      as the link target and again as the link text. */
  function CommentBody(token: string, appUrl: string, encode: string -> string): string
  {
    CommentHead + encode(token) + CommentMid + encode(appUrl) + CommentLinkSep + encode(appUrl) + CommentTail
  }

  /** addClubHouseLink's post, or `None` when the story has no Clubhouse data
      (reading `app_url` throws). */
  function CommentRequest(d: Doc, token: string, headers: map<string, string>, encode: string -> string): Option<Request>
  {
    match d.clubhouseData
    case None => None
    case Some(ch) =>
      Some(Request(
        "post",
        JsText(d.userfeedData.trueUrl) + CommentsPath,
        WithHeader(WithHeader(headers, "accept", HtmlAccept), "content-type", FormContentType),
        CommentBody(token, ch.appUrl, encode)))
  }

  /** updateStatus's put to the story's resolved URL. */
  function StatusRequest(trueUrl: string, newStatus: string, token: string, headers: map<string, string>,
                         encode: string -> string): Request
  {
    Request("put", trueUrl + SetStatusPath + newStatus, WithHeader(headers, "accept", HtmlAccept),
            StatusBodyHead + encode(token))
  }

  /** The comment body carries the encoded token after the field name and the
      encoded Clubhouse URL twice, as link target and as link text. */
  lemma CommentBodySpec(token: string, appUrl: string, encode: string -> string)
    ensures var body := CommentBody(token, appUrl, encode);
      var app := encode(appUrl);
      var afterToken := |CommentHead| + |encode(token)|;
      var linkAt := afterToken + |CommentMid|;
      body[..|CommentHead|] == CommentHead
      && body[|CommentHead|..afterToken] == encode(token)
      && body[linkAt..linkAt + |app|] == app
      && body[linkAt + |app| + |CommentLinkSep|..linkAt + 2 * |app| + |CommentLinkSep|] == app
  {
    FormParts(CommentHead, encode(token), CommentMid, encode(appUrl), CommentLinkSep, CommentTail);
  }

  /** Where the parts of a body made of a head, a token, a middle, a link, a
      separator, the link again and a tail are found. */
  lemma FormParts(h: string, t: string, m: string, a: string, sep: string, tail: string)
    ensures var body := h + t + m + a + sep + a + tail;
      var linkAt := |h| + |t| + |m|;
      body[..|h|] == h
      && body[|h|..|h| + |t|] == t
      && body[linkAt..linkAt + |a|] == a
      && body[linkAt + |a| + |sep|..linkAt + 2 * |a| + |sep|] == a
  {
    var body := h + t + m + a + sep + a + tail;
    var linkAt := |h| + |t| + |m|;
    assert body[..|h|] == h;
    assert body[|h|..|h| + |t|] == t;
    assert body[linkAt..linkAt + |a|] == a;
    assert body[linkAt + |a| + |sep|..linkAt + 2 * |a| + |sep|] == a;
  }

  /** The comment goes to the story's resolved URL followed by `/comments`,
      exactly when the story has Clubhouse data, with the body above; the form
      posts add headers to a copy of the stored ones and keep every other
      header. */
  lemma CommentRequestSpec(d: Doc, token: string, headers: map<string, string>, encode: string -> string)
    ensures CommentRequest(d, token, headers, encode).Some? <==> d.clubhouseData.Some?
    ensures CommentRequest(d, token, headers, encode).Some? ==>
      var req := CommentRequest(d, token, headers, encode).value;
      var url := JsText(d.userfeedData.trueUrl);
      req.verb == "post"
      && req.url[..|url|] == url && req.url[|url|..] == CommentsPath
      && req.body == CommentBody(token, d.clubhouseData.value.appUrl, encode)
      && req.headers["accept"] == HtmlAccept && req.headers["content-type"] == FormContentType
      && forall h :: h in headers && h != "accept" && h != "content-type" ==> h in req.headers && req.headers[h] == headers[h]
  {
  }

  /** The status request's URL is the resolved URL, the set-status path and the
      new status, so the status can be read back from its end. */
  lemma StatusRequestSpec(trueUrl: string, newStatus: string, token: string, headers: map<string, string>,
                          encode: string -> string)
    ensures var req := StatusRequest(trueUrl, newStatus, token, headers, encode);
      req.verb == "put"
      && req.url[..|trueUrl|] == trueUrl
      && req.url[|trueUrl|..|trueUrl| + |SetStatusPath|] == SetStatusPath
      && req.url[|req.url| - |newStatus|..] == newStatus
      && req.body[|StatusBodyHead|..] == encode(token)
      && req.headers["accept"] == HtmlAccept
      && forall h :: h in headers && h != "accept" ==> h in req.headers && req.headers[h] == headers[h]
  {
    var req := StatusRequest(trueUrl, newStatus, token, headers, encode);
    assert req.url == trueUrl + SetStatusPath + newStatus;
  }

  // ---------------------------------------------------------------------------
  // Status change and link comment as values
  // ---------------------------------------------------------------------------

  /** The outcome of updateStatus for a story: how its promise ends, the story
      afterwards, and the put it sends. */
  datatype StatusStep = StatusStep(outcome: Settle, after: Doc, sent: Option<Request>)

  /** updateStatus. A failed page fetch rejects the inner promise, which nothing
      handles, so the returned promise never settles and the story is
      untouched. Otherwise `trueUrl` is recorded; the status changes only when
      the put succeeds. */
  function StatusUpdate(d: Doc, newStatus: string, headers: map<string, string>, encode: string -> string,
                        page: PageFetch, accepts: FormRemote): StatusStep
  {
    match page(d.userfeedData.redirectUrl)
    case None => StatusStep(Pending, d, None)
    case Some(p) =>
      var fetched := WithTrueUrl(d, p);
      var req := StatusRequest(p.trueUrl, newStatus, p.token, headers, encode);
      if accepts(req) then
        StatusStep(Resolved, fetched.(userfeedData := fetched.userfeedData.(status := newStatus)), Some(req))
      else StatusStep(Rejected, fetched, Some(req))
  }

  /** A status update changes at most `trueUrl` and `status` of the story; a
      resolved one sets the status to the requested one and the URL to the
      resolved page, and puts to that page. */
  lemma StatusUpdateSpec(d: Doc, newStatus: string, headers: map<string, string>, encode: string -> string,
                         page: PageFetch, accepts: FormRemote)
    ensures var st := StatusUpdate(d, newStatus, headers, encode, page, accepts);
      st.after.userfeedId == d.userfeedId
      && st.after.clubhouseId == d.clubhouseId && st.after.clubhouseData == d.clubhouseData
      && st.after.userfeedData.(status := d.userfeedData.status, trueUrl := d.userfeedData.trueUrl) == d.userfeedData
    ensures var st := StatusUpdate(d, newStatus, headers, encode, page, accepts);
      st.outcome == Resolved <==> page(d.userfeedData.redirectUrl).Some? && st.sent.Some? && accepts(st.sent.value)
    ensures var st := StatusUpdate(d, newStatus, headers, encode, page, accepts);
      st.outcome == Resolved ==>
        st.after.userfeedData.status == newStatus
        && st.after.userfeedData.trueUrl == Some(page(d.userfeedData.redirectUrl).value.trueUrl)
        && st.sent.value.url == page(d.userfeedData.redirectUrl).value.trueUrl + SetStatusPath + newStatus
    ensures var st := StatusUpdate(d, newStatus, headers, encode, page, accepts);
      st.outcome != Resolved ==> st.after.userfeedData.status == d.userfeedData.status
    ensures var st := StatusUpdate(d, newStatus, headers, encode, page, accepts);
      st.outcome == Pending <==> page(d.userfeedData.redirectUrl).None?
    ensures var st := StatusUpdate(d, newStatus, headers, encode, page, accepts);
      st.outcome == Pending ==> st.after == d && st.sent.None?
  {
  }

  /** One story of linkStoriesToClubHouse: how its promise ends, the story
      afterwards (`None` for an undefined slot), and the comment it posts. */
  datatype LinkStep = LinkStep(outcome: Settle, after: Option<Doc>, sent: Option<Request>)

  /** findFormAuthenticityToken then addClubHouseLink. An undefined slot throws
      inside the promise executor, so its promise rejects; a failed page fetch
      leaves its promise unsettled; a story without Clubhouse data rejects. */
  function LinkOne(d: Option<Doc>, headers: map<string, string>, encode: string -> string,
                   page: PageFetch, accepts: FormRemote): LinkStep
  {
    match d
    case None => LinkStep(Rejected, None, None)
    case Some(doc) =>
      match page(doc.userfeedData.redirectUrl)
      case None => LinkStep(Pending, d, None)
      case Some(p) =>
        var fetched := WithTrueUrl(doc, p);
        match CommentRequest(fetched, p.token, headers, encode)
        case None => LinkStep(Rejected, Some(fetched), None)
        case Some(req) => LinkStep(if accepts(req) then Resolved else Rejected, Some(fetched), Some(req))
  }

  /** linkStoriesToClubHouse, slot by slot. */
  function LinkAll(ds: seq<Option<Doc>>, headers: map<string, string>, encode: string -> string,
                   page: PageFetch, accepts: FormRemote): (steps: seq<LinkStep>)
    ensures |steps| == |ds|
  {
    if ds == [] then []
    else LinkAll(ds[..|ds| - 1], headers, encode, page, accepts) + [LinkOne(ds[|ds| - 1], headers, encode, page, accepts)]
  }

  /** Slot `k` of LinkAll is the link step of slot `k`. */
  lemma {:induction false} LinkAllAt(ds: seq<Option<Doc>>, headers: map<string, string>, encode: string -> string,
                                     page: PageFetch, accepts: FormRemote, k: nat)
    requires k < |ds|
    ensures LinkAll(ds, headers, encode, page, accepts)[k] == LinkOne(ds[k], headers, encode, page, accepts)
  {
    if k < |ds| - 1 {
      LinkAllAt(ds[..|ds| - 1], headers, encode, page, accepts, k);
    }
  }

  /** `Promise.all`: rejected as soon as one promise rejects, resolved when all
      resolve, and otherwise never settled. */
  function PromiseAll(outcomes: seq<Settle>): (r: Settle)
    ensures r == Rejected <==> exists i :: 0 <= i < |outcomes| && outcomes[i] == Rejected
    ensures r == Resolved <==> forall i :: 0 <= i < |outcomes| ==> outcomes[i] == Resolved
  {
    if outcomes == [] then Resolved
    else
      var init := PromiseAll(outcomes[..|outcomes| - 1]);
      var last := outcomes[|outcomes| - 1];
      if init == Rejected || last == Rejected then Rejected
      else if init == Pending || last == Pending then Pending
      else Resolved
  }

  /** The outcomes of a list of link steps. */
  function Outcomes(steps: seq<LinkStep>): (r: seq<Settle>)
    ensures |r| == |steps|
    ensures forall i :: 0 <= i < |steps| ==> r[i] == steps[i].outcome
  {
    if steps == [] then [] else Outcomes(steps[..|steps| - 1]) + [steps[|steps| - 1].outcome]
  }

  /** The states a list of link steps leaves its slots in. */
  function Afters(steps: seq<LinkStep>): (r: seq<Option<Doc>>)
    ensures |r| == |steps|
    ensures forall i :: 0 <= i < |steps| ==> r[i] == steps[i].after
  {
    if steps == [] then [] else Afters(steps[..|steps| - 1]) + [steps[|steps| - 1].after]
  }

  /** The comments a list of link steps posts, in order. */
  function SentComments(steps: seq<LinkStep>): (r: seq<Request>)
    ensures |r| <= |steps|
  {
    if steps == [] then []
    else
      var last := steps[|steps| - 1];
      SentComments(steps[..|steps| - 1]) + (if last.sent.Some? then [last.sent.value] else [])
  }

  /** Outcomes and comments of one more step. */
  lemma StepsSnoc(steps: seq<LinkStep>, i: nat)
    requires i < |steps|
    ensures Outcomes(steps[..i + 1]) == Outcomes(steps[..i]) + [steps[i].outcome]
    ensures SentComments(steps[..i + 1])
      == SentComments(steps[..i]) + (if steps[i].sent.Some? then [steps[i].sent.value] else [])
  {
    assert steps[..i + 1][..i] == steps[..i];
  }

  /** A link step changes at most `trueUrl`; a resolved one has posted a
      comment to the resolved page carrying the story's Clubhouse URL. An
      undefined slot rejects the whole batch. */
  lemma LinkOneSpec(d: Option<Doc>, headers: map<string, string>, encode: string -> string,
                    page: PageFetch, accepts: FormRemote)
    ensures var st := LinkOne(d, headers, encode, page, accepts);
      d.None? ==> st.outcome == Rejected && st.after.None? && st.sent.None?
    ensures var st := LinkOne(d, headers, encode, page, accepts);
      d.Some? ==>
        st.after.Some? && Stripped(st.after.value) == Stripped(d.value)
    ensures var st := LinkOne(d, headers, encode, page, accepts);
      st.outcome == Resolved ==>
        var p := page(d.value.userfeedData.redirectUrl).value;
        d.Some? && d.value.clubhouseData.Some?
        && st.after == Some(WithTrueUrl(d.value, p))
        && st.sent == CommentRequest(WithTrueUrl(d.value, p), p.token, headers, encode)
        && st.sent.value.url == p.trueUrl + CommentsPath
        && accepts(st.sent.value)
  {
  }

  /** A batch with an undefined slot is rejected, whatever happens to the
      others. */
  lemma UndefinedSlotRejectsBatch(ds: seq<Option<Doc>>, k: nat, headers: map<string, string>,
                                  encode: string -> string, page: PageFetch, accepts: FormRemote)
    requires k < |ds| && ds[k].None?
    ensures PromiseAll(Outcomes(LinkAll(ds, headers, encode, page, accepts))) == Rejected
  {
    LinkAllAt(ds, headers, encode, page, accepts, k);
    assert Outcomes(LinkAll(ds, headers, encode, page, accepts))[k] == Rejected;
  }

  /** How a link step ends and what it posts do not depend on the story's
      earlier `trueUrl`: the page fetch overwrites it before it is read. */
  lemma LinkOneIgnoresTrueUrl(a: Doc, b: Doc, headers: map<string, string>, encode: string -> string,
                              page: PageFetch, accepts: FormRemote)
    requires Stripped(a) == Stripped(b)
    ensures LinkOne(Some(a), headers, encode, page, accepts).outcome == LinkOne(Some(b), headers, encode, page, accepts).outcome
    ensures LinkOne(Some(a), headers, encode, page, accepts).sent == LinkOne(Some(b), headers, encode, page, accepts).sent
  {
    assert a.userfeedData.redirectUrl == Stripped(a).userfeedData.redirectUrl;
    if page(a.userfeedData.redirectUrl).Some? {
      var p := page(a.userfeedData.redirectUrl).value;
      assert WithTrueUrl(a, p) == WithTrueUrl(b, p);
    }
  }

  // ---------------------------------------------------------------------------
  // The pusher object
  // ---------------------------------------------------------------------------

  /** The userfeedPusher object: the feed URL, the stored request headers, and
      the URL-component encoder its form bodies use. */
  class UserfeedPusher {
    const storiesUrl: string
    const headers: map<string, string>
    const encode: string -> string

    constructor (storiesUrl: string, headers: map<string, string>, encode: string -> string)
      ensures this.storiesUrl == storiesUrl && this.headers == headers && this.encode == encode
    {
      this.storiesUrl := storiesUrl;
      this.headers := headers;
      this.encode := encode;
    }

    /** parseObjects: one fresh record per row, in row order; the first row
        that cannot be parsed aborts the whole list. */
    method ParseObjects(rows: seq<RawRow>) returns (posts: Option<seq<StoryRecord>>)
      ensures posts.Some? <==> ParseAll(rows).Some?
      ensures posts.Some? ==> Snapshots(posts.value) == ParseAll(rows).value
      ensures posts.Some? ==> Distinct(posts.value) && forall i :: 0 <= i < |posts.value| ==> fresh(posts.value[i])
    {
      var processed: seq<StoryRecord> := [];
      var i := 0;
      while i < |rows|
        invariant 0 <= i <= |rows|
        invariant |processed| == i
        invariant forall k :: 0 <= k < i ==> Some(processed[k].Snapshot()) == ParseData(rows[k])
        invariant forall k :: 0 <= k < |processed| ==> fresh(processed[k])
        invariant Distinct(processed)
      {
        var d := ParseData(rows[i]);
        if d.None? {
          return None;
        }
        var r := new StoryRecord(d.value);
        processed := processed + [r];
        i := i + 1;
      }
      ParsedObjects(processed, rows);
      posts := Some(processed);
    }

    /** loadPosts: the feed rows parsed, or `None` when the request fails or
        any row cannot be parsed (the promise rejects). */
    method LoadPosts(feed: Option<seq<RawRow>>) returns (posts: Option<seq<StoryRecord>>)
      ensures posts.Some? <==> Loaded(feed).Some?
      ensures posts.Some? ==> Snapshots(posts.value) == Loaded(feed).value
      ensures posts.Some? ==> Distinct(posts.value) && forall i :: 0 <= i < |posts.value| ==> fresh(posts.value[i])
    {
      match feed
      case None =>
        posts := None;
      case Some(rows) =>
        posts := ParseObjects(rows);
    }

    /** findFormAuthenticityToken: fetches the story page, records the URL the
        redirect ends at in `trueUrl`, and yields the page's form token; when
        the fetch fails the story is untouched and the promise rejects. */
    method FindFormAuthenticityToken(story: StoryRecord, page: PageFetch) returns (token: Option<string>)
      modifies story
      ensures var p := page(old(story.userfeedData.redirectUrl));
        token == (if p.Some? then Some(p.value.token) else None)
        && story.Snapshot() == if p.Some? then WithTrueUrl(old(story.Snapshot()), p.value) else old(story.Snapshot())
    {
      match page(story.userfeedData.redirectUrl)
      case None =>
        token := None;
      case Some(p) =>
        story.userfeedData := story.userfeedData.(trueUrl := Some(p.trueUrl));
        token := Some(p.token);
    }

    /** addClubHouseLink: posts the comment and resolves with the story, which
        it does not change. */
    method AddClubHouseLink(story: StoryRecord, token: string, accepts: FormRemote)
      returns (outcome: Settle, sent: Option<Request>)
      ensures sent == CommentRequest(story.Snapshot(), token, headers, encode)
      ensures outcome == Resolved <==> sent.Some? && accepts(sent.value)
      ensures outcome != Pending
    {
      sent := CommentRequest(story.Snapshot(), token, headers, encode);
      if sent.Some? && accepts(sent.value) {
        outcome := Resolved;
      } else {
        outcome := Rejected;
      }
    }

    /** updateStatus: as StatusUpdate, on the story object in place. */
    method UpdateStatus(story: StoryRecord, newStatus: string, page: PageFetch, accepts: FormRemote)
      returns (outcome: Settle, sent: Option<Request>)
      modifies story
      ensures var st := StatusUpdate(old(story.Snapshot()), newStatus, headers, encode, page, accepts);
        outcome == st.outcome && story.Snapshot() == st.after && sent == st.sent
    {
      var token := FindFormAuthenticityToken(story, page);
      if token.None? {
        outcome, sent := Pending, None;
        return;
      }
      var req := StatusRequest(story.userfeedData.trueUrl.value, newStatus, token.value, headers, encode);
      sent := Some(req);
      if accepts(req) {
        story.userfeedData := story.userfeedData.(status := newStatus);
        outcome := Resolved;
      } else {
        outcome := Rejected;
      }
    }

    /** The callback linkStoriesToClubHouse runs on a story:
        findFormAuthenticityToken, then addClubHouseLink with the token. A
        failed fetch leaves the callback's promise unsettled. */
    method LinkStory(story: StoryRecord, page: PageFetch, accepts: FormRemote)
      returns (outcome: Settle, sent: Option<Request>)
      modifies story
      ensures var st := LinkOne(Some(old(story.Snapshot())), headers, encode, page, accepts);
        outcome == st.outcome && sent == st.sent && Some(story.Snapshot()) == st.after
    {
      var token := FindFormAuthenticityToken(story, page);
      if token.None? {
        return Pending, None;
      }
      outcome, sent := AddClubHouseLink(story, token.value, accepts);
    }

    /** Slot `i` of linkStoriesToClubHouse: the callback on `stories[i]`,
        with an undefined slot rejecting. Every other slot keeps what it
        had; slots holding the same object see the same update. */
    method LinkSlot(stories: seq<StoryRecord?>, i: nat, ghost before: seq<Option<Doc>>, page: PageFetch, accepts: FormRemote)
      returns (outcome: Settle, sent: Option<Request>)
      requires i < |stories| == |before|
      requires forall k :: 0 <= k < |stories| ==> (stories[k] == null <==> before[k].None?)
      requires forall k, j :: 0 <= k < |stories| && 0 <= j < |stories| && stories[k] == stories[j] ==> before[k] == before[j]
      requires SlotsAt(stories, before, page, i)
      modifies if stories[i] == null then {} else {stories[i]}
      ensures SlotsAt(stories, before, page, i + 1)
      ensures outcome == LinkOne(before[i], headers, encode, page, accepts).outcome
      ensures sent == LinkOne(before[i], headers, encode, page, accepts).sent
    {
      var story := stories[i];
      if story == null {
        return Rejected, None;
      }
      ghost var prev := story.Snapshot();
      LinkOneIgnoresTrueUrl(prev, before[i].value, headers, encode, page, accepts);
      FetchStep(prev, before[i].value, headers, encode, page, accepts, false);
      outcome, sent := LinkStory(story, page, accepts);
    }

    /** The `map` of linkStoriesToClubHouse: starts the callback on every
        slot, in slot order, and collects how each ends and what it posts. */
    method StartLinks(stories: seq<StoryRecord?>, page: PageFetch, accepts: FormRemote)
      returns (outcomes: seq<Settle>, sent: seq<Request>)
      modifies stories
      ensures var steps := LinkAll(old(OptSnapshots(stories)), headers, encode, page, accepts);
        outcomes == Outcomes(steps) && sent == SentComments(steps)
      ensures SlotsAt(stories, old(OptSnapshots(stories)), page, |stories|)
    {
      ghost var before := OptSnapshots(stories);
      ghost var steps := LinkAll(before, headers, encode, page, accepts);
      outcomes := [];
      sent := [];
      var i := 0;
      while i < |stories|
        invariant 0 <= i <= |stories|
        invariant outcomes == Outcomes(steps[..i])
        invariant sent == SentComments(steps[..i])
        invariant SlotsAt(stories, before, page, i)
      {
        var step, req := LinkSlot(stories, i, before, page, accepts);
        LinkAllAt(before, headers, encode, page, accepts, i);
        StepsSnoc(steps, i);
        if req.Some? {
          sent := sent + [req.value];
        }
        outcomes := outcomes + [step];
        i := i + 1;
      }
      assert steps[..|stories|] == steps;
    }

    /** linkStoriesToClubHouse: `Promise.all` over the started links. When it
        resolves, it resolves with the same story objects. */
    method LinkStoriesToClubHouse(stories: seq<StoryRecord?>, page: PageFetch, accepts: FormRemote)
      returns (outcome: Settle, linked: seq<StoryRecord>, sent: seq<Request>)
      modifies stories
      ensures var steps := LinkAll(old(OptSnapshots(stories)), headers, encode, page, accepts);
        outcome == PromiseAll(Outcomes(steps))
        && sent == SentComments(steps)
        && forall i :: 0 <= i < |stories| && stories[i] != null ==> Some(stories[i].Snapshot()) == steps[i].after
      ensures outcome == Resolved ==>
        |linked| == |stories| && forall i :: 0 <= i < |stories| ==> linked[i] == stories[i]
    {
      ghost var before := OptSnapshots(stories);
      ghost var steps := LinkAll(before, headers, encode, page, accepts);
      var outcomes;
      outcomes, sent := StartLinks(stories, page, accepts);
      outcome := PromiseAll(outcomes);
      linked := [];
      if outcome == Resolved {
        forall k | 0 <= k < |stories| ensures stories[k] != null {
          assert outcomes[k] == steps[k].outcome;
          LinkAllAt(before, headers, encode, page, accepts, k);
        }
        linked := Present(stories);
      }
      forall k | 0 <= k < |stories| && stories[k] != null
        ensures Some(stories[k].Snapshot()) == steps[k].after
      {
        LinkAllAt(before, headers, encode, page, accepts, k);
        LinkAfter(before[k], Some(stories[k].Snapshot()), headers, encode, page, accepts);
      }
    }
  }

  /** Objects that serialise to the parsed rows, one by one, serialise to the
      parsed feed. */
  lemma ParsedObjects(processed: seq<StoryRecord>, rows: seq<RawRow>)
    requires |processed| == |rows|
    requires forall k :: 0 <= k < |rows| ==> Some(processed[k].Snapshot()) == ParseData(rows[k])
    ensures ParseAll(rows).Some? && Snapshots(processed) == ParseAll(rows).value
  {
  }

  /** The objects of a list none of whose slots is undefined. */
  function Present(rs: seq<StoryRecord?>): (r: seq<StoryRecord>)
    requires forall k :: 0 <= k < |rs| ==> rs[k] != null
    ensures |r| == |rs| && forall k :: 0 <= k < |rs| ==> r[k] == rs[k]
  {
    if rs == [] then [] else Present(rs[..|rs| - 1]) + [rs[|rs| - 1]]
  }

  /** During linkStoriesToClubHouse: every story object kept all but its
      `trueUrl`, which is as FetchedUrl says for slots before `i`. */
  ghost predicate SlotsAt(stories: seq<StoryRecord?>, before: seq<Option<Doc>>, page: PageFetch, i: nat)
    reads stories
  {
    |stories| == |before|
    && forall k :: 0 <= k < |stories| && stories[k] != null ==>
      before[k].Some?
      && Stripped(stories[k].Snapshot()) == Stripped(before[k].value)
      && FetchedUrl(stories[k].userfeedData.trueUrl, before[k].value, page, k < i)
  }

  /** The `trueUrl` of a story during linkStoriesToClubHouse: the resolved
      page's once its slot has been processed and the fetch succeeded; the old
      one where the fetch fails; either while the slot is still to come. */
  predicate FetchedUrl(url: Option<string>, before: Doc, page: PageFetch, done: bool)
  {
    var p := page(before.userfeedData.redirectUrl);
    if p.None? then url == before.userfeedData.trueUrl
    else if done then url == Some(p.value.trueUrl)
    else url == before.userfeedData.trueUrl || url == Some(p.value.trueUrl)
  }

  /** A story with its resolved URL forgotten. */
  function Stripped(d: Doc): Doc
  {
    d.(userfeedData := d.userfeedData.(trueUrl := None))
  }

  /** A link step keeps everything but `trueUrl` and leaves it as the
      resolved page's when the fetch succeeds. */
  lemma FetchStep(prev: Doc, b: Doc, headers: map<string, string>, encode: string -> string,
                  page: PageFetch, accepts: FormRemote, done: bool)
    requires Stripped(prev) == Stripped(b)
    requires FetchedUrl(prev.userfeedData.trueUrl, b, page, done)
    ensures var a := LinkOne(Some(prev), headers, encode, page, accepts).after;
      a.Some? && Stripped(a.value) == Stripped(b) && FetchedUrl(a.value.userfeedData.trueUrl, b, page, true)
  {
    assert prev.userfeedData.redirectUrl == Stripped(prev).userfeedData.redirectUrl;
  }

  /** One slot: a story that kept everything but `trueUrl`, and whose `trueUrl`
      is the resolved page's where the fetch succeeded and the old one where it
      failed, is the state its link step specifies. */
  lemma LinkAfter(before: Option<Doc>, now: Option<Doc>, headers: map<string, string>,
                  encode: string -> string, page: PageFetch, accepts: FormRemote)
    requires now.None? <==> before.None?
    requires now.Some? ==>
      Stripped(now.value) == Stripped(before.value)
      && FetchedUrl(now.value.userfeedData.trueUrl, before.value, page, true)
    ensures now == LinkOne(before, headers, encode, page, accepts).after
  {
    if now.Some? {
      var a := now.value;
      var b := before.value;
      assert a.userfeedId == b.userfeedId && a.clubhouseId == b.clubhouseId && a.clubhouseData == b.clubhouseData;
      assert a.userfeedData.(trueUrl := None) == b.userfeedData.(trueUrl := None);
    }
  }

}

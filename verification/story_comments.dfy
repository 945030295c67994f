/**
 * The read side of the story comment feed: a story's comments live on its
 * chapters; one request merges one page of them into a feed, decides per
 * comment what may be shown, renders the replied-to parents and computes the
 * "load more" affordance.
 *
 * WordPress storage (get_comment, get_comments, options, post meta) is given
 * to the model as plain values and functions; HTML is abstracted to a
 * sequence of `Entry` values in output order.
 */
module StoryComments {
  import opened Optional
  import Php

  type CommentId = int
  type PostId = int

  /** The comment type that marks a comment as private. */
  const PRIVATE_TYPE: string := "private"
  /** The post type a story id must have. */
  const STORY_TYPE: string := "fcn_story"
  /** Default of the option `fictioneer_comment_report_threshold`. */
  const DEFAULT_REPORT_THRESHOLD: int := 10
  /** Depth beyond which a replied-to parent is no longer expanded. */
  const MAX_EXPANDED_DEPTH: nat := 3
  /** The error sent for a request that does not name a story. */
  const LOAD_ERROR: string := "Comments could not be loaded."

  /** A stored comment, with the two moderation meta fields the feed reads. */
  datatype Comment = Comment(
    id: CommentId,
    postId: PostId,        // the chapter the comment was written on
    commentType: string,
    author: string,
    userId: int,
    parent: CommentId,     // 0 for a top-level comment
    date: string,
    body: string,
    deletedByUser: bool,   // meta `fictioneer_deleted_by_user`, truthiness already taken
    reports: seq<int>)     // meta `fictioneer_user_reports`; empty when unset

  /** Title and permalink of a chapter, as collected by the request handler. */
  datatype ChapterLink = ChapterLink(title: string, permalink: string)

  /** Which fixed notice text a hidden entry shows. */
  datatype NoticeReason = MarkedPrivate | DeletedByUser | HiddenByReports | NoPublicComments

  /** One rendered item of the feed, in output order. */
  datatype Entry =
    | Notice(reason: NoticeReason)
    | Full(name: string, badge: string, chapterId: PostId, chapter: ChapterLink,
           date: string, reply: Reply, body: string)
    | LoadMore(count: int)

  /** The "In reply to" line of a full entry. */
  datatype Reply = NoReply | Compact(parentName: string) | Expanded(parentName: string, parentEntry: Entry)

  /** Everything the renderer looks up besides the comment itself. */
  datatype RenderContext = RenderContext(
    store: map<CommentId, Comment>,          // what get_comment can find
    chapterData: map<PostId, ChapterLink>,
    badge: Comment -> string,                // fictioneer_get_comment_badge
    anonymousGuest: string)                  // the translated anonymous-guest label

  // ---------------------------------------------------------------------------
  // Rendering one comment
  // ---------------------------------------------------------------------------

  /** The printed author name, with the anonymous-guest fallback. */
  function DisplayName(author: string, anonymousGuest: string): string {
    if Php.Falsy(author) then anonymousGuest else author
  }

  /** get_comment: no comment for id 0 or for an id that is not stored. */
  function GetComment(store: map<CommentId, Comment>, id: CommentId): Option<Comment> {
    if id != 0 && id in store then Some(store[id]) else None
  }

  /** `$chapter_data[$post_id]`: a missing key prints as empty title and link. */
  function ChapterOf(chapterData: map<PostId, ChapterLink>, postId: PostId): ChapterLink {
    if postId in chapterData then chapterData[postId] else ChapterLink("", "")
  }

  /** Nesting depth at which a render at `depth` may still expand parents. */
  function ExpansionBudget(depth: nat): nat {
    if depth <= MAX_EXPANDED_DEPTH then MAX_EXPANDED_DEPTH + 1 - depth else 0
  }

  /**
   * fictioneer_build_story_comment: a private comment gives only the private
   * notice; any other comment gives a full entry whose reply line names the
   * parent and, while `depth <= 3`, renders the parent at `depth + 1`.
   * The deleted-by-user and report checks are not applied here, so a parent
   * is rendered whatever its moderation state.
   */
  function BuildComment(ctx: RenderContext, c: Comment, depth: nat): (e: Entry)
    decreases ExpansionBudget(depth)
    ensures c.commentType == PRIVATE_TYPE <==> e == Notice(MarkedPrivate)
    ensures !e.LoadMore? && (e.Notice? ==> e.reason == MarkedPrivate)
    ensures e.Full? ==> e.name == DisplayName(c.author, ctx.anonymousGuest) && e.badge == ctx.badge(c)
                        && e.date == c.date && e.body == c.body
                        && e.chapterId == c.postId && e.chapter == ChapterOf(ctx.chapterData, c.postId)
    ensures e.Full? ==> (e.reply.NoReply? <==> GetComment(ctx.store, c.parent).None?)
    ensures e.Full? && !e.reply.NoReply? ==>
              e.reply.parentName == DisplayName(GetComment(ctx.store, c.parent).value.author, ctx.anonymousGuest)
    ensures e.Full? && e.reply.Expanded? ==> depth <= MAX_EXPANDED_DEPTH
  {
    if c.commentType == PRIVATE_TYPE then
      Notice(MarkedPrivate)
    else
      var reply :=
        match GetComment(ctx.store, c.parent)
        case None => NoReply
        case Some(p) =>
          var parentName := DisplayName(p.author, ctx.anonymousGuest);
          if depth > MAX_EXPANDED_DEPTH then Compact(parentName)
          else Expanded(parentName, BuildComment(ctx, p, depth + 1));
      Full(DisplayName(c.author, ctx.anonymousGuest), ctx.badge(c), c.postId,
           ChapterOf(ctx.chapterData, c.postId), c.date, reply, c.body)
  }

  /** How many parents are expanded inside an entry. */
  function ExpansionDepth(e: Entry): nat {
    if e.Full? && e.reply.Expanded? then 1 + ExpansionDepth(e.reply.parentEntry) else 0
  }

  /** The entry `k` expansions deep, if the reply chain is that deep. */
  function NestedEntry(e: Entry, k: nat): Option<Entry> {
    if k == 0 then Some(e)
    else if e.Full? && e.reply.Expanded? then NestedEntry(e.reply.parentEntry, k - 1)
    else None
  }

  /** The `k`-th ancestor of `c` along its parent links (reference definition). */
  function Ancestor(store: map<CommentId, Comment>, c: Comment, k: nat): Option<Comment>
    decreases k
  {
    if k == 0 then Some(c)
    else match GetComment(store, c.parent)
      case None => None
      case Some(p) => Ancestor(store, p, k - 1)
  }

  /** The first `k` links of the chain from `c` upward exist and pass through no private comment. */
  predicate OpenChain(store: map<CommentId, Comment>, c: Comment, k: nat) {
    forall j :: 0 <= j < k ==>
      Ancestor(store, c, j).Some? && Ancestor(store, c, j).value.commentType != PRIVATE_TYPE
      && GetComment(store, Ancestor(store, c, j).value.parent).Some?
  }

  /**
   * Termination does not depend on the parent links: however the links run
   * (even in a cycle), a render started at `depth` expands at most
   * `ExpansionBudget(depth)` parents, so at most four from the handler's depth 0.
   */
  lemma {:induction false} ExpansionBounded(ctx: RenderContext, c: Comment, depth: nat)
    ensures ExpansionDepth(BuildComment(ctx, c, depth)) <= ExpansionBudget(depth)
    decreases ExpansionBudget(depth)
  {
    var e := BuildComment(ctx, c, depth);
    if e.Full? && e.reply.Expanded? {
      var p := GetComment(ctx.store, c.parent).value;
      ExpansionBounded(ctx, p, depth + 1);
    }
  }

  /** One step up the chain: the (j+1)-th ancestor of `c` is the j-th ancestor of its parent. */
  lemma AncestorStep(store: map<CommentId, Comment>, c: Comment, p: Comment, j: nat)
    requires GetComment(store, c.parent) == Some(p)
    ensures Ancestor(store, c, j + 1) == Ancestor(store, p, j)
  {
  }

  /** An open chain of length k + 1 is a non-private comment with a parent whose own chain of length k is open. */
  lemma OpenChainStep(store: map<CommentId, Comment>, c: Comment, k: nat)
    ensures OpenChain(store, c, k + 1) <==>
              c.commentType != PRIVATE_TYPE && GetComment(store, c.parent).Some?
              && OpenChain(store, GetComment(store, c.parent).value, k)
  {
    assert Ancestor(store, c, 0) == Some(c);
    if c.commentType != PRIVATE_TYPE && GetComment(store, c.parent).Some? {
      var p := GetComment(store, c.parent).value;
      forall j | 0 <= j < k ensures Ancestor(store, c, j + 1) == Ancestor(store, p, j) {
        AncestorStep(store, c, p, j);
      }
      if OpenChain(store, p, k) {
        forall j | 0 <= j < k + 1
          ensures Ancestor(store, c, j).Some? && Ancestor(store, c, j).value.commentType != PRIVATE_TYPE
                  && GetComment(store, Ancestor(store, c, j).value.parent).Some?
        {
          if j > 0 {
            AncestorStep(store, c, p, j - 1);
          }
        }
      }
    }
  }

  /**
   * The reply chain of a rendered comment is exactly its ancestry: the entry
   * `k` levels deep exists iff the first `k` links exist, none of the first `k`
   * comments is private and the depth budget allows `k` expansions; it is
   * then the rendering of the `k`-th ancestor at depth `depth + k`.
   */
  lemma {:induction false} NestedEntryIsAncestor(ctx: RenderContext, c: Comment, depth: nat, k: nat)
    ensures NestedEntry(BuildComment(ctx, c, depth), k).Some?
            <==> (k == 0 || (depth + k <= MAX_EXPANDED_DEPTH + 1 && OpenChain(ctx.store, c, k)))
    ensures NestedEntry(BuildComment(ctx, c, depth), k).Some? ==>
              Ancestor(ctx.store, c, k).Some?
              && NestedEntry(BuildComment(ctx, c, depth), k).value == BuildComment(ctx, Ancestor(ctx.store, c, k).value, depth + k)
    decreases k
  {
    if k > 0 {
      OpenChainStep(ctx.store, c, k - 1);
      if c.commentType != PRIVATE_TYPE && GetComment(ctx.store, c.parent).Some? && depth <= MAX_EXPANDED_DEPTH {
        var p := GetComment(ctx.store, c.parent).value;
        assert BuildComment(ctx, c, depth).reply.parentEntry == BuildComment(ctx, p, depth + 1);
        NestedEntryIsAncestor(ctx, p, depth + 1, k - 1);
        AncestorStep(ctx.store, c, p, k - 1);
      }
    }
  }

  /**
   * Two comments whose parent links point at each other render finitely: the
   * chain is expanded four times and the fifth level shows only the compact
   * "In reply to" line naming the other comment's author.
   */
  lemma CyclicParentsRenderFourLevels(ctx: RenderContext, a: Comment, b: Comment)
    requires a.id != 0 && b.id != 0
    requires a.id in ctx.store && ctx.store[a.id] == a
    requires b.id in ctx.store && ctx.store[b.id] == b
    requires a.parent == b.id && b.parent == a.id
    requires a.commentType != PRIVATE_TYPE && b.commentType != PRIVATE_TYPE
    ensures ExpansionDepth(BuildComment(ctx, a, 0)) == 4
    ensures NestedEntry(BuildComment(ctx, a, 0), 4) == Some(BuildComment(ctx, a, 4))
    ensures BuildComment(ctx, a, 4).reply == Compact(DisplayName(b.author, ctx.anonymousGuest))
  {
    var store := ctx.store;
    assert Ancestor(store, a, 0) == Some(a);
    assert Ancestor(store, b, 0) == Some(b);
    AncestorStep(store, a, b, 0);
    AncestorStep(store, b, a, 0);
    AncestorStep(store, a, b, 1);
    AncestorStep(store, b, a, 1);
    AncestorStep(store, a, b, 2);
    AncestorStep(store, b, a, 2);
    AncestorStep(store, a, b, 3);
    assert OpenChain(store, a, 4);
    NestedEntryIsAncestor(ctx, a, 0, 4);
    var e0 := BuildComment(ctx, a, 0);
    var e1 := BuildComment(ctx, b, 1);
    var e2 := BuildComment(ctx, a, 2);
    var e3 := BuildComment(ctx, b, 3);
    var e4 := BuildComment(ctx, a, 4);
    assert e4.reply.Compact? && ExpansionDepth(e4) == 0;
    assert e3.reply == Expanded(DisplayName(a.author, ctx.anonymousGuest), e4) && ExpansionDepth(e3) == 1;
    assert e2.reply == Expanded(DisplayName(b.author, ctx.anonymousGuest), e3) && ExpansionDepth(e2) == 2;
    assert e1.reply == Expanded(DisplayName(a.author, ctx.anonymousGuest), e2) && ExpansionDepth(e1) == 3;
    assert e0.reply == Expanded(DisplayName(b.author, ctx.anonymousGuest), e1);
  }

  /**
   * The reply line of a comment names its parent's author even when that
   * parent is private; the expanded parent itself shows only the private notice.
   */
  lemma PrivateParentNameShown(ctx: RenderContext, c: Comment, p: Comment, depth: nat)
    requires c.commentType != PRIVATE_TYPE && p.commentType == PRIVATE_TYPE
    requires GetComment(ctx.store, c.parent) == Some(p)
    ensures depth <= MAX_EXPANDED_DEPTH ==>
              BuildComment(ctx, c, depth).reply == Expanded(DisplayName(p.author, ctx.anonymousGuest), Notice(MarkedPrivate))
    ensures depth > MAX_EXPANDED_DEPTH ==>
              BuildComment(ctx, c, depth).reply == Compact(DisplayName(p.author, ctx.anonymousGuest))
  {
  }

  // ---------------------------------------------------------------------------
  // Moderation loop over one page of comments
  // ---------------------------------------------------------------------------

  /** The report-hiding settings read by the handler. */
  datatype Moderation = Moderation(reportingEnabled: bool, threshold: int)

  /** The report notice is shown iff reporting is on and the non-empty report list reaches the threshold. */
  predicate ReportHidden(m: Moderation, c: Comment) {
    m.reportingEnabled && |c.reports| > 0 && |c.reports| >= m.threshold
  }

  /**
   * The list items one comment contributes. A comment deleted by its author
   * gives one notice and nothing else; a report-hidden comment gives the
   * report notice and then, since the handler does not skip it, its full
   * rendering as well.
   */
  function CommentItems(ctx: RenderContext, m: Moderation, c: Comment): (items: seq<Entry>)
    ensures c.deletedByUser ==> items == [Notice(DeletedByUser)]
    ensures !c.deletedByUser ==> 1 <= |items| <= 2 && items[|items| - 1] == BuildComment(ctx, c, 0)
    ensures Notice(HiddenByReports) in items <==> !c.deletedByUser && ReportHidden(m, c)
    ensures |items| == 2 <==> !c.deletedByUser && ReportHidden(m, c)
  {
    if c.deletedByUser then [Notice(DeletedByUser)]
    else (if ReportHidden(m, c) then [Notice(HiddenByReports)] else []) + [BuildComment(ctx, c, 0)]
  }

  /** The items of a whole page of comments, in page order. */
  function Feed(ctx: RenderContext, m: Moderation, cs: seq<Comment>): seq<Entry> {
    if cs == [] then []
    else Feed(ctx, m, cs[..|cs| - 1]) + CommentItems(ctx, m, cs[|cs| - 1])
  }

  /** How many comments of a page give the report notice. */
  function ReportNoticeCount(m: Moderation, cs: seq<Comment>): nat {
    if cs == [] then 0
    else ReportNoticeCount(m, cs[..|cs| - 1]) + (if !cs[|cs| - 1].deletedByUser && ReportHidden(m, cs[|cs| - 1]) then 1 else 0)
  }

  /** The feed of two consecutive runs of comments is the concatenation of their feeds. */
  lemma {:induction false} FeedAppend(ctx: RenderContext, m: Moderation, a: seq<Comment>, b: seq<Comment>)
    ensures Feed(ctx, m, a + b) == Feed(ctx, m, a) + Feed(ctx, m, b)
    decreases |b|
  {
    if b == [] {
      assert a + b == a;
    } else {
      var b' := b[..|b| - 1];
      assert (a + b)[..|a + b| - 1] == a + b';
      assert (a + b)[|a + b| - 1] == b[|b| - 1];
      FeedAppend(ctx, m, a, b');
    }
  }

  /** Every comment yields at least one item; report-hidden ones yield exactly one extra. */
  lemma {:induction false} FeedLength(ctx: RenderContext, m: Moderation, cs: seq<Comment>)
    ensures |Feed(ctx, m, cs)| == |cs| + ReportNoticeCount(m, cs)
    decreases |cs|
  {
    if cs != [] {
      FeedLength(ctx, m, cs[..|cs| - 1]);
    }
  }

  /** A page feed holds only comment entries: never a load-more item nor the empty-page notice. */
  lemma {:induction false} FeedHasOnlyCommentEntries(ctx: RenderContext, m: Moderation, cs: seq<Comment>)
    ensures forall e :: e in Feed(ctx, m, cs) ==> !e.LoadMore? && e != Notice(NoPublicComments)
    decreases |cs|
  {
    if cs != [] {
      FeedHasOnlyCommentEntries(ctx, m, cs[..|cs| - 1]);
    }
  }

  // ---------------------------------------------------------------------------
  // Request handler
  // ---------------------------------------------------------------------------

  /** The request's query parameters: `post_id` and `page`, each possibly unset. */
  datatype Request = Request(postId: Option<int>, page: Option<int>)

  /** What fictioneer_get_story_data reports: the publicly visible chapters and the cached comment count. */
  datatype StoryData = StoryData(chapterIds: seq<PostId>, commentCount: int)

  /** The arguments of the get_comments storage query that depend on the request. */
  datatype CommentQuery = CommentQuery(postIn: seq<PostId>, number: int, paged: int)

  /** The site state the handler reads. */
  datatype Site = Site(
    postTypes: map<PostId, string>,
    storyData: PostId -> StoryData,
    chapterInfo: PostId -> ChapterLink,      // get_the_title, get_the_permalink
    commentsPerPage: int,                    // option `comments_per_page`
    reportThreshold: Option<int>,            // option `fictioneer_comment_report_threshold`
    reportingEnabled: bool,                  // option `fictioneer_enable_comment_reporting`
    store: map<CommentId, Comment>,
    badge: Comment -> string,
    anonymousGuest: string,
    fetch: CommentQuery -> seq<Comment>)     // get_comments, approved and not marked offensive

  /** The JSON reply, or the bare `die()` that sends nothing. */
  datatype Response = ErrorJson(error: string) | Died | SuccessJson(html: seq<Entry>, postId: PostId, page: int)

  /** fictioneer_validate_id for the story type: a positive id of a stored fcn_story post. */
  function ValidStoryId(site: Site, req: Request): Option<PostId> {
    if req.postId.Some? && req.postId.value > 0
       && req.postId.value in site.postTypes && site.postTypes[req.postId.value] == STORY_TYPE
    then req.postId
    else None
  }

  /** `absint($_GET['page'])`, or 1 when unset; 0 stays 0. */
  function RequestedPage(req: Request): int {
    match req.page
    case None => 1
    case Some(p) => if p < 0 then -p else p
  }

  /** The lookup from chapter id to title and permalink. */
  function ChapterData(chapterIds: seq<PostId>, info: PostId -> ChapterLink): map<PostId, ChapterLink> {
    map id | id in chapterIds :: info(id)
  }

  /** Comments still to come after this page, from the cached story count; not clamped. */
  function Remaining(commentCount: int, page: int, perPage: int): int {
    commentCount - page * perPage
  }

  /** The load-more item: present iff `remaining > 0`, announcing the smaller of `remaining` and the page size. */
  function LoadMoreItems(remaining: int, perPage: int): (items: seq<Entry>)
    ensures |items| <= 1
    ensures items != [] <==> remaining > 0
    ensures items != [] ==>
              && items[0].LoadMore?
              && items[0].count <= remaining && items[0].count <= perPage
              && (items[0].count == remaining || items[0].count == perPage)
              && (perPage >= 1 ==> 1 <= items[0].count)
  {
    if remaining > 0 then [LoadMore(if remaining > perPage then perPage else remaining)] else []
  }

  /** The HTML items sent for one page. */
  function PageHtml(ctx: RenderContext, m: Moderation, comments: seq<Comment>, remaining: int, perPage: int): seq<Entry> {
    if |comments| > 0 then Feed(ctx, m, comments) + LoadMoreItems(remaining, perPage)
    else [Notice(NoPublicComments)]
  }

  function RenderContextOf(site: Site, chapterIds: seq<PostId>): RenderContext {
    RenderContext(site.store, ChapterData(chapterIds, site.chapterInfo), site.badge, site.anonymousGuest)
  }

  function ModerationOf(site: Site): Moderation {
    Moderation(site.reportingEnabled, site.reportThreshold.GetOr(DEFAULT_REPORT_THRESHOLD))
  }

  /**
   * With reporting enabled and the threshold option unset, the threshold is
   * 10: a comment is report-hidden iff it has at least 10 reports.
   */
  lemma DefaultReportThreshold(site: Site, c: Comment)
    requires site.reportingEnabled && site.reportThreshold.None?
    ensures ReportHidden(ModerationOf(site), c) <==> |c.reports| >= 10
  {
  }

  /** fictioneer_request_story_comments, as a function of the request and the site. */
  function Respond(req: Request, site: Site): Response {
    match ValidStoryId(site, req)
    case None => ErrorJson(LOAD_ERROR)
    case Some(storyId) =>
      var page := RequestedPage(req);
      var story := site.storyData(storyId);
      if |story.chapterIds| < 1 then Died
      else
        var comments := site.fetch(CommentQuery(story.chapterIds, site.commentsPerPage, page));
        var remaining := Remaining(story.commentCount, page, site.commentsPerPage);
        SuccessJson(PageHtml(RenderContextOf(site, story.chapterIds), ModerationOf(site), comments, remaining, site.commentsPerPage),
                    storyId, page)
  }

  /** Collects title and permalink of every chapter, one chapter at a time. */
  method BuildChapterData(chapterIds: seq<PostId>, info: PostId -> ChapterLink) returns (data: map<PostId, ChapterLink>)
    ensures data.Keys == set id | id in chapterIds
    ensures forall id :: id in data ==> data[id] == info(id)
    ensures data == ChapterData(chapterIds, info)
  {
    data := map[];
    for i := 0 to |chapterIds|
      invariant data.Keys == set id | id in chapterIds[..i]
      invariant forall id :: id in data ==> data[id] == info(id)
    {
      assert chapterIds[..i + 1] == chapterIds[..i] + [chapterIds[i]];
      data := data[chapterIds[i] := info(chapterIds[i])];
    }
    assert chapterIds[..|chapterIds|] == chapterIds;
  }

  /**
   * The AJAX handler: validation exits, then one pass over the page of
   * comments appending to the output buffer, then the load-more item or
   * the empty-page notice.
   */
  method RequestStoryComments(req: Request, site: Site) returns (resp: Response)
    ensures resp == Respond(req, site)
  {
    var storyId := ValidStoryId(site, req);
    if storyId.None? {
      return ErrorJson(LOAD_ERROR);
    }
    var page := RequestedPage(req);
    var story := site.storyData(storyId.value);
    var perPage := site.commentsPerPage;
    var moderation := ModerationOf(site);
    if |story.chapterIds| < 1 {
      return Died;
    }
    var chapterData := BuildChapterData(story.chapterIds, site.chapterInfo);
    var ctx := RenderContext(site.store, chapterData, site.badge, site.anonymousGuest);
    var comments := site.fetch(CommentQuery(story.chapterIds, perPage, page));
    var remaining := Remaining(story.commentCount, page, perPage);

    var output: seq<Entry> := [];
    if |comments| > 0 {
      for i := 0 to |comments|
        invariant output == Feed(ctx, moderation, comments[..i])
      {
        var comment := comments[i];
        assert comments[..i + 1][..i] == comments[..i];
        if comment.deletedByUser {
          output := output + [Notice(DeletedByUser)];
          continue;
        }
        if moderation.reportingEnabled {
          if |comment.reports| > 0 && |comment.reports| >= moderation.threshold {
            output := output + [Notice(HiddenByReports)];
          }
        }
        output := output + [BuildComment(ctx, comment, 0)];
      }
      assert comments[..|comments|] == comments;
      if remaining > 0 {
        var loadN := if remaining > perPage then perPage else remaining;
        output := output + [LoadMore(loadN)];
      }
    } else {
      output := output + [Notice(NoPublicComments)];
    }
    return SuccessJson(output, storyId.value, page);
  }

  // ---------------------------------------------------------------------------
  // Properties of the handler
  // ---------------------------------------------------------------------------

  /**
   * A request that does not name a story gets the load error, whatever the
   * stories, chapters and comments are: nothing is queried before the check.
   */
  lemma NonStoryRejected(req: Request, site: Site, storyData: PostId -> StoryData, fetch: CommentQuery -> seq<Comment>)
    requires ValidStoryId(site, req).None?
    ensures Respond(req, site) == ErrorJson(LOAD_ERROR)
    ensures Respond(req, site.(storyData := storyData, fetch := fetch)) == ErrorJson(LOAD_ERROR)
  {
  }

  /** A story without public chapters ends the request with no output, before any comment query. */
  lemma NoChaptersNoOutput(req: Request, site: Site, fetch: CommentQuery -> seq<Comment>)
    requires ValidStoryId(site, req).Some?
    requires site.storyData(ValidStoryId(site, req).value).chapterIds == []
    ensures Respond(req, site) == Died
    ensures Respond(req, site.(fetch := fetch)) == Died
  {
  }

  /** An empty page gives only the "No public comments" notice and no load-more item, whatever remains. */
  lemma EmptyPageNotice(ctx: RenderContext, m: Moderation, remaining: int, perPage: int)
    ensures PageHtml(ctx, m, [], remaining, perPage) == [Notice(NoPublicComments)]
  {
  }

  /**
   * A successful reply echoes the story id and the requested page, and its
   * HTML is the feed of the fetched page followed by at most one load-more
   * item, present iff the unclamped remainder is positive.
   */
  lemma SuccessShape(req: Request, site: Site)
    requires ValidStoryId(site, req).Some?
    requires site.storyData(ValidStoryId(site, req).value).chapterIds != []
    ensures var storyId := ValidStoryId(site, req).value;
            var story := site.storyData(storyId);
            var page := RequestedPage(req);
            var comments := site.fetch(CommentQuery(story.chapterIds, site.commentsPerPage, page));
            var remaining := Remaining(story.commentCount, page, site.commentsPerPage);
            var resp := Respond(req, site);
            && resp.SuccessJson? && resp.postId == storyId && resp.page == page
            && (|comments| == 0 ==> resp.html == [Notice(NoPublicComments)])
            && (|comments| > 0 ==>
                  && resp.html == Feed(RenderContextOf(site, story.chapterIds), ModerationOf(site), comments)
                                  + LoadMoreItems(remaining, site.commentsPerPage)
                  && ((exists e :: e in resp.html && e.LoadMore?) <==> remaining > 0))
  {
    var storyId := ValidStoryId(site, req).value;
    var story := site.storyData(storyId);
    var page := RequestedPage(req);
    var comments := site.fetch(CommentQuery(story.chapterIds, site.commentsPerPage, page));
    var remaining := Remaining(story.commentCount, page, site.commentsPerPage);
    var ctx := RenderContextOf(site, story.chapterIds);
    var m := ModerationOf(site);
    if |comments| > 0 {
      var feed := Feed(ctx, m, comments);
      var tail := LoadMoreItems(remaining, site.commentsPerPage);
      FeedHasOnlyCommentEntries(ctx, m, comments);
      if remaining > 0 {
        assert tail[0] in feed + tail;
      }
    }
  }
}

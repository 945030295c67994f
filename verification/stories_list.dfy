/**
 * The query setup of the Stories page template: the request's `order`,
 * `orderby`, `paged` and `ago` parameters are normalised to safe values and
 * the story query is fixed to published, non-hidden stories, optionally
 * ordered by the latest chapter update.
 *
 * Options, the allowed-orderby list and the text sanitiser are inputs; the
 * date query, the filter hook and the query itself are not modelled.
 */
module StoriesList {
  import opened Optional
  import Php

  const STORY_POST_TYPE: string := "fcn_story"
  const PUBLISH_STATUS: string := "publish"
  const QUERY_NAME: string := "stories_list"
  const DEFAULT_ORDER: string := "desc"
  const DEFAULT_ORDERBY: string := "modified"
  const DEFAULT_POSTS_PER_PAGE: int := 8
  const HIDDEN_META_KEY: string := "fictioneer_story_hidden"
  const LATEST_CHAPTER_ORDERBY: string := "meta_value modified"
  const LATEST_CHAPTER_META_KEY: string := "fictioneer_chapters_added"
  /** Default of the FICTIONEER_ORDER_STORIES_BY_LATEST_CHAPTER constant. */
  const ORDER_BY_LATEST_CHAPTER_DEFAULT: bool := false

  /** The `ago` parameter after PHP's is_numeric test (intval taken for a numeric one). */
  datatype AgoInput = AgoMissing | AgoNumeric(intValue: int) | AgoText(text: string)

  /** The normalised `ago`: a non-negative number of days, or a sanitised text. */
  datatype Ago = AgoDays(days: nat) | AgoLabel(sanitized: string)

  /** The request: the `paged` query var (0 when falsy) and the three GET parameters. */
  datatype StoriesRequest = StoriesRequest(paged: int, order: Option<string>, orderby: Option<string>, ago: AgoInput)

  /** Site settings read while building the query. */
  datatype Settings = Settings(
    allowedOrderby: seq<string>,          // fictioneer_allowed_orderby()
    postsPerPage: Option<int>,            // option `posts_per_page`
    hideTaxonomiesOnCards: bool,          // option `fictioneer_hide_taxonomies_on_story_cards`
    orderByLatestChapter: bool,           // FICTIONEER_ORDER_STORIES_BY_LATEST_CHAPTER
    sanitizeText: string -> string)       // sanitize_text_field

  /** One clause of the `meta_query`. */
  datatype MetaClause = MetaEquals(key: string, value: string) | MetaNotExists(key: string)

  datatype QueryArgs = QueryArgs(
    queryName: string,
    postType: string,
    postStatus: string,
    order: string,
    orderby: string,
    paged: int,
    postsPerPage: int,
    updatePostTermCache: bool,
    metaQuery: seq<MetaClause>,           // joined by OR
    metaKey: Option<string>)

  /** The normalised variables of the template and the prepared query arguments. */
  datatype StoriesSetup = StoriesSetup(page: int, order: string, orderby: string, ago: Ago, args: QueryArgs)

  // ---------------------------------------------------------------------------
  // PHP helpers
  // ---------------------------------------------------------------------------

  predicate IsKeyChar(ch: char) {
    ('a' <= ch <= 'z') || ('0' <= ch <= '9') || ch == '_' || ch == '-'
  }

  function LowerAscii(ch: char): char {
    if 'A' <= ch <= 'Z' then (ch as int - 'A' as int + 'a' as int) as char else ch
  }

  /** sanitize_key: lower-case ASCII letters, then drop every character but a-z, 0-9, `_` and `-`. */
  function SanitizeKey(s: string): (k: string)
    ensures |k| <= |s|
    ensures forall i :: 0 <= i < |k| ==> IsKeyChar(k[i])
  {
    if s == [] then []
    else (if IsKeyChar(LowerAscii(s[0])) then [LowerAscii(s[0])] else []) + SanitizeKey(s[1..])
  }

  /** One character is lower-cased and kept when it is then a key character, and dropped otherwise. */
  lemma SanitizeKeyChar(ch: char)
    ensures SanitizeKey([ch]) == if IsKeyChar(LowerAscii(ch)) then [LowerAscii(ch)] else []
  {
    assert [ch][1..] == [];
  }

  /** Sanitising works character by character: it distributes over concatenation, so kept characters stay in order. */
  lemma {:induction false} SanitizeKeyAppend(a: string, b: string)
    ensures SanitizeKey(a + b) == SanitizeKey(a) + SanitizeKey(b)
    decreases |a|
  {
    if a != [] {
      assert (a + b)[0] == a[0];
      assert (a + b)[1..] == a[1..] + b;
      SanitizeKeyAppend(a[1..], b);
    } else {
      assert a + b == b;
    }
  }

  /** "ASC" sanitises to "asc". */
  lemma SanitizeKeyOfUpperAsc()
    ensures SanitizeKey("ASC") == "asc"
  {
    assert "ASC" == ['A'] + "SC" && "SC" == ['S'] + "C";
    SanitizeKeyChar('C');
    SanitizeKeyChar('S');
    SanitizeKeyChar('A');
    SanitizeKeyAppend(['S'], "C");
    SanitizeKeyAppend(['A'], "SC");
  }

  /** Sanitising a key that is already sanitised leaves it as it is. */
  lemma {:induction false} SanitizeKeyIdempotent(s: string)
    ensures SanitizeKey(SanitizeKey(s)) == SanitizeKey(s)
  {
    if s != [] {
      SanitizeKeyIdempotent(s[1..]);
      KeepsKeyChars(SanitizeKey(s));
    }
  }

  lemma {:induction false} KeepsKeyChars(k: string)
    requires forall i :: 0 <= i < |k| ==> IsKeyChar(k[i])
    ensures SanitizeKey(k) == k
  {
    if k != [] {
      KeepsKeyChars(k[1..]);
    }
  }

  /** A GET parameter as `sanitize_key( $_GET[...] ?? 0 )` sees it: a missing one reads as "0". */
  function SanitizedParam(p: Option<string>): string {
    SanitizeKey(p.GetOr("0"))
  }

  // ---------------------------------------------------------------------------
  // Normalisation
  // ---------------------------------------------------------------------------

  /** `get_query_var( 'paged', 1 ) ?: 1`. */
  function NormalizePage(paged: int): (page: int)
    ensures paged == 0 ==> page == 1
    ensures paged != 0 ==> page == paged
  {
    if paged == 0 then 1 else paged
  }

  /** `order` is whitelisted to "desc" and "asc" and defaults to "desc". */
  function NormalizeOrder(raw: Option<string>): (order: string)
    ensures order == "desc" || order == "asc"
    ensures SanitizedParam(raw) in ["desc", "asc"] ==> order == SanitizedParam(raw)
    ensures SanitizedParam(raw) !in ["desc", "asc"] ==> order == DEFAULT_ORDER
  {
    var key := SanitizedParam(raw);
    if key in ["desc", "asc"] && !Php.Falsy(key) then key else DEFAULT_ORDER
  }

  /** An upper-case `order` passes the whitelist once `sanitize_key` has lower-cased it. */
  lemma UpperCaseOrderAccepted()
    ensures NormalizeOrder(Some("ASC")) == "asc"
  {
    SanitizeKeyOfUpperAsc();
  }

  /** `orderby` is whitelisted to the allowed list and defaults to "modified". */
  function NormalizeOrderby(raw: Option<string>, allowed: seq<string>): (orderby: string)
    ensures orderby in allowed || orderby == DEFAULT_ORDERBY
    ensures SanitizedParam(raw) in allowed && !Php.Falsy(SanitizedParam(raw)) ==> orderby == SanitizedParam(raw)
    ensures SanitizedParam(raw) !in allowed ==> orderby == DEFAULT_ORDERBY
    ensures Php.Falsy(SanitizedParam(raw)) ==> orderby == DEFAULT_ORDERBY
  {
    var key := SanitizedParam(raw);
    if key in allowed && !Php.Falsy(key) then key else DEFAULT_ORDERBY
  }

  /** A numeric `ago` becomes absint of it; any other value goes through the text sanitiser. */
  function NormalizeAgo(ago: AgoInput, sanitizeText: string -> string): (r: Ago)
    ensures ago.AgoMissing? ==> r == AgoDays(0)
    ensures ago.AgoNumeric? ==> r.AgoDays? && (r.days == ago.intValue || r.days == -ago.intValue)
    ensures ago.AgoText? ==> r == AgoLabel(sanitizeText(ago.text))
  {
    match ago
    case AgoMissing => AgoDays(0)
    case AgoNumeric(v) => AgoDays(if v < 0 then -v else v)
    case AgoText(t) => AgoLabel(sanitizeText(t))
  }

  /** The meta_query: `fictioneer_story_hidden` equal to "0", OR not existing. */
  const HIDDEN_FILTER: seq<MetaClause> := [MetaEquals(HIDDEN_META_KEY, "0"), MetaNotExists(HIDDEN_META_KEY)]

  predicate ClauseMatches(clause: MetaClause, meta: map<string, string>) {
    match clause
    case MetaEquals(key, value) => key in meta && meta[key] == value
    case MetaNotExists(key) => key !in meta
  }

  /** An OR meta query matches a post when one of its clauses does. */
  predicate MetaQueryMatches(clauses: seq<MetaClause>, meta: map<string, string>) {
    exists i :: 0 <= i < |clauses| && ClauseMatches(clauses[i], meta)
  }

  /** Only stories whose hidden flag is "0" or absent match the stories query. */
  lemma HiddenStoriesExcluded(meta: map<string, string>)
    ensures MetaQueryMatches(HIDDEN_FILTER, meta)
            <==> (HIDDEN_META_KEY !in meta || meta[HIDDEN_META_KEY] == "0")
  {
    if HIDDEN_META_KEY !in meta {
      assert ClauseMatches(HIDDEN_FILTER[1], meta);
    } else if meta[HIDDEN_META_KEY] == "0" {
      assert ClauseMatches(HIDDEN_FILTER[0], meta);
    }
  }

  /** The query arguments before the latest-chapter rewrite. */
  function BaseQueryArgs(order: string, orderby: string, page: int, settings: Settings): QueryArgs {
    QueryArgs(QUERY_NAME, STORY_POST_TYPE, PUBLISH_STATUS, order, orderby, page,
              settings.postsPerPage.GetOr(DEFAULT_POSTS_PER_PAGE), !settings.hideTaxonomiesOnCards,
              HIDDEN_FILTER, None)
  }

  /** Ordering by the latest chapter replaces a "modified" ordering by the chapters-added meta value. */
  function OrderByLatestChapter(args: QueryArgs, enabled: bool, orderby: string): QueryArgs {
    if enabled && orderby == DEFAULT_ORDERBY then
      args.(orderby := LATEST_CHAPTER_ORDERBY, metaKey := Some(LATEST_CHAPTER_META_KEY))
    else args
  }

  /** The setup block of the Stories template. */
  function StoriesQuery(req: StoriesRequest, settings: Settings): (setup: StoriesSetup)
    ensures setup.page == NormalizePage(req.paged)
    ensures setup.order == NormalizeOrder(req.order)
    ensures setup.orderby == NormalizeOrderby(req.orderby, settings.allowedOrderby)
    ensures setup.page != 0 && (req.paged != 0 ==> setup.page == req.paged)
    ensures setup.order == "desc" || setup.order == "asc"
    ensures setup.orderby in settings.allowedOrderby || setup.orderby == DEFAULT_ORDERBY
    ensures setup.args.postType == STORY_POST_TYPE && setup.args.postStatus == PUBLISH_STATUS
    ensures setup.args.order == setup.order && setup.args.paged == setup.page
    ensures setup.args.queryName == QUERY_NAME
    ensures setup.args.postsPerPage == settings.postsPerPage.GetOr(DEFAULT_POSTS_PER_PAGE)
    ensures setup.args.updatePostTermCache == !settings.hideTaxonomiesOnCards
    ensures setup.args.metaQuery == HIDDEN_FILTER
    ensures setup.ago == NormalizeAgo(req.ago, settings.sanitizeText)
    ensures (setup.args.metaKey == Some(LATEST_CHAPTER_META_KEY) && setup.args.orderby == LATEST_CHAPTER_ORDERBY)
            <==> (settings.orderByLatestChapter && setup.orderby == DEFAULT_ORDERBY)
    ensures !(settings.orderByLatestChapter && setup.orderby == DEFAULT_ORDERBY) ==>
              setup.args.orderby == setup.orderby && setup.args.metaKey.None?
  {
    var page := NormalizePage(req.paged);
    var order := NormalizeOrder(req.order);
    var orderby := NormalizeOrderby(req.orderby, settings.allowedOrderby);
    var ago := NormalizeAgo(req.ago, settings.sanitizeText);
    var args := OrderByLatestChapter(BaseQueryArgs(order, orderby, page, settings), settings.orderByLatestChapter, orderby);
    StoriesSetup(page, order, orderby, ago, args)
  }

  /**
   * With the latest-chapter flag at its default (off), the query orders by
   * exactly the normalised `orderby` and sets no meta key.
   */
  lemma DefaultFlagKeepsOrderby(req: StoriesRequest, settings: Settings)
    requires settings.orderByLatestChapter == ORDER_BY_LATEST_CHAPTER_DEFAULT
    ensures StoriesQuery(req, settings).args.orderby == StoriesQuery(req, settings).orderby
    ensures StoriesQuery(req, settings).args.metaKey.None?
  {
  }
}

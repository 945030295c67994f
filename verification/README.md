# Fictioneer story comments, reminders and stories list — a Dafny model

This project models three pieces of the Fictioneer WordPress theme and proves properties of them.

- **The story comment feed** (module `StoryComments`). A story's comments live on its chapters. An AJAX request fetches one page of them across all of the story's public chapters and renders each one. A comment deleted by its author becomes a notice. A comment with enough user reports gets a report notice. A private comment shows only the private notice. Every other comment is rendered with its replied-to parent, which is expanded recursively while the depth is at most 3. After the page comes a "load next N" item, or a "No public comments" notice when the page is empty.
- **The Reminders toggle** (module `Reminders`). The browser keeps a global reminders instance and the stored user data. Toggling a story either resynchronises a drifted instance from the stored data, or adds/removes the story and mirrors the change into the stored data. The instance and the stored user data are fields of the class `ReminderState`, which its methods update in place. A pure function `Toggled` specifies the toggle, and the lemmas are about that function.
- **The Stories list query setup** (module `StoriesList`). Whitelisting of `order`/`orderby`, defaulting of `page`, normalisation of `ago`, the fixed query fields, the hidden-story meta filter and the latest-chapter ordering rewrite.

`Optional` holds the shared `Option` type, and `Php` holds PHP's falsiness of a string (`""` and `"0"`), which both `empty()` in the feed and `?:` in the stories list use.

The code is modelled as written, including these behaviours a reader might not expect:

- `remaining` is the cached story comment count minus `page * comments_per_page`. It is not clamped at zero, and it does not use the live match count.
- Reply rendering stops only because of the depth counter. There is no visited set, so a cycle of parent links is simply unrolled until depth 4.
- A report-hidden comment emits the report notice **and then** its full rendering, because the handler has no `continue` after the notice.
- The private check happens inside the renderer, after the deleted-by-user and report checks.
- The reply line prints the parent's author name even when the parent is private. Parents are never subject to the deleted-by-user or report checks.
- PHP's `empty()` treats the string "0" as empty, so an author named "0" is shown with the anonymous-guest label.
- The feed's `page` parameter is used as its `absint` value, so -3 becomes 3. A `page` of 0 is not defaulted to 1.

## Model

| member | source | states |
|---|---|---|
| `StoryComments.BuildComment` | includes/functions/comments/_story_comments.php:19-89 | A private comment renders as exactly the private notice, with no name, badge, date or body. Any other comment renders as a full entry carrying its own name (with the anonymous-guest fallback for "" and "0"), badge, date, body and chapter. The reply line is absent iff `get_comment` finds no parent, and it names the parent's author with the same fallback. Expansion happens only at depth ≤ 3. |
| `StoryComments.ExpansionBounded` | includes/functions/comments/_story_comments.php:62-82 | For any parent links, cycles included, a render started at depth d expands at most 4 − d parents, so at most 4 from the handler's depth 0. |
| `StoryComments.NestedEntryIsAncestor` | includes/functions/comments/_story_comments.php:59-82 | The rendered reply chain is the comment's ancestry. The entry k levels deep exists iff the first k parent links exist, none of the first k comments is private and d + k ≤ 4. That entry is then the rendering of the k-th ancestor at depth d + k. |
| `StoryComments.CyclicParentsRenderFourLevels` | includes/functions/comments/_story_comments.php:62-82 | Two comments that are each other's parent render with exactly four expansions. The fifth level carries only the compact "In reply to" line. |
| `StoryComments.PrivateParentNameShown` | includes/functions/comments/_story_comments.php:59-82 | A private parent's author name is still printed in the reply line. The expanded parent shows only the private notice. |
| `StoryComments.CommentItems` | includes/functions/comments/_story_comments.php:164-199 | A deleted-by-user comment yields exactly one "deleted by user" notice, whatever its type and reports. Otherwise the last item is the comment's rendering. The report notice appears iff reporting is enabled, the report list is non-empty and it reaches the threshold; in that case exactly two items appear. |
| `StoryComments.FeedAppend` | includes/functions/comments/_story_comments.php:164-200 | The items of two consecutive runs of comments are the concatenation of their items, so page order is kept. |
| `StoryComments.FeedLength` | includes/functions/comments/_story_comments.php:181-199 | A page of n comments yields n items plus one per report-hidden, not-deleted comment. |
| `StoryComments.FeedHasOnlyCommentEntries` | includes/functions/comments/_story_comments.php:164-200 | The loop over comments never emits a load-more item or the empty-page notice. |
| `StoryComments.DefaultReportThreshold` | includes/functions/comments/_story_comments.php:121 | With reporting enabled and no threshold option set, a comment is report-hidden iff it has at least 10 reports. |
| `StoryComments.LoadMoreItems` | includes/functions/comments/_story_comments.php:203-222 | A load-more item appears iff `remaining > 0`. Its count is `min(remaining, per_page)`: at most both, equal to one of them, and at least 1 when `per_page ≥ 1`. |
| `StoryComments.BuildChapterData` | includes/functions/comments/_story_comments.php:127-129 | The loop builds a lookup whose keys are exactly the chapter ids, each mapped to that chapter's title and permalink. |
| `StoryComments.RequestStoryComments` | includes/functions/comments/_story_comments.php:103-238 | The imperative handler (early exits, the buffer-appending loop with its `continue`, the load-more item) returns exactly `Respond`. |
| `StoryComments.NonStoryRejected` | includes/functions/comments/_story_comments.php:107-113 | A request whose `post_id` is missing or not a story gets "Comments could not be loaded.". The reply is the same whatever the story data and comment storage are, so nothing is queried first. |
| `StoryComments.NoChaptersNoOutput` | includes/functions/comments/_story_comments.php:123-124 | A story with no public chapters ends with no output, independently of the comment storage. |
| `StoryComments.EmptyPageNotice` | includes/functions/comments/_story_comments.php:223-231 | An empty page yields only the "No public comments to display." notice, and no load-more item whatever `remaining` is. |
| `StoryComments.SuccessShape` | includes/functions/comments/_story_comments.php:156-237 | A successful reply echoes the story id and page. An empty page yields only the empty-page notice. Otherwise the HTML is exactly the feed of the fetched page followed by `LoadMoreItems` of the unclamped `comment_count - page*per_page`, so a load-more item appears in it iff that remainder is positive. |
| `Reminders.Initialized` | src/js/reminders.js:24-46 | `reminders === false` leaves the state untouched. An empty-array `data` becomes an empty dictionary before it becomes the instance; object data becomes the instance as is. The stored user data is not touched. |
| `Reminders.Toggled` | src/js/reminders.js:61-92 | With the instance or the stored reminders missing, toggle is a no-op. If the two disagree on the story, the instance is replaced by the stored reminders and nothing is toggled. Otherwise the story's membership flips, and a new entry is `{story_id: parseInt(id), timestamp: now}`. `lastLoaded` becomes 0, and every other story's entry is unchanged in both maps. After any non-no-op toggle, the instance and the stored data agree on the story. |
| `Reminders.ToggleTwiceRestores` | src/js/reminders.js:83-91 | Two toggles of the same story restore its membership. If it had no reminder, both the instance and the stored reminders return to their original value. |
| `Reminders.ParseIntDecimalString` | src/js/reminders.js:86 | `parseInt` reads back a story id from its decimal notation, also when non-digit text follows. |
| `Reminders.ReminderState.Initialize` | src/js/reminders.js:24-39 | Updates the instance in place as `Initialized` prescribes. |
| `Reminders.ReminderState.Toggle` | src/js/reminders.js:61-92 | Deletes or inserts the key in place and mirrors it into the stored data, as `Toggled` prescribes. |
| `StoriesList.NormalizePage` | stories.php:19 | A falsy (0) `paged` becomes exactly 1; any other value is kept. |
| `StoriesList.NormalizeOrder` | stories.php:20-21 | `order` is always "desc" or "asc". It equals the sanitised input when that is one of them, and "desc" otherwise (also when the parameter is missing). |
| `StoriesList.NormalizeOrderby` | stories.php:22-23 | `orderby` is in the allowed list or is "modified". It equals the sanitised input when that input is allowed and not PHP-falsy, and "modified" when it is not allowed or is PHP-falsy. |
| `StoriesList.NormalizeAgo` | stories.php:24-25 | A missing `ago` becomes 0 days. A numeric one becomes its absolute value. Any other value goes through the text sanitiser. |
| `StoriesList.SanitizeKey` | stories.php:20-22 | `sanitize_key` output contains only a-z, 0-9, `_` and `-`, and is no longer than its input. |
| `StoriesList.SanitizeKeyChar` | stories.php:20-22 | On one character, `sanitize_key` lower-cases an ASCII capital and keeps the result iff it is a-z, 0-9, `_` or `-`; otherwise the output is empty. |
| `StoriesList.SanitizeKeyAppend` | stories.php:20-22 | `sanitize_key` works character by character: the key of a concatenation is the concatenation of the keys, so the kept characters keep their order. With `SanitizeKeyChar` this pins the output down to the lower-cased input filtered to key characters. |
| `StoriesList.UpperCaseOrderAccepted` | stories.php:20-21 | An `order` of "ASC" is accepted as "asc", because `sanitize_key` lower-cases it before the whitelist check. |
| `StoriesList.SanitizeKeyIdempotent` | stories.php:20-22 | Sanitising an already sanitised key changes nothing. |
| `StoriesList.HiddenStoriesExcluded` | stories.php:37-47 | The OR meta query matches a story iff its `fictioneer_story_hidden` is "0" or absent. |
| `StoriesList.StoriesQuery` | stories.php:19-54 | The query is fixed to `stories_list`, `fcn_story` and `publish`. `posts_per_page` defaults to 8, and the term cache is updated unless taxonomies are hidden. The template's `page`, `order` and `orderby` are exactly `NormalizePage`, `NormalizeOrder` and `NormalizeOrderby` of the request, and `ago` is `NormalizeAgo` of it. The hidden filter is applied. The orderby becomes "meta_value modified" with meta key `fictioneer_chapters_added` iff the latest-chapter flag is set and `orderby` is "modified"; otherwise the arguments carry `orderby` unchanged and no meta key. The template's own `orderby` stays "modified". |
| `StoriesList.DefaultFlagKeepsOrderby` | stories.php:51-54 | With the latest-chapter flag at its default (false, as defined in functions.php), the query orders by the normalised `orderby` and sets no meta key. |

## Left out

- The nonce check (`check_ajax_referer`), request-rate limiting (none appears in the modelled code), `get_avatar`, date formatting, translations, the singular/plural wording of the load-more button, `comment_text` and the JSON transport. They are foreign calls or presentation.
- The `get_comments` storage query, including its approval and offensive-flag filters. It is the input function `Site.fetch`, and the model records only its arguments (chapter ids, page size, page).
- `fictioneer_validate_id`, `fictioneer_get_story_data`, `fictioneer_get_comment_badge`, `get_the_title`/`get_the_permalink` and the anonymous-guest translation are not part of this model. They are inputs: a post-type map, functions of the id or the comment, and a label.
- Comment meta is taken as already decoded: `deletedByUser` as its PHP truthiness, and the report list as a sequence (empty when unset).
- HTML markup is abstracted to the `Entry` sequence. The `li` wrapper's class and the loading placeholder are not modelled.
- `Reminders.ParseInt`: models parseInt on an optional sign and decimal digits only. It leaves out leading-whitespace skipping and the "0x" hexadecimal prefix, because story ids are written as plain decimals. It also returns an unbounded integer, whereas JavaScript's parseInt returns a double, so ids above 2^53 would lose precision there and not in the model.
- `Reminders.Toggled`: the stored reminders' `data` is assumed to be an object. The `[]`-to-`{}` fix at src/js/reminders.js:34-36 applies only to the event's data that becomes the instance, so stored data that is an empty array would take the new story id as an array index, serialise its gaps as `null` and make a later toggle resynchronise the instance to an array; the model does not express this. The `JSON.stringify` comparison is modelled as equality of the two entries, and key order inside an entry is not modelled. Writing `undefined` into the stored reminders' object is modelled as removing the key, because serialising an object drops undefined members.
- `fcn_getUserData`/`fcn_setUserData` are modelled as reading and writing the `userData` field. The model has no local storage, no aliasing between the stored object and the instance, no view update, no notifications, no debounced save request and no event listeners. `Date.now()` is the parameter `now`.
- A non-empty JSON array as reminders `data` is not modelled, since only an empty PHP array encodes as an array.
- `StoriesList`: `is_numeric`/`intval` on `ago` are taken as already applied (the `AgoInput` cases), and `sanitize_text_field` is an input function. The request's `paged` query var is an integer with 0 for falsy. The date-query helper, the filter hook, `WP_Query` and the page markup are not modelled.
- `functions.php` (constants and hook wiring) and the partial templates: only the `FICTIONEER_ORDER_STORIES_BY_LATEST_CHAPTER` default (false) is used.

# Video site core, modelled in Dafny

A model of the parts of a Django video-sharing site that carry their own
logic, with proofs of what they promise:

- the **pagination window** shown under every list (`get_page_list`): at most
  ten consecutive page numbers, the current page kept near the middle once
  there are more than ten pages (`pagination.dfy`, module `Pagination`);
- the **video record** (`videos.dfy`, module `Videos`): a `Video` class whose
  view counter and liked/collected relations are updated in place, and the
  `VideoQuerySet` helpers (counts, published list, search list, recommendation
  list) as functions over a sequence of video rows;
- the **public video endpoints** (`video_views.dfy`, module `VideoViews`):
  like and collect with their login gate, the view bump on every detail
  fetch, and the home-page and search-page listings;
- the **back office** (`admin.dfy`, module `AdminViews`): the five delete
  endpoints with their superuser guards (a superuser account is never
  deleted), and the subscriber notification that splits the subscribers'
  addresses into groups of two and sends them in order, stopping at the first
  failed send;
- shared types: `users.dfy` (`Users`: the requesting user, user rows) and
  `wrappers.dfy` (`Wrappers`: `Option` for nullable columns and lookups).

Conventions of the model:

- Tables are in-memory values: a `seq<VideoRow>` in table order for queries,
  `map`s from id to row for the tables the delete endpoints remove from.
- A lookup by id that finds nothing (`objects.get`, `get_object_or_404`) is an
  explicit outcome (`NoSuchVideo`, `NotFound`, `None`) that changes nothing.
- `status` is `Option<Status>`: `'0'` is `Published`, `'1'` `Unpublished`, and
  NULL (or a blank value) is `None`, which neither status filter matches.
- `title__contains=q` is SQL `LIKE '%q%'`: q occurs in the title, and a NULL
  title never matches, not even the empty q.
- The match is case-sensitive, as on MySQL with a binary collation or on
  PostgreSQL; on SQLite the same lookup ignores ASCII case. The database
  backend is not part of this model.
- `order_by('-field')` is `OrderByDesc`: the same rows, non-increasing in the
  field; the order of rows with equal keys is not specified, as in the database.
- The mail transport is an oracle `transport: nat -> SendOutcome`, what the
  i-th send of the request does: `Sent`, `SmtpError` (an `smtplib.SMTPException`,
  which `post` catches) or `OtherError` (any other exception, such as the
  `OSError` of a refused connection, which escapes as a server error).
- The page list follows the code's test `num_pages > 10`; the doc-comment says
  "ten or more". `Pagination.DocumentedThresholdAgrees` proves the two rules
  give the same list for every input.

## Model

| member | source | states |
|---|---|---|
| `Pagination.GetPageList` | helpers.py:12-41 | the list the two append loops build equals `PageList(numPages, current)`: `range(start, start + 10)` above ten pages, `range(1, numPages + 1)` otherwise |
| `Pagination.AllPagesWhenFew` | helpers.py:37-39 | with at most ten pages the list is exactly 1, 2, …, numPages, and empty when there are no pages |
| `Pagination.WindowWhenMany` | helpers.py:27-36 | above ten pages the list has exactly ten entries and starts at 1 when current ≤ 5, at numPages − 9 when current > numPages − 5, at current − 5 otherwise; in that last case the current page is the sixth entry |
| `Pagination.AtMostTen` | helpers.py:27-39 | the list never has more than ten entries |
| `Pagination.Contiguous` | helpers.py:35-39 | each entry is the previous one plus one, so the list is strictly ascending |
| `Pagination.WithinPages` | helpers.py:27-39 | every entry lies in [1, numPages], whatever the current page |
| `Pagination.CurrentPageShown` | helpers.py:27-39 | a current page in [1, numPages] is always among the entries |
| `Pagination.DocumentedExamples` | helpers.py:20-23 | for sixteen pages, pages 5, 8 and 15 give [1..10], [3..12] and [7..16] |
| `Pagination.DocumentedThresholdAgrees` | helpers.py:16-27 | the doc-comment's "ten or more pages" rule and the code's "more than ten" give the same list for every input |
| `Pagination.RangeAt` | helpers.py:35-39 | `range(lo, hi)` has hi − lo elements (none when lo ≥ hi), the k-th being lo + k |
| `Videos.Video.constructor` | video/models.py:70-75 | a new video has view count 0 and no likers or collectors |
| `Videos.Video.IncreaseViewCount` | video/models.py:84-91 | the view count grows by exactly one and no other column or relation changes |
| `Videos.Video.SwitchLike` | video/models.py:93-103 | the liked relation becomes `Toggle(liked, user)`; collected and all columns are unchanged |
| `Videos.Video.CountLikers` | video/models.py:105-110 | the number of likers: zero exactly when nobody likes the video; `VideoViews.Like` shows the answer's `likes` is the size of the relation and `Videos.ToggleCount` how a toggle moves it |
| `Videos.Video.UserLiked` | video/models.py:112-116 | returns 0 exactly when the user likes the video, 1 otherwise |
| `Videos.Video.SwitchCollect` | video/models.py:118-128 | the collected relation becomes `Toggle(collected, user)`; liked and all columns are unchanged |
| `Videos.Video.CountCollecters` | video/models.py:130-135 | the number of collectors: zero exactly when nobody collected the video; `VideoViews.Collect` shows the answer's `collects` is the size of the relation |
| `Videos.Video.UserCollected` | video/models.py:137-141 | returns 0 exactly when the user collected the video, 1 otherwise |
| `Videos.Toggle` | video/models.py:100-103 | the toggled user is a member afterwards exactly when they were not before; every other user's membership is unchanged |
| `Videos.ToggleTwice` | video/models.py:93-128 | toggling the same user twice restores the original relation |
| `Videos.ToggleCount` | video/models.py:100-110 | a toggle lowers the member count by one when the user was a member and raises it by one otherwise |
| `Videos.MembershipFlag` | video/models.py:113-116 | the inverted flag is 0 or 1, and 0 exactly for a member |
| `Videos.Contains` | video/models.py:34 | the `title__contains` test: q occurs in the text; a prefix and the empty q always match, and a match is never longer than the text |
| `Videos.Filter` | video/models.py:16-34 | `filter(...)` keeps every matching row as often as it occurs and no other row |
| `Videos.OrderByDesc` | video/models.py:24-36 | `order_by('-field')` returns a permutation of the rows, non-increasing in the field |
| `Videos.Take` | video/models.py:44 | the slice `[:n]`: the first min(n, length) rows, a sub-multiset that keeps any ordering of the input |
| `Videos.TakeKeepsTop` | video/models.py:44 | slicing a ranking keeps its top: no row left out of `[:n]` ranks above a row inside it |
| `Videos.GetCount` | video/models.py:12-13 | the row count, zero exactly for an empty table |
| `Videos.GetPublishedCount` | video/models.py:16-17 | at most the row count, and zero exactly when no row is published; its sum with the unpublished count is bounded by `Videos.StatusCountsBound` |
| `Videos.GetNotPublishedCount` | video/models.py:20-21 | at most the row count, and zero exactly when no row is unpublished |
| `Videos.StatusPartition` | video/models.py:12-21 | published, unpublished and NULL-status rows add up to the row count |
| `Videos.StatusCountsBound` | video/models.py:12-21 | `get_published_count() + get_not_published_count() ≤ get_count()`, with equality exactly when no row has a NULL status |
| `Videos.GetPublishedList` | video/models.py:24-25 | exactly the published rows, each as often as in the table, newest first |
| `Videos.GetSearchList` | video/models.py:27-36 | with an empty q all rows, otherwise exactly the rows whose title contains q, each as often as in the table; newest first in both cases |
| `Videos.GetRecommendList` | video/models.py:38-44 | min(4, published count) rows, all published, a sub-multiset of the table (no row repeated beyond its occurrences), in non-increasing view count |
| `Videos.RecommendedAreTop` | video/models.py:43-44 | no published video left out of the recommendation has more views than one in it |
| `VideoViews.Like` | video/views.py:83-93 | anonymous: code 1 and nothing changes; signed in: code 0, liked is toggled for that user, `likes` is the new liker count and `user_liked` is 0 exactly when the user now likes the video |
| `VideoViews.Collect` | video/views.py:96-105 | the same as `Like` on the collected relation, with `collects` and `user_collected` |
| `VideoViews.GetObject` | video/views.py:70-73 | every fetch of an existing video adds exactly one view, with no per-viewer deduplication; a missing video is a 404 |
| `VideoViews.IndexQuerySet` | video/views.py:31-37 | no classification: exactly the published rows; a classification: all its rows whatever their status, and a 404 when it does not exist; each row as often as in the table, newest first |
| `VideoViews.SearchQuerySet` | video/views.py:47-52 | exactly the published rows whose title contains q, each as often as in the table |
| `VideoViews.EmptySearchIsPublishedWithTitle` | video/views.py:31-52 | searching for the empty q lists the home page's videos minus those with a NULL title |
| `AdminViews.SiteStore.VideoDelete` | myadmin/views.py:160-173 | non-superuser: code 1 and the table is unchanged; otherwise exactly the given video is removed and code 0 returned (a missing id is an error and removes nothing) |
| `AdminViews.SiteStore.ClassificationDelete` | myadmin/views.py:270-283 | the same guard and single-row removal on classifications |
| `AdminViews.SiteStore.CommentDelete` | myadmin/views.py:333-348 | the same guard and single-row removal on comments |
| `AdminViews.SiteStore.UserDelete` | myadmin/views.py:420-435 | the same guard; a superuser target gets code 1 and stays; any other existing account is the only one removed; no superuser account is ever removed |
| `AdminViews.SiteStore.FeedbackDelete` | myadmin/views.py:517-525 | the same guard and single-row removal on feedback |
| `AdminViews.SubscribedAccounts` | myadmin/views.py:465 | `filter(subscribe=True)`: every subscribed account row as often as it occurs, and no other |
| `AdminViews.SubscriberEmails` | myadmin/views.py:465 | `values_list('email', flat=True)`: one address per subscribed row, the k-th being the k-th subscribed row's email (duplicates kept); an address appears exactly when some subscribed account has it |
| `AdminViews.Batches` | myadmin/views.py:467 | ⌈n/2⌉ groups of one or two addresses, the i-th group being the addresses from position 2i on |
| `AdminViews.BatchesUnfold` | myadmin/views.py:467 | the first group is the first two addresses (or all of them when there are at most two), followed by the groups of the rest |
| `AdminViews.BatchesConcat` | myadmin/views.py:467 | the groups, concatenated in order, give back the subscriber list |
| `AdminViews.BatchSizes` | myadmin/views.py:467 | there are ⌈n/2⌉ groups, all of two addresses except the last, which has one when n is odd; no groups exactly when no addresses |
| `AdminViews.SubscribePost` | myadmin/views.py:438-479 | non-superuser: refused by the superuser mixin (plain-text answer, not JSON) before `post` runs, nothing sent; empty list: code 1, nothing sent; otherwise the groups are handed to the transport in order and the first failure ends the request, no later group being tried and earlier ones staying sent: code 1 exactly when it was an SMTP error, a server error exactly when it was any other exception; code 0 comes exactly when every group was sent |

## Left out

- ORM persistence, `save(update_fields=…)`, database transactions and concurrent requests: tables are in-memory values and each handler runs alone.
- Cascading deletes (a video's comments and relations, a classification's videos, a user's comments): a delete removes only the one row.
- Deleting the video file from disk after a video is deleted (a filesystem side effect).
- Chunked upload and its completion views, which belong to a third-party upload library.
- The mail transport itself and the rendering of the mail template: sending is the oracle `transport`; the subject and body are not modelled.
- Comment and feedback submission, with their rate limiter and form validation, and the login, signup, profile and password views: their decisions belong to framework components.
- The AJAX and POST-only decorators, which are request-header and method checks, and the staff and author mixins, which guard views outside this model. The superuser mixin is modelled where it guards a modelled view: for `SubscribeView` it refuses a non-superuser with a plain-text answer before `post` runs, so `post`'s own superuser test is never reached.
- The date-based counts (today's comments, today's new users), which depend on the wall clock.
- Routing tables, templates, and the generic list/detail/update machinery, including the paginator that produces the page count passed to `get_page_list`.
- A missing POST parameter (`request.POST['video_id']` raising a key error) and a non-numeric classification id: lookups take an id that parses.
- `VideoViews.IndexQuerySet`: the `c` parameter is an `Option` of an id; an absent and an empty parameter are both `None`, as the code's truth test treats them alike.
- `Videos.OrderByDesc`: the contract fixes only the order of rows with different keys, because the database leaves the order among equal keys open.
- `AdminViews.SubscribePost`: the `logger.error` call after an SMTP error and the debugging `print` calls are dropped, since they change no answer; a non-SMTP error is modelled only as the `ServerError` outcome, not as the framework's error page.
- `Videos.Video.IncreaseViewCount`: `view_count` is an `IntegerField`, a signed 32-bit column, while the model's counter is an unbounded `nat`. The model does not capture the save that fails at 2147483647 views (PostgreSQL, or MySQL in strict mode), nor MySQL's non-strict clamping; `IncreaseViewCount` and `VideoViews.GetObject` promise +1 on every fetch.

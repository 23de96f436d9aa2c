/**
 * The video record (video/models.py): its row as the query helpers of
 * `VideoQuerySet` see it, the loaded `Video` object whose view counter and
 * liked/collected relations the site updates in place, and the pure list
 * functions (filter, order, slice, count) the query helpers are built from.
 */
module Videos {
  import opened Wrappers
  import opened Users

  type VideoId = nat
  type ClassificationId = nat

  /** The `status` column's two choices: '0' published, '1' unpublished. */
  datatype Status = Published | Unpublished

  /** A video row as listed by a query: nullable title, classification and status. */
  datatype VideoRow = VideoRow(
    id: VideoId,
    title: Option<string>,
    classification: Option<ClassificationId>,
    status: Option<Status>,
    viewCount: nat,
    createTime: int)

  // ---------------------------------------------------------------------------
  // Liked / collected relations
  // ---------------------------------------------------------------------------

  /** The relation after `switch_like`/`switch_collect`: the user leaves if present, joins otherwise. */
  function Toggle(members: set<UserId>, user: UserId): (r: set<UserId>)
    ensures user in r <==> user !in members
    ensures forall other :: other != user ==> (other in r <==> other in members)
  {
    if user in members then members - {user} else members + {user}
  }

  /** Toggling the same user twice gives back the relation it started from. */
  lemma ToggleTwice(members: set<UserId>, user: UserId)
    ensures Toggle(Toggle(members, user), user) == members
  {
  }

  /** A toggle changes the member count by exactly one: down when the user was in, up otherwise. */
  lemma ToggleCount(members: set<UserId>, user: UserId)
    ensures user in members ==> |Toggle(members, user)| == |members| - 1
    ensures user !in members ==> |Toggle(members, user)| == |members| + 1
  {
  }

  /** The inverted flag `user_liked`/`user_collected` return: 0 for a member, 1 otherwise. */
  function MembershipFlag(members: set<UserId>, user: UserId): (flag: nat)
    ensures flag <= 1
    ensures flag == 0 <==> user in members
  {
    if user in members then 0 else 1
  }

  /** A loaded video whose counter and relations the handlers change in place. */
  class Video {
    const id: VideoId
    var title: Option<string>
    var classification: Option<ClassificationId>
    var status: Option<Status>
    var viewCount: nat
    var liked: set<UserId>
    var collected: set<UserId>
    const createTime: int

    /** A freshly created video: never viewed, liked or collected. */
    constructor (id: VideoId, title: Option<string>, classification: Option<ClassificationId>,
                 status: Option<Status>, createTime: int)
      ensures Row() == VideoRow(id, title, classification, status, 0, createTime)
      ensures liked == {} && collected == {}
    {
      this.id := id;
      this.title := title;
      this.classification := classification;
      this.status := status;
      this.viewCount := 0;
      this.liked := {};
      this.collected := {};
      this.createTime := createTime;
    }

    /** The row a query would list for this video. */
    function Row(): VideoRow
      reads this
    {
      VideoRow(id, title, classification, status, viewCount, createTime)
    }

    /** `increase_view_count`: one more view; no other column changes. */
    method IncreaseViewCount()
      modifies this`viewCount
      ensures viewCount == old(viewCount) + 1
      ensures Row() == old(Row()).(viewCount := old(viewCount) + 1)
      ensures liked == old(liked) && collected == old(collected)
    {
      viewCount := viewCount + 1;
    }

    /** `switch_like`: the user un-likes if they liked the video, likes it otherwise. */
    method SwitchLike(user: UserId)
      modifies this`liked
      ensures liked == Toggle(old(liked), user)
      ensures collected == old(collected) && Row() == old(Row())
    {
      if user in liked {
        liked := liked - {user};
      } else {
        liked := liked + {user};
      }
    }

    /** `count_likers`: the number of users who like the video. */
    function CountLikers(): (n: nat)
      reads this
      ensures n == 0 <==> liked == {}
    {
      |liked|
    }

    /** `user_liked`: 0 when the user likes the video, 1 otherwise. */
    function UserLiked(user: UserId): (flag: nat)
      reads this
      ensures flag <= 1
      ensures flag == 0 <==> user in liked
    {
      MembershipFlag(liked, user)
    }

    /** `switch_collect`: the user un-collects if they collected the video, collects it otherwise. */
    method SwitchCollect(user: UserId)
      modifies this`collected
      ensures collected == Toggle(old(collected), user)
      ensures liked == old(liked) && Row() == old(Row())
    {
      if user in collected {
        collected := collected - {user};
      } else {
        collected := collected + {user};
      }
    }

    /** `count_collecters`: the number of users who collected the video. */
    function CountCollecters(): (n: nat)
      reads this
      ensures n == 0 <==> collected == {}
    {
      |collected|
    }

    /** `user_collected`: 0 when the user collected the video, 1 otherwise. */
    function UserCollected(user: UserId): (flag: nat)
      reads this
      ensures flag <= 1
      ensures flag == 0 <==> user in collected
    {
      MembershipFlag(collected, user)
    }
  }

  // ---------------------------------------------------------------------------
  // Filters
  // ---------------------------------------------------------------------------

  /** SQL `LIKE '%q%'` on a non-null text: q occurs somewhere in text. */
  predicate Contains(text: string, q: string): (found: bool)
    ensures found ==> |q| <= |text|
    ensures q <= text ==> found
    ensures q == [] ==> found
  {
    assert q <= text ==> q <= text[0..];
    exists i :: 0 <= i <= |text| && q <= text[i..]
  }

  /** The `filter(...)` conditions the core uses. */
  datatype Criterion =
    | StatusIs(status: Status)          // filter(status=0) / filter(status=1)
    | TitleContains(q: string)          // filter(title__contains=q)
    | InClassification(c: ClassificationId)  // classification.video_set

  /** Whether a row passes a condition; a NULL column passes none of them. */
  predicate Matches(v: VideoRow, crit: Criterion)
  {
    match crit
    case StatusIs(s) => v.status == Some(s)
    case TitleContains(q) => v.title.Some? && Contains(v.title.value, q)
    case InClassification(c) => v.classification == Some(c)
  }

  /** `filter(crit)`: keeps every matching row, as often as it occurs, and nothing else. */
  function Filter(vs: seq<VideoRow>, crit: Criterion): (r: seq<VideoRow>)
    ensures |r| <= |vs|
    ensures forall v :: multiset(r)[v] == if Matches(v, crit) then multiset(vs)[v] else 0
    ensures forall v :: v in r <==> v in vs && Matches(v, crit)
  {
    if vs == [] then []
    else
      assert vs == [vs[0]] + vs[1..];
      (if Matches(vs[0], crit) then [vs[0]] else []) + Filter(vs[1..], crit)
  }

  // ---------------------------------------------------------------------------
  // Ordering
  // ---------------------------------------------------------------------------

  /** The columns the core orders by, always descending. */
  datatype SortKey = CreateTime | ViewCount

  function KeyOf(v: VideoRow, key: SortKey): int
  {
    match key
    case CreateTime => v.createTime
    case ViewCount => v.viewCount
  }

  /** Non-increasing in the key: the order `order_by('-key')` promises. */
  predicate SortedDesc(vs: seq<VideoRow>, key: SortKey)
  {
    forall i, j :: 0 <= i < j < |vs| ==> KeyOf(vs[i], key) >= KeyOf(vs[j], key)
  }

  function Insert(v: VideoRow, sorted: seq<VideoRow>, key: SortKey): (r: seq<VideoRow>)
    requires SortedDesc(sorted, key)
    ensures SortedDesc(r, key)
    ensures multiset(r) == multiset(sorted) + multiset{v}
    ensures |r| == |sorted| + 1
    ensures r[0] == v || (sorted != [] && r[0] == sorted[0])
  {
    if sorted == [] || KeyOf(v, key) >= KeyOf(sorted[0], key) then [v] + sorted
    else
      assert sorted == [sorted[0]] + sorted[1..];
      [sorted[0]] + Insert(v, sorted[1..], key)
  }

  /**
   * `order_by('-key')`: the same rows, non-increasing in the key. Rows with
   * equal keys come in some order; the database does not fix one either.
   */
  function OrderByDesc(vs: seq<VideoRow>, key: SortKey): (r: seq<VideoRow>)
    ensures SortedDesc(r, key)
    ensures multiset(r) == multiset(vs)
    ensures |r| == |vs|
  {
    if vs == [] then []
    else
      assert vs == [vs[0]] + vs[1..];
      Insert(vs[0], OrderByDesc(vs[1..], key), key)
  }

  // ---------------------------------------------------------------------------
  // VideoQuerySet helpers
  // ---------------------------------------------------------------------------

  /** `get_count`: every row, counted once; none exactly for an empty table. */
  function GetCount(vs: seq<VideoRow>): (n: nat)
    ensures n == 0 <==> vs == []
  {
    |vs|
  }

  /** `get_published_count`: the rows with status '0', counted with their multiplicity. */
  function GetPublishedCount(vs: seq<VideoRow>): (n: nat)
    ensures n <= |vs|
    ensures n == 0 <==> forall v :: v in vs ==> v.status != Some(Published)
  {
    |Filter(vs, StatusIs(Published))|
  }

  /** `get_not_published_count`: the rows with status '1', counted with their multiplicity. */
  function GetNotPublishedCount(vs: seq<VideoRow>): (n: nat)
    ensures n <= |vs|
    ensures n == 0 <==> forall v :: v in vs ==> v.status != Some(Unpublished)
  {
    |Filter(vs, StatusIs(Unpublished))|
  }

  /** How many rows have a NULL status. */
  function NullStatusCount(vs: seq<VideoRow>): nat
  {
    if vs == [] then 0 else (if vs[0].status.None? then 1 else 0) + NullStatusCount(vs[1..])
  }

  /** No row has a NULL status exactly when the NULL count is zero. */
  lemma {:induction false} NoNullStatus(vs: seq<VideoRow>)
    ensures NullStatusCount(vs) == 0 <==> forall i :: 0 <= i < |vs| ==> vs[i].status.Some?
  {
    if vs != [] {
      NoNullStatus(vs[1..]);
      assert forall i :: 1 <= i < |vs| ==> vs[i] == vs[1..][i - 1];
    }
  }

  /** Every row is published, unpublished or NULL, each counted once. */
  lemma {:induction false} StatusPartition(vs: seq<VideoRow>)
    ensures GetPublishedCount(vs) + GetNotPublishedCount(vs) + NullStatusCount(vs) == GetCount(vs)
  {
    if vs != [] {
      var rest := vs[1..];
      StatusPartition(rest);
      assert Filter(vs, StatusIs(Published)) ==
        (if vs[0].status == Some(Published) then [vs[0]] else []) + Filter(rest, StatusIs(Published));
      assert Filter(vs, StatusIs(Unpublished)) ==
        (if vs[0].status == Some(Unpublished) then [vs[0]] else []) + Filter(rest, StatusIs(Unpublished));
      assert NullStatusCount(vs) == (if vs[0].status.None? then 1 else 0) + NullStatusCount(rest);
      match vs[0].status {
        case None =>
        case Some(Published) =>
        case Some(Unpublished) =>
      }
    }
  }

  /**
   * Published and unpublished videos together never outnumber all videos, and
   * they make up all of them exactly when no video has a NULL status.
   */
  lemma StatusCountsBound(vs: seq<VideoRow>)
    ensures GetPublishedCount(vs) + GetNotPublishedCount(vs) <= GetCount(vs)
    ensures GetPublishedCount(vs) + GetNotPublishedCount(vs) == GetCount(vs)
        <==> forall i :: 0 <= i < |vs| ==> vs[i].status.Some?
  {
    StatusPartition(vs);
    NoNullStatus(vs);
  }

  /** `get_published_list`: published videos only, newest first. */
  function GetPublishedList(vs: seq<VideoRow>): (r: seq<VideoRow>)
    ensures SortedDesc(r, CreateTime)
    ensures forall v :: multiset(r)[v] == if v.status == Some(Published) then multiset(vs)[v] else 0
    ensures forall v :: v in r <==> v in vs && v.status == Some(Published)
  {
    OrderByDesc(Filter(vs, StatusIs(Published)), CreateTime)
  }

  /**
   * `get_search_list(q)`: with an empty q every video, otherwise only those
   * whose title contains q; newest first in both cases.
   */
  function GetSearchList(vs: seq<VideoRow>, q: string): (r: seq<VideoRow>)
    ensures SortedDesc(r, CreateTime)
    ensures q == [] ==> multiset(r) == multiset(vs)
    ensures q != [] ==> forall v :: v in r <==> v in vs && v.title.Some? && Contains(v.title.value, q)
    ensures q != [] ==> forall v :: (multiset(r)[v] ==
      if v.title.Some? && Contains(v.title.value, q) then multiset(vs)[v] else 0)
  {
    if q != [] then OrderByDesc(Filter(vs, TitleContains(q)), CreateTime)
    else OrderByDesc(vs, CreateTime)
  }

  /** The slice `[:n]`: the first n rows, or all of them when there are fewer. */
  function Take(vs: seq<VideoRow>, n: nat): (r: seq<VideoRow>)
    ensures |r| == if |vs| < n then |vs| else n
    ensures r == vs[..|r|]
    ensures multiset(r) <= multiset(vs)
    ensures forall key :: SortedDesc(vs, key) ==> SortedDesc(r, key)
  {
    var r := if |vs| <= n then vs else vs[..n];
    assert vs == r + vs[|r|..];
    r
  }

  /**
   * `get_recommend_list`: the four most-viewed published videos (fewer when
   * fewer are published), most viewed first.
   */
  function GetRecommendList(vs: seq<VideoRow>): (r: seq<VideoRow>)
    ensures |r| == if GetPublishedCount(vs) < 4 then GetPublishedCount(vs) else 4
    ensures forall v :: v in r ==> v in vs && v.status == Some(Published)
    ensures multiset(r) <= multiset(vs)
    ensures SortedDesc(r, ViewCount)
  {
    var published := Filter(vs, StatusIs(Published));
    var ranked := OrderByDesc(published, ViewCount);
    var r := Take(ranked, 4);
    assert multiset(r) <= multiset(vs) by {
      assert multiset(r) <= multiset(ranked) == multiset(published) <= multiset(vs);
    }
    assert forall v :: v in r ==> v in multiset(published);
    r
  }

  /**
   * Slicing a ranking keeps its top: no row of the ranking left out of the
   * slice ranks above a row in it.
   */
  lemma TakeKeepsTop(ranked: seq<VideoRow>, n: nat, key: SortKey)
    requires SortedDesc(ranked, key)
    ensures forall i, w ::
      (0 <= i < |Take(ranked, n)| && w in ranked && w !in Take(ranked, n))
        ==> KeyOf(w, key) <= KeyOf(Take(ranked, n)[i], key)
  {
    var r := Take(ranked, n);
    forall i, w | 0 <= i < |r| && w in ranked && w !in r
      ensures KeyOf(w, key) <= KeyOf(r[i], key)
    {
      var j :| 0 <= j < |ranked| && ranked[j] == w;
      assert r[i] == ranked[i];
    }
  }

  /**
   * No published video left out of the recommendation has more views than
   * one that is in it: the list really is the top of the ranking.
   */
  lemma RecommendedAreTop(vs: seq<VideoRow>)
    ensures forall i, w ::
      (0 <= i < |GetRecommendList(vs)| && w in vs && w.status == Some(Published) && w !in GetRecommendList(vs))
        ==> w.viewCount <= GetRecommendList(vs)[i].viewCount
  {
    var published := Filter(vs, StatusIs(Published));
    var ranked := OrderByDesc(published, ViewCount);
    TakeKeepsTop(ranked, 4, ViewCount);
    forall w | w in vs && w.status == Some(Published)
      ensures w in ranked
    {
      assert w in multiset(published);
      assert w in multiset(ranked);
    }
  }
}

/**
 * The public video pages (video/views.py): the like and collect endpoints,
 * the detail page's view counter, and the listings of the home page and of
 * the search page.
 */
module VideoViews {
  import opened Wrappers
  import opened Users
  import opened Videos

  /**
   * The JSON answer of `like`/`collect`: code 1 "please log in", or code 0
   * with the new member count and the inverted membership flag. `NoSuchVideo`
   * is the uncaught `Video.DoesNotExist` of `Video.objects.get`, which the
   * framework turns into a server error rather than a JSON answer.
   */
  datatype ToggleReply = PleaseLogIn | NoSuchVideo | Toggled(count: nat, flag: nat)
  {
    /** The `code` field of the JSON answer (only the JSON answers have one). */
    function Code(): int
      requires !NoSuchVideo?
    {
      if PleaseLogIn? then 1 else 0
    }
  }

  /**
   * `like`: an anonymous visitor is turned away before anything is looked up
   * or changed; a signed-in user's like is toggled, and the answer carries the
   * new number of likers and 0 exactly when the user now likes the video.
   * `video` is the result of looking up the posted id (null when there is
   * no such video).
   */
  method Like(user: RequestUser, video: Video?) returns (reply: ToggleReply)
    modifies video
    ensures video != null ==> video.collected == old(video.collected) && video.Row() == old(video.Row())
    ensures !user.IsAuthenticated() ==> reply == PleaseLogIn && reply.Code() == 1
    ensures !user.IsAuthenticated() && video != null ==> video.liked == old(video.liked)
    ensures user.IsAuthenticated() && video == null ==> reply == NoSuchVideo
    ensures user.IsAuthenticated() && video != null ==>
      && video.liked == Toggle(old(video.liked), user.id)
      && reply.Toggled? && reply.Code() == 0
      && reply.count == |video.liked|
      && reply.flag == MembershipFlag(video.liked, user.id)
      && (reply.flag == 0 <==> user.id in video.liked)
      && (reply.flag == 0 <==> user.id !in old(video.liked))
  {
    if !user.IsAuthenticated() {
      return PleaseLogIn;
    }
    if video == null {
      return NoSuchVideo;
    }
    video.SwitchLike(user.id);
    reply := Toggled(video.CountLikers(), video.UserLiked(user.id));
  }

  /** `collect`: the same as `Like`, on the collected relation. */
  method Collect(user: RequestUser, video: Video?) returns (reply: ToggleReply)
    modifies video
    ensures video != null ==> video.liked == old(video.liked) && video.Row() == old(video.Row())
    ensures !user.IsAuthenticated() ==> reply == PleaseLogIn && reply.Code() == 1
    ensures !user.IsAuthenticated() && video != null ==> video.collected == old(video.collected)
    ensures user.IsAuthenticated() && video == null ==> reply == NoSuchVideo
    ensures user.IsAuthenticated() && video != null ==>
      && video.collected == Toggle(old(video.collected), user.id)
      && reply.Toggled? && reply.Code() == 0
      && reply.count == |video.collected|
      && reply.flag == MembershipFlag(video.collected, user.id)
      && (reply.flag == 0 <==> user.id in video.collected)
      && (reply.flag == 0 <==> user.id !in old(video.collected))
  {
    if !user.IsAuthenticated() {
      return PleaseLogIn;
    }
    if video == null {
      return NoSuchVideo;
    }
    video.SwitchCollect(user.id);
    reply := Toggled(video.CountCollecters(), video.UserCollected(user.id));
  }

  /**
   * `VideoDetailView.get_object`: every fetch of an existing video adds one
   * view, whoever is looking; a missing video is a 404 and changes nothing.
   */
  method GetObject(video: Video?) returns (found: Option<Video>)
    modifies video
    ensures video == null ==> found == None
    ensures video != null ==>
      && found == Some(video)
      && video.viewCount == old(video.viewCount) + 1
      && video.Row() == old(video.Row()).(viewCount := old(video.viewCount) + 1)
      && video.liked == old(video.liked) && video.collected == old(video.collected)
  {
    if video == null {
      return None;
    }
    video.IncreaseViewCount();
    found := Some(video);
  }

  /**
   * `IndexView.get_queryset`. `c` is the `c` query parameter (None when it is
   * absent or empty), `classifications` the ids that exist. A classification
   * that does not exist is a 404 (None); otherwise the listing, newest first:
   * the classification's videos whatever their status, or, with no
   * classification, the published videos only.
   */
  function IndexQuerySet(c: Option<ClassificationId>, classifications: set<ClassificationId>,
                         videos: seq<VideoRow>): (r: Option<seq<VideoRow>>)
    ensures c.Some? && c.value !in classifications <==> r == None
    ensures r.Some? ==> SortedDesc(r.value, CreateTime)
    ensures c == None ==> r.Some? && forall v :: v in r.value <==> v in videos && v.status == Some(Published)
    ensures c == None ==>
      r.Some? && (forall v :: multiset(r.value)[v] == if v.status == Some(Published) then multiset(videos)[v] else 0)
    ensures c.Some? && r.Some? ==>
      forall v :: multiset(r.value)[v] == if v.classification == c then multiset(videos)[v] else 0
  {
    match c
    case Some(cid) =>
      if cid in classifications then Some(OrderByDesc(Filter(videos, InClassification(cid)), CreateTime))
      else None
    case None =>
      Some(OrderByDesc(Filter(videos, StatusIs(Published)), CreateTime))
  }

  /**
   * `SearchListView.get_queryset`: the published videos whose title contains
   * q, in the order the table lists them (no ordering is requested). A NULL
   * title never matches, even for the empty q.
   */
  function SearchQuerySet(q: string, videos: seq<VideoRow>): (r: seq<VideoRow>)
    ensures forall v :: v in r <==> v in videos && v.title.Some? && Contains(v.title.value, q)
                                    && v.status == Some(Published)
    ensures forall v :: (multiset(r)[v] ==
      if v.title.Some? && Contains(v.title.value, q) && v.status == Some(Published) then multiset(videos)[v] else 0)
  {
    Filter(Filter(videos, TitleContains(q)), StatusIs(Published))
  }

  /**
   * The home page without a classification and the search page with the empty
   * q list the same videos, except those without a title.
   */
  lemma EmptySearchIsPublishedWithTitle(videos: seq<VideoRow>)
    ensures forall v :: v in SearchQuerySet([], videos) <==>
      v in IndexQuerySet(None, {}, videos).value && v.title.Some?
  {
    forall v: VideoRow | v.title.Some?
      ensures Contains(v.title.value, [])
    {
      assert [] <= v.title.value[0..];
    }
  }
}

/**
 * The staff back office (myadmin/views.py): the five delete endpoints, each
 * guarded by the superuser check, and the subscriber notification, which
 * splits the subscribers' addresses into groups of two and sends one mail per
 * group, stopping at the first failure.
 */
module AdminViews {
  import opened Wrappers
  import opened Users
  import opened Videos

  type CommentId = nat
  type FeedbackId = nat

  /** A row of the classification table. */
  datatype Classification = Classification(title: Option<string>, enabled: bool)

  /** A row of the comment table; nickname and avatar are copies taken when it was posted. */
  datatype Comment = Comment(user: UserId, nickname: Option<string>, avatar: Option<string>,
                             video: VideoId, content: string, timestamp: int)

  /** A row of the feedback table. */
  datatype Feedback = Feedback(contact: Option<string>, content: Option<string>, timestamp: Option<int>)

  /**
   * The answers of the back-office endpoints. `NotFound` is the uncaught
   * `DoesNotExist` of `objects.get(id=…)`: a server error, not a JSON answer.
   */
  datatype AdminReply =
    | NoPermission            // {"code": 1, "msg": "no delete permission"}
    | RefusedByMixin          // plain-text "no permission" of SuperUserRequiredMixin, not JSON
    | NotFound
    | SuperuserProtected      // {"code": 1, "msg": "cannot delete an administrator"}
    | SendFailed              // {"code": 1, "msg": "sending failed"}
    | ServerError             // an uncaught exception: the framework's error page, not JSON
    | EmptyMailingList        // {"code": 1, "msg": "mailing list is empty"}
    | Success                 // {"code": 0, "msg": "success"}
  {
    /** The `code` field of the JSON answer. */
    function Code(): int
      requires !NotFound? && !RefusedByMixin? && !ServerError?
    {
      if Success? then 0 else 1
    }
  }

  // ---------------------------------------------------------------------------
  // Delete endpoints
  // ---------------------------------------------------------------------------

  /** The five tables the delete endpoints remove rows from, keyed by id. */
  class SiteStore {
    var videos: map<VideoId, VideoRow>
    var classifications: map<ClassificationId, Classification>
    var comments: map<CommentId, Comment>
    var users: map<UserId, Account>
    var feedback: map<FeedbackId, Feedback>

    constructor (videos: map<VideoId, VideoRow>, classifications: map<ClassificationId, Classification>,
                 comments: map<CommentId, Comment>, users: map<UserId, Account>,
                 feedback: map<FeedbackId, Feedback>)
      ensures this.videos == videos && this.classifications == classifications
      ensures this.comments == comments && this.users == users && this.feedback == feedback
    {
      this.videos := videos;
      this.classifications := classifications;
      this.comments := comments;
      this.users := users;
      this.feedback := feedback;
    }

    /**
     * `video_delete`: only a superuser may delete; the video must exist; then
     * exactly that video is gone and every other one is as it was.
     */
    method VideoDelete(requester: RequestUser, videoId: VideoId) returns (reply: AdminReply)
      modifies this`videos
      ensures !requester.IsSuperuser() ==> reply == NoPermission && reply.Code() == 1
      ensures requester.IsSuperuser() && videoId !in old(videos) ==> reply == NotFound
      ensures requester.IsSuperuser() && videoId in old(videos) ==> reply == Success && reply.Code() == 0
      ensures reply == Success ==> videos == old(videos) - {videoId}
      ensures reply != Success ==> videos == old(videos)
    {
      if !requester.IsSuperuser() {
        return NoPermission;
      }
      if videoId !in videos {
        return NotFound;
      }
      videos := videos - {videoId};
      reply := Success;
    }

    /** `classification_delete`: the same guard and removal, on classifications. */
    method ClassificationDelete(requester: RequestUser, classificationId: ClassificationId)
      returns (reply: AdminReply)
      modifies this`classifications
      ensures !requester.IsSuperuser() ==> reply == NoPermission && reply.Code() == 1
      ensures requester.IsSuperuser() && classificationId !in old(classifications) ==> reply == NotFound
      ensures requester.IsSuperuser() && classificationId in old(classifications) ==>
        reply == Success && reply.Code() == 0
      ensures reply == Success ==> classifications == old(classifications) - {classificationId}
      ensures reply != Success ==> classifications == old(classifications)
    {
      if !requester.IsSuperuser() {
        return NoPermission;
      }
      if classificationId !in classifications {
        return NotFound;
      }
      classifications := classifications - {classificationId};
      reply := Success;
    }

    /** `comment_delete`: the same guard and removal, on comments. */
    method CommentDelete(requester: RequestUser, commentId: CommentId) returns (reply: AdminReply)
      modifies this`comments
      ensures !requester.IsSuperuser() ==> reply == NoPermission && reply.Code() == 1
      ensures requester.IsSuperuser() && commentId !in old(comments) ==> reply == NotFound
      ensures requester.IsSuperuser() && commentId in old(comments) ==> reply == Success && reply.Code() == 0
      ensures reply == Success ==> comments == old(comments) - {commentId}
      ensures reply != Success ==> comments == old(comments)
    {
      if !requester.IsSuperuser() {
        return NoPermission;
      }
      if commentId !in comments {
        return NotFound;
      }
      comments := comments - {commentId};
      reply := Success;
    }

    /**
     * `user_delete`: only a superuser may delete, and never a superuser
     * account; any other existing account is removed and nothing else.
     */
    method UserDelete(requester: RequestUser, userId: UserId) returns (reply: AdminReply)
      modifies this`users
      ensures !requester.IsSuperuser() ==> reply == NoPermission && reply.Code() == 1
      ensures requester.IsSuperuser() && userId !in old(users) ==> reply == NotFound
      ensures requester.IsSuperuser() && userId in old(users) && old(users)[userId].isSuperuser ==>
        reply == SuperuserProtected && reply.Code() == 1
      ensures requester.IsSuperuser() && userId in old(users) && !old(users)[userId].isSuperuser ==>
        reply == Success && reply.Code() == 0
      ensures reply == Success ==> users == old(users) - {userId}
      ensures reply != Success ==> users == old(users)
      ensures forall id :: id in old(users) && old(users)[id].isSuperuser ==>
        id in users && users[id] == old(users)[id]
    {
      if !requester.IsSuperuser() {
        return NoPermission;
      }
      if userId !in users {
        return NotFound;
      }
      if users[userId].isSuperuser {
        return SuperuserProtected;
      }
      users := users - {userId};
      reply := Success;
    }

    /** `feedback_delete`: the same guard and removal, on feedback. */
    method FeedbackDelete(requester: RequestUser, feedbackId: FeedbackId) returns (reply: AdminReply)
      modifies this`feedback
      ensures !requester.IsSuperuser() ==> reply == NoPermission && reply.Code() == 1
      ensures requester.IsSuperuser() && feedbackId !in old(feedback) ==> reply == NotFound
      ensures requester.IsSuperuser() && feedbackId in old(feedback) ==> reply == Success && reply.Code() == 0
      ensures reply == Success ==> feedback == old(feedback) - {feedbackId}
      ensures reply != Success ==> feedback == old(feedback)
    {
      if !requester.IsSuperuser() {
        return NoPermission;
      }
      if feedbackId !in feedback {
        return NotFound;
      }
      feedback := feedback - {feedbackId};
      reply := Success;
    }
  }

  // ---------------------------------------------------------------------------
  // Subscriber notification
  // ---------------------------------------------------------------------------

  /** `User.objects.filter(subscribe=True)`: every subscribed row, as often as it occurs, and no other. */
  function SubscribedAccounts(accounts: seq<Account>): (r: seq<Account>)
    ensures |r| <= |accounts|
    ensures forall a :: multiset(r)[a] == if a.subscribe then multiset(accounts)[a] else 0
    ensures forall a :: a in r <==> a in accounts && a.subscribe
  {
    if accounts == [] then []
    else
      assert accounts == [accounts[0]] + accounts[1..];
      (if accounts[0].subscribe then [accounts[0]] else []) + SubscribedAccounts(accounts[1..])
  }

  /**
   * `.values_list('email', flat=True)` of the subscribed rows: one address per
   * subscribed row, in the same order, duplicates kept.
   */
  function SubscriberEmails(accounts: seq<Account>): (emails: seq<Email>)
    ensures |emails| == |SubscribedAccounts(accounts)|
    ensures forall k :: 0 <= k < |emails| ==> emails[k] == SubscribedAccounts(accounts)[k].email
    ensures forall e :: e in emails <==> exists a :: a in accounts && a.subscribe && a.email == e
  {
    var subscribed := SubscribedAccounts(accounts);
    var emails := seq(|subscribed|, k requires 0 <= k < |subscribed| => subscribed[k].email);
    assert forall a :: a in accounts && a.subscribe ==> a.email in emails by {
      forall a | a in accounts && a.subscribe ensures a.email in emails {
        var k :| 0 <= k < |subscribed| && subscribed[k] == a;
        assert emails[k] == a.email;
      }
    }
    emails
  }

  /**
   * `[email_list[i:i + 2] for i in range(0, len(email_list), 2)]`: ceil(n / 2)
   * groups of one or two addresses, the i-th starting at address 2 * i.
   */
  function Batches(emails: seq<Email>): (groups: seq<seq<Email>>)
    ensures 2 * |groups| - 1 <= |emails| <= 2 * |groups|
    ensures forall i :: 0 <= i < |groups| ==> 1 <= |groups[i]| <= 2 && groups[i] <= emails[2 * i..]
  {
    seq((|emails| + 1) / 2, i requires 0 <= i < (|emails| + 1) / 2 =>
      emails[2 * i .. if 2 * i + 2 <= |emails| then 2 * i + 2 else |emails|])
  }

  /** The addresses of a list of groups, one group after the other. */
  function Concat(groups: seq<seq<Email>>): seq<Email>
  {
    if groups == [] then [] else groups[0] + Concat(groups[1..])
  }

  /** Splitting off the first group leaves the groups of the remaining addresses. */
  lemma BatchesUnfold(emails: seq<Email>)
    requires |emails| > 0
    ensures |emails| <= 2 ==> Batches(emails) == [emails]
    ensures |emails| > 2 ==> Batches(emails) == [emails[..2]] + Batches(emails[2..])
  {
    if |emails| > 2 {
      var b, rest := Batches(emails), Batches(emails[2..]);
      assert |b| == |rest| + 1;
      forall i | 1 <= i < |b|
        ensures b[i] == rest[i - 1]
      {
        assert emails[2 * i ..][..] == emails[2..][2 * (i - 1) ..];
      }
    } else {
      assert |Batches(emails)| == 1;
      assert Batches(emails)[0] == emails[0..|emails|] == emails;
    }
  }

  /** The groups, read one after another, give back the subscriber list in order. */
  lemma {:induction false} BatchesConcat(emails: seq<Email>)
    ensures Concat(Batches(emails)) == emails
    decreases |emails|
  {
    if emails == [] {
    } else if |emails| <= 2 {
      BatchesUnfold(emails);
      assert Concat(Batches(emails)) == emails + Concat([]);
    } else {
      BatchesUnfold(emails);
      BatchesConcat(emails[2..]);
      assert emails == emails[..2] + emails[2..];
    }
  }

  /**
   * There are ceil(n / 2) groups; every group holds two addresses except the
   * last, which holds one when n is odd.
   */
  lemma BatchSizes(emails: seq<Email>)
    ensures |Batches(emails)| == (|emails| + 1) / 2
    ensures 2 * |Batches(emails)| - 1 <= |emails| <= 2 * |Batches(emails)|
    ensures forall i :: 0 <= i < |Batches(emails)| - 1 ==> |Batches(emails)[i]| == 2
    ensures |emails| > 0 ==> |Batches(emails)[|Batches(emails)| - 1]| == 2 - |emails| % 2
    ensures (Batches(emails) == []) <==> (emails == [])
  {
  }

  /**
   * What one call of `send_html_email` does: it returns normally, raises an
   * `smtplib.SMTPException` (which `post` catches), or raises any other
   * exception, such as the `OSError` of a refused connection (which it does not).
   */
  datatype SendOutcome = Sent | SmtpError | OtherError

  /**
   * A POST to `SubscribeView`: the dispatch of `SuperUserRequiredMixin`, then
   * `post`. `transport(i)` is the mail transport's verdict on the i-th send of
   * this request (see `SendOutcome`); `attempted` lists the
   * recipient groups handed to it, in order. A non-superuser is refused by the
   * mixin with a plain-text answer before `post` runs, so the superuser test
   * inside `post` never fires; an empty subscriber list sends nothing;
   * otherwise the groups go out in order and the first failure ends the
   * request: with code 1 for an SMTP error, with a server error for any other
   * exception. Groups sent before the failure stay sent.
   */
  method SubscribePost(requester: RequestUser, videos: map<VideoId, VideoRow>, videoId: VideoId,
                       accounts: seq<Account>, transport: nat -> SendOutcome)
    returns (reply: AdminReply, attempted: seq<seq<Email>>)
    ensures !requester.IsSuperuser() ==> reply == RefusedByMixin && attempted == []
    ensures requester.IsSuperuser() && videoId !in videos ==> reply == NotFound && attempted == []
    ensures requester.IsSuperuser() && videoId in videos && SubscriberEmails(accounts) == [] ==>
      reply == EmptyMailingList && reply.Code() == 1 && attempted == []
    ensures requester.IsSuperuser() && videoId in videos && SubscriberEmails(accounts) != [] ==>
      && (reply == Success || reply == SendFailed || reply == ServerError)
      && 0 < |attempted| <= |Batches(SubscriberEmails(accounts))|
      && attempted == Batches(SubscriberEmails(accounts))[..|attempted|]
      && (reply == Success <==> forall i :: 0 <= i < |Batches(SubscriberEmails(accounts))| ==> transport(i) == Sent)
      && (reply == Success ==> attempted == Batches(SubscriberEmails(accounts)))
      && (reply != Success ==> forall i :: 0 <= i < |attempted| - 1 ==> transport(i) == Sent)
      && (reply == SendFailed <==> transport(|attempted| - 1) == SmtpError)
      && (reply == ServerError <==> transport(|attempted| - 1) == OtherError)
  {
    attempted := [];
    if !requester.IsSuperuser() {
      return RefusedByMixin, attempted;
    }
    if videoId !in videos {
      return NotFound, attempted;
    }
    var emailList := Batches(SubscriberEmails(accounts));
    BatchSizes(SubscriberEmails(accounts));
    if emailList != [] {
      for k := 0 to |emailList|
        invariant attempted == emailList[..k]
        invariant forall i :: 0 <= i < k ==> transport(i) == Sent
      {
        attempted := attempted + [emailList[k]];
        match transport(k)
        case SmtpError => return SendFailed, attempted;
        case OtherError => return ServerError, attempted;
        case Sent =>
      }
      return Success, attempted;
    } else {
      return EmptyMailingList, attempted;
    }
  }
}

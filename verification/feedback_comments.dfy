/**
 * The `/api/feedback-comments` route: anonymous comments that expire five
 * days after they are posted. GET lists the comments that have not yet
 * expired, newest first; POST validates the body and stamps the times.
 * The clock's reading `now` is a parameter.
 */
module FeedbackComments {
  import opened Common

  /** `5 * 24 * 60 * 60 * 1000`: a comment's lifetime. */
  const LIFETIME_MS: int := 5 * 24 * 60 * 60 * 1000

  datatype Comment = Comment(id: string, content: string, aboutUserId: string, createdAt: Millis, expiresAt: Millis)

  // ---------------------------------------------------------------------
  // POST

  /** The record POST creates. */
  datatype CommentData = CommentData(content: Json, aboutUserId: Json, createdAt: Millis, expiresAt: Millis)

  datatype PostResult = Created(data: CommentData) | Rejected(error: string)

  function PostStatus(r: PostResult): int {
    if r.Rejected? then 400 else 201
  }

  /** POST at the instant `now`: 400 without content or subject, otherwise a comment living five days from now. */
  function PostComment(content: Json, aboutUserId: Json, now: Millis): (r: PostResult)
    ensures r.Rejected? <==> !JsonTruthy(content) || !JsonTruthy(aboutUserId)
    ensures r.Rejected? ==> r.error == "Missing content or aboutUserId" && PostStatus(r) == 400
    ensures r.Created? ==> PostStatus(r) == 201 && r.data.content == content && r.data.aboutUserId == aboutUserId
    ensures r.Created? ==> r.data.createdAt == now && r.data.expiresAt - r.data.createdAt == 432_000_000
  {
    if !JsonTruthy(content) || !JsonTruthy(aboutUserId) then Rejected("Missing content or aboutUserId")
    else Created(CommentData(content, aboutUserId, now, now + LIFETIME_MS))
  }

  // ---------------------------------------------------------------------
  // GET

  /** `expiresAt: { gt: now }`. */
  function Unexpired(now: Millis): Comment -> bool {
    (c: Comment) => c.expiresAt > now
  }

  /** Newest first: `createdAt` never increases along the list. */
  predicate NewestFirst(cs: seq<Comment>) {
    forall i, j :: 0 <= i < j < |cs| ==> cs[i].createdAt >= cs[j].createdAt
  }

  /** Puts `c` in front of the first comment that is not newer than it. */
  function Insert(c: Comment, cs: seq<Comment>): (r: seq<Comment>)
    requires NewestFirst(cs)
    ensures NewestFirst(r)
    ensures multiset(r) == multiset(cs) + multiset{c}
  {
    if cs == [] || cs[0].createdAt <= c.createdAt then [c] + cs
    else
      var rest := Insert(c, cs[1..]);
      assert cs == [cs[0]] + cs[1..];
      InsertNotNewer(c, cs, rest);
      [cs[0]] + rest
  }

  /** Nothing in `rest` is newer than the head of `cs` it goes behind. */
  lemma InsertNotNewer(c: Comment, cs: seq<Comment>, rest: seq<Comment>)
    requires cs != [] && NewestFirst(cs) && cs[0].createdAt > c.createdAt
    requires multiset(rest) == multiset(cs[1..]) + multiset{c}
    ensures forall j :: 0 <= j < |rest| ==> cs[0].createdAt >= rest[j].createdAt
  {
    forall j | 0 <= j < |rest|
      ensures cs[0].createdAt >= rest[j].createdAt
    {
      assert rest[j] in multiset(rest);
      if rest[j] != c {
        assert rest[j] in cs[1..];
      }
    }
  }

  /** `orderBy: { createdAt: 'desc' }`, as an insertion sort. */
  function SortNewestFirst(cs: seq<Comment>): (r: seq<Comment>)
    ensures NewestFirst(r)
    ensures multiset(r) == multiset(cs)
  {
    if cs == [] then []
    else
      assert cs == cs[..|cs| - 1] + [cs[|cs| - 1]];
      Insert(cs[|cs| - 1], SortNewestFirst(cs[..|cs| - 1]))
  }

  /** GET at the instant `now`. */
  function ListComments(cs: seq<Comment>, now: Millis): seq<Comment> {
    SortNewestFirst(Filter(cs, Unexpired(now)))
  }

  /**
   * GET lists exactly the stored comments that expire after `now`, each as
   * often as it is stored, newest first.
   */
  lemma ListedAreTheUnexpired(cs: seq<Comment>, now: Millis, c: Comment)
    ensures var r := ListComments(cs, now);
      NewestFirst(r) &&
      multiset(r) == multiset(Filter(cs, Unexpired(now))) &&
      (c in r <==> c in cs && c.expiresAt > now)
  {
    var f := Filter(cs, Unexpired(now));
    FilterMembership(cs, Unexpired(now), c);
    assert c in ListComments(cs, now) <==> c in multiset(f);
  }

  /** The comment stored after a successful POST at `now`. */
  function Stored(id: string, content: string, aboutUserId: string, now: Millis): (c: Comment)
    requires PostComment(Str(content), Str(aboutUserId), now).Created?
    ensures c.content == content && c.aboutUserId == aboutUserId
    ensures c.createdAt == now && c.expiresAt == now + 432_000_000
  {
    var d := PostComment(Str(content), Str(aboutUserId), now).data;
    Comment(id, content, aboutUserId, d.createdAt, d.expiresAt)
  }

  /**
   * A posted comment is listed from the instant it is created until just
   * before five days have passed, and never after.
   */
  lemma VisibleForFiveDays(id: string, content: string, aboutUserId: string, now: Millis, others: seq<Comment>, t: Millis)
    requires content != "" && aboutUserId != ""
    ensures var c := Stored(id, content, aboutUserId, now);
      (now <= t < now + LIFETIME_MS ==> c in ListComments(others + [c], t)) &&
      (t >= now + LIFETIME_MS ==> c !in ListComments(others + [c], t))
  {
    var c := Stored(id, content, aboutUserId, now);
    ListedAreTheUnexpired(others + [c], t, c);
  }

  /** Listing twice at the same instant gives the same comments; listing a listing changes nothing but the order of ties. */
  lemma ListingIsStable(cs: seq<Comment>, now: Millis)
    ensures multiset(ListComments(ListComments(cs, now), now)) == multiset(ListComments(cs, now))
  {
    var r := ListComments(cs, now);
    forall i | 0 <= i < |r|
      ensures Unexpired(now)(r[i])
    {
      ListedAreTheUnexpired(cs, now, r[i]);
    }
    FilterAll(r, Unexpired(now));
  }
}

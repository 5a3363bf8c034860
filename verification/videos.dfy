/** The member video routes (blueprints/videos.py): the public video
    listing with vote counts, member video submission, and voting. Their
    `token_required` has no admin check: it is `Tokens.Authenticate`, and
    the voter is the token's `user_id`, never a value of the request. */
module Videos {
  import opened Models
  import opened Tokens
  import ThemeWeeks

  /** The ids of the votes cast for `videoId` (the `Video.votes` relation). */
  function VotesFor(votes: map<Id, Vote>, videoId: Id): set<Id> {
    set k | k in votes && votes[k].videoId == videoId
  }

  /** `len(video.votes)`. */
  function VotesCount(votes: map<Id, Vote>, videoId: Id): (n: nat)
    ensures n <= |votes|
    ensures n == 0 <==> forall k | k in votes :: votes[k].videoId != videoId
  {
    var ids := VotesFor(votes, videoId);
    SubsetSize(ids, votes.Keys);
    assert forall k | k in votes && votes[k].videoId == videoId :: k in ids;
    assert (forall k | k in votes :: votes[k].videoId != videoId) ==> ids == {};
    |ids|
  }

  /** A vote row for the pair exists (`filter_by(user_id=..., video_id=...).first()`). */
  predicate HasVoted(votes: map<Id, Vote>, userId: Id, videoId: Id) {
    exists k | k in votes :: votes[k] == Vote(userId, videoId)
  }

  /** An empty `theme_week_id` query argument is falsy: no filter. */
  predicate Unfiltered(filter: Option<string>) {
    filter.None? || filter.value == ""
  }

  /** The ids `get_videos` selects. */
  function Selected(videos: map<Id, Video>, filter: Option<string>): set<Id> {
    if Unfiltered(filter) then videos.Keys
    else set k | k in videos && videos[k].themeWeekId == filter.value
  }

  datatype VideoListing = VideoListing(video: Video, votesCount: nat)

  /** `get_videos` without the `author` field: all videos, or exactly those
      of the requested week, each with the number of votes cast for it. */
  function ListVideos(videos: map<Id, Video>, votes: map<Id, Vote>, filter: Option<string>)
    : (r: map<Id, VideoListing>)
    ensures Unfiltered(filter) ==> r.Keys == videos.Keys
    ensures !Unfiltered(filter) ==>
      forall k :: k in r <==> k in videos && videos[k].themeWeekId == filter.value
    ensures forall k :: k in r ==>
      r[k].video == videos[k] && r[k].votesCount == |set v | v in votes && votes[v].videoId == k|
  {
    map k | k in Selected(videos, filter) :: VideoListing(videos[k], VotesCount(votes, k))
  }

  /** `get_videos` as written: serialising a video reads `video.author`,
      which Video does not have, so any non-empty selection raises
      AttributeError and the route answers 500. */
  function ListVideosAsWritten(videos: map<Id, Video>, votes: map<Id, Vote>, filter: Option<string>)
    : (r: Reply<map<Id, VideoListing>>)
    ensures r.Done? <==> Selected(videos, filter) == {}
    ensures r.Done? ==> r.status == 200 && r.value == map[]
    ensures r.Failed? ==> r.status == 500
  {
    if Selected(videos, filter) == {} then Done(200, map[]) else Failed(500)
  }

  /** One video in the store is enough for the listing as written to fail,
      where the intended listing shows it with no votes. */
  lemma AuthorLookupFails()
    ensures var videos := map["v1" := Video("Clip", "https://youtu.be/x", None, "Ann", "w1")];
      && ListVideosAsWritten(videos, map[], None) == Failed(500)
      && ListVideos(videos, map[], None).Keys == {"v1"}
      && ListVideos(videos, map[], None)["v1"].votesCount == 0
  {
    var videos := map["v1" := Video("Clip", "https://youtu.be/x", None, "Ann", "w1")];
    assert "v1" in Selected(videos, None);
    assert VotesFor(map[], "v1") == {};
  }

  /** Filtering by week `w` selects the videos of `w`'s week detail. */
  lemma {:induction false} FilterIsWeekRelation(videos: map<Id, Video>, votes: map<Id, Vote>, w: Id)
    requires w != ""
    ensures ListVideos(videos, votes, Some(w)).Keys == ThemeWeeks.VideosOf(videos, w).Keys
  {
    var l := ListVideos(videos, votes, Some(w));
    var d := ThemeWeeks.VideosOf(videos, w);
    assert forall k :: k in l.Keys <==> k in d.Keys;
  }

  /** Member `create_video` as written: once the token is accepted, the
      constructor is called with `user_id`, which Video does not have, so
      every request raises TypeError (500) and nothing is stored. */
  function SubmitVideo(header: Option<string>, decode: string -> Decoded): (status: nat)
    ensures status == 401 <==> Authenticate(header, decode).Refuse?
    ensures status != 401 ==> status == 500
  {
    match Authenticate(header, decode)
    case Refuse(s) => s
    case Admit(_) => 500
  }

  /** `vote_video` once the voter is known: 400 if the voter already voted
      for the video, 500 when the insert fails (an unknown user or video,
      or a colliding id: IntegrityError, not caught), otherwise 201 and
      the one new vote row. */
  function CastVote(
    users: map<Id, User>, videos: map<Id, Video>, votes: map<Id, Vote>,
    userId: Id, videoId: Id, newId: Id): (r: (nat, map<Id, Vote>))
    ensures r.0 == 400 <==> HasVoted(votes, userId, videoId)
    ensures r.0 == 201 <==>
      !HasVoted(votes, userId, videoId) && userId in users && videoId in videos && newId !in votes
    ensures r.0 == 201 || r.0 == 400 || r.0 == 500
    ensures r.0 == 201 ==> r.1 == votes[newId := Vote(userId, videoId)]
    ensures r.0 != 201 ==> r.1 == votes
  {
    if HasVoted(votes, userId, videoId) then (400, votes)
    else if userId !in users || videoId !in videos || newId in votes then (500, votes)
    else (201, votes[newId := Vote(userId, videoId)])
  }

  /** A recorded vote: the pair now exists, the video's count grew by one
      and every other video's count is unchanged. */
  lemma {:induction false} CastVoteCounts(
    users: map<Id, User>, videos: map<Id, Video>, votes: map<Id, Vote>,
    userId: Id, videoId: Id, newId: Id, other: Id)
    requires CastVote(users, videos, votes, userId, videoId, newId).0 == 201
    ensures var after := CastVote(users, videos, votes, userId, videoId, newId).1;
      && HasVoted(after, userId, videoId)
      && VotesCount(after, videoId) == VotesCount(votes, videoId) + 1
      && (other != videoId ==> VotesCount(after, other) == VotesCount(votes, other))
  {
    var after := votes[newId := Vote(userId, videoId)];
    assert after[newId] == Vote(userId, videoId);
    assert VotesFor(after, videoId) == VotesFor(votes, videoId) + {newId};
    assert newId !in VotesFor(votes, videoId);
    if other != videoId {
      assert VotesFor(after, other) == VotesFor(votes, other);
    }
  }

  /** Voting a second time for the same video is refused and leaves the
      vote table as the first vote left it (with a fresh first id). */
  lemma {:induction false} CastVoteTwice(
    users: map<Id, User>, videos: map<Id, Video>, votes: map<Id, Vote>,
    userId: Id, videoId: Id, firstId: Id, secondId: Id)
    requires firstId !in votes
    ensures var once := CastVote(users, videos, votes, userId, videoId, firstId);
      var twice := CastVote(users, videos, once.1, userId, videoId, secondId);
      && twice.1 == once.1
      && (once.0 == 201 ==> twice.0 == 400)
  {
    var once := CastVote(users, videos, votes, userId, videoId, firstId);
    if once.0 == 201 {
      assert once.1[firstId] == Vote(userId, videoId);
      assert HasVoted(once.1, userId, videoId);
    }
  }

  /** Votes `ids` for one video, all cast by users in `voters`, are no more
      than the voters: two votes for the same video have different voters. */
  lemma {:induction false} DistinctVoters(votes: map<Id, Vote>, videoId: Id, ids: set<Id>, voters: set<Id>)
    requires UniqueVotes(votes)
    requires forall k | k in ids :: k in votes && votes[k].videoId == videoId && votes[k].userId in voters
    ensures |ids| <= |voters|
    decreases ids
  {
    if ids != {} {
      var k :| k in ids;
      var rest := ids - {k};
      forall j | j in rest ensures votes[j].userId in voters - {votes[k].userId} {
        assert votes[j] != votes[k];
      }
      DistinctVoters(votes, videoId, rest, voters - {votes[k].userId});
    }
  }

  /** Every voter is a user and votes once per video: no video's
      `votes_count` exceeds the number of users. */
  lemma {:induction false} VotesBoundedByUsers(
    users: map<Id, User>, weeks: map<Id, ThemeWeek>, videos: map<Id, Video>,
    votes: map<Id, Vote>, materials: map<Id, Material>, videoId: Id)
    requires Consistent(users, weeks, videos, votes, materials)
    ensures VotesCount(votes, videoId) <= |users|
  {
    DistinctVoters(votes, videoId, VotesFor(votes, videoId), users.Keys);
  }

  /** A vote keeps the schema's constraints: at most one vote per pair,
      and every vote refers to an existing user and video. */
  lemma {:induction false} CastVoteConsistent(
    users: map<Id, User>, weeks: map<Id, ThemeWeek>, videos: map<Id, Video>,
    votes: map<Id, Vote>, materials: map<Id, Material>,
    userId: Id, videoId: Id, newId: Id)
    requires Consistent(users, weeks, videos, votes, materials)
    ensures Consistent(users, weeks, videos, CastVote(users, videos, votes, userId, videoId, newId).1, materials)
  {
    var r := CastVote(users, videos, votes, userId, videoId, newId);
    if r.0 == 201 {
      assert forall k :: k in votes ==> votes[k] != Vote(userId, videoId);
    }
  }
}

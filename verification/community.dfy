/**
 * The community store: the post feed with likes, the challenges a user joins
 * and leaves, new posts at the head of the feed, and the selected tab.
 *
 * The mock feed and challenge lists the store starts from are constructor
 * parameters; the clock (`Date.now()`) is a parameter of the operations that
 * read it.
 */
module Community {
  import opened Text

  datatype PostType = Achievement | Tip | Encouragement | ChallengePost

  datatype Post = Post(
    id: string,
    userId: string,
    userName: string,
    content: string,
    kind: PostType,
    likes: int,
    isLiked: bool,
    createdAt: int,
    tags: Option<seq<string>>)

  datatype Challenge = Challenge(
    id: string,
    title: string,
    durationDays: int,
    participantCount: int,
    category: string,
    isJoined: bool,
    startDate: Option<int>,
    progress: Option<int>)

  datatype Referral = Referral(code: string, referralCount: int, rewardsEarned: int, shareLink: string)

  datatype Tab = Feed | Challenges | ReferralTab

  /** The author of the user's own posts. */
  const OWN_USER_ID: string := "me"
  const OWN_USER_NAME: string := "나"

  /** One post after a like toggle aimed at `postId`. */
  function ToggleLikePost(p: Post, postId: string): Post {
    if p.id == postId then p.(isLiked := !p.isLiked, likes := if p.isLiked then p.likes - 1 else p.likes + 1) else p
  }

  /** The feed after `toggleLike(postId)`. */
  function ToggleLike(posts: seq<Post>, postId: string): (r: seq<Post>)
    ensures |r| == |posts|
    ensures forall i :: 0 <= i < |posts| ==> r[i] == ToggleLikePost(posts[i], postId)
  {
    seq(|posts|, i requires 0 <= i < |posts| => ToggleLikePost(posts[i], postId))
  }

  /**
   * The post with the id flips its like, gaining a like when it becomes liked
   * and losing one when unliked, and nothing else about it changes; any other
   * post is left as it is.
   */
  lemma ToggleLikeCounts(p: Post, postId: string)
    ensures p.id != postId ==> ToggleLikePost(p, postId) == p
    ensures p.id == postId ==> ToggleLikePost(p, postId).isLiked == !p.isLiked
    ensures p.id == postId ==> ToggleLikePost(p, postId).likes == p.likes + (if p.isLiked then -1 else 1)
    ensures ToggleLikePost(p, postId).(isLiked := p.isLiked, likes := p.likes) == p
  {
  }

  /** Toggling the same post twice restores the feed. */
  lemma ToggleLikeTwice(posts: seq<Post>, postId: string)
    ensures ToggleLike(ToggleLike(posts, postId), postId) == posts
  {
    var once := ToggleLike(posts, postId);
    var twice := ToggleLike(once, postId);
    forall i | 0 <= i < |posts| ensures twice[i] == posts[i] {
      assert ToggleLikePost(posts[i], postId).id == posts[i].id;
    }
  }

  /** One challenge after `joinChallenge(challengeId)` at time `now`. */
  function JoinOne(c: Challenge, challengeId: string, now: int): Challenge {
    if c.id == challengeId
    then c.(isJoined := true, startDate := Some(now), progress := Some(0), participantCount := c.participantCount + 1)
    else c
  }

  /** One challenge after `leaveChallenge(challengeId)`. */
  function LeaveOne(c: Challenge, challengeId: string): Challenge {
    if c.id == challengeId
    then c.(isJoined := false, startDate := None, progress := None, participantCount := c.participantCount - 1)
    else c
  }

  function JoinChallenge(challenges: seq<Challenge>, challengeId: string, now: int): (r: seq<Challenge>)
    ensures |r| == |challenges|
    ensures forall i :: 0 <= i < |challenges| ==> r[i] == JoinOne(challenges[i], challengeId, now)
  {
    seq(|challenges|, i requires 0 <= i < |challenges| => JoinOne(challenges[i], challengeId, now))
  }

  function LeaveChallenge(challenges: seq<Challenge>, challengeId: string): (r: seq<Challenge>)
    ensures |r| == |challenges|
    ensures forall i :: 0 <= i < |challenges| ==> r[i] == LeaveOne(challenges[i], challengeId)
  {
    seq(|challenges|, i requires 0 <= i < |challenges| => LeaveOne(challenges[i], challengeId))
  }

  /**
   * Joining and then leaving a challenge restores every participant count;
   * a challenge that was not joined (no start date, no progress) is restored
   * entirely.
   */
  lemma JoinThenLeave(challenges: seq<Challenge>, challengeId: string, now: int)
    ensures var r := LeaveChallenge(JoinChallenge(challenges, challengeId, now), challengeId);
      && |r| == |challenges|
      && (forall i :: 0 <= i < |r| ==> r[i].participantCount == challenges[i].participantCount)
      && (forall i :: 0 <= i < |r| && !challenges[i].isJoined && challenges[i].startDate.None? && challenges[i].progress.None?
            ==> r[i] == challenges[i])
  {
    var r := LeaveChallenge(JoinChallenge(challenges, challengeId, now), challengeId);
    forall i | 0 <= i < |r| ensures r[i].participantCount == challenges[i].participantCount {
      assert JoinOne(challenges[i], challengeId, now).id == challenges[i].id;
    }
    forall i | 0 <= i < |r| && !challenges[i].isJoined && challenges[i].startDate.None? && challenges[i].progress.None?
      ensures r[i] == challenges[i]
    {
      assert JoinOne(challenges[i], challengeId, now).id == challenges[i].id;
    }
  }

  /**
   * Joining marks the challenge joined from `now` with no progress and one
   * more participant; leaving clears the three and removes one participant;
   * other challenges are untouched.
   */
  lemma JoinLeaveOne(c: Challenge, challengeId: string, now: int)
    ensures c.id != challengeId ==> JoinOne(c, challengeId, now) == c && LeaveOne(c, challengeId) == c
    ensures c.id == challengeId ==> (
      var j := JoinOne(c, challengeId, now);
      j.isJoined && j.startDate == Some(now) && j.progress == Some(0) && j.participantCount == c.participantCount + 1
      && j.(isJoined := c.isJoined, startDate := c.startDate, progress := c.progress, participantCount := c.participantCount) == c)
    ensures c.id == challengeId ==> (
      var l := LeaveOne(c, challengeId);
      !l.isJoined && l.startDate.None? && l.progress.None? && l.participantCount == c.participantCount - 1
      && l.(isJoined := c.isJoined, startDate := c.startDate, progress := c.progress, participantCount := c.participantCount) == c)
  {
  }

  /** Joining has no guard: joining twice counts the user twice. */
  lemma JoinTwiceCountsTwice(challenges: seq<Challenge>, challengeId: string, now: int, later: int)
    ensures var r := JoinChallenge(JoinChallenge(challenges, challengeId, now), challengeId, later);
      forall i :: 0 <= i < |r| && challenges[i].id == challengeId ==>
        r[i].participantCount == challenges[i].participantCount + 2 && r[i].isJoined
  {
  }

  /** The post `addPost` creates at time `now`. */
  function NewPost(content: string, kind: PostType, tags: Option<seq<string>>, now: int): (p: Post)
    ensures p.id == IntToString(now) && p.userId == OWN_USER_ID && p.likes == 0 && !p.isLiked
    ensures p.content == content && p.kind == kind && p.tags == tags && p.createdAt == now
  {
    Post(IntToString(now), OWN_USER_ID, OWN_USER_NAME, content, kind, 0, false, now, tags)
  }

  /** The state of `useCommunityStore`. */
  class CommunityStore {
    var posts: seq<Post>
    var challenges: seq<Challenge>
    var referral: Referral
    var activeTab: Tab

    /** The store over the initial feed and challenge lists. */
    constructor(initialPosts: seq<Post>, initialChallenges: seq<Challenge>)
      ensures posts == initialPosts && challenges == initialChallenges
      ensures referral == Referral("ROUTINE2024", 3, 2, "https://routineflow.app/invite/ROUTINE2024")
      ensures activeTab == Feed
    {
      posts := initialPosts;
      challenges := initialChallenges;
      referral := Referral("ROUTINE2024", 3, 2, "https://routineflow.app/invite/ROUTINE2024");
      activeTab := Feed;
    }

    method SetActiveTab(tab: Tab)
      modifies this
      ensures activeTab == tab
      ensures posts == old(posts) && challenges == old(challenges) && referral == old(referral)
    {
      activeTab := tab;
    }

    /**
     * `toggleLike`: flips the like of the posts with that id, moving their
     * like count by one; an unknown id changes nothing.
     */
    method ToggleLikeAction(postId: string)
      modifies this
      ensures posts == ToggleLike(old(posts), postId)
      ensures (forall i :: 0 <= i < |old(posts)| ==> old(posts)[i].id != postId) ==> posts == old(posts)
      ensures challenges == old(challenges) && referral == old(referral) && activeTab == old(activeTab)
    {
      posts := ToggleLike(posts, postId);
    }

    /** `joinChallenge` at time `now`. */
    method JoinChallengeAction(challengeId: string, now: int)
      modifies this
      ensures challenges == JoinChallenge(old(challenges), challengeId, now)
      ensures (forall i :: 0 <= i < |old(challenges)| ==> old(challenges)[i].id != challengeId) ==> challenges == old(challenges)
      ensures posts == old(posts) && referral == old(referral) && activeTab == old(activeTab)
    {
      challenges := JoinChallenge(challenges, challengeId, now);
    }

    /** `leaveChallenge`. */
    method LeaveChallengeAction(challengeId: string)
      modifies this
      ensures challenges == LeaveChallenge(old(challenges), challengeId)
      ensures (forall i :: 0 <= i < |old(challenges)| ==> old(challenges)[i].id != challengeId) ==> challenges == old(challenges)
      ensures posts == old(posts) && referral == old(referral) && activeTab == old(activeTab)
    {
      challenges := LeaveChallenge(challenges, challengeId);
    }

    /** `addPost` at time `now`: the new post first, the feed unchanged after it. */
    method AddPost(content: string, kind: PostType, tags: Option<seq<string>>, now: int)
      modifies this
      ensures posts == [NewPost(content, kind, tags, now)] + old(posts)
      ensures posts[1..] == old(posts)
      ensures challenges == old(challenges) && referral == old(referral) && activeTab == old(activeTab)
    {
      posts := [NewPost(content, kind, tags, now)] + posts;
    }
  }
}

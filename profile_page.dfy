/** A user's profile page: loading the profile and the follow status, following and
    unfollowing, and liking or unliking one of the listed posts. Server replies are
    inputs; the rules decide what is sent and how the page state changes. */
module ProfilePage {
  import opened Wrappers
  import opened JsBuiltins
  import opened AuthContext
  import opened Posts

  /** The profile's `user` object. */
  datatype ProfileUser = ProfileUser(id: int, username: string, email: string,
                                     followersCount: int, followedCount: int)

  /** The page's state fields that the handlers update. */
  datatype ProfileState = ProfileState(profileUser: Option<ProfileUser>, userPosts: seq<Post>,
                                       loading: bool, error: Option<string>, isFollowing: bool)

  const InitialState := ProfileState(None, [], true, None, false)

  /** Reply to `GET /users/<name>`; a network error or an unreadable body is its message. */
  datatype ProfileResponse =
    | ProfileFound(user: ProfileUser, posts: seq<Post>)
    | ProfileHttpError(status: int)
    | ProfileNetworkError(message: string)

  /** Reply to `GET /is_following/<viewer>/<target>`. */
  datatype FollowStatusResponse =
    | FollowStatus(isFollowing: bool)
    | FollowStatusHttpError
    | FollowStatusNetworkError(message: string)

  /** Reply to a follow, unfollow, like or unlike request; a rejection carries the
      server's `message` field when it has one. */
  datatype ActionResponse =
    | ActionOk
    | ActionRejected(serverMessage: Option<string>)
    | ActionNetworkError(message: string)

  /** Reply to `GET /posts/<id>`. */
  datatype PostResponse =
    | PostFound(post: Post)
    | PostHttpError
    | PostNetworkError(message: string)

  const UserNotFound := "Usuário não encontrado."
  const ProfileLoadFailed := "Falha ao carregar perfil."
  const FollowStatusFailed := "Falha ao verificar status de seguir."
  const FollowLoginRequired := "Você precisa estar logado para seguir ou deixar de seguir."
  const FollowFailed := "Falha na ação de seguir/deixar de seguir."
  const LikeLoginRequired := "Você precisa estar logado para curtir ou descurtir um post!"
  const LikeFailed := "Falha ao curtir/descurtir."

  /** `isOwnProfile`: the viewer is logged in and their id is the profile's (`===`,
      so a null or NaN id never matches). */
  predicate IsOwnProfile(viewer: Session, profileId: int): (r: bool)
    ensures viewer.userId.None? || viewer.userId == Some(NaN) ==> !r
    ensures r ==> viewer.isLoggedIn && viewer.userId.value.value == profileId
  {
    viewer.isLoggedIn && viewer.userId == Some(Int(profileId))
  }

  /** After logging in as `id` and reloading, exactly the profile with that id is the
      viewer's own. */
  lemma OwnProfileAfterReload(entries: map<string, string>, id: int, user: string, profileId: int)
    requires user != ""
    ensures IsOwnProfile(Restore(LoggedOut, LoginEntries(entries, id, user)), profileId) <==> profileId == id
  {
    ReloadAfterLogin(entries, id, user);
  }

  // ---------------------------------------------------------------------------
  // Loading the profile

  /** The state after `fetchUserProfileAndStatus` with the given replies (the follow
      status reply is only used when the status is asked for). */
  function FetchProfile(s: ProfileState, viewer: Session, profile: ProfileResponse,
                        followStatus: FollowStatusResponse): (r: ProfileState)
    ensures !r.loading
    // a failed profile load keeps the previous profile, posts and follow flag
    ensures !profile.ProfileFound? ==>
      && r.profileUser == s.profileUser && r.userPosts == s.userPosts
      && r.isFollowing == s.isFollowing && r.error.Some?
    ensures profile.ProfileHttpError? ==>
      r.error == Some(if profile.status == 404 then UserNotFound else ProfileLoadFailed)
    ensures profile.ProfileFound? ==> r.profileUser == Some(profile.user) && r.userPosts == profile.posts
    // logged out or on one's own profile, the page never shows "following"
    ensures profile.ProfileFound? && (!viewer.isLoggedIn || IsOwnProfile(viewer, profile.user.id)) ==>
      !r.isFollowing && r.error.None?
    ensures profile.ProfileFound? && viewer.isLoggedIn && !IsOwnProfile(viewer, profile.user.id) ==>
      if followStatus.FollowStatus? then r.isFollowing == followStatus.isFollowing && r.error.None?
      else r.isFollowing == s.isFollowing && r.error.Some?
    ensures r.error.None? ==> r.profileUser.Some?
  {
    var s := s.(loading := true, error := None);
    match profile
    case ProfileHttpError(status) =>
      s.(error := Some(if status == 404 then UserNotFound else ProfileLoadFailed), loading := false)
    case ProfileNetworkError(message) =>
      s.(error := Some(message), loading := false)
    case ProfileFound(user, posts) =>
      var s := s.(profileUser := Some(user), userPosts := posts);
      if viewer.isLoggedIn && viewer.userId != Some(Int(user.id)) then
        match followStatus
        case FollowStatus(b) => s.(isFollowing := b, loading := false)
        case FollowStatusHttpError => s.(error := Some(FollowStatusFailed), loading := false)
        case FollowStatusNetworkError(message) => s.(error := Some(message), loading := false)
      else
        s.(isFollowing := false, loading := false)
  }

  // ---------------------------------------------------------------------------
  // Following

  /** A follow (`follow` true) or unfollow request for `targetId` on behalf of `followerId`. */
  datatype FollowRequest = FollowRequest(follow: bool, targetId: int, followerId: Option<JsInt>)

  /** What `handleFollowToggle` sends: nothing when logged out or with no profile
      loaded, otherwise the opposite of the current follow state. */
  function FollowRequestFor(s: ProfileState, viewer: Session): (r: Option<FollowRequest>)
    ensures r.Some? <==> viewer.isLoggedIn && s.profileUser.Some?
    ensures r.Some? ==> r.value.follow == !s.isFollowing && r.value.targetId == s.profileUser.value.id
    ensures r.Some? ==> r.value.followerId == viewer.userId
  {
    if !viewer.isLoggedIn || s.profileUser.None? then None
    else Some(FollowRequest(!s.isFollowing, s.profileUser.value.id, viewer.userId))
  }

  /** The follower count after a confirmed follow (+1) or unfollow (-1). */
  function FollowersAfter(count: int, willFollow: bool): int {
    if willFollow then count + 1 else count - 1
  }

  /** The state after `handleFollowToggle` with the given reply. */
  function FollowToggle(s: ProfileState, viewer: Session, response: ActionResponse): (r: ProfileState)
    ensures !viewer.isLoggedIn ==> r == s.(error := Some(FollowLoginRequired))
    ensures viewer.isLoggedIn && s.profileUser.None? ==> r == s
    // a confirmed toggle flips the flag and moves the count by one, nothing else
    ensures viewer.isLoggedIn && s.profileUser.Some? && response.ActionOk? ==>
      && r.isFollowing == !s.isFollowing
      && r.profileUser.Some?
      && r.profileUser.value.followersCount == s.profileUser.value.followersCount + (if s.isFollowing then -1 else 1)
      && r.profileUser.value == s.profileUser.value.(followersCount := r.profileUser.value.followersCount)
      && r.userPosts == s.userPosts && r.error == s.error && r.loading == s.loading
    // a failed toggle changes neither the flag nor the count, and reports an error
    ensures !response.ActionOk? ==>
      r.isFollowing == s.isFollowing && r.profileUser == s.profileUser && r.userPosts == s.userPosts
    ensures viewer.isLoggedIn && s.profileUser.Some? && response.ActionRejected? ==>
      r.error == Some(OrDefault(response.serverMessage, FollowFailed))
  {
    if !viewer.isLoggedIn then s.(error := Some(FollowLoginRequired))
    else if s.profileUser.None? then s
    else
      var willFollow := !s.isFollowing;
      match response
      case ActionOk =>
        var user := s.profileUser.value;
        s.(isFollowing := willFollow,
           profileUser := Some(user.(followersCount := FollowersAfter(user.followersCount, willFollow))))
      case ActionRejected(message) => s.(error := Some(OrDefault(message, FollowFailed)))
      case ActionNetworkError(message) => s.(error := Some(message))
  }

  /** The follower count is never negative and counts the viewer while they follow. */
  predicate CountConsistent(s: ProfileState) {
    s.profileUser.Some? ==>
      s.profileUser.value.followersCount >= 0 &&
      (s.isFollowing ==> s.profileUser.value.followersCount >= 1)
  }

  /** Toggling follow state keeps the count consistent, so an unfollow never drives
      it below zero when the state was consistent to begin with. */
  lemma FollowTogglePreservesCount(s: ProfileState, viewer: Session, response: ActionResponse)
    requires CountConsistent(s)
    ensures CountConsistent(FollowToggle(s, viewer, response))
  {
  }

  /** Two confirmed toggles give back the original profile and follow state. */
  lemma FollowToggleTwice(s: ProfileState, viewer: Session)
    requires viewer.isLoggedIn && s.profileUser.Some?
    ensures FollowToggle(FollowToggle(s, viewer, ActionOk), viewer, ActionOk) == s
  {
    var user := s.profileUser.value;
    assert user.(followersCount := user.followersCount) == user;
  }

  // ---------------------------------------------------------------------------
  // Liking

  /** A like (`unlike` false) or unlike request for `postId` on behalf of `userId`. */
  datatype LikeRequest = LikeRequest(postId: int, unlike: bool, userId: Option<JsInt>)

  /** What `handleLikeToggle` sends: nothing when logged out, otherwise `unlike`
      exactly when the post is currently liked. */
  function LikeRequestFor(viewer: Session, postId: int, isCurrentlyLiked: bool): (r: Option<LikeRequest>)
    ensures r.None? <==> !viewer.isLoggedIn
    ensures r.Some? ==> r.value.postId == postId && r.value.userId == viewer.userId
    ensures r.Some? ==> (r.value.unlike <==> isCurrentlyLiked)
  {
    if !viewer.isLoggedIn then None else Some(LikeRequest(postId, isCurrentlyLiked, viewer.userId))
  }

  /** The list with every post whose id is `updated.id` replaced by `updated`
      (`prevPosts.map(post => post.id === updated.id ? updated : post)`). */
  function ReplaceById(posts: seq<Post>, updated: Post): (r: seq<Post>)
    ensures |r| == |posts|
    ensures forall i | 0 <= i < |posts| :: r[i] == (if posts[i].id == updated.id then updated else posts[i])
  {
    if posts == [] then []
    else [if posts[0].id == updated.id then updated else posts[0]] + ReplaceById(posts[1..], updated)
  }

  /** Replacing a post that is not listed leaves the list as it is. */
  lemma ReplaceAbsentId(posts: seq<Post>, updated: Post)
    requires forall i | 0 <= i < |posts| :: posts[i].id != updated.id
    ensures ReplaceById(posts, updated) == posts
  {
  }

  /** Applying the same refreshed post twice is the same as applying it once. */
  lemma ReplaceIdempotent(posts: seq<Post>, updated: Post)
    ensures ReplaceById(ReplaceById(posts, updated), updated) == ReplaceById(posts, updated)
  {
  }

  /** The posts after `handleLikeToggle`: only a confirmed toggle followed by a
      successful refetch of the post changes the list, by replacing that post. */
  function LikeToggle(posts: seq<Post>, viewer: Session, toggle: ActionResponse, refetch: PostResponse)
    : (r: seq<Post>)
    ensures !viewer.isLoggedIn || !toggle.ActionOk? || !refetch.PostFound? ==> r == posts
    ensures viewer.isLoggedIn && toggle.ActionOk? && refetch.PostFound? ==>
      |r| == |posts| &&
      forall i | 0 <= i < |posts| ::
        r[i] == (if posts[i].id == refetch.post.id then refetch.post else posts[i])
  {
    if viewer.isLoggedIn && toggle.ActionOk? && refetch.PostFound? then ReplaceById(posts, refetch.post)
    else posts
  }

  /** The alert `handleLikeToggle` shows, if any. A failed refetch is only logged. */
  function LikeAlert(viewer: Session, toggle: ActionResponse, refetch: PostResponse): (r: Option<string>)
    ensures !viewer.isLoggedIn ==> r == Some(LikeLoginRequired)
    ensures viewer.isLoggedIn && toggle.ActionRejected? ==> r == Some(OrDefault(toggle.serverMessage, LikeFailed))
    ensures viewer.isLoggedIn && toggle.ActionOk? && !refetch.PostNetworkError? ==> r.None?
  {
    if !viewer.isLoggedIn then Some(LikeLoginRequired)
    else match toggle
      case ActionRejected(message) => Some(OrDefault(message, LikeFailed))
      case ActionNetworkError(message) => Some(message)
      case ActionOk =>
        match refetch
        case PostNetworkError(message) => Some(message)
        case _ => None
  }

  // ---------------------------------------------------------------------------
  // The component

  class ProfileView {
    var profileUser: Option<ProfileUser>
    var userPosts: seq<Post>
    var loading: bool
    var error: Option<string>
    var isFollowing: bool

    function State(): ProfileState
      reads this
    {
      ProfileState(profileUser, userPosts, loading, error, isFollowing)
    }

    constructor ()
      ensures State() == InitialState
    {
      profileUser := None;
      userPosts := [];
      loading := true;
      error := None;
      isFollowing := false;
    }

    /** `fetchUserProfileAndStatus` */
    method FetchUserProfileAndStatus(viewer: Session, profile: ProfileResponse, followStatus: FollowStatusResponse)
      modifies this
      ensures State() == FetchProfile(old(State()), viewer, profile, followStatus)
    {
      loading := true;
      error := None;
      match profile {
        case ProfileHttpError(status) =>
          error := Some(if status == 404 then UserNotFound else ProfileLoadFailed);
        case ProfileNetworkError(message) =>
          error := Some(message);
        case ProfileFound(user, posts) =>
          profileUser := Some(user);
          userPosts := posts;
          if viewer.isLoggedIn && viewer.userId != Some(Int(user.id)) {
            match followStatus {
              case FollowStatus(b) => isFollowing := b;
              case FollowStatusHttpError => error := Some(FollowStatusFailed);
              case FollowStatusNetworkError(message) => error := Some(message);
            }
          } else {
            isFollowing := false;
          }
      }
      loading := false;
    }

    /** `handleFollowToggle`; `response` is the reply to the request, if one is sent. */
    method HandleFollowToggle(viewer: Session, response: ActionResponse) returns (request: Option<FollowRequest>)
      modifies this
      ensures request == FollowRequestFor(old(State()), viewer)
      ensures State() == FollowToggle(old(State()), viewer, response)
    {
      if !viewer.isLoggedIn {
        error := Some(FollowLoginRequired);
        return None;
      }
      if profileUser.None? {
        return None;
      }
      var willFollow := !isFollowing;
      request := Some(FollowRequest(willFollow, profileUser.value.id, viewer.userId));
      match response {
        case ActionRejected(message) =>
          error := Some(OrDefault(message, FollowFailed));
        case ActionNetworkError(message) =>
          error := Some(message);
        case ActionOk =>
          isFollowing := willFollow;
          var user := profileUser.value;
          profileUser := Some(user.(followersCount := FollowersAfter(user.followersCount, willFollow)));
      }
    }

    /** `handleLikeToggle(postId, isCurrentlyLiked)`; `toggle` and `refetch` are the
        replies to the toggle request and to the refetch of the post. */
    method HandleLikeToggle(viewer: Session, postId: int, isCurrentlyLiked: bool,
                            toggle: ActionResponse, refetch: PostResponse)
      returns (request: Option<LikeRequest>, alert: Option<string>)
      modifies this
      ensures request == LikeRequestFor(viewer, postId, isCurrentlyLiked)
      ensures alert == LikeAlert(viewer, toggle, refetch)
      ensures userPosts == LikeToggle(old(userPosts), viewer, toggle, refetch)
      ensures profileUser == old(profileUser) && loading == old(loading)
      ensures error == old(error) && isFollowing == old(isFollowing)
    {
      if !viewer.isLoggedIn {
        return None, Some(LikeLoginRequired);
      }
      request := Some(LikeRequest(postId, isCurrentlyLiked, viewer.userId));
      alert := None;
      match toggle {
        case ActionRejected(message) =>
          alert := Some(OrDefault(message, LikeFailed));
        case ActionNetworkError(message) =>
          alert := Some(message);
        case ActionOk =>
          match refetch {
            case PostHttpError =>
            case PostNetworkError(message) =>
              alert := Some(message);
            case PostFound(updated) =>
              userPosts := ReplaceById(userPosts, updated);
          }
      }
    }
  }
}

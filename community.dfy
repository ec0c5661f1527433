/** The community page: the feed it holds, the optimistic update it applies
    after a successful like toggle, and the like count and heart it shows. */
module Community {
  import opened Wrappers
  import opened Js
  import opened Likes
  import opened Store
  import opened Toasts

  /** `user?.id?.toString() || ''`: an absent user becomes "", a present
      one keeps its id. */
  function UserIdText(user: Option<string>): (r: string)
    ensures r == "" <==> !Truthy(user)
    ensures Truthy(user) ==> r == user.value
  {
    if user.Some? then user.value else ""
  }

  /** `Array.isArray(likes) ? likes : []`. */
  function LikesOrEmpty(likes: Option<seq<string>>): seq<string> {
    if likes.Some? then likes.value else []
  }

  /** `creation.likes?.length || 0`: the length of the list the heart is
      tested against, so absent likes count as none. */
  function LikeCount(likes: Option<seq<string>>): (n: nat)
    ensures n == |LikesOrEmpty(likes)|
    ensures likes.None? ==> n == 0
  {
    if likes.Some? then |likes.value| else 0
  }

  /** `(creation.likes || []).includes(userIdStr)`: the heart is filled.
      A filled heart is always counted. */
  predicate IsLiked(likes: Option<seq<string>>, user: string)
    ensures IsLiked(likes, user) ==> LikeCount(likes) >= 1
  {
    user in LikesOrEmpty(likes)
  }

  /** The matching entry after the toggle, by the same rule as the server:
      only `likes` changes, it becomes an array, and the user's heart flips. */
  function ToggleEntry(c: Creation, user: string): (r: Creation)
    ensures r.(likes := c.likes) == c
    ensures r.likes.Some?
    ensures (user in r.likes.value) <==> !IsLiked(c.likes, user)
    ensures forall x :: x != user ==> (x in r.likes.value <==> IsLiked(c.likes, x))
  {
    c.(likes := Some(Toggle(LikesOrEmpty(c.likes), user)))
  }

  /** `creations.map(...)`: the entries with the toggled id are toggled and
      every other entry is left exactly as it was. */
  function ToggleInList(creations: seq<Creation>, id: nat, user: string): (r: seq<Creation>)
    ensures |r| == |creations|
    ensures forall k :: 0 <= k < |r| && creations[k].id != id ==> r[k] == creations[k]
    ensures forall k :: 0 <= k < |r| && creations[k].id == id ==> r[k] == ToggleEntry(creations[k], user)
  {
    if creations == [] then []
    else
      [if creations[0].id == id then ToggleEntry(creations[0], user) else creations[0]]
      + ToggleInList(creations[1..], id, user)
  }

  /** The heart flips on every toggle. */
  lemma ToggleFlipsHeart(c: Creation, user: string)
    ensures IsLiked(ToggleEntry(c, user).likes, user) <==> !IsLiked(c.likes, user)
  {
  }

  /** Likes that are not an array count as none, so the toggle yields just
      the user. */
  lemma ToggleNonArrayLikes(c: Creation, user: string)
    requires c.likes.None?
    ensures ToggleEntry(c, user).likes == Some([user])
    ensures LikeCount(c.likes) == 0 && LikeCount(ToggleEntry(c, user).likes) == 1
  {
    assert [] + [user] == [user];
  }

  /** With duplicate-free likes the count shown moves by exactly one, down
      when the heart was filled and up when it was not. */
  lemma ToggleMovesCountByOne(c: Creation, user: string)
    requires Distinct(LikesOrEmpty(c.likes))
    ensures LikeCount(ToggleEntry(c, user).likes) ==
      if IsLiked(c.likes, user) then LikeCount(c.likes) - 1 else LikeCount(c.likes) + 1
  {
    ToggleCountStep(LikesOrEmpty(c.likes), user);
  }

  /** When the page shows the published feed and the server's toggle of row
      `i` succeeded for the same user, the optimistic list the page computes
      is exactly the feed the server sent back. */
  lemma OptimisticUpdateMatchesServer(rows: seq<Creation>, i: nat, user: string)
    requires IdsIncreasing(rows) && i < |rows| && rows[i].likes.Some?
    ensures var key := NatToString(rows[i].id);
      ToggleInList(PublishedListing(rows), rows[i].id, user)
        == PublishedListing(SetLikes(rows, key, Toggle(rows[i].likes.value, user)))
  {
    var id, l := rows[i].id, rows[i].likes.value;
    var key := NatToString(id);
    var feed := PublishedListing(rows);
    FeedAfterLikeUpdate(rows, key, Toggle(l, user));
    var left, right := ToggleInList(feed, id, user), SetLikes(feed, key, Toggle(l, user));
    forall k | 0 <= k < |feed| ensures left[k] == right[k] {
      var c := feed[k];
      assert c in rows;
      var j :| 0 <= j < |rows| && rows[j] == c;
      if c.id == id {
        assert j == i;
      } else if NatToString(c.id) == key {
        NatToStringInjective(c.id, id);
      }
    }
  }

  datatype FetchOutcome =
    | Fetched(success: bool, creations: Option<seq<Creation>>, message: string)
    | FetchThrew(message: string)

  /** A like request's outcome: a JSON reply, or a thrown error with the
      reply's message (if any) and the error's own message. */
  datatype LikeOutcome =
    | Answered(success: bool, message: string)
    | LikeThrew(responseMessage: Option<string>, errorMessage: string)

  /** `error?.response?.data?.message || error?.message || '…'`. */
  function LikeErrorText(responseMessage: Option<string>, errorMessage: string): (t: string)
    ensures t != ""
    ensures Truthy(responseMessage) ==> t == responseMessage.value
    ensures !Truthy(responseMessage) && errorMessage != "" ==> t == errorMessage
  {
    if Truthy(responseMessage) then responseMessage.value
    else if errorMessage != "" then errorMessage
    else "Failed to toggle like. Please try again."
  }

  class CommunityPage {
    var creations: seq<Creation>
    var isLoading: bool
    var toasts: seq<Toast>

    constructor ()
      ensures creations == [] && !isLoading && toasts == []
    {
      creations := [];
      isLoading := false;
      toasts := [];
    }

    /** fetchCreations: loading while the request runs; the feed replaced
        only on success (an absent list becomes []). */
    method FetchCreations(outcome: FetchOutcome)
      modifies this
      ensures !isLoading
      ensures outcome.Fetched? && outcome.success ==>
        creations == (if outcome.creations.Some? then outcome.creations.value else []) && toasts == old(toasts)
      ensures !(outcome.Fetched? && outcome.success) ==>
        creations == old(creations) && toasts == old(toasts) + [ErrorToast(outcome.message)]
    {
      isLoading := true;
      match outcome {
        case Fetched(success, list, message) =>
          if success {
            creations := if list.Some? then list.value else [];
          } else {
            toasts := toasts + [ErrorToast(message)];
          }
        case FetchThrew(message) =>
          toasts := toasts + [ErrorToast(message)];
      }
      isLoading := false;
    }

    /** imageLikeToggle: on a successful reply, toggle the matching entries
        locally; otherwise leave the feed alone and report the error. */
    method ImageLikeToggle(id: nat, user: Option<string>, outcome: LikeOutcome)
      modifies this
      ensures isLoading == old(isLoading)
      ensures outcome.Answered? && outcome.success ==>
        creations == ToggleInList(old(creations), id, UserIdText(user))
        && toasts == old(toasts) + [SuccessToast(outcome.message)]
      ensures outcome.Answered? && !outcome.success ==>
        creations == old(creations) && toasts == old(toasts) + [ErrorToast(outcome.message)]
      ensures outcome.LikeThrew? ==>
        creations == old(creations)
        && toasts == old(toasts) + [ErrorToast(LikeErrorText(outcome.responseMessage, outcome.errorMessage))]
    {
      match outcome {
        case Answered(success, message) =>
          if success {
            toasts := toasts + [SuccessToast(message)];
            creations := ToggleInList(creations, id, UserIdText(user));
          } else {
            toasts := toasts + [ErrorToast(message)];
          }
        case LikeThrew(responseMessage, errorMessage) =>
          toasts := toasts + [ErrorToast(LikeErrorText(responseMessage, errorMessage))];
      }
    }
  }
}

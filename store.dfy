/** The `creations` table and the user controller over it: the two listings
    (a user's own rows, and the published feed, both newest first) and the
    like toggle, which reads one row, computes its new likes and overwrites
    that row's `likes` column. */
module Store {
  import opened Wrappers
  import opened Js
  import opened Likes

  /** The `type` column. */
  datatype Kind = Article | Image | Resume

  /** The `prompt` column: either literal text, or one of the two fixed
      prompt templates, kept by their parameters rather than their prose. */
  datatype Prompt =
    | Literal(text: string)
    | ArticleTemplate(topic: string, wordCount: string, targetWords: string)
    | ResumeTemplate

  /** One row. `id` is the serial key; `likes` is None when the column does
      not hold an array. */
  datatype Creation = Creation(
    id: nat,
    userId: string,
    prompt: Prompt,
    content: string,
    kind: Kind,
    publish: bool,
    likes: Option<seq<string>>,
    createdAt: nat)

  datatype Payload = Empty | Content(text: string) | Title(text: string) | Listing(creations: seq<Creation>)

  /** A JSON reply with its HTTP status. */
  datatype Reply = Reply(status: nat, success: bool, message: Option<string>, payload: Payload)

  function Failure(status: nat, message: string): Reply {
    Reply(status, false, Some(message), Empty)
  }

  const InvalidIdMessage := "Invalid creation ID format"
  const InvalidUserMessage := "Invalid user ID format"
  const NotFoundMessage := "Creation not found"
  const BadLikesMessage := "Invalid likes format in database"
  const UpdateFailedMessage := "Failed to update creation likes"

  // ---------------------------------------------------------------------------
  // Listings: WHERE <filter> ORDER BY created_at DESC

  predicate NewestFirst(s: seq<Creation>) {
    forall i, j :: 0 <= i < j < |s| ==> s[i].createdAt >= s[j].createdAt
  }

  function InsertNewest(c: Creation, s: seq<Creation>): (r: seq<Creation>)
    requires NewestFirst(s)
    ensures NewestFirst(r)
    ensures multiset(r) == multiset(s) + multiset{c}
    ensures |r| == |s| + 1
    ensures r[0] == c || (s != [] && r[0] == s[0])
  {
    if s == [] || c.createdAt >= s[0].createdAt then [c] + s
    else
      assert s == [s[0]] + s[1..];
      [s[0]] + InsertNewest(c, s[1..])
  }

  /** `ORDER BY created_at DESC`: the same rows, most recent first. Rows
      created at the same instant keep their relative order. */
  function SortByNewest(s: seq<Creation>): (r: seq<Creation>)
    ensures NewestFirst(r)
    ensures multiset(r) == multiset(s)
    ensures |r| == |s|
  {
    if s == [] then []
    else
      assert s == [s[0]] + s[1..];
      InsertNewest(s[0], SortByNewest(s[1..]))
  }

  /** `WHERE keep(row)`: every kept row as often as it occurs, nothing else. */
  function Where(rows: seq<Creation>, keep: Creation -> bool): (r: seq<Creation>)
    ensures forall c :: multiset(r)[c] == if keep(c) then multiset(rows)[c] else 0
  {
    if rows == [] then []
    else
      assert rows == [rows[0]] + rows[1..];
      (if keep(rows[0]) then [rows[0]] else []) + Where(rows[1..], keep)
  }

  predicate IsPublished(c: Creation) {
    c.publish
  }

  /** `SELECT * FROM creations WHERE publish = true ORDER BY created_at DESC`. */
  function PublishedListing(rows: seq<Creation>): (r: seq<Creation>)
    ensures NewestFirst(r)
    ensures forall c :: multiset(r)[c] == if c.publish then multiset(rows)[c] else 0
    ensures forall c :: c in r <==> c in rows && c.publish
  {
    SortByNewest(Where(rows, IsPublished))
  }

  /** `SELECT * FROM creations WHERE user_id = … ORDER BY created_at DESC`. */
  function OwnerListing(rows: seq<Creation>, user: string): (r: seq<Creation>)
    ensures NewestFirst(r)
    ensures forall c :: multiset(r)[c] == if c.userId == user then multiset(rows)[c] else 0
    ensures forall c :: c in r <==> c in rows && c.userId == user
  {
    SortByNewest(Where(rows, (c: Creation) => c.userId == user))
  }

  // ---------------------------------------------------------------------------
  // Looking a row up by the request's id text, and overwriting its likes

  /** Serial keys in insertion order: strictly increasing, hence unique. */
  predicate IdsIncreasing(rows: seq<Creation>) {
    forall i, j :: 0 <= i < j < |rows| ==> rows[i].id < rows[j].id
  }

  /** `WHERE id = ${id}`: the first row whose key renders as `key`. */
  function FindRow(rows: seq<Creation>, key: string): (r: Option<nat>)
    ensures r.Some? ==> r.value < |rows| && NatToString(rows[r.value].id) == key
    ensures r.Some? ==> forall k :: 0 <= k < r.value ==> NatToString(rows[k].id) != key
    ensures r.None? ==> forall k :: 0 <= k < |rows| ==> NatToString(rows[k].id) != key
  {
    if rows == [] then None
    else if NatToString(rows[0].id) == key then Some(0)
    else match FindRow(rows[1..], key)
      case None => None
      case Some(i) => Some(i + 1)
  }

  function WithLikes(c: Creation, key: string, likes: seq<string>): Creation {
    if NatToString(c.id) == key then c.(likes := Some(likes)) else c
  }

  /** `UPDATE creations SET likes = … WHERE id = ${id}`. */
  function SetLikes(rows: seq<Creation>, key: string, likes: seq<string>): (r: seq<Creation>)
    ensures |r| == |rows|
    ensures forall k :: 0 <= k < |r| ==> r[k].(likes := rows[k].likes) == rows[k]
    ensures forall k :: 0 <= k < |r| && NatToString(rows[k].id) == key ==> r[k].likes == Some(likes)
    ensures forall k :: 0 <= k < |r| && NatToString(rows[k].id) != key ==> r[k] == rows[k]
  {
    seq(|rows|, k requires 0 <= k < |rows| => WithLikes(rows[k], key, likes))
  }

  /** With unique keys the update touches exactly the row the lookup found,
      and in that row only `likes`. */
  lemma OnlyFoundRowChanges(rows: seq<Creation>, key: string, likes: seq<string>)
    requires IdsIncreasing(rows) && FindRow(rows, key).Some?
    ensures var i := FindRow(rows, key).value;
      SetLikes(rows, key, likes) == rows[i := rows[i].(likes := Some(likes))]
  {
    var i := FindRow(rows, key).value;
    forall k | 0 <= k < |rows| && k != i
      ensures WithLikes(rows[k], key, likes) == rows[k]
    {
      if NatToString(rows[k].id) == key {
        NatToStringInjective(rows[k].id, rows[i].id);
      }
    }
  }

  lemma SetLikesCons(c: Creation, rest: seq<Creation>, key: string, likes: seq<string>)
    ensures SetLikes([c] + rest, key, likes) == [WithLikes(c, key, likes)] + SetLikes(rest, key, likes)
  {
  }

  lemma {:induction false} WhereSetLikes(rows: seq<Creation>, keep: Creation -> bool, key: string, likes: seq<string>)
    requires forall c :: keep(WithLikes(c, key, likes)) == keep(c)
    ensures Where(SetLikes(rows, key, likes), keep) == SetLikes(Where(rows, keep), key, likes)
    decreases |rows|
  {
    if rows != [] {
      assert rows == [rows[0]] + rows[1..];
      SetLikesCons(rows[0], rows[1..], key, likes);
      WhereSetLikes(rows[1..], keep, key, likes);
      var t := SetLikes(rows, key, likes);
      assert t[0] == WithLikes(rows[0], key, likes) && t[1..] == SetLikes(rows[1..], key, likes);
      if keep(rows[0]) {
        SetLikesCons(rows[0], Where(rows[1..], keep), key, likes);
      }
    }
  }

  lemma {:induction false} InsertSetLikes(c: Creation, s: seq<Creation>, key: string, likes: seq<string>)
    requires NewestFirst(s)
    ensures NewestFirst(SetLikes(s, key, likes))
    ensures InsertNewest(WithLikes(c, key, likes), SetLikes(s, key, likes)) == SetLikes(InsertNewest(c, s), key, likes)
    decreases |s|
  {
    var t := SetLikes(s, key, likes);
    assert NewestFirst(t) by {
      forall i, j | 0 <= i < j < |t| ensures t[i].createdAt >= t[j].createdAt {
        assert t[i].createdAt == s[i].createdAt && t[j].createdAt == s[j].createdAt;
      }
    }
    if s == [] {
      SetLikesCons(c, [], key, likes);
    } else if c.createdAt >= s[0].createdAt {
      SetLikesCons(c, s, key, likes);
    } else {
      assert s == [s[0]] + s[1..];
      SetLikesCons(s[0], s[1..], key, likes);
      InsertSetLikes(c, s[1..], key, likes);
      SetLikesCons(s[0], InsertNewest(c, s[1..]), key, likes);
      assert t[1..] == SetLikes(s[1..], key, likes);
    }
  }

  lemma {:induction false} SortSetLikes(s: seq<Creation>, key: string, likes: seq<string>)
    ensures SortByNewest(SetLikes(s, key, likes)) == SetLikes(SortByNewest(s), key, likes)
    decreases |s|
  {
    if s != [] {
      assert s == [s[0]] + s[1..];
      SetLikesCons(s[0], s[1..], key, likes);
      var t := SetLikes(s, key, likes);
      assert t[1..] == SetLikes(s[1..], key, likes);
      SortSetLikes(s[1..], key, likes);
      InsertSetLikes(s[0], SortByNewest(s[1..]), key, likes);
    }
  }

  /** Overwriting one row's likes changes the published feed only in that
      row's likes: same rows, same order. */
  lemma FeedAfterLikeUpdate(rows: seq<Creation>, key: string, likes: seq<string>)
    ensures PublishedListing(SetLikes(rows, key, likes)) == SetLikes(PublishedListing(rows), key, likes)
  {
    WhereSetLikes(rows, IsPublished, key, likes);
    SortSetLikes(Where(rows, IsPublished), key, likes);
  }

  /** A second overwrite of the same row replaces the first completely. */
  lemma SetLikesOverwrites(rows: seq<Creation>, key: string, first: seq<string>, second: seq<string>)
    ensures SetLikes(SetLikes(rows, key, first), key, second) == SetLikes(rows, key, second)
  {
  }

  /** Two toggles of row `i` that both read `likes` before either writes
      (the lost-update interleaving): the second UPDATE overwrites the first,
      so the table ends as if only the second user had toggled and the first
      user's like is gone. Run one after the other, both likes are kept. */
  lemma LostUpdate(rows: seq<Creation>, i: nat, first: string, second: string)
    requires i < |rows| && rows[i].likes.Some?
    requires first != second && first !in rows[i].likes.value && second !in rows[i].likes.value
    ensures var key, l := NatToString(rows[i].id), rows[i].likes.value;
      var interleaved := SetLikes(SetLikes(rows, key, Toggle(l, first)), key, Toggle(l, second));
      && interleaved == SetLikes(rows, key, Toggle(l, second))
      && interleaved[i].likes == Some(l + [second])
      && first !in interleaved[i].likes.value
    ensures var key, l := NatToString(rows[i].id), rows[i].likes.value;
      var sequential := SetLikes(SetLikes(rows, key, Toggle(l, first)), key, Toggle(Toggle(l, first), second));
      sequential[i].likes == Some(l + [first, second])
  {
    var key, l := NatToString(rows[i].id), rows[i].likes.value;
    SetLikesOverwrites(rows, key, Toggle(l, first), Toggle(l, second));
    assert l + [first] + [second] == l + [first, second];
  }

  // ---------------------------------------------------------------------------
  // The table and the user controller

  class CreationTable {
    var rows: seq<Creation>
    var nextId: nat

    ghost predicate Valid()
      reads this
    {
      IdsIncreasing(rows) && forall k :: 0 <= k < |rows| ==> rows[k].id < nextId
    }

    /** Every likes array in the table is free of duplicates. */
    ghost predicate LikesDistinct()
      reads this
    {
      forall k :: 0 <= k < |rows| && rows[k].likes.Some? ==> Distinct(rows[k].likes.value)
    }

    constructor ()
      ensures Valid() && LikesDistinct()
      ensures rows == [] && nextId == 0
    {
      rows := [];
      nextId := 0;
    }

    /** `INSERT INTO creations …`: a new serial key, an empty likes array,
        appended as one row. */
    method Insert(userId: string, prompt: Prompt, content: string, kind: Kind, publish: bool, now: nat)
      returns (created: Creation)
      requires Valid()
      modifies this
      ensures Valid()
      ensures created == Creation(old(nextId), userId, prompt, content, kind, publish, Some([]), now)
      ensures rows == old(rows) + [created] && nextId == old(nextId) + 1
      ensures old(LikesDistinct()) ==> LikesDistinct()
    {
      created := Creation(nextId, userId, prompt, content, kind, publish, Some([]), now);
      rows := rows + [created];
      nextId := nextId + 1;
    }

    /** getUserCreations. */
    method GetUserCreations(userId: string) returns (reply: Reply)
      ensures reply == Reply(200, true, None, Listing(OwnerListing(rows, userId)))
      ensures forall c :: c in reply.payload.creations ==> c in rows && c.userId == userId
    {
      reply := Reply(200, true, None, Listing(OwnerListing(rows, userId)));
    }

    /** getPublishedCreations. */
    method GetPublishedCreations() returns (reply: Reply)
      ensures reply == Reply(200, true, None, Listing(PublishedListing(rows)))
      ensures forall c :: c in reply.payload.creations ==> c in rows && c.publish
    {
      reply := Reply(200, true, None, Listing(PublishedListing(rows)));
    }

    /** toggleLikeCreation: validate the id, then the user, read the row,
        compute the new likes and the message from the likes as read, then
        overwrite that row's likes and return the published feed.
        `queried` says whether the table was read; `updateFails` stands for
        the UPDATE statement throwing. */
    method ToggleLikeCreation(id: JsValue, userId: Option<string>, updateFails: bool)
      returns (reply: Reply, queried: bool)
      requires Valid()
      modifies this
      ensures Valid() && nextId == old(nextId)
      ensures old(LikesDistinct()) ==> LikesDistinct()
      ensures queried <==> IsNonEmptyText(id) && Truthy(userId)
      ensures !IsNonEmptyText(id) ==> reply == Failure(400, InvalidIdMessage)
      ensures IsNonEmptyText(id) && !Truthy(userId) ==> reply == Failure(401, InvalidUserMessage)
      ensures queried && FindRow(old(rows), id.s).None? ==> reply == Failure(404, NotFoundMessage)
      ensures queried && FindRow(old(rows), id.s).Some? ==>
        var i := FindRow(old(rows), id.s).value;
        match old(rows)[i].likes
        case None => reply == Failure(500, BadLikesMessage)
        case Some(likes) =>
          if updateFails then reply == Failure(500, UpdateFailedMessage)
          else
            && rows == old(rows)[i := old(rows)[i].(likes := Some(Toggle(likes, userId.value)))]
            && reply == Reply(200, true, Some(ToggleMessage(likes, userId.value)), Listing(PublishedListing(rows)))
      ensures reply.status != 200 ==> rows == old(rows)
    {
      queried := false;
      if !IsNonEmptyText(id) {
        reply := Failure(400, InvalidIdMessage);
        return;
      }
      if !Truthy(userId) {
        reply := Failure(401, InvalidUserMessage);
        return;
      }
      queried := true;
      var found := FindRow(rows, id.s);
      if found.None? {
        reply := Failure(404, NotFoundMessage);
        return;
      }
      var creation := rows[found.value];
      if creation.likes.None? {
        reply := Failure(500, BadLikesMessage);
        return;
      }
      var user := userId.value;
      var updatedLikes := Toggle(creation.likes.value, user);
      var message := ToggleMessage(creation.likes.value, user);
      if updateFails {
        reply := Failure(500, UpdateFailedMessage);
        return;
      }
      OnlyFoundRowChanges(rows, id.s, updatedLikes);
      if LikesDistinct() {
        ToggleKeepsDistinct(creation.likes.value, user);
      }
      rows := SetLikes(rows, id.s, updatedLikes);
      reply := Reply(200, true, Some(message), Listing(PublishedListing(rows)));
    }
  }
}

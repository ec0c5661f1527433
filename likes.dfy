/** The like-toggle rule shared by the server handler and the community page:
    if the user is among the likes, every occurrence is filtered out;
    otherwise the user is appended.  Also the message chosen from the
    membership test made before the update. */
module Likes {

  const LikedMessage := "Creation Liked"
  const UnlikedMessage := "Creation Unliked"

  /** `likes.filter(like => like !== user)`. */
  function RemoveAll(likes: seq<string>, user: string): (r: seq<string>)
    ensures forall x :: x in r <==> x in likes && x != user
    ensures |r| <= |likes|
  {
    if likes == [] then []
    else (if likes[0] == user then [] else [likes[0]]) + RemoveAll(likes[1..], user)
  }

  /** The new likes: remove the user if present, otherwise append the user. */
  function Toggle(likes: seq<string>, user: string): (r: seq<string>)
    ensures user in r <==> user !in likes
    ensures forall x :: x != user ==> (x in r <==> x in likes)
  {
    if user in likes then RemoveAll(likes, user) else likes + [user]
  }

  /** The reply message, from membership before the update. */
  function ToggleMessage(likes: seq<string>, user: string): (m: string)
    ensures m == UnlikedMessage <==> user in likes
    ensures m == LikedMessage <==> user !in likes
  {
    if user in likes then UnlikedMessage else LikedMessage
  }

  predicate Distinct(s: seq<string>) {
    forall i, j :: 0 <= i < j < |s| ==> s[i] != s[j]
  }

  /** `a` is `b` with some entries dropped and the rest in their order. */
  predicate IsSubsequence(a: seq<string>, b: seq<string>)
    decreases |b|
  {
    if a == [] then true
    else if b == [] then false
    else if a[0] == b[0] then IsSubsequence(a[1..], b[1..])
    else IsSubsequence(a, b[1..])
  }

  /** Filtering keeps the other entries, each as often as before, in their
      order, and drops every occurrence of the user. */
  lemma {:induction false} RemoveAllKeepsOthers(likes: seq<string>, user: string)
    ensures multiset(RemoveAll(likes, user)) == multiset(likes)[user := 0]
    ensures IsSubsequence(RemoveAll(likes, user), likes)
    decreases |likes|
  {
    if likes != [] {
      RemoveAllKeepsOthers(likes[1..], user);
      assert likes == [likes[0]] + likes[1..];
      var rest := RemoveAll(likes[1..], user);
      if likes[0] != user {
        assert RemoveAll(likes, user) == [likes[0]] + rest;
        assert RemoveAll(likes, user)[1..] == rest;
      } else {
        assert RemoveAll(likes, user) == rest;
        SubsequenceOfTail(rest, likes);
      }
    }
  }

  lemma {:induction false} SubsequenceOfTail(a: seq<string>, b: seq<string>)
    requires b != [] && IsSubsequence(a, b[1..])
    ensures IsSubsequence(a, b)
    decreases |b|, |a|
  {
    if a != [] && a[0] == b[0] {
      SubsequenceDropHead(a, b[1..]);
    }
  }

  lemma {:induction false} SubsequenceDropHead(a: seq<string>, b: seq<string>)
    requires a != [] && IsSubsequence(a, b)
    ensures IsSubsequence(a[1..], b)
    decreases |b|, |a|
  {
    assert b != [];
    if a[0] == b[0] {
      if a[1..] != [] {
        SubsequenceOfTail(a[1..], b);
      }
    } else {
      SubsequenceDropHead(a, b[1..]);
      if a[1..] != [] {
        SubsequenceOfTail(a[1..], b);
      }
    }
  }

  lemma {:induction false} RemoveAllAbsent(likes: seq<string>, user: string)
    requires user !in likes
    ensures RemoveAll(likes, user) == likes
    decreases |likes|
  {
    if likes != [] {
      RemoveAllAbsent(likes[1..], user);
      assert likes == [likes[0]] + likes[1..];
    }
  }

  lemma {:induction false} RemoveAllAppend(likes: seq<string>, extra: seq<string>, user: string)
    ensures RemoveAll(likes + extra, user) == RemoveAll(likes, user) + RemoveAll(extra, user)
    decreases |likes|
  {
    if likes == [] {
      assert likes + extra == extra;
    } else {
      assert (likes + extra)[0] == likes[0];
      assert (likes + extra)[1..] == likes[1..] + extra;
      RemoveAllAppend(likes[1..], extra, user);
    }
  }

  lemma {:induction false} SubsequenceKeepsDistinct(a: seq<string>, b: seq<string>)
    requires IsSubsequence(a, b) && Distinct(b)
    ensures Distinct(a)
    decreases |b|
  {
    if a != [] {
      assert b != [];
      assert Distinct(b[1..]);
      if a[0] == b[0] {
        SubsequenceKeepsDistinct(a[1..], b[1..]);
        forall k | 1 <= k < |a| ensures a[k] != a[0] {
          SubsequenceMembers(a[1..], b[1..], k - 1);
        }
      } else {
        SubsequenceKeepsDistinct(a, b[1..]);
      }
    }
  }

  lemma {:induction false} SubsequenceMembers(a: seq<string>, b: seq<string>, k: nat)
    requires IsSubsequence(a, b) && k < |a|
    ensures a[k] in b
    decreases |b|
  {
    assert b != [];
    if a[0] == b[0] {
      if k > 0 {
        SubsequenceMembers(a[1..], b[1..], k - 1);
      }
    } else {
      SubsequenceMembers(a, b[1..], k);
    }
  }

  /** A toggle never introduces a duplicate. */
  lemma ToggleKeepsDistinct(likes: seq<string>, user: string)
    requires Distinct(likes)
    ensures Distinct(Toggle(likes, user))
  {
    if user in likes {
      RemoveAllKeepsOthers(likes, user);
      SubsequenceKeepsDistinct(RemoveAll(likes, user), likes);
    }
  }

  /** Liking and then unliking restores the original list exactly. */
  lemma ToggleTwiceRestores(likes: seq<string>, user: string)
    requires user !in likes
    ensures Toggle(Toggle(likes, user), user) == likes
  {
    RemoveAllAppend(likes, [user], user);
    RemoveAllAbsent(likes, user);
  }

  /** Unliking and then liking restores the same likes, possibly in another
      order: the user comes back at the end. */
  lemma ToggleTwiceSameLikes(likes: seq<string>, user: string)
    requires Distinct(likes) && user in likes
    ensures multiset(Toggle(Toggle(likes, user), user)) == multiset(likes)
  {
    RemoveAllKeepsOthers(likes, user);
    assert multiset(likes)[user] == 1 by {
      DistinctCountsOnce(likes, user);
    }
  }

  lemma {:induction false} DistinctCountsOnce(s: seq<string>, x: string)
    requires Distinct(s) && x in s
    ensures multiset(s)[x] == 1
    decreases |s|
  {
    assert s == [s[0]] + s[1..];
    if s[0] == x {
      assert x !in s[1..];
    } else {
      DistinctCountsOnce(s[1..], x);
    }
  }

  /** Toggling twice from a list that already holds the user does not restore
      the order: the user moves to the end. */
  lemma ToggleTwiceReorders()
    ensures Toggle(Toggle(["a", "b"], "a"), "a") == ["b", "a"]
  {
    assert "a" in ["a", "b"];
    assert RemoveAll(["a", "b"], "a") == ["b"] by {
      assert ["a", "b"][1..] == ["b"];
    }
  }

  /** With distinct likes, the count goes down by one on an unlike and up by
      one on a like. */
  lemma ToggleCountStep(likes: seq<string>, user: string)
    requires Distinct(likes)
    ensures |Toggle(likes, user)| == if user in likes then |likes| - 1 else |likes| + 1
  {
    if user in likes {
      RemoveAllKeepsOthers(likes, user);
      DistinctCountsOnce(likes, user);
      assert |multiset(likes)[user := 0]| == |multiset(likes)| - 1;
    }
  }
}

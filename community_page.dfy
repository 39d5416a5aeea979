/** The community feed: the category filter, the like update, the comment
    box guard and reset, post creation, and the single expanded post. */
module CommunityPage {
  import opened Wrappers
  import opened Text
  import opened Lists
  import opened Entities
  import opened Storage
  import Api

  const AllCategories: string := "all"

  /** `filteredPosts`: every post for 'all', otherwise exactly the posts of
      the selected category, in order. */
  function FilteredPosts(posts: seq<CommunityPost>, category: string): (r: seq<CommunityPost>)
    ensures category == AllCategories ==> r == posts
    ensures IsSubsequence(r, posts)
    ensures category != AllCategories ==> forall i :: 0 <= i < |r| ==> r[i].category == category
    ensures forall i :: 0 <= i < |posts| && posts[i].category == category ==> posts[i] in r
    ensures forall i :: 0 <= i < |posts| && posts[i].category == category ==>
      multiset(r)[posts[i]] == multiset(posts)[posts[i]]
  {
    if category == AllCategories then
      KeepAll(posts, p => true);
      KeepIsSubsequence(posts, p => true);
      posts
    else
      KeepIsSubsequence(posts, (p: CommunityPost) => p.category == category);
      Keep(posts, (p: CommunityPost) => p.category == category)
  }

  /** The `posts.map` in `handleLike`: every post with the liked id takes the
      server's count; all others, and the order, are kept. */
  function WithLikes(posts: seq<CommunityPost>, id: int, count: int): (r: seq<CommunityPost>)
    ensures |r| == |posts|
    ensures forall i :: 0 <= i < |posts| ==> r[i] == if posts[i].id == id then posts[i].(likes := count) else posts[i]
  {
    if posts == [] then []
    else [if posts[0].id == id then posts[0].(likes := count) else posts[0]] + WithLikes(posts[1..], id, count)
  }

  /** Liking a post that is not in the list changes nothing. */
  lemma LikeOfAbsentPost(posts: seq<CommunityPost>, id: int, count: int)
    requires forall i :: 0 <= i < |posts| ==> posts[i].id != id
    ensures WithLikes(posts, id, count) == posts
  {
  }

  /** Applying the same like reply twice is the same as once. */
  lemma LikeIdempotent(posts: seq<CommunityPost>, id: int, count: int)
    ensures WithLikes(WithLikes(posts, id, count), id, count) == WithLikes(posts, id, count)
  {
  }

  datatype LikeReply = LikeReply(liked: bool, likesCount: int)

  /** All of the page's state at once. */
  datatype PageState = PageState(
    posts: seq<CommunityPost>,
    isCreateModalOpen: bool,
    selectedCategory: string,
    expandedPost: Option<int>,
    commentInputs: map<int, string>,
    postComments: map<int, seq<Comment>>)

  class Page {
    var posts: seq<CommunityPost>
    var isCreateModalOpen: bool
    var selectedCategory: string
    /** At most one post is expanded at a time: an id or none. */
    var expandedPost: Option<int>
    var commentInputs: map<int, string>
    var postComments: map<int, seq<Comment>>

    function State(): PageState
      reads this
    {
      PageState(posts, isCreateModalOpen, selectedCategory, expandedPost, commentInputs, postComments)
    }

    constructor ()
      ensures State() == PageState([], false, AllCategories, None, map[], map[])
    {
      posts := [];
      isCreateModalOpen := false;
      selectedCategory := AllCategories;
      expandedPost := None;
      commentInputs := map[];
      postComments := map[];
    }

    /** `loadPosts` on mount: a failure leaves the list as it is. Every call
      of the page goes through the response interceptor. */
    method LoadPosts(ls: LocalStorage, fetched: Result<seq<CommunityPost>, HttpFailure>)
      modifies this, ls
      ensures State() == if fetched.Success? then old(State()).(posts := fetched.value) else old(State())
      ensures ls.items == Api.AfterReply(old(ls.items), fetched)
    {
      var r := Api.Send(ls, fetched);
      if r.Success? {
        posts := r.value;
      }
    }

    /** The "Create Post" button opens the modal; its `onClose` closes it. */
    method SetCreateModalOpen(open: bool)
      modifies this
      ensures State() == old(State()).(isCreateModalOpen := open)
    {
      isCreateModalOpen := open;
    }

    method SelectCategory(category: string)
      modifies this
      ensures State() == old(State()).(selectedCategory := category)
    {
      selectedCategory := category;
    }

    /** `handleCreatePost`: after the post is created the list is fetched
      again and the modal closes; if either call fails nothing changes and
      the modal stays open. */
    method HandleCreatePost(ls: LocalStorage, created: Result<CommunityPost, HttpFailure>,
                            refetched: Result<seq<CommunityPost>, HttpFailure>)
      modifies this, ls
      ensures created.Success? && refetched.Success? ==>
        State() == old(State()).(posts := refetched.value, isCreateModalOpen := false)
      ensures created.Failure? || refetched.Failure? ==> State() == old(State())
      ensures ls.items == if created.Success? then Api.AfterReply(old(ls.items), refetched)
        else Api.AfterReply(old(ls.items), created)
    {
      var c := Api.Send(ls, created);
      if c.Failure? {
        return;
      }
      var r := Api.Send(ls, refetched);
      if r.Failure? {
        return;
      }
      posts := r.value;
      isCreateModalOpen := false;
    }

    /** `handleLike`: only the liked post's count changes; a failure changes nothing. */
    method HandleLike(ls: LocalStorage, id: int, reply: Result<LikeReply, HttpFailure>)
      modifies this, ls
      ensures reply.Success? ==> State() == old(State()).(posts := WithLikes(old(posts), id, reply.value.likesCount))
      ensures reply.Failure? ==> State() == old(State())
      ensures ls.items == Api.AfterReply(old(ls.items), reply)
    {
      var r := Api.Send(ls, reply);
      match r {
        case Success(like) =>
          posts := WithLikes(posts, id, like.likesCount);
        case Failure(_) =>
      }
    }

    /** Typing in a post's comment box touches only that post's entry. */
    method SetCommentInput(id: int, text: string)
      modifies this
      ensures State() == old(State()).(commentInputs := old(commentInputs)[id := text])
    {
      commentInputs := commentInputs[id := text];
    }

    /** `handleComment`: an absent or whitespace-only comment sends nothing
      and changes nothing. Otherwise the comment is sent as typed; when it
      and the refetch succeed, the list is replaced and only that post's
      box is cleared. Returns the text sent, if any. */
    method HandleComment(ls: LocalStorage, id: int, created: Result<Comment, HttpFailure>,
                         refetched: Result<seq<CommunityPost>, HttpFailure>)
      returns (sent: Option<string>)
      modifies this, ls
      ensures sent.Some? <==> id in old(commentInputs) && !AllWhitespace(old(commentInputs)[id])
      ensures sent.Some? ==> sent.value == old(commentInputs)[id]
      ensures sent.None? || created.Failure? || refetched.Failure? ==> State() == old(State())
      ensures sent.Some? && created.Success? && refetched.Success? ==>
        State() == old(State()).(posts := refetched.value, commentInputs := old(commentInputs)[id := ""])
      ensures sent.None? ==> ls.items == old(ls.items)
      ensures sent.Some? ==> ls.items == if created.Success? then Api.AfterReply(old(ls.items), refetched)
        else Api.AfterReply(old(ls.items), created)
    {
      if id !in commentInputs {
        return None;
      }
      var content := commentInputs[id];
      TrimEmptyIff(content);
      if Trim(content) == "" {
        return None;
      }
      sent := Some(content);
      var c := Api.Send(ls, created);
      if c.Failure? {
        return;
      }
      var r := Api.Send(ls, refetched);
      if r.Failure? {
        return;
      }
      posts := r.value;
      commentInputs := commentInputs[id := ""];
    }

    /** `toggleComments`: collapses the post when it is the expanded one;
      otherwise makes it the one expanded post and fetches its comments,
      keeping the old comments when that fetch fails. */
    method ToggleComments(ls: LocalStorage, id: int, fetched: Result<seq<Comment>, HttpFailure>)
      returns (requested: bool)
      modifies this, ls
      ensures requested <==> old(expandedPost) != Some(id)
      ensures !requested ==> State() == old(State()).(expandedPost := None)
      ensures requested ==> State() == old(State()).(
        expandedPost := Some(id),
        postComments := if fetched.Success? then old(postComments)[id := fetched.value] else old(postComments))
      ensures ls.items == if requested then Api.AfterReply(old(ls.items), fetched) else old(ls.items)
    {
      if expandedPost == Some(id) {
        expandedPost := None;
        return false;
      }
      expandedPost := Some(id);
      requested := true;
      var r := Api.Send(ls, fetched);
      if r.Success? {
        postComments := postComments[id := r.value];
      }
    }
  }
}

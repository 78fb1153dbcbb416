/**
 * The read-only handlers of the blog canister, as functions of the stored
 * maps. Each filtering handler scans its map in ascending key order and keeps
 * the records that pass its test; an empty result is an empty sequence, not
 * an error.
 */
module Queries {
  import opened Types
  import opened OrderedMap

  /** Every post is stored under its own id. */
  ghost predicate PostsKeyedById(posts: map<nat, BlogPost>) {
    forall k :: k in posts ==> posts[k].id == k
  }

  /** Every comment is stored under its own id. */
  ghost predicate CommentsKeyedById(comments: map<nat, Comment>) {
    forall k :: k in comments ==> comments[k].id == k
  }

  /** The keys of the posts written by `author`. */
  ghost function KeysByAuthor(posts: map<nat, BlogPost>, author: string): set<nat> {
    set k | k in posts && posts[k].author == author
  }

  /** The keys of the posts tagged `tag`. */
  ghost function KeysWithTag(posts: map<nat, BlogPost>, tag: string): set<nat> {
    set k | k in posts && tag in posts[k].tags
  }

  /** The keys of the comments that name `blog_post_id` as their post. */
  ghost function KeysOfCommentsOn(comments: map<nat, Comment>, blog_post_id: nat): set<nat> {
    set k | k in comments && comments[k].blog_post_id == blog_post_id
  }

  /** The plain lookup the handlers share. */
  function Lookup(posts: map<nat, BlogPost>, id: nat): (r: Option<BlogPost>)
    ensures r.Some? <==> id in posts
    ensures r.Some? ==> r.value == posts[id]
  {
    if id in posts then Some(posts[id]) else None
  }

  /** The stored post, or NotFound naming the id. */
  function GetBlogPost(posts: map<nat, BlogPost>, id: nat): (r: Result<BlogPost>)
    ensures r.Ok? <==> id in posts
    ensures r.Ok? ==> r.value == posts[id]
    ensures r.Err? ==> r.error == NotFound(id)
  {
    match Lookup(posts, id)
    case Some(post) => Ok(post)
    case None => Err(NotFound(id))
  }

  /** The keys the scan for `author` keeps, in the order it visits them. */
  function AuthorKeys(posts: map<nat, BlogPost>, author: string): (ks: seq<nat>)
    ensures Increasing(ks)
    ensures forall k :: k in ks <==> k in posts && posts[k].author == author
  {
    KeysWhere(posts, (p: BlogPost) => p.author == author)
  }

  /** The keys the scan for `tag` keeps, in the order it visits them. */
  function TagKeys(posts: map<nat, BlogPost>, tag: string): (ks: seq<nat>)
    ensures Increasing(ks)
    ensures forall k :: k in ks <==> k in posts && tag in posts[k].tags
  {
    KeysWhere(posts, (p: BlogPost) => tag in p.tags)
  }

  /** The keys of the comments on `blog_post_id`, in the order the scan visits them. */
  function CommentKeys(comments: map<nat, Comment>, blog_post_id: nat): (ks: seq<nat>)
    ensures Increasing(ks)
    ensures forall k :: k in ks <==> k in comments && comments[k].blog_post_id == blog_post_id
  {
    KeysWhere(comments, (c: Comment) => c.blog_post_id == blog_post_id)
  }

  /**
   * The stored posts written by `author`, and nothing else. No match gives
   * the empty sequence. Count and order: SearchByAuthorCount and
   * SearchByAuthorInKeyOrder.
   */
  function SearchBlogPostsByAuthor(posts: map<nat, BlogPost>, author: string): (r: seq<BlogPost>)
    ensures forall i :: 0 <= i < |r| ==> r[i] in posts.Values && r[i].author == author
    ensures forall k :: k in posts && posts[k].author == author ==> posts[k] in r
  {
    var ks := AuthorKeys(posts, author);
    ValuesAtCovers(posts, ks);
    ValuesAt(posts, ks)
  }

  /** One result per stored post by `author`. */
  lemma SearchByAuthorCount(posts: map<nat, BlogPost>, author: string)
    ensures |SearchBlogPostsByAuthor(posts, author)| == |KeysByAuthor(posts, author)|
  {
    IncreasingCount(AuthorKeys(posts, author), KeysByAuthor(posts, author));
  }

  /** Results come in ascending key order, which is ascending id order when posts sit under their ids. */
  lemma SearchByAuthorInKeyOrder(posts: map<nat, BlogPost>, author: string)
    requires PostsKeyedById(posts)
    ensures var r := SearchBlogPostsByAuthor(posts, author);
      forall i, j :: 0 <= i < j < |r| ==> r[i].id < r[j].id
  {
  }

  /**
   * The stored posts whose tags include `tag`, and nothing else. No match
   * gives the empty sequence. Count and order: SearchByTagCount and
   * SearchByTagInKeyOrder.
   */
  function SearchBlogPostsByTag(posts: map<nat, BlogPost>, tag: string): (r: seq<BlogPost>)
    ensures forall i :: 0 <= i < |r| ==> r[i] in posts.Values && tag in r[i].tags
    ensures forall k :: k in posts && tag in posts[k].tags ==> posts[k] in r
  {
    var ks := TagKeys(posts, tag);
    ValuesAtCovers(posts, ks);
    ValuesAt(posts, ks)
  }

  /** One result per stored post tagged `tag`. */
  lemma SearchByTagCount(posts: map<nat, BlogPost>, tag: string)
    ensures |SearchBlogPostsByTag(posts, tag)| == |KeysWithTag(posts, tag)|
  {
    IncreasingCount(TagKeys(posts, tag), KeysWithTag(posts, tag));
  }

  /** Results come in ascending key order, which is ascending id order when posts sit under their ids. */
  lemma SearchByTagInKeyOrder(posts: map<nat, BlogPost>, tag: string)
    requires PostsKeyedById(posts)
    ensures var r := SearchBlogPostsByTag(posts, tag);
      forall i, j :: 0 <= i < j < |r| ==> r[i].id < r[j].id
  {
  }

  /**
   * Always Ok, holding the stored comments that name `blog_post_id` as their
   * post and nothing else, whether or not that post exists. Count and order:
   * CommentsForPostCount and CommentsForPostInKeyOrder.
   */
  function GetCommentsForPost(comments: map<nat, Comment>, blog_post_id: nat): (r: Result<seq<Comment>>)
    ensures r.Ok?
    ensures forall i :: 0 <= i < |r.value| ==> r.value[i] in comments.Values && r.value[i].blog_post_id == blog_post_id
    ensures forall k :: k in comments && comments[k].blog_post_id == blog_post_id ==> comments[k] in r.value
  {
    var ks := CommentKeys(comments, blog_post_id);
    ValuesAtCovers(comments, ks);
    Ok(ValuesAt(comments, ks))
  }

  /** One result per stored comment naming the post. */
  lemma CommentsForPostCount(comments: map<nat, Comment>, blog_post_id: nat)
    ensures |GetCommentsForPost(comments, blog_post_id).value| == |KeysOfCommentsOn(comments, blog_post_id)|
  {
    IncreasingCount(CommentKeys(comments, blog_post_id), KeysOfCommentsOn(comments, blog_post_id));
  }

  /** Results come in ascending key order, which is ascending id order when comments sit under their ids. */
  lemma CommentsForPostInKeyOrder(comments: map<nat, Comment>, blog_post_id: nat)
    requires CommentsKeyedById(comments)
    ensures var r := GetCommentsForPost(comments, blog_post_id).value;
      forall i, j :: 0 <= i < j < |r| ==> r[i].id < r[j].id
  {
  }

  /**
   * NotFound for a missing post; otherwise the post's view count and tips
   * and the number of stored comments that name it, which is the length of
   * what GetCommentsForPost returns for it.
   */
  function GetBlogPostAnalytics(posts: map<nat, BlogPost>, comments: map<nat, Comment>, post_id: nat): (r: Result<BlogPostAnalytics>)
    ensures r.Ok? <==> post_id in posts
    ensures r.Err? ==> r.error == NotFound(post_id)
    ensures r.Ok? ==> r.value.view_count == posts[post_id].view_count
    ensures r.Ok? ==> r.value.tips_received == posts[post_id].tips_received
    ensures r.Ok? ==> r.value.comment_count == |KeysOfCommentsOn(comments, post_id)|
    ensures r.Ok? ==> r.value.comment_count == |GetCommentsForPost(comments, post_id).value|
  {
    match Lookup(posts, post_id)
    case None => Err(NotFound(post_id))
    case Some(post) =>
      var ks := CommentKeys(comments, post_id);
      IncreasingCount(ks, KeysOfCommentsOn(comments, post_id));
      CommentsForPostCount(comments, post_id);
      Ok(BlogPostAnalytics(post.view_count, post.tips_received, |ks|))
  }

  /** A tag no stored post carries is searched in vain: the result is empty. */
  lemma {:induction false} SearchByTagNoMatch(posts: map<nat, BlogPost>, tag: string)
    requires forall j :: j in posts ==> tag !in posts[j].tags
    ensures SearchBlogPostsByTag(posts, tag) == []
  {
    assert KeysWithTag(posts, tag) == {};
    SearchByTagCount(posts, tag);
  }

  /** A tag exactly one stored post carries is found on that post alone. */
  lemma {:induction false} SearchByTagOneMatch(posts: map<nat, BlogPost>, tag: string, k: nat)
    requires k in posts && tag in posts[k].tags
    requires forall j :: j in posts && j != k ==> tag !in posts[j].tags
    ensures SearchBlogPostsByTag(posts, tag) == [posts[k]]
  {
    assert KeysWithTag(posts, tag) == {k};
    SearchByTagCount(posts, tag);
    var r := SearchBlogPostsByTag(posts, tag);
    var j :| j in posts && posts[j] == r[0];
    assert j == k;
  }

  /**
   * Searching for a tag no post carries gives the empty sequence; once one
   * post's tags are replaced by a list holding it, the same search gives
   * exactly that post.
   */
  lemma {:induction false} TaggingOnePostMakesItTheOnlyMatch(posts: map<nat, BlogPost>, k: nat, tags: seq<string>, tag: string)
    requires k in posts
    requires forall j :: j in posts ==> tag !in posts[j].tags
    requires tag in tags
    ensures SearchBlogPostsByTag(posts, tag) == []
    ensures SearchBlogPostsByTag(posts[k := posts[k].(tags := tags)], tag) == [posts[k].(tags := tags)]
  {
    SearchByTagNoMatch(posts, tag);
    var tagged := posts[k := posts[k].(tags := tags)];
    SearchByTagOneMatch(tagged, tag, k);
  }
}

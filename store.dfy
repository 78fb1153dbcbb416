/**
 * The canister's persistent state and its update handlers. The id counter
 * and the two ordered maps (posts, comments) are fields of one store
 * object; each handler reads a record, changes a copy and writes the whole
 * record back under its id.
 */
module Backend {
  import opened Types
  import opened OrderedMap
  import opened Queries

  /**
   * What every reachable state satisfies: records sit under their own ids,
   * every id was drawn from the shared counter before it was used, posts and
   * comments never share an id, and a post's comment list names, in the
   * order they were added, stored comments that point back at that post.
   */
  ghost predicate Consistent(counter: nat, posts: map<nat, BlogPost>, comments: map<nat, Comment>) {
    && PostsKeyedById(posts)
    && CommentsKeyedById(comments)
    && (forall k :: k in posts ==> k < counter)
    && (forall k :: k in comments ==> k < counter)
    && posts.Keys !! comments.Keys
    && (forall k :: k in posts ==> Increasing(posts[k].comments))
    && (forall k, c :: k in posts && c in posts[k].comments ==> c in comments && comments[c].blog_post_id == k)
  }

  /**
   * In a consistent state every comment a post lists is among the comments
   * GetCommentsForPost returns for it, so the analytics count is at least
   * the length of the post's own list. (It can be larger: a comment stored
   * while its post id was not yet issued is counted but never listed.)
   */
  lemma {:induction false} ListedCommentsAreCounted(counter: nat, posts: map<nat, BlogPost>, comments: map<nat, Comment>, k: nat)
    requires Consistent(counter, posts, comments)
    requires k in posts
    ensures forall c :: c in posts[k].comments ==> comments[c] in GetCommentsForPost(comments, k).value
    ensures GetBlogPostAnalytics(posts, comments, k).Ok?
    ensures |posts[k].comments| <= GetBlogPostAnalytics(posts, comments, k).value.comment_count
  {
    var listed := posts[k].comments;
    assert Increasing(listed);
    assert forall c :: c in listed ==> c in comments && comments[c].blog_post_id == k;
    ListSizeBound(comments, k, listed);
  }

  lemma {:induction false} ListSizeBound(comments: map<nat, Comment>, k: nat, listed: seq<nat>)
    requires Increasing(listed)
    requires forall c :: c in listed ==> c in comments && comments[c].blog_post_id == k
    ensures |listed| <= |KeysOfCommentsOn(comments, k)|
  {
    IncreasingCount(listed, Elements(listed));
    SubsetSize(Elements(listed), KeysOfCommentsOn(comments, k));
  }

  lemma {:induction false} SubsetSize(a: set<nat>, b: set<nat>)
    requires a <= b
    ensures |a| <= |b|
  {
    assert b == a + (b - a);
  }

  class Store {
    var counter: nat
    var posts: map<nat, BlogPost>
    var comments: map<nat, Comment>

    ghost predicate Valid()
      reads this
    {
      Consistent(counter, posts, comments)
    }

    /** The state a fresh canister starts from: counter 0, both maps empty. */
    constructor ()
      ensures Valid()
      ensures counter == 0 && posts == map[] && comments == map[]
    {
      counter := 0;
      posts := map[];
      comments := map[];
    }

    /** Reads the counter and stores its successor; the old value is the new id. */
    method NextId() returns (id: nat)
      requires Valid()
      modifies this`counter
      ensures Valid()
      ensures id == old(counter) && counter == old(counter) + 1
      ensures id !in posts && id !in comments
    {
      id := counter;
      counter := counter + 1;
    }

    /** Writes `post` under its own id, replacing whatever was there. */
    method DoInsertBlogPost(post: BlogPost)
      modifies this`posts
      ensures posts == old(posts)[post.id := post]
    {
      posts := posts[post.id := post];
    }

    /**
     * Draws a fresh id and stores a new post under it with the payload's
     * title, content and author, created at `now`, never updated, no tips,
     * comments, views or tags (the payload's view count and tags are
     * ignored).
     */
    method AddBlogPost(payload: BlogPostPayload, now: nat) returns (r: Option<BlogPost>)
      requires Valid()
      modifies this
      ensures Valid()
      ensures r.Some?
      ensures r.value.id == old(counter) && r.value.id !in old(posts) && r.value.id !in old(comments)
      ensures r.value.title == payload.title && r.value.content == payload.content && r.value.author == payload.author
      ensures r.value.created_at == now && r.value.updated_at == None
      ensures r.value.tips_received == 0 && r.value.comments == [] && r.value.view_count == 0 && r.value.tags == []
      ensures posts == old(posts)[r.value.id := r.value]
      ensures comments == old(comments) && counter == old(counter) + 1
    {
      var id := NextId();
      var post := BlogPost(id, payload.title, payload.content, payload.author, now, None, 0, [], 0, []);
      DoInsertBlogPost(post);
      r := Some(post);
    }

    /**
     * Replaces the title and content of the post under `id` and stamps
     * `updated_at`; every other field, including the author, is kept.
     */
    method UpdateBlogPost(id: nat, payload: BlogPostPayload, now: nat) returns (r: Result<BlogPost>)
      requires Valid()
      modifies this
      ensures Valid()
      ensures counter == old(counter) && comments == old(comments)
      ensures id !in old(posts) ==> r == Err(NotFound(id)) && posts == old(posts)
      ensures id in old(posts) ==>
        && r == Ok(old(posts)[id].(title := payload.title, content := payload.content, updated_at := Some(now)))
        && posts == old(posts)[id := r.value]
    {
      match Lookup(posts, id)
      case Some(post) =>
        var updated := post.(content := payload.content, title := payload.title, updated_at := Some(now));
        DoInsertBlogPost(updated);
        r := Ok(updated);
      case None =>
        r := Err(NotFound(id));
    }

    /** Removes the post under `id` and returns it; its comments stay stored. */
    method DeleteBlogPost(id: nat) returns (r: Result<BlogPost>)
      requires Valid()
      modifies this
      ensures Valid()
      ensures counter == old(counter) && comments == old(comments)
      ensures id in old(posts) ==> r == Ok(old(posts)[id]) && posts == old(posts) - {id}
      ensures id !in old(posts) ==> r == Err(NotFound(id)) && posts == old(posts)
    {
      var removed := Lookup(posts, id);
      posts := posts - {id};
      match removed
      case Some(post) =>
        r := Ok(post);
      case None =>
        assert posts == old(posts);
        r := Err(NotFound(id));
    }

    /**
     * Draws a fresh id and stores the comment under it whether or not its
     * post exists. When the post exists, the new id is appended to the
     * post's comment list and the comment is returned; otherwise the posts
     * are left alone and NotFound names the missing post.
     */
    method AddComment(payload: CommentPayload, now: nat) returns (r: Result<Comment>)
      requires Valid()
      modifies this
      ensures Valid()
      ensures counter == old(counter) + 1 && old(counter) !in old(posts) && old(counter) !in old(comments)
      ensures comments == old(comments)[old(counter) := Comment(old(counter), payload.blog_post_id, payload.author, payload.content, now)]
      ensures payload.blog_post_id in old(posts) ==>
        var post := old(posts)[payload.blog_post_id];
        && r == Ok(comments[old(counter)])
        && posts == old(posts)[payload.blog_post_id := post.(comments := post.comments + [old(counter)])]
      ensures payload.blog_post_id !in old(posts) ==> r == Err(NotFound(payload.blog_post_id)) && posts == old(posts)
    {
      var id := NextId();
      var comment := Comment(id, payload.blog_post_id, payload.author, payload.content, now);
      comments := comments[id := comment];

      var blogPostUpdated := false;
      match Lookup(posts, payload.blog_post_id) {
        case Some(post) =>
          var updated := post.(comments := post.comments + [id]);
          assert Increasing(updated.comments) by {
            forall c | c in post.comments ensures c < id {
              assert c in old(comments);
            }
            Append(post.comments, id);
          }
          posts := posts[updated.id := updated];
          blogPostUpdated := true;
        case None =>
      }

      if blogPostUpdated {
        r := Ok(comment);
      } else {
        r := Err(NotFound(payload.blog_post_id));
      }
    }

    /** Replaces the tags of the post under `post_id` wholesale. */
    method TagBlogPost(post_id: nat, tags: seq<string>) returns (r: Result<()>)
      requires Valid()
      modifies this
      ensures Valid()
      ensures counter == old(counter) && comments == old(comments)
      ensures post_id in old(posts) ==> r == Ok(()) && posts == old(posts)[post_id := old(posts)[post_id].(tags := tags)]
      ensures post_id !in old(posts) ==> r == Err(NotFound(post_id)) && posts == old(posts)
    {
      match Lookup(posts, post_id)
      case Some(post) =>
        var tagged := post.(tags := tags);
        posts := posts[tagged.id := tagged];
        r := Ok(());
      case None =>
        r := Err(NotFound(post_id));
    }

    /** Adds `amount` to the tips of the post under `id`. */
    method TipBlogPost(id: nat, amount: nat) returns (r: Result<()>)
      requires Valid()
      modifies this
      ensures Valid()
      ensures counter == old(counter) && comments == old(comments)
      ensures id in old(posts) ==>
        && r == Ok(())
        && posts == old(posts)[id := old(posts)[id].(tips_received := old(posts)[id].tips_received + amount)]
      ensures id !in old(posts) ==> r == Err(NotFound(id)) && posts == old(posts)
    {
      match Lookup(posts, id)
      case Some(post) =>
        var tipped := post.(tips_received := post.tips_received + amount);
        posts := posts[id := tipped];
        r := Ok(());
      case None =>
        r := Err(NotFound(id));
    }
  }
}

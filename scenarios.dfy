/**
 * Short call sequences on a freshly initialised canister, each with what the
 * caller observes: the create/read, update, delete, tag-and-search and
 * comment behaviours the handlers promise together.
 */
module Scenarios {
  import opened Types
  import opened Queries
  import opened Backend

  /** The first post gets id 0, and reading that id back returns the same record. */
  method CreateThenRead(payload: BlogPostPayload, now: nat) returns (created: BlogPost, read: Result<BlogPost>)
    ensures created.id == 0 && created.title == payload.title && created.content == payload.content
    ensures read == Ok(created)
  {
    var store := new Store();
    var added := store.AddBlogPost(payload, now);
    created := added.value;
    read := GetBlogPost(store.posts, created.id);
  }

  /** An update changes title, content and updated_at, and keeps id, author and created_at. */
  method UpdateKeepsIdentity(payload: BlogPostPayload, edit: BlogPostPayload, created_at: nat, edited_at: nat)
    returns (before: BlogPost, after: Result<BlogPost>)
    ensures after.Ok?
    ensures after.value.id == before.id && after.value.author == before.author
    ensures after.value.created_at == before.created_at == created_at
    ensures after.value.title == edit.title && after.value.content == edit.content
    ensures after.value.updated_at == Some(edited_at)
  {
    var store := new Store();
    var added := store.AddBlogPost(payload, created_at);
    before := added.value;
    after := store.UpdateBlogPost(before.id, edit, edited_at);
  }

  /** After a delete, reading the same id reports NotFound. */
  method DeleteThenRead(payload: BlogPostPayload, now: nat) returns (deleted: Result<BlogPost>, read: Result<BlogPost>)
    ensures deleted.Ok?
    ensures read == Err(NotFound(deleted.value.id))
  {
    var store := new Store();
    var added := store.AddBlogPost(payload, now);
    deleted := store.DeleteBlogPost(added.value.id);
    read := GetBlogPost(store.posts, added.value.id);
  }

  /** Deleting a post does not rewind the counter: the next post gets a new id. */
  method IdsNotReusedAfterDelete(first: BlogPostPayload, second: BlogPostPayload, now: nat)
    returns (a: BlogPost, b: BlogPost)
    ensures a.id == 0 && b.id == 1
  {
    var store := new Store();
    var added := store.AddBlogPost(first, now);
    a := added.value;
    var _ := store.DeleteBlogPost(a.id);
    added := store.AddBlogPost(second, now);
    b := added.value;
  }

  /**
   * Posts and comments draw from one counter: a post, a comment on it and a
   * second post get ids 0, 1 and 2, and the post lists the comment.
   */
  method SharedCounter(first: BlogPostPayload, comment: CommentPayload, second: BlogPostPayload, now: nat)
    returns (a: BlogPost, c: Result<Comment>, b: BlogPost, listed: Result<BlogPost>)
    requires comment.blog_post_id == 0
    ensures a.id == 0 && c.Ok? && c.value.id == 1 && b.id == 2
    ensures listed.Ok? && listed.value.comments == [1]
  {
    var store := new Store();
    var added := store.AddBlogPost(first, now);
    a := added.value;
    c := store.AddComment(comment, now);
    added := store.AddBlogPost(second, now);
    b := added.value;
    listed := GetBlogPost(store.posts, 0);
  }

  /**
   * A comment on a post that does not exist yet is refused with NotFound but
   * stays stored and uses up id 0; the post then created gets id 1, lists no
   * comments, and its analytics still count the earlier comment.
   */
  method OrphanCommentCountedLater(comment: CommentPayload, payload: BlogPostPayload, now: nat)
    returns (added: Result<Comment>, post: BlogPost, stats: Result<BlogPostAnalytics>)
    requires comment.blog_post_id == 1
    ensures added == Err(NotFound(1))
    ensures post.id == 1 && post.comments == []
    ensures stats.Ok? && stats.value.comment_count == 1
  {
    var store := new Store();
    added := store.AddComment(comment, now);
    var created := store.AddBlogPost(payload, now);
    post := created.value;
    stats := GetBlogPostAnalytics(store.posts, store.comments, post.id);
    assert KeysOfCommentsOn(store.comments, 1) == {0};
  }

  /**
   * A tag search before any post carries the tag is empty; after tagging
   * one post it returns exactly that post.
   */
  method TagThenSearch(payload: BlogPostPayload, tag: string, now: nat)
    returns (before: seq<BlogPost>, after: seq<BlogPost>)
    ensures before == []
    ensures |after| == 1 && after[0].id == 0 && after[0].tags == [tag]
  {
    var store := new Store();
    var added := store.AddBlogPost(payload, now);
    before := SearchBlogPostsByTag(store.posts, tag);
    var old_posts := store.posts;
    var _ := store.TagBlogPost(0, [tag]);
    after := SearchBlogPostsByTag(store.posts, tag);
    TaggingOnePostMakesItTheOnlyMatch(old_posts, 0, [tag], tag);
  }
}

/**
 * Records of the blog canister: posts, comments, the payloads callers send,
 * the analytics summary and the error value the handlers return.
 * Unsigned 64-bit fields are `nat`; `String` is `string`; `Vec<T>` is `seq<T>`.
 */
module Types {

  datatype Option<+T> = None | Some(value: T)

  /** The only failure a handler reports: the id it looked for is not stored. */
  datatype Error = NotFound(id: nat)

  datatype Result<+T> = Ok(value: T) | Err(error: Error)

  datatype BlogPost = BlogPost(
    id: nat,
    title: string,
    content: string,
    author: string,
    created_at: nat,
    updated_at: Option<nat>,
    tips_received: nat,
    comments: seq<nat>,
    view_count: nat,
    tags: seq<string>)

  datatype Comment = Comment(
    id: nat,
    blog_post_id: nat,
    author: string,
    content: string,
    created_at: nat)

  datatype CommentPayload = CommentPayload(
    blog_post_id: nat,
    author: string,
    content: string)

  datatype BlogPostPayload = BlogPostPayload(
    title: string,
    content: string,
    author: string,
    view_count: nat,
    tags: seq<string>)

  datatype BlogPostAnalytics = BlogPostAnalytics(
    view_count: nat,
    tips_received: nat,
    comment_count: nat)
}

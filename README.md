# Blog canister store, modelled in Dafny

This models the backend of a small blog hosted as a canister. The canister
keeps three pieces of persistent state:

- an id counter,
- an ordered map from id to blog post,
- an ordered map from id to comment.

Handlers sit on top of this state. They create posts and comments, read,
update, tag, tip and delete posts, and run filtering queries. Posts and
comments take their ids from the same counter. The counter never goes back,
so an id is never handed out twice, even after a delete.

Files:

- `types.dfy` (module `Types`): the records (`BlogPost`, `Comment`), the two
  payloads, `BlogPostAnalytics`, `Error` (`NotFound` with the missing id) and
  `Result`/`Option`.
- `ordered_map.dfy` (module `OrderedMap`): the ascending-key iteration order of
  the stored maps, and a filtering scan over it, with the lemmas about
  ordering and counting that the queries use.
- `queries.dfy` (module `Queries`): the read-only handlers, as functions of the
  maps.
- `store.dfy` (module `Backend`): the invariant `Consistent`, and class
  `Store`. The class holds the counter and the two maps as fields. Each update
  handler is a method with a `modifies` clause.
- `scenarios.dfy` (module `Scenarios`): call sequences on a fresh store,
  each stating what the caller sees.

The update methods state their complete new state in terms of the old one.
They all keep `Valid()` true. That invariant says:

- every record is stored under its own id;
- every stored key is below the counter;
- post ids and comment ids never clash;
- a post's comment list is strictly ascending;
- every id on a post's comment list is a stored comment pointing back at that post.

Behaviours of the handlers worth knowing:

- The two searches and `get_comments_for_post` return an empty sequence
  when nothing matches. They never return an error.
- Only `update_blog_post` sets `updated_at`. Tagging, tipping and adding a
  comment leave it as it was.
- `add_comment` stores the comment, and uses up an id, even when the post
  does not exist.

## Model

| member | source | states |
|---|---|---|
| `OrderedMap.SortedKeys` | src/icp_rust_boilerplate_backend/src/lib.rs:245-246 | the map's keys, each exactly once, strictly ascending: the order `iter()` visits entries |
| `OrderedMap.KeysWhere` | src/icp_rust_boilerplate_backend/src/lib.rs:234-238 | a filtering scan keeps exactly the keys whose values pass the test, still ascending |
| `OrderedMap.IncreasingCount` | src/icp_rust_boilerplate_backend/src/lib.rs:264-269 | a duplicate-free key sequence is as long as its set of keys, so a scan's `count()` is the number of matching entries |
| `Queries.Lookup` | src/icp_rust_boilerplate_backend/src/lib.rs:113-115 | the lookup returns `Some` exactly when the id is a key, holding the stored record |
| `Queries.GetBlogPost` | src/icp_rust_boilerplate_backend/src/lib.rs:117-125 | `Ok(p)` exactly when the id is stored, with `p` the stored post; otherwise `NotFound` with that id |
| `Queries.SearchBlogPostsByAuthor` | src/icp_rust_boilerplate_backend/src/lib.rs:242-256 | every result is a stored post by that author, and every stored post by that author is returned; no match gives an empty sequence |
| `Queries.SearchByAuthorCount` | src/icp_rust_boilerplate_backend/src/lib.rs:243-255 | the author search returns one result per stored post by that author |
| `Queries.SearchByAuthorInKeyOrder` | src/icp_rust_boilerplate_backend/src/lib.rs:243-255 | when posts sit under their ids, the author search returns them with strictly ascending ids (the map's key order) |
| `Queries.SearchBlogPostsByTag` | src/icp_rust_boilerplate_backend/src/lib.rs:301-315 | every result is a stored post whose tags contain the tag, and every such stored post is returned; no match gives an empty sequence |
| `Queries.SearchByTagCount` | src/icp_rust_boilerplate_backend/src/lib.rs:302-314 | the tag search returns one result per stored post carrying the tag |
| `Queries.SearchByTagInKeyOrder` | src/icp_rust_boilerplate_backend/src/lib.rs:302-314 | when posts sit under their ids, the tag search returns them with strictly ascending ids |
| `Queries.GetCommentsForPost` | src/icp_rust_boilerplate_backend/src/lib.rs:231-241 | always `Ok`; every returned comment is stored and names the post, and every stored comment naming the post is returned, whether or not the post exists |
| `Queries.CommentsForPostCount` | src/icp_rust_boilerplate_backend/src/lib.rs:232-240 | one returned comment per stored comment naming the post |
| `Queries.CommentsForPostInKeyOrder` | src/icp_rust_boilerplate_backend/src/lib.rs:232-240 | when comments sit under their ids, they are returned with strictly ascending ids |
| `Queries.GetBlogPostAnalytics` | src/icp_rust_boilerplate_backend/src/lib.rs:258-276 | `NotFound` exactly when the post is missing; otherwise view count and tips copied from the post, and `comment_count` equal to the number of stored comments naming the post, which is the length of `GetCommentsForPost` |
| `Queries.SearchByTagNoMatch` | src/icp_rust_boilerplate_backend/src/lib.rs:301-315 | a tag no stored post carries gives the empty sequence, not an error |
| `Queries.SearchByTagOneMatch` | src/icp_rust_boilerplate_backend/src/lib.rs:301-315 | a tag exactly one stored post carries gives exactly that post |
| `Queries.TaggingOnePostMakesItTheOnlyMatch` | src/icp_rust_boilerplate_backend/src/lib.rs:286-315 | a tag search is empty while no post has the tag; after one post's tags are replaced by a list that has it, the search returns exactly that post |
| `Backend.ListedCommentsAreCounted` | src/icp_rust_boilerplate_backend/src/lib.rs:199-214 | in a consistent state every comment a post lists is returned by `GetCommentsForPost` for it, and the analytics count is at least the length of the post's list |
| `Backend.ListSizeBound` | src/icp_rust_boilerplate_backend/src/lib.rs:264-269 | a duplicate-free list of comment ids, all naming one post, is no longer than that post's comment count |
| `Backend.Store.constructor` | src/icp_rust_boilerplate_backend/src/lib.rs:69-88 | a fresh store has counter 0 and two empty maps, and is consistent |
| `Backend.Store.NextId` | src/icp_rust_boilerplate_backend/src/lib.rs:129-134 | returns the old counter and stores its successor; the id is in neither map; the same step serves `add_comment` (lines 183-187) |
| `Backend.Store.DoInsertBlogPost` | src/icp_rust_boilerplate_backend/src/lib.rs:343-346 | the post is written under its own id, replacing any previous value |
| `Backend.Store.AddBlogPost` | src/icp_rust_boilerplate_backend/src/lib.rs:127-151 | returns `Some` post with id equal to the old counter, which was free in both maps; title, content and author from the payload, `created_at` now, no update stamp, zero tips and views, no comments or tags (payload view count and tags ignored); stored under its id; comments unchanged; counter up by one; consistency kept |
| `Backend.Store.UpdateBlogPost` | src/icp_rust_boilerplate_backend/src/lib.rs:155-169 | missing id: `NotFound` and nothing changes; present id: only title, content and `updated_at := Some(now)` change (id, author, created_at, tips, comments, views, tags kept), returned and stored under the same key, all other keys untouched |
| `Backend.Store.DeleteBlogPost` | src/icp_rust_boilerplate_backend/src/lib.rs:171-179 | present id: exactly that key is removed and its record returned; missing id: `NotFound` and the map is unchanged; comments and counter never touched |
| `Backend.Store.AddComment` | src/icp_rust_boilerplate_backend/src/lib.rs:180-223 | always uses up the old counter value as the comment id and stores the comment under it; if the post exists its comment list gets that id appended and the comment is returned; otherwise posts are unchanged and `NotFound` is returned, the orphan comment staying stored |
| `Backend.Store.TagBlogPost` | src/icp_rust_boilerplate_backend/src/lib.rs:285-299 | present id: tags replaced wholesale, every other field and key kept, `Ok(())`; missing id: `NotFound` and no change |
| `Backend.Store.TipBlogPost` | src/icp_rust_boilerplate_backend/src/lib.rs:319-340 | present id: `tips_received` grows by the amount, every other field and key kept, `Ok(())`; missing id: `NotFound` and no change |
| `Scenarios.CreateThenRead` | src/icp_rust_boilerplate_backend/src/lib.rs:117-151 | the first post gets id 0 and reading it back returns the identical record |
| `Scenarios.UpdateKeepsIdentity` | src/icp_rust_boilerplate_backend/src/lib.rs:155-169 | an update keeps id, author and `created_at` and changes title, content and `updated_at` |
| `Scenarios.DeleteThenRead` | src/icp_rust_boilerplate_backend/src/lib.rs:117-179 | reading a deleted id yields `NotFound` for that id |
| `Scenarios.IdsNotReusedAfterDelete` | src/icp_rust_boilerplate_backend/src/lib.rs:127-179 | after deleting post 0 the next post gets id 1, not 0 |
| `Scenarios.SharedCounter` | src/icp_rust_boilerplate_backend/src/lib.rs:127-223 | a post, a comment on it and a second post get ids 0, 1, 2, and the first post lists comment 1 |
| `Scenarios.OrphanCommentCountedLater` | src/icp_rust_boilerplate_backend/src/lib.rs:180-276 | a comment naming a post that does not exist yet is refused but stored under id 0; the post created next gets id 1 and lists no comment, yet its analytics count one comment |
| `Scenarios.TagThenSearch` | src/icp_rust_boilerplate_backend/src/lib.rs:285-315 | a tag search before tagging is empty; after tagging post 0 it returns exactly that post with the new tags |

## Left out

- Record encoding and decoding (`to_bytes`/`from_bytes`) and the 1024-byte
  `MAX_SIZE` bounds: they call into a serialisation library that is not part of
  this model. The maps hold records directly.
- The memory manager, the memory partitions and the `thread_local!`/`RefCell`
  wrapping: host persistence mechanics. The state is three fields of one object.
- `time()`: a host call. Every handler that stamps a time takes it as the
  parameter `now`.
- The query/update attributes and `export_candid!`: RPC packaging.
- Error message text: `NotFound` carries the id looked for instead. In
  `add_comment` the source's message names no id; the model still carries the
  missing post's id.
- `Backend.Store.NextId`: uses `nat`, so it does not model u64 overflow of `current_value + 1`.
  It also does not model a failing counter write. That failure panics in
  `add_blog_post` and is ignored in `add_comment`.
- `Backend.Store.TipBlogPost`: uses `nat`, so it does not model u64 overflow of
  `tips_received += amount`. Whether that panics or wraps depends on the build mode.

# Forum store

A model of the forum store behind a small educational HTTP service. The store
is one aggregate of two ordered sequences, `posts` and `comments`. Three
operations work on it:

- `postCreate` checks the lengths of `sender`, `title` and `content`. It then
  gives the new post the id `2 * (number of posts) + 2041`, appends it and
  returns the id.
- `postsList` drops `content` from each post and sorts the result by id,
  largest first.
- `clear` empties both sequences.

The model is the module `Forum` (`forum.dfy`):

- Posts, comments, listing entries and the length error are datatypes.
- The store is the class `Forum.Store`.
- `PostCreate` and `Clear` are methods that modify the store.
- `PostsList` is a function that reads the store.
- The length checks are functions returning `Pass` or `Fail(LengthError(field, min, max))`.
- The sort the listing performs is an insertion sort on summaries. Its
  comparator is the source's `p2.postId - p1.postId`.

The ghost predicate `Store.Valid` says that the i-th post carries the id
`2*i + 2041` and that there are no comments. The constructor and `Clear`
establish it and `PostCreate` preserves it, so it holds of every store built
from an empty one by these operations. Under `Valid`, ids are distinct, grow
with creation order and are at least 2041. The listing is then exactly the
reverse of creation order.

Ids are distinct only among the posts currently stored. The id depends on the
post count alone, so after a clear the next post gets 2041 again, an id handed
out before the clear.

The module `ForumScenarios` (`forum_scenarios.dfy`) holds client scenarios
after the route tests, in reduced form (two posts where a test creates ten).
Each scenario starts with a reset, and its results follow from the store's
contracts alone.

## Model

| member | source | states |
|---|---|---|
| `Forum.CheckLength` | src/forum.ts:95-103 | passes exactly when the string is non-empty and its length is within [min, max]; when min >= 1 the emptiness test adds nothing; a failure names the field and both bounds |
| `Forum.CheckValidPostDetails` | src/forum.ts:105-109 | passes exactly when sender and title have 1 to 20 characters and content has 1 to 250; an empty field always fails; the error names the first field out of bounds, in the order sender, title, content |
| `Forum.Store.constructor` | src/forum.ts:35-38 | the store starts with no posts and no comments, and the id invariant `Valid` holds |
| `Forum.Store.PostCreate` | src/forum.ts:113-120 | succeeds exactly when the details are valid; on failure it returns the validation error and leaves posts and comments unchanged; on success it returns twice the old post count plus 2041, appends exactly one post with the given fields and `now` as its time, leaves comments unchanged, preserves `Valid`, and under `Valid` the new id is larger than every earlier id |
| `Forum.Store.PostsList` | src/forum.ts:122-133 | one entry per post; sorted by id, largest first; a permutation (same multiset) of the posts with content removed; every post's summary appears and every entry is the summary of a stored post; under `Valid` it is the reverse of creation order |
| `Forum.Store.Clear` | src/forum.ts:135-141 | afterwards posts and comments are empty, whatever they were before, `Valid` holds and the listing is empty |
| `Forum.InsertById` | src/forum.ts:131 | inserting into a list sorted by id (largest first) keeps it sorted and adds exactly the inserted element to its multiset |
| `Forum.SortByIdDescending` | src/forum.ts:131 | the result is sorted by id, largest first, and is a permutation of the input |
| `Forum.InsertBelowAll` | src/forum.ts:131 | an element whose id is below every id of a sorted list is inserted at its end |
| `Forum.SortOfIncreasingIsReverse` | src/forum.ts:131 | when ids strictly increase along a sequence, sorting it by id, largest first, gives its reverse |
| `Forum.SortedSummariesMatchPosts` | src/forum.ts:124-131 | the sorted listing has as many entries as there are posts; it holds each post's summary and only such summaries |
| `Forum.CreationOrderListsInReverse` | src/forum.ts:116 | when every post carries the id its position gives it, the listing is the summaries in reverse creation order |
| `Forum.IdsFollowCreationOrderGivesDistinctIds` | src/forum.ts:116 | ids assigned by position strictly increase along the store, are pairwise distinct and are all at least 2041 |
| `ForumScenarios.CreateWithEmptyFieldFails` | src/forum.test.ts:134-141 | after a reset, a post with an empty sender, title or content is refused and the store stays empty |
| `ForumScenarios.CreateSamePostThrice` | src/forum.test.ts:150-156 | after a reset, three identical posts get the distinct, increasing ids 2041, 2043 and 2045 |
| `ForumScenarios.CreateThenList` | src/forum.test.ts:165-177 | after a reset, one created post is listed as its id, sender, title and creation time, without content |
| `ForumScenarios.CreateTwoThenList` | src/forum.test.ts:179-207 | after a reset, two created posts are listed newest first |
| `ForumScenarios.ClearTwice` | src/forum.test.ts:119-129 | after a reset and one created post the listing has one entry; clearing empties the store and the listing, and clearing twice leaves the same empty store |
| `ForumScenarios.IdReusedAfterClear` | src/forum.ts:116 | a post created after a clear gets 2041 again, the id of the post created before it: ids are unique only among stored posts |
| `Forum.PostIdFor` | src/forum.ts:116 | carries no contract: the reference definition of the id formula, twice the post count plus 2041, used by `Valid` and `PostCreate` |
| `Forum.Summary` | src/forum.ts:125-130 | carries no contract: the reference definition of one listing entry, the post's id, sender, title and time without its content |
| `Forum.Summaries` | src/forum.ts:124-130 | carries no contract: the reference definition of the projection, each post's summary in store order; `PostsList`'s contract is stated in its terms |

## Left out

- `requestHelper`, `getData` and `setData` (src/forum.ts:64-91) are synchronous HTTP calls to a remote key-value store. Reading and writing the store is modelled as reading and writing the fields of `Store`.
- The `catch` in `getData` that turns a failed fetch into an empty store (src/forum.ts:81-86) is not modelled. It is a failure of foreign I/O.
- The commented-out file persistence (src/forum.ts:49-57) is not modelled.
- `getTimeStamp` reads the wall clock. The creation time is the parameter `now` of `PostCreate`.
- The text of the 400 error message is not modelled. `LengthError` keeps the field name and both bounds, which are what the message mentions.
- The response wrappers `{ postId }`, `{ posts }` and `{}` are not modelled. `PostCreate` returns the id, `PostsList` returns the sequence and `Clear` returns nothing.
- src/server.ts is not part of this model: routing, CORS, logging, the database-file bootstrap and shutdown are I/O glue.
- The echo route is not modelled. Its source is not among the files this model draws on.
- Interleavings of concurrent requests around the remote persistence round-trip are not modelled. Every operation is one atomic step on the store.
- Forum.CheckLength: `|s|` counts Unicode scalar values and JavaScript's `length` counts UTF-16 code units. They agree only for strings with no character outside the Basic Multilingual Plane. For other strings the model can accept a field the source rejects (for example, eleven emoji as sender).
- Forum.CheckLength: fields are always strings here. In the source a field missing from the request reaches `checkLength` as `undefined` and is rejected by `!inputString` (src/forum.ts:96). A non-string value without a `length`, such as the number 5, passes all three comparisons there and is stored. Neither case is modelled.
- Forum.SortByIdDescending: does not state that the sort is stable, which `Array.prototype.sort` guarantees. It matters only for equal ids, and a store built by `postCreate` and `clear` has none.
- Forum.Store.PostCreate: ids are unbounded integers. JavaScript numbers are exact up to 2^53, far beyond any reachable post count.
- Comments are a field of the store that only `Clear` writes. No operation adds one.

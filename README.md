# wp-safe-edit fork engine, modelled in Dafny

This project models `PostForker`, the class of the wp-safe-edit WordPress plugin
that makes a "fork" of a post. A fork is a private draft copy of the post that
editors can change without touching the published original. `fork(post)` checks
that the post may be forked and then calls `fork_post(post)`. `fork_post` works
in five steps:

1. it resolves the post;
2. it builds the fork's field array (`prepare_post_data_for_fork`): the
   identity, date and taxonomy-hint columns are removed, `post_parent` is set to
   the original's ID and `post_status` to the draft-fork status;
3. it inserts that array as a new post (`wp_insert_post`);
4. it clears the new post's meta and copies the original's meta rows onto it
   (`copy_post_meta`);
5. it copies the original's taxonomy terms onto it (`copy_post_terms`).

`fork`, `fork_post`, `copy_post_meta` and `copy_post_terms` catch their own
exceptions and return a `WP_Error`. `prepare_post_data_for_fork` catches its
exception and returns an empty array. The other four methods
(`get_draft_fork_post_status`, `get_columns_to_exclude`, `can_fork`, `has_fork`)
have no `try`/`catch`.

Files:

- `results.dfy`: module `Results`. `Result` is either a value or a
  `WpError(code, message)`. It stands for the `WP_Error` returned by the catch
  blocks of `fork`, `fork_post`, `copy_post_meta` and `copy_post_terms`.
- `store.dfy`: module `Store`, the WordPress side.
  - `Post` holds `fields`, `meta` and `terms`. `fields` is the `to_array()`
    column map. `meta` is a sequence of (key, value) rows, and keys may repeat.
    `terms` maps each taxonomy to a set of terms.
  - Class `WpStore` holds the post table `posts`, the ID counter `nextId` and
    the log `actions` of `do_action` hooks fired so far.
  - `rejectInsert` is the validation of `wp_insert_post`.
  - The helper routines the forker calls get their plain contracts here.
- `forking.dfy`: module `Forking`.
  - The excluded columns, the error messages and the code `post_forker`,
    copied from the source.
  - Pure outcome functions that give the meaning of each operation as a
    function of the store's state before the call: `PreparedData`,
    `CopyPostMetaOutcome`, `CopyPostTermsOutcome`, `ForkPostOutcome` and
    `ForkOutcome`.
  - Class `PostForker`. Its methods follow the source step by step and are
    proved to produce exactly those outcomes, including the `actions` log.
    `prepare_post_data_for_fork` keeps its loop that unsets the excluded
    columns one by one (`UnsetColumns`).
- `fork_properties.dfy`: module `ForkProperties`. Lemmas about the outcome
  functions: the shape of the fork's fields, clear-then-copy and idempotence of
  the meta copy, the term copy, the early exits of `fork_post` and `fork`, and
  what a successful fork creates.
- `eligibility.dfy`: module `Eligibility`. One concrete choice for the two
  eligibility checks. It shows that a successful fork blocks a second one.

The eligibility checks `post_can_be_forked` and `post_has_open_fork` are arrow-
typed constants of `PostForker`, supplied when the forker is built, and any
function can be passed in. The same holds for the draft-fork status name that
`DraftForkStatus::get_name()` returns: it is supplied at construction and may
be empty. `CanFork`, `HasFork` and `DraftForkPostStatus` only delegate to these
constants, and their contracts say so.
`Fork`'s contract (through `ForkOutcome`) states what `can_fork` decides.

Where the code behaves differently from what a caller might expect, the model
follows the code:

- When the draft-fork status name is empty, `prepare_post_data_for_fork`
  returns an empty array and `fork_post` still tries to insert it. It does not
  stop with an error (`PreparedDataEmptyIff`, `ForkSucceedsIff`). PHP's
  `empty()` also treats `"0"` as empty (`PhpEmpty`).
- `can_fork` and `has_fork` only delegate. The rules "exists, is not a fork,
  has no open fork" are not in the code, so they live only in `Eligibility`.
- `copy_post_meta` clears the target's meta before copying. So copying a post
  onto itself leaves it with no meta at all (`CopyPostMetaCopies`).

## Model

| member | source | states |
|---|---|---|
| `Store.WpStore.InsertPost` | includes/Forking/PostForker.php:71-77 | `wp_insert_post` either reports the validation error and stores nothing, or stores the data under the next ID and advances the counter |
| `Store.WpStore.ClearPostMeta` | includes/Forking/PostForker.php:123 | all meta rows of the post are removed, nothing else changes |
| `Store.WpStore.CopyPostMeta` | includes/Forking/PostForker.php:127 | the source post's rows are added after the target's; returns the number of rows copied |
| `Store.WpStore.CopyPostTerms` | includes/Forking/PostForker.php:166 | each of the source's taxonomies is reassigned on the target with the same terms; returns the number of assignments |
| `Store.WpStore.DoAction` | includes/Forking/PostForker.php:68 | a hook appends one entry to the action log and changes nothing else |
| `Forking.RemoveColumnsKeeps` | includes/Forking/PostForker.php:207-212 | after unsetting the listed columns, a key remains exactly when it was present and not listed, with its value unchanged |
| `Forking.PostForker.UnsetColumns` | includes/Forking/PostForker.php:207-212 | the `foreach`/`unset` loop yields `RemoveColumns` of its input: by `RemoveColumnsKeeps`, exactly the unlisted keys, with their values |
| `Forking.PostForker.ColumnsToExclude` | includes/Forking/PostForker.php:235-248 | the ten columns of lines 236-246, in order: ten distinct names, exactly the excluded ones |
| `Forking.PostForker.DraftForkPostStatus` | includes/Forking/PostForker.php:226-228 | delegates to the supplied draft-fork status name |
| `Forking.PostForker.CanFork` | includes/Forking/PostForker.php:256-258 | delegates to the supplied `post_can_be_forked` check on the current posts |
| `Forking.PostForker.HasFork` | includes/Forking/PostForker.php:266-268 | delegates to the supplied `post_has_open_fork` check on the current posts |
| `Forking.PostForker.PreparePostDataForFork` | includes/Forking/PostForker.php:188-224 | returns `PreparedData`: the fork's fields, or an empty array when the post does not resolve or the status name is empty |
| `Forking.PostForker.CopyPostMeta` | includes/Forking/PostForker.php:109-141 | the result and the new store are exactly `CopyPostMetaOutcome` of the old store |
| `Forking.PostForker.CopyPostTerms` | includes/Forking/PostForker.php:150-180 | the result and the new store are exactly `CopyPostTermsOutcome` of the old store |
| `Forking.PostForker.ForkPost` | includes/Forking/PostForker.php:58-100 | the result and the new store are exactly `ForkPostOutcome` of the old store; the store invariant (fresh IDs) is kept |
| `Forking.PostForker.Fork` | includes/Forking/PostForker.php:24-50 | the result and the new store are exactly `ForkOutcome` of the old store with the forker's eligibility check |
| `ForkProperties.ForkFieldsDropsExcluded` | includes/Forking/PostForker.php:235-247 | no excluded column except `post_parent` is in the fork's fields |
| `ForkProperties.ForkFieldsDropsIdentityColumns` | includes/Forking/PostForker.php:236-246 | `ID`, `post_date`, `post_date_gmt`, `post_modified`, `post_modified_gmt`, `guid`, `post_category`, `tags_input`, `tax_input` are absent |
| `ForkProperties.ForkFieldsSetsParentAndStatus` | includes/Forking/PostForker.php:214-215 | `post_parent` is the original's ID and `post_status` the draft-fork status |
| `ForkProperties.ForkFieldsKeepsOthers` | includes/Forking/PostForker.php:205-212 | every column of the original that is not excluded and is not `post_status` is kept with the same value |
| `ForkProperties.ForkFieldsAddsNothing` | includes/Forking/PostForker.php:205-215 | every key of the fork's fields is `post_parent`, `post_status` or a non-excluded column of the original |
| `ForkProperties.RemoveColumnsAsFilter` | includes/Forking/PostForker.php:208-212 | unsetting the columns one at a time equals filtering out all of them at once |
| `ForkProperties.PreparedDataEmptyIff` | includes/Forking/PostForker.php:190-223 | the prepared array is empty if and only if the post does not resolve or the status name is empty |
| `ForkProperties.CopyPostMetaRejects` | includes/Forking/PostForker.php:114-121 | the meta copy fails if and only if one of the posts does not resolve, and then the store is untouched |
| `ForkProperties.CopyPostMetaCopies` | includes/Forking/PostForker.php:123-131 | after the copy the fork's meta equals the original's (empty for a self-copy), no other post changes, and the count is the number of rows copied |
| `ForkProperties.CopyPostMetaIgnoresPriorMeta` | includes/Forking/PostForker.php:123-127 | the resulting posts do not depend on the meta the fork held before |
| `ForkProperties.CopyPostMetaIdempotent` | includes/Forking/PostForker.php:123-127 | copying meta twice gives the same posts and count as copying once |
| `ForkProperties.CopyWithoutClearingDuplicates` | includes/Forking/PostForker.php:123 | without the clearing step a second copy would duplicate every row |
| `ForkProperties.CopyPostTermsRejects` | includes/Forking/PostForker.php:155-162 | the term copy fails if and only if one of the posts does not resolve, and then the store is untouched |
| `ForkProperties.CopyPostTermsAssigns` | includes/Forking/PostForker.php:164-170 | each of the original's taxonomies has the identical term set on the fork; the fork's other taxonomies, fields and meta stay; no other post changes |
| `ForkProperties.CopyPostTermsIdempotent` | includes/Forking/PostForker.php:166 | copying terms twice gives the same posts as copying once |
| `ForkProperties.ForkPostRejectsUnknownPost` | includes/Forking/PostForker.php:60-66 | an ID that does not resolve gives the invalid-post error and no change at all |
| `ForkProperties.ForkPostInsertRejected` | includes/Forking/PostForker.php:71-77 | a failed insert gives the prefixed error message and stores nothing; only the before-fork hook has fired |
| `ForkProperties.ForkPostInvalidId` | includes/Forking/PostForker.php:79-83 | an invalid new ID gives an error; the row inserted under it stays, with no meta or terms copied |
| `ForkProperties.CopyOntoInsertedFork` | includes/Forking/PostForker.php:85-88 | once the prepared fields are stored under the next ID, the copy steps give that post exactly the original's meta and terms, change no other post and fire the four copy hooks and then `post_forking_after_fork_post`, in order |
| `ForkProperties.ForkPostSucceeds` | includes/Forking/PostForker.php:85-90 | on success one new post holds the prepared fields and exactly the original's meta and terms; old posts are unchanged; the hooks show meta copied before terms |
| `ForkProperties.ForkPostKeepsFreshIds` | includes/Forking/PostForker.php:71 | every stored ID stays below the counter, so an insert never overwrites a post |
| `ForkProperties.ForkRefusedLeavesStoreUnchanged` | includes/Forking/PostForker.php:26-30 | when the post may not be forked, `fork` returns the error and the store is untouched |
| `ForkProperties.ForkSucceedsIff` | includes/Forking/PostForker.php:24-49 | `fork` succeeds if and only if the post may be forked, resolves, passes insert validation and gets a valid ID; the result is the new ID; every error is "Post could not be forked." |
| `ForkProperties.ForkKeepsForkPostEffects` | includes/Forking/PostForker.php:32-38 | once eligibility passed, `fork` leaves exactly the store `fork_post` left, even when it then reports an error |
| `ForkProperties.StoredForkFields` | includes/Forking/PostForker.php:205-215 | the stored row of a fork names the original as parent, has the draft status and its own ID, and holds no other excluded column |
| `ForkProperties.ForkCreatesDraftFork` | includes/Forking/PostForker.php:32-40 | when the post may be forked, resolves, passes validation and gets a valid ID, and the status name is not empty, `fork` returns the next ID; that post has the original as parent and the draft status, its own `ID` but none of the original's other identity or date columns, and the original's meta and terms; the original is unchanged |
| `Eligibility.ForkOpensFork` | includes/Forking/PostForker.php:256-268 | with the reference checks, a fork of a post that may be forked (and passes validation, with a valid ID) succeeds, and afterwards the original has an open fork and can no longer be forked |
| `Eligibility.SecondForkRefused` | includes/Forking/PostForker.php:26-30 | with the reference checks, after such a fork a second fork of the same post is refused and changes nothing |
| `Eligibility.ForkTwice` | includes/Forking/PostForker.php:24-50 | through a `PostForker` built with the reference checks, forking twice: if the first succeeds, `has_fork` then answers yes and `can_fork` no, the second returns the error, and the store is as the first left it |

## Left out

- `int|WP_Post` arguments are modelled as post IDs only. `Helpers\get_post` is a lookup in the post table, and `is_post` / `is_post_or_post_id` test that the lookup found a post.
- `Logging\log_exception` is a no-op. The messages of the two exceptions in `prepare_post_data_for_fork` are only logged, never returned, so they do not appear.
- `do_action` calls are recorded in the `actions` log. Listeners and their side effects are outside the model.
- The code of `Helpers\clear_post_meta`, `copy_post_meta`, `copy_post_terms` and `is_valid_post_id` is not part of this model. They are given plain contracts: clear all rows; append the source's rows; reassign each of the source's taxonomies; a positive ID.
- `Posts\post_can_be_forked`, `Posts\post_has_open_fork` and `DraftForkStatus::get_name` are not part of this model. They are parameters of `PostForker`. `Eligibility` gives one reference choice, built on the status names `wpse-draft` / `wpse-pending` used in dist/main.js:1.
- `wp_insert_post`: its validation rules are the `rejectInsert` function of the store. The defaults it fills in (dates, GUID, author) are not modelled. The new row holds the given fields plus `ID`.
- `wp_insert_post` draws IDs from a counter `nextId` that may be zero or negative. That is the only way the invalid-ID branch of `fork_post` is reached, and the model then still stores the row under that ID (`ForkPostInvalidId`). Real WordPress does not store a row when it returns an ID that is not valid; the model does not capture that.
- Field values are integers or strings (`FieldValue`). The array values that `WP_Post::to_array()` adds (`post_category`, `tags_input`, `ancestors`) cannot be represented; the model only tracks whether such a key is present.
- Forking.PostForker.ForkPost: the results of the two copy steps are ignored, as in the source. But in the model neither copy can fail once the insert has produced a valid ID, so "the ID is returned even though a copy failed" has no case to show.
- Merge-back and the draft → pending → publish status transitions: they are not in `PostForker.php`.
- Concurrency between the eligibility check and the insert: the model is sequential.
- dist/main.js: the editor UI, REST calls and redirects.

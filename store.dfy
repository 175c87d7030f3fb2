/**
 The slice of WordPress the fork engine talks to: the post table with its
 meta rows and taxonomy assignments, the ID counter `wp_insert_post` draws
 from, and the log of `do_action` hooks fired so far. The helper routines
 whose code is not part of this model (`get_post`, `is_post`,
 `is_valid_post_id`, `clear_post_meta`, `copy_post_meta`, `copy_post_terms`)
 are given their plain contracts here.
 */
module Store {
  import opened Results

  /** A column value of a post row: WordPress stores both numbers and text. */
  datatype FieldValue = IntValue(n: int) | StrValue(s: string)

  /** A post as `WP_Post::to_array()` gives it: column name to value. */
  type Fields = map<string, FieldValue>

  /** One row of post meta, (meta_key, meta_value); keys may repeat. */
  type MetaRow = (string, string)

  /** Taxonomy name to the set of term slugs assigned in it. */
  type Terms = map<string, set<string>>

  datatype Post = Post(fields: Fields, meta: seq<MetaRow>, terms: Terms)

  /** The `do_action` hooks the forker fires, with the post IDs passed to them. */
  datatype Action =
    | BeforeForkPost(post: int)                          // post_forking_before_fork_post
    | BeforeForkPostMeta(fork: int, post: int)           // post_forking_before_fork_post_meta
    | AfterForkPostMeta(fork: int, post: int, copied: nat) // post_forking_after_fork_post_meta
    | BeforeForkPostTerms(fork: int, post: int)          // post_forking_before_fork_post_terms
    | AfterForkPostTerms(fork: int, post: int)           // post_forking_after_fork_post_terms
    | AfterForkPost(fork: int, post: int)                // post_forking_after_fork_post

  /** The observable state of the store, as one value. */
  datatype StoreState = StoreState(posts: map<int, Post>, nextId: int, actions: seq<Action>)

  /** Every stored ID lies below the counter, so the next insert cannot collide. */
  predicate FreshIds(s: StoreState)
  {
    forall id :: id in s.posts ==> id < s.nextId
  }

  /** `Helpers\is_post` after `Helpers\get_post`: the ID resolves to a stored post. */
  predicate IsPost(posts: map<int, Post>, id: int)
  {
    id in posts
  }

  /** `Helpers\is_valid_post_id`: WordPress post IDs are positive. */
  predicate IsValidPostId(id: int)
  {
    id > 0
  }

  /** The row `wp_insert_post` stores for `data` under `id`: no meta, no terms yet. */
  function NewPost(data: Fields, id: int): Post
  {
    Post(data["ID" := IntValue(id)], [], map[])
  }

  /** The store after `clear_post_meta(id)`. */
  function MetaCleared(posts: map<int, Post>, id: int): map<int, Post>
    requires id in posts
  {
    posts[id := posts[id].(meta := [])]
  }

  /** The store after `copy_post_meta(from, to)`: `from`'s rows are added after `to`'s. */
  function MetaAppended(posts: map<int, Post>, from: int, to: int): map<int, Post>
    requires from in posts && to in posts
  {
    posts[to := posts[to].(meta := posts[to].meta + posts[from].meta)]
  }

  /** The store after `copy_post_terms(from, to)`: each of `from`'s taxonomies is reassigned on `to`. */
  function TermsAssigned(posts: map<int, Post>, from: int, to: int): map<int, Post>
    requires from in posts && to in posts
  {
    posts[to := posts[to].(terms := posts[to].terms + posts[from].terms)]
  }

  /** The number of (taxonomy, term) assignments in `terms`. */
  function TermCount(terms: Terms): nat
  {
    |set t, x | t in terms && x in terms[t] :: (t, x)|
  }

  /** The WordPress post store. */
  class WpStore {
    var posts: map<int, Post>
    var nextId: int
    var actions: seq<Action>
    /** The validation rules of `wp_insert_post`: the error it reports for `data`, if any. */
    const rejectInsert: Fields -> Option<WpError>

    function State(): StoreState
      reads this
    {
      StoreState(posts, nextId, actions)
    }

    ghost predicate Valid()
      reads this
    {
      FreshIds(State())
    }

    constructor (posts: map<int, Post>, nextId: int, rejectInsert: Fields -> Option<WpError>)
      requires FreshIds(StoreState(posts, nextId, []))
      ensures Valid()
      ensures State() == StoreState(posts, nextId, [])
      ensures this.rejectInsert == rejectInsert
    {
      this.posts := posts;
      this.nextId := nextId;
      this.actions := [];
      this.rejectInsert := rejectInsert;
    }

    /** `wp_insert_post($data, true)`: a new ID from the counter, or the validation error. */
    method InsertPost(data: Fields) returns (r: Result<int>)
      requires Valid()
      modifies this
      ensures Valid()
      ensures rejectInsert(data).Some? ==>
        r == Err(rejectInsert(data).value) && State() == old(State())
      ensures rejectInsert(data).None? ==>
        r == Ok(old(nextId)) &&
        State() == old(State()).(posts := old(posts)[old(nextId) := NewPost(data, old(nextId))],
                                 nextId := old(nextId) + 1)
    {
      var rejection := rejectInsert(data);
      if rejection.Some? {
        return Err(rejection.value);
      }
      r := Ok(nextId);
      posts := posts[nextId := NewPost(data, nextId)];
      nextId := nextId + 1;
    }

    /** `Helpers\clear_post_meta`: delete every meta row of post `id`. */
    method ClearPostMeta(id: int) returns (removed: nat)
      requires Valid() && id in posts
      modifies this
      ensures Valid()
      ensures removed == |old(posts)[id].meta|
      ensures State() == old(State()).(posts := MetaCleared(old(posts), id))
    {
      removed := |posts[id].meta|;
      posts := MetaCleared(posts, id);
    }

    /** `Helpers\copy_post_meta`: add each of `from`'s meta rows to `to`, in order. */
    method CopyPostMeta(from: int, to: int) returns (copied: nat)
      requires Valid() && from in posts && to in posts
      modifies this
      ensures Valid()
      ensures copied == |old(posts)[from].meta|
      ensures State() == old(State()).(posts := MetaAppended(old(posts), from, to))
    {
      copied := |posts[from].meta|;
      posts := MetaAppended(posts, from, to);
    }

    /** `Helpers\copy_post_terms`: give `to` the terms `from` has in each of `from`'s taxonomies. */
    method CopyPostTerms(from: int, to: int) returns (copied: nat)
      requires Valid() && from in posts && to in posts
      modifies this
      ensures Valid()
      ensures copied == TermCount(old(posts)[from].terms)
      ensures State() == old(State()).(posts := TermsAssigned(old(posts), from, to))
    {
      copied := TermCount(posts[from].terms);
      posts := TermsAssigned(posts, from, to);
    }

    /** `do_action`: the hook is recorded; listeners are outside this model. */
    method DoAction(a: Action)
      requires Valid()
      modifies this
      ensures Valid()
      ensures State() == old(State()).(actions := old(actions) + [a])
    {
      actions := actions + [a];
    }
  }
}

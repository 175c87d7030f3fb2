/**
 The fork engine of `includes/Forking/PostForker.php`: creating a draft
 copy of a post (a "fork") with its meta rows and taxonomy terms.

 The module-level functions give the meaning of each public operation as a
 pure function of the store's state before the call (`…Outcome`); the
 methods of `PostForker` carry out the steps in the source's order and are
 proved to produce exactly that outcome.
 */
module Forking {
  import opened Results
  import opened Store

  const PostForkerErrorCode := "post_forker"
  const CouldNotForkMessage := "Post could not be forked."
  const CouldNotForkPrefix := "Post could not be forked: "
  const InvalidForkPostMessage :=
    "Post could not be forked because it is not a valid post object or post ID."
  const InvalidMetaPostsMessage :=
    "Could not fork post meta because the posts given were not valid."
  const InvalidTermsPostsMessage :=
    "Could not fork post terms because the posts given were not valid."

  /** The `WP_Error` every catch block of the forker builds. */
  function Failure(message: string): WpError
  {
    WpError(PostForkerErrorCode, message)
  }

  /** What an operation returns together with the store it leaves behind. */
  datatype Outcome<+T> = Outcome(result: Result<T>, state: StoreState)

  /** The columns a fork must not inherit verbatim, in the source's order. */
  const ExcludedColumns: seq<string> := [
    "ID",
    "post_date",
    "post_date_gmt",
    "post_parent",
    "post_modified",
    "post_modified_gmt",
    "guid",
    "post_category",
    "tags_input",
    "tax_input"
  ]

  /** Whether `column` is one of the columns a fork does not inherit. */
  predicate Excluded(column: string)
  {
    column in ExcludedColumns
  }

  /** PHP's `empty()` on a string: true for "" and for "0". */
  predicate PhpEmpty(s: string)
  {
    s == "" || s == "0"
  }

  /** `data` with each of `columns` unset, one after the other. */
  function RemoveColumns(data: Fields, columns: seq<string>): Fields
    decreases |columns|
  {
    if columns == [] then data
    else RemoveColumns(if columns[0] in data then data - {columns[0]} else data, columns[1..])
  }

  /**
   After unsetting `columns`, a key remains exactly when it was present and
   is not listed, and it keeps its value.
   */
  lemma {:induction false} RemoveColumnsKeeps(data: Fields, columns: seq<string>)
    ensures forall k :: k in RemoveColumns(data, columns) <==> k in data && k !in columns
    ensures forall k :: k in RemoveColumns(data, columns) ==> RemoveColumns(data, columns)[k] == data[k]
    decreases |columns|
  {
    if columns != [] {
      var rest := if columns[0] in data then data - {columns[0]} else data;
      RemoveColumnsKeeps(rest, columns[1..]);
      assert forall k :: k in columns <==> k == columns[0] || k in columns[1..];
    }
  }

  /** Unsetting the columns from position `i` on starts by unsetting the one at `i`. */
  lemma RemoveColumnsStep(data: Fields, columns: seq<string>, i: nat)
    requires i < |columns|
    ensures RemoveColumns(data, columns[i..]) ==
            RemoveColumns(if columns[i] in data then data - {columns[i]} else data, columns[i + 1..])
  {
    assert columns[i..][0] == columns[i];
    assert columns[i..][1..] == columns[i + 1..];
  }

  /** The field array of a fork of the post `id` whose fields are `fields`. */
  function ForkFields(fields: Fields, id: int, status: string): Fields
  {
    RemoveColumns(fields, ExcludedColumns)["post_parent" := IntValue(id)]["post_status" := StrValue(status)]
  }

  /** What `prepare_post_data_for_fork` returns: the fork's fields, or an empty array on failure. */
  function PreparedData(posts: map<int, Post>, post: int, status: string): Fields
  {
    if !IsPost(posts, post) || PhpEmpty(status) then map[]
    else
      ForkFields(posts[post].fields, post, status)
  }

  /** `copy_post_meta(post, forked)`: clear the fork's meta, then copy the original's rows. */
  function CopyPostMetaOutcome(s: StoreState, post: int, forked: int): Outcome<nat>
  {
    if !(IsPost(s.posts, post) && IsPost(s.posts, forked)) then
      Outcome(Err(Failure(InvalidMetaPostsMessage)), s)
    else
      var cleared := MetaCleared(s.posts, forked);
      var copied := |cleared[post].meta|;
      Outcome(Ok(copied),
              s.(posts := MetaAppended(cleared, post, forked),
                 actions := s.actions + [BeforeForkPostMeta(forked, post),
                                         AfterForkPostMeta(forked, post, copied)]))
  }

  /** `copy_post_terms(post, forked)`: reassign each of the original's taxonomies on the fork. */
  function CopyPostTermsOutcome(s: StoreState, post: int, forked: int): Outcome<nat>
  {
    if !(IsPost(s.posts, post) && IsPost(s.posts, forked)) then
      Outcome(Err(Failure(InvalidTermsPostsMessage)), s)
    else
      Outcome(Ok(TermCount(s.posts[post].terms)),
              s.(posts := TermsAssigned(s.posts, post, forked),
                 actions := s.actions + [BeforeForkPostTerms(forked, post),
                                         AfterForkPostTerms(forked, post)]))
  }

  /** The hooks a successful `fork_post` fires after the insert, in order. */
  function ForkHooks(post: int, fork: int, metaCopied: nat): seq<Action>
  {
    [BeforeForkPostMeta(fork, post), AfterForkPostMeta(fork, post, metaCopied),
     BeforeForkPostTerms(fork, post), AfterForkPostTerms(fork, post),
     AfterForkPost(fork, post)]
  }

  /**
   The last steps of a `fork_post` whose insert stored post `fork`: copy the
   meta, then the terms, then fire the after-fork hook. The results of the
   two copies are not inspected.
   */
  function CopyOntoFork(s: StoreState, post: int, fork: int): StoreState
  {
    var m := CopyPostMetaOutcome(s, post, fork);
    var t := CopyPostTermsOutcome(m.state, post, fork);
    t.state.(actions := t.state.actions + [AfterForkPost(fork, post)])
  }

  /**
   `fork_post(post)`: insert the prepared fields as a new post, then copy meta
   and terms onto it. `reject` is the validation of `wp_insert_post`.
   */
  function ForkPostOutcome(s: StoreState, post: int, status: string,
                           reject: Fields -> Option<WpError>): Outcome<int>
  {
    if !IsPost(s.posts, post) then
      Outcome(Err(Failure(InvalidForkPostMessage)), s)
    else
      var s1 := s.(actions := s.actions + [BeforeForkPost(post)]);
      var data := PreparedData(s.posts, post, status);
      match reject(data)
      case Some(e) => Outcome(Err(Failure(CouldNotForkPrefix + e.message)), s1)
      case None =>
        var id := s.nextId;
        var s2 := s1.(posts := s.posts[id := NewPost(data, id)], nextId := id + 1);
        if !IsValidPostId(id) then
          Outcome(Err(Failure(CouldNotForkMessage)), s2)
        else
          Outcome(Ok(id), CopyOntoFork(s2, post, id))
  }

  /**
   `fork(post)`: refuse unless the post may be forked, then fork it and
   accept the result only if it is a valid post ID.
   */
  function ForkOutcome(s: StoreState, canBeForked: (map<int, Post>, int) -> bool, post: int,
                       status: string, reject: Fields -> Option<WpError>): Outcome<int>
  {
    if !canBeForked(s.posts, post) then
      Outcome(Err(Failure(CouldNotForkMessage)), s)
    else
      var f := ForkPostOutcome(s, post, status, reject);
      if f.result.Ok? && IsValidPostId(f.result.value) then f
      else Outcome(Err(Failure(CouldNotForkMessage)), f.state)
  }

  /**
   The forker. The store, the name of the draft-fork status and the two
   eligibility checks (`Posts\post_can_be_forked`, `Posts\post_has_open_fork`)
   are supplied when it is built; their own rules are not part of this model.
   */
  class PostForker {
    const store: WpStore
    const draftForkStatusName: string
    const postCanBeForked: (map<int, Post>, int) -> bool
    const postHasOpenFork: (map<int, Post>, int) -> bool

    constructor (store: WpStore, draftForkStatusName: string,
                 postCanBeForked: (map<int, Post>, int) -> bool,
                 postHasOpenFork: (map<int, Post>, int) -> bool)
      ensures this.store == store && this.draftForkStatusName == draftForkStatusName
      ensures this.postCanBeForked == postCanBeForked && this.postHasOpenFork == postHasOpenFork
    {
      this.store := store;
      this.draftForkStatusName := draftForkStatusName;
      this.postCanBeForked := postCanBeForked;
      this.postHasOpenFork := postHasOpenFork;
    }

    /** `get_columns_to_exclude`: ten distinct columns, exactly the excluded ones. */
    function ColumnsToExclude(): (r: seq<string>)
      ensures |r| == 10
      ensures forall c :: c in r <==> Excluded(c)
      ensures forall i, j :: 0 <= i < j < |r| ==> r[i] != r[j]
    {
      ExcludedColumns
    }

    /** `get_draft_fork_post_status`: the name `DraftForkStatus::get_name()` supplies. */
    function DraftForkPostStatus(): (r: string)
      ensures r == draftForkStatusName
    {
      draftForkStatusName
    }

    /** `can_fork`: the answer of the supplied `post_can_be_forked` check on the current posts. */
    function CanFork(post: int): (r: bool)
      reads store
      ensures r == postCanBeForked(store.posts, post)
    {
      postCanBeForked(store.posts, post)
    }

    /** `has_fork`: the answer of the supplied `post_has_open_fork` check on the current posts. */
    function HasFork(post: int): (r: bool)
      reads store
      ensures r == postHasOpenFork(store.posts, post)
    {
      postHasOpenFork(store.posts, post)
    }

    /** Build the fork's field array by unsetting the excluded columns one by one. */
    method PreparePostDataForFork(post: int) returns (data: Fields)
      ensures data == PreparedData(store.posts, post, draftForkStatusName)
    {
      if !IsPost(store.posts, post) {
        return map[];
      }
      var postStatus := DraftForkPostStatus();
      if PhpEmpty(postStatus) {
        return map[];
      }
      data := UnsetColumns(store.posts[post].fields, ColumnsToExclude());
      data := data["post_parent" := IntValue(post)]["post_status" := StrValue(postStatus)];
    }

    /** The `foreach` of `prepare_post_data_for_fork`: unset each listed column present in `data`. */
    static method UnsetColumns(data: Fields, columns: seq<string>) returns (r: Fields)
      ensures r == RemoveColumns(data, columns)
    {
      r := data;
      var i := 0;
      while i < |columns|
        invariant 0 <= i <= |columns|
        invariant RemoveColumns(r, columns[i..]) == RemoveColumns(data, columns)
      {
        var column := columns[i];
        RemoveColumnsStep(r, columns, i);
        if column in r {
          r := r - {column};
        }
        i := i + 1;
      }
      assert columns[i..] == [];
    }

    method CopyPostMeta(post: int, forked: int) returns (r: Result<nat>)
      requires store.Valid()
      modifies store
      ensures store.Valid()
      ensures Outcome(r, store.State()) == CopyPostMetaOutcome(old(store.State()), post, forked)
    {
      if !(IsPost(store.posts, post) && IsPost(store.posts, forked)) {
        return Err(Failure(InvalidMetaPostsMessage));
      }
      var removed := store.ClearPostMeta(forked);
      store.DoAction(BeforeForkPostMeta(forked, post));
      var copied := store.CopyPostMeta(post, forked);
      store.DoAction(AfterForkPostMeta(forked, post, copied));
      r := Ok(copied);
    }

    method CopyPostTerms(post: int, forked: int) returns (r: Result<nat>)
      requires store.Valid()
      modifies store
      ensures store.Valid()
      ensures Outcome(r, store.State()) == CopyPostTermsOutcome(old(store.State()), post, forked)
    {
      if !(IsPost(store.posts, post) && IsPost(store.posts, forked)) {
        return Err(Failure(InvalidTermsPostsMessage));
      }
      store.DoAction(BeforeForkPostTerms(forked, post));
      var copied := store.CopyPostTerms(post, forked);
      store.DoAction(AfterForkPostTerms(forked, post));
      r := Ok(copied);
    }

    method ForkPost(post: int) returns (r: Result<int>)
      requires store.Valid()
      modifies store
      ensures store.Valid()
      ensures Outcome(r, store.State()) ==
              ForkPostOutcome(old(store.State()), post, draftForkStatusName, store.rejectInsert)
    {
      if !IsPost(store.posts, post) {
        return Err(Failure(InvalidForkPostMessage));
      }
      store.DoAction(BeforeForkPost(post));
      var forkedPost := PreparePostDataForFork(post);
      var forkedPostId := store.InsertPost(forkedPost);
      if forkedPostId.Err? {
        return Err(Failure(CouldNotForkPrefix + forkedPostId.error.message));
      }
      var id := forkedPostId.value;
      if !IsValidPostId(id) {
        return Err(Failure(CouldNotForkMessage));
      }
      // the results of the two copy steps are not inspected
      var metaCopied := CopyPostMeta(post, id);
      var termsCopied := CopyPostTerms(post, id);
      store.DoAction(AfterForkPost(id, post));
      r := Ok(id);
    }

    method Fork(post: int) returns (r: Result<int>)
      requires store.Valid()
      modifies store
      ensures store.Valid()
      ensures Outcome(r, store.State()) ==
              ForkOutcome(old(store.State()), postCanBeForked, post, draftForkStatusName,
                          store.rejectInsert)
    {
      if !CanFork(post) {
        return Err(Failure(CouldNotForkMessage));
      }
      var forkedPostId := ForkPost(post);
      if !(forkedPostId.Ok? && IsValidPostId(forkedPostId.value)) {
        return Err(Failure(CouldNotForkMessage));
      }
      r := forkedPostId;
    }
  }
}

/**
 What the fork engine guarantees, proved about the outcome functions of
 module `Forking` (and so, through their contracts, about the methods of
 `PostForker`).
 */
module ForkProperties {
  import opened Results
  import opened Store
  import opened Forking

  // ---------------------------------------------------------------------------
  // prepare_post_data_for_fork
  // ---------------------------------------------------------------------------

  /** No excluded column survives in the fork's field array except `post_parent`. */
  lemma ForkFieldsDropsExcluded(fields: Fields, id: int, status: string)
    ensures forall c :: Excluded(c) && c != "post_parent" ==> c !in ForkFields(fields, id, status)
  {
    RemoveColumnsKeeps(fields, ExcludedColumns);
    assert !Excluded("post_status");
  }

  /** `post_parent` names the original and `post_status` is the draft-fork status. */
  lemma ForkFieldsSetsParentAndStatus(fields: Fields, id: int, status: string)
    ensures "post_parent" in ForkFields(fields, id, status)
    ensures ForkFields(fields, id, status)["post_parent"] == IntValue(id)
    ensures "post_status" in ForkFields(fields, id, status)
    ensures ForkFields(fields, id, status)["post_status"] == StrValue(status)
  {
  }

  /** Every other column of the original is kept with its value. */
  lemma ForkFieldsKeepsOthers(fields: Fields, id: int, status: string)
    ensures forall k :: k in fields && !Excluded(k) && k != "post_status" ==>
              k in ForkFields(fields, id, status) && ForkFields(fields, id, status)[k] == fields[k]
  {
    RemoveColumnsKeeps(fields, ExcludedColumns);
  }

  /** Nothing is added beyond the two columns that are set. */
  lemma ForkFieldsAddsNothing(fields: Fields, id: int, status: string)
    ensures forall k :: k in ForkFields(fields, id, status) ==>
              k == "post_parent" || k == "post_status" || (k in fields && !Excluded(k))
  {
    RemoveColumnsKeeps(fields, ExcludedColumns);
  }

  /** The nine columns that are dropped outright, by name. */
  lemma ForkFieldsDropsIdentityColumns(fields: Fields, id: int, status: string)
    ensures var r := ForkFields(fields, id, status);
      && "ID" !in r && "guid" !in r
      && "post_date" !in r && "post_date_gmt" !in r
      && "post_modified" !in r && "post_modified_gmt" !in r
      && "post_category" !in r && "tags_input" !in r && "tax_input" !in r
  {
    ForkFieldsDropsExcluded(fields, id, status);
    assert Excluded("ID") && Excluded("guid");
    assert Excluded("post_date") && Excluded("post_date_gmt");
    assert Excluded("post_modified") && Excluded("post_modified_gmt");
    assert Excluded("post_category") && Excluded("tags_input") && Excluded("tax_input");
  }

  /**
   Unsetting the columns one by one gives the same array as keeping, in one
   step, every column that is not listed.
   */
  lemma {:induction false} RemoveColumnsAsFilter(data: Fields, columns: seq<string>)
    ensures RemoveColumns(data, columns) == map k | k in data && k !in columns :: data[k]
  {
    RemoveColumnsKeeps(data, columns);
    var r := RemoveColumns(data, columns);
    var kept := map k | k in data && k !in columns :: data[k];
    assert r.Keys == kept.Keys;
  }

  /** The prepared array is empty exactly when the post or the status name is missing. */
  lemma PreparedDataEmptyIff(posts: map<int, Post>, post: int, status: string)
    ensures PreparedData(posts, post, status) == map[] <==> !IsPost(posts, post) || PhpEmpty(status)
  {
    if IsPost(posts, post) && !PhpEmpty(status) {
      ForkFieldsSetsParentAndStatus(posts[post].fields, post, status);
      assert "post_status" in PreparedData(posts, post, status);
    }
  }

  // ---------------------------------------------------------------------------
  // copy_post_meta
  // ---------------------------------------------------------------------------

  /** Unless both IDs resolve to posts, the copy fails and the store is untouched. */
  lemma CopyPostMetaRejects(s: StoreState, post: int, forked: int)
    ensures var o := CopyPostMetaOutcome(s, post, forked);
      o.result.Err? <==> !(IsPost(s.posts, post) && IsPost(s.posts, forked))
    ensures !(IsPost(s.posts, post) && IsPost(s.posts, forked)) ==>
      CopyPostMetaOutcome(s, post, forked) == Outcome(Err(Failure(InvalidMetaPostsMessage)), s)
  {
  }

  /**
   After the copy the fork's meta rows are exactly the original's (none at
   all when a post is copied onto itself, since its rows are cleared first);
   only the fork's meta changes, and the count is the number of rows copied.
   */
  lemma CopyPostMetaCopies(s: StoreState, post: int, forked: int)
    requires IsPost(s.posts, post) && IsPost(s.posts, forked)
    ensures var o := CopyPostMetaOutcome(s, post, forked);
      && o.state.nextId == s.nextId
      && o.state.posts.Keys == s.posts.Keys
      && o.state.posts[forked] ==
           s.posts[forked].(meta := if post == forked then [] else s.posts[post].meta)
      && (forall id :: id in s.posts && id != forked ==> o.state.posts[id] == s.posts[id])
      && o.result == Ok(|o.state.posts[forked].meta|)
      && o.state.actions == s.actions + [BeforeForkPostMeta(forked, post),
                                         AfterForkPostMeta(forked, post, o.result.value)]
  {
    var cleared := MetaCleared(s.posts, forked);
    assert [] + cleared[post].meta == cleared[post].meta;
  }

  /** What the fork held before does not matter: its old rows are never seen. */
  lemma CopyPostMetaIgnoresPriorMeta(s: StoreState, post: int, forked: int, stale: seq<MetaRow>)
    requires IsPost(s.posts, post) && IsPost(s.posts, forked) && post != forked
    ensures var s' := s.(posts := s.posts[forked := s.posts[forked].(meta := stale)]);
      CopyPostMetaOutcome(s', post, forked).state.posts == CopyPostMetaOutcome(s, post, forked).state.posts
  {
    var s' := s.(posts := s.posts[forked := s.posts[forked].(meta := stale)]);
    CopyPostMetaCopies(s, post, forked);
    CopyPostMetaCopies(s', post, forked);
    assert CopyPostMetaOutcome(s', post, forked).state.posts.Keys ==
           CopyPostMetaOutcome(s, post, forked).state.posts.Keys;
  }

  /** Copying meta twice leaves the same posts and reports the same count as copying once. */
  lemma CopyPostMetaIdempotent(s: StoreState, post: int, forked: int)
    requires IsPost(s.posts, post) && IsPost(s.posts, forked)
    ensures var once := CopyPostMetaOutcome(s, post, forked);
      var twice := CopyPostMetaOutcome(once.state, post, forked);
      twice.state.posts == once.state.posts && twice.result == once.result
  {
    var once := CopyPostMetaOutcome(s, post, forked);
    CopyPostMetaCopies(s, post, forked);
    CopyPostMetaCopies(once.state, post, forked);
    var twice := CopyPostMetaOutcome(once.state, post, forked);
    assert twice.state.posts.Keys == once.state.posts.Keys;
  }

  /** Without the clearing step a second copy would duplicate every row. */
  lemma CopyWithoutClearingDuplicates(posts: map<int, Post>, post: int, forked: int)
    requires post in posts && forked in posts && post != forked && posts[forked].meta == []
    ensures var twice := MetaAppended(MetaAppended(posts, post, forked), post, forked);
      twice[forked].meta == posts[post].meta + posts[post].meta
  {
    assert [] + posts[post].meta == posts[post].meta;
  }

  // ---------------------------------------------------------------------------
  // copy_post_terms
  // ---------------------------------------------------------------------------

  /** Unless both IDs resolve to posts, the copy fails and the store is untouched. */
  lemma CopyPostTermsRejects(s: StoreState, post: int, forked: int)
    ensures var o := CopyPostTermsOutcome(s, post, forked);
      o.result.Err? <==> !(IsPost(s.posts, post) && IsPost(s.posts, forked))
    ensures !(IsPost(s.posts, post) && IsPost(s.posts, forked)) ==>
      CopyPostTermsOutcome(s, post, forked) == Outcome(Err(Failure(InvalidTermsPostsMessage)), s)
  {
  }

  /**
   Each taxonomy of the original is assigned on the fork with the identical
   term set; the fork's other taxonomies, fields and meta stay; no other post
   changes.
   */
  lemma CopyPostTermsAssigns(s: StoreState, post: int, forked: int)
    requires IsPost(s.posts, post) && IsPost(s.posts, forked)
    ensures var o := CopyPostTermsOutcome(s, post, forked);
      && o.state.nextId == s.nextId
      && o.state.posts.Keys == s.posts.Keys
      && o.state.posts[forked].fields == s.posts[forked].fields
      && o.state.posts[forked].meta == s.posts[forked].meta
      && o.state.posts[forked].terms.Keys == s.posts[forked].terms.Keys + s.posts[post].terms.Keys
      && (forall t :: t in s.posts[post].terms ==>
            t in o.state.posts[forked].terms &&
            o.state.posts[forked].terms[t] == s.posts[post].terms[t])
      && (forall t :: t in o.state.posts[forked].terms && t !in s.posts[post].terms ==>
            t in s.posts[forked].terms &&
            o.state.posts[forked].terms[t] == s.posts[forked].terms[t])
      && (forall id :: id in s.posts && id != forked ==> o.state.posts[id] == s.posts[id])
      && o.result == Ok(TermCount(s.posts[post].terms))
      && o.state.actions == s.actions + [BeforeForkPostTerms(forked, post),
                                         AfterForkPostTerms(forked, post)]
  {
  }

  /** Copying terms twice leaves the same posts as copying once. */
  lemma CopyPostTermsIdempotent(s: StoreState, post: int, forked: int)
    requires IsPost(s.posts, post) && IsPost(s.posts, forked)
    ensures var once := CopyPostTermsOutcome(s, post, forked);
      CopyPostTermsOutcome(once.state, post, forked).state.posts == once.state.posts
  {
    var once := CopyPostTermsOutcome(s, post, forked);
    var terms := s.posts[forked].terms + s.posts[post].terms;
    assert once.state.posts[forked].terms == terms;
    assert once.state.posts[post].terms == s.posts[post].terms;
    assert terms + s.posts[post].terms == terms;
    var twice := CopyPostTermsOutcome(once.state, post, forked);
    assert twice.state.posts[forked] == once.state.posts[forked];
    assert twice.state.posts.Keys == once.state.posts.Keys;
  }

  // ---------------------------------------------------------------------------
  // fork_post
  // ---------------------------------------------------------------------------

  /** A post ID that does not resolve is refused before anything happens. */
  lemma ForkPostRejectsUnknownPost(s: StoreState, post: int, status: string,
                                   reject: Fields -> Option<WpError>)
    requires !IsPost(s.posts, post)
    ensures ForkPostOutcome(s, post, status, reject) ==
            Outcome(Err(Failure(InvalidForkPostMessage)), s)
  {
  }

  /**
   When the insert is refused, the error carries its message, no post is
   stored and nothing is copied: only the first hook has fired.
   */
  lemma ForkPostInsertRejected(s: StoreState, post: int, status: string,
                               reject: Fields -> Option<WpError>)
    requires IsPost(s.posts, post)
    requires reject(PreparedData(s.posts, post, status)).Some?
    ensures ForkPostOutcome(s, post, status, reject) ==
            Outcome(Err(Failure(CouldNotForkPrefix +
                                reject(PreparedData(s.posts, post, status)).value.message)),
                    s.(actions := s.actions + [BeforeForkPost(post)]))
  {
  }

  /**
   When the insert yields an ID that is not valid, the result is an error;
   the inserted row stays, but no meta or terms are copied onto it.
   */
  lemma ForkPostInvalidId(s: StoreState, post: int, status: string,
                          reject: Fields -> Option<WpError>)
    requires IsPost(s.posts, post)
    requires reject(PreparedData(s.posts, post, status)).None?
    requires !IsValidPostId(s.nextId)
    ensures var o := ForkPostOutcome(s, post, status, reject);
      && o.result == Err(Failure(CouldNotForkMessage))
      && o.state.posts == s.posts[s.nextId := NewPost(PreparedData(s.posts, post, status), s.nextId)]
      && o.state.posts[s.nextId].meta == [] && o.state.posts[s.nextId].terms == map[]
      && o.state.actions == s.actions + [BeforeForkPost(post)]
  {
  }

  /**
   Once the prepared fields `data` are stored under the next ID, the copy
   steps give the new post exactly the original's meta and terms and leave
   every other post alone.
   */
  lemma CopyOntoInsertedFork(s: StoreState, post: int, data: Fields)
    requires FreshIds(s) && IsPost(s.posts, post)
    ensures var id := s.nextId;
      var inserted := s.(actions := s.actions + [BeforeForkPost(post)])
                       .(posts := s.posts[id := NewPost(data, id)], nextId := id + 1);
      var t := CopyOntoFork(inserted, post, id);
      && t.nextId == id + 1
      && t.posts.Keys == s.posts.Keys + {id}
      && t.posts[id] == Post(data["ID" := IntValue(id)], s.posts[post].meta, s.posts[post].terms)
      && (forall p :: p in s.posts ==> t.posts[p] == s.posts[p])
      && t.actions == s.actions + [BeforeForkPost(post)] + ForkHooks(post, id, |s.posts[post].meta|)
  {
    var id := s.nextId;
    var inserted := s.(actions := s.actions + [BeforeForkPost(post)])
                     .(posts := s.posts[id := NewPost(data, id)], nextId := id + 1);
    assert post != id;
    CopyPostMetaCopies(inserted, post, id);
    var m := CopyPostMetaOutcome(inserted, post, id);
    CopyPostTermsAssigns(m.state, post, id);
    var t := CopyPostTermsOutcome(m.state, post, id);
    assert t.state.posts[id].terms == s.posts[post].terms;
  }

  /**
   A successful `fork_post` stores one new post under the next ID, carrying
   the prepared fields and exactly the original's meta and terms; every
   post that existed before is unchanged. The hooks show that meta is
   copied before terms.
   */
  lemma ForkPostSucceeds(s: StoreState, post: int, status: string,
                         reject: Fields -> Option<WpError>)
    requires FreshIds(s)
    requires IsPost(s.posts, post)
    requires reject(PreparedData(s.posts, post, status)).None?
    requires IsValidPostId(s.nextId)
    ensures var o := ForkPostOutcome(s, post, status, reject);
      var id := s.nextId;
      && o.result == Ok(id)
      && o.state.nextId == id + 1
      && id !in s.posts
      && o.state.posts.Keys == s.posts.Keys + {id}
      && o.state.posts[id] == Post(PreparedData(s.posts, post, status)["ID" := IntValue(id)],
                                   s.posts[post].meta, s.posts[post].terms)
      && (forall p :: p in s.posts ==> o.state.posts[p] == s.posts[p])
      && o.state.actions == s.actions + [BeforeForkPost(post)] +
                            ForkHooks(post, id, |s.posts[post].meta|)
  {
    var data := PreparedData(s.posts, post, status);
    CopyOntoInsertedFork(s, post, data);
  }

  /** `fork_post` never reuses an ID: the store's counter stays above every post. */
  lemma ForkPostKeepsFreshIds(s: StoreState, post: int, status: string,
                              reject: Fields -> Option<WpError>)
    requires FreshIds(s)
    ensures FreshIds(ForkPostOutcome(s, post, status, reject).state)
  {
    if IsPost(s.posts, post) && reject(PreparedData(s.posts, post, status)).None?
       && IsValidPostId(s.nextId) {
      ForkPostSucceeds(s, post, status, reject);
    }
  }

  // ---------------------------------------------------------------------------
  // fork
  // ---------------------------------------------------------------------------

  /** A post that may not be forked is refused and the store is untouched. */
  lemma ForkRefusedLeavesStoreUnchanged(s: StoreState, canBeForked: (map<int, Post>, int) -> bool,
                                        post: int, status: string,
                                        reject: Fields -> Option<WpError>)
    requires !canBeForked(s.posts, post)
    ensures ForkOutcome(s, canBeForked, post, status, reject) ==
            Outcome(Err(Failure(CouldNotForkMessage)), s)
  {
  }

  /**
   `fork` succeeds exactly when the post may be forked, resolves, its
   prepared data passes the insert's validation and the next ID is valid;
   every failure carries the same generic message.
   */
  lemma ForkSucceedsIff(s: StoreState, canBeForked: (map<int, Post>, int) -> bool,
                        post: int, status: string, reject: Fields -> Option<WpError>)
    ensures var o := ForkOutcome(s, canBeForked, post, status, reject);
      && (o.result.Ok? <==>
            && canBeForked(s.posts, post)
            && IsPost(s.posts, post)
            && reject(PreparedData(s.posts, post, status)).None?
            && IsValidPostId(s.nextId))
      && (o.result.Ok? ==> o.result.value == s.nextId)
      && (o.result.Err? ==> o.result.error == Failure(CouldNotForkMessage))
  {
  }

  /**
   Once the eligibility check has passed, whatever `fork_post` did to the
   store stays, also when `fork` then reports an error: nothing is rolled back.
   */
  lemma ForkKeepsForkPostEffects(s: StoreState, canBeForked: (map<int, Post>, int) -> bool,
                                 post: int, status: string, reject: Fields -> Option<WpError>)
    requires canBeForked(s.posts, post)
    ensures ForkOutcome(s, canBeForked, post, status, reject).state ==
            ForkPostOutcome(s, post, status, reject).state
  {
  }

  /** `f` holds no excluded column except `post_parent` and the `ID` the insert adds. */
  predicate KeepsNoExcludedColumn(f: Fields)
  {
    forall c :: Excluded(c) && c != "post_parent" && c != "ID" ==> c !in f
  }

  /** The row stored for a fork: the prepared fields plus its own `ID`. */
  lemma StoredForkFields(fields: Fields, original: int, status: string, id: int)
    ensures var f := ForkFields(fields, original, status)["ID" := IntValue(id)];
      && "post_parent" in f && f["post_parent"] == IntValue(original)
      && "post_status" in f && f["post_status"] == StrValue(status)
      && f["ID"] == IntValue(id)
      && KeepsNoExcludedColumn(f)
  {
    ForkFieldsDropsExcluded(fields, original, status);
    ForkFieldsSetsParentAndStatus(fields, original, status);
  }

  /**
   `t` is `s` with a draft fork of `post` added under `id`: a fresh, valid ID
   whose row has the original as parent, the draft-fork status and its own
   `ID`, none of the original's other excluded columns, and the original's
   meta and terms. The posts of `s` are unchanged.
   */
  predicate HoldsDraftFork(s: StoreState, t: StoreState, post: int, status: string, id: int)
  {
    && IsPost(s.posts, post)
    && IsValidPostId(id) && id !in s.posts && id in t.posts
    && FreshIds(t)
    && var f := t.posts[id].fields;
    && "post_parent" in f && f["post_parent"] == IntValue(post)
    && "post_status" in f && f["post_status"] == StrValue(status)
    && "ID" in f && f["ID"] == IntValue(id)
    && KeepsNoExcludedColumn(f)
    && t.posts[id].meta == s.posts[post].meta
    && t.posts[id].terms == s.posts[post].terms
    && (forall p :: p in s.posts ==> p in t.posts && t.posts[p] == s.posts[p])
  }

  /**
   When every condition of `ForkSucceedsIff` holds and the status name is
   not empty, `fork` returns the next ID and adds a draft fork of the post
   under it.
   */
  lemma ForkCreatesDraftFork(s: StoreState, canBeForked: (map<int, Post>, int) -> bool,
                             post: int, status: string, reject: Fields -> Option<WpError>)
    requires FreshIds(s)
    requires !PhpEmpty(status)
    requires canBeForked(s.posts, post) && IsPost(s.posts, post)
    requires reject(PreparedData(s.posts, post, status)).None?
    requires IsValidPostId(s.nextId)
    ensures var o := ForkOutcome(s, canBeForked, post, status, reject);
      o.result == Ok(s.nextId) && HoldsDraftFork(s, o.state, post, status, s.nextId)
  {
    var o := ForkOutcome(s, canBeForked, post, status, reject);
    ForkSucceedsIff(s, canBeForked, post, status, reject);
    ForkPostSucceeds(s, post, status, reject);
    ForkPostKeepsFreshIds(s, post, status, reject);
    var id := s.nextId;
    assert o == ForkPostOutcome(s, post, status, reject);
    assert PreparedData(s.posts, post, status) == ForkFields(s.posts[post].fields, post, status);
    assert o.state.posts[id].fields ==
           ForkFields(s.posts[post].fields, post, status)["ID" := IntValue(id)];
    StoredForkFields(s.posts[post].fields, post, status, id);
  }
}

/**
 One concrete choice for the two eligibility checks the forker delegates to
 (`Posts\post_can_be_forked` and `Posts\post_has_open_fork`), whose own code
 is not part of this model: a post has an open fork when some post names it
 as `post_parent` and carries one of the fork statuses the editor plugin
 recognises ("wpse-draft", "wpse-pending"); a post can be forked when it
 exists, is not itself a fork and has no open fork. With these checks and
 the draft status "wpse-draft", a successful fork blocks a second one.
 */
module Eligibility {
  import opened Results
  import opened Store
  import opened Forking
  import opened ForkProperties

  const DraftForkStatusName := "wpse-draft"
  const PendingForkStatusName := "wpse-pending"

  /** The post's status is one of the two fork statuses. */
  predicate HasForkStatus(p: Post)
  {
    "post_status" in p.fields &&
    (p.fields["post_status"] == StrValue(DraftForkStatusName) ||
     p.fields["post_status"] == StrValue(PendingForkStatusName))
  }

  predicate IsOpenForkOf(p: Post, original: int)
  {
    HasForkStatus(p) && "post_parent" in p.fields && p.fields["post_parent"] == IntValue(original)
  }

  predicate PostHasOpenFork(posts: map<int, Post>, original: int)
  {
    exists f :: f in posts && IsOpenForkOf(posts[f], original)
  }

  predicate PostCanBeForked(posts: map<int, Post>, post: int)
  {
    IsPost(posts, post) && !HasForkStatus(posts[post]) && !PostHasOpenFork(posts, post)
  }

  /**
   A fork of a post that may be forked, whose data passes validation and
   that gets a valid ID, leaves the original with an open fork, so it may
   not be forked again.
   */
  lemma ForkOpensFork(s: StoreState, post: int, reject: Fields -> Option<WpError>)
    requires FreshIds(s)
    requires PostCanBeForked(s.posts, post)
    requires reject(PreparedData(s.posts, post, DraftForkStatusName)).None?
    requires IsValidPostId(s.nextId)
    ensures var o := ForkOutcome(s, PostCanBeForked, post, DraftForkStatusName, reject);
      o.result.Ok? && PostHasOpenFork(o.state.posts, post) && !PostCanBeForked(o.state.posts, post)
  {
    var o := ForkOutcome(s, PostCanBeForked, post, DraftForkStatusName, reject);
    ForkCreatesDraftFork(s, PostCanBeForked, post, DraftForkStatusName, reject);
    assert IsOpenForkOf(o.state.posts[s.nextId], post);
  }

  /** Under the same conditions, a second fork of the same post is refused and changes nothing. */
  lemma SecondForkRefused(s: StoreState, post: int, reject: Fields -> Option<WpError>)
    requires FreshIds(s)
    requires PostCanBeForked(s.posts, post)
    requires reject(PreparedData(s.posts, post, DraftForkStatusName)).None?
    requires IsValidPostId(s.nextId)
    ensures var first := ForkOutcome(s, PostCanBeForked, post, DraftForkStatusName, reject);
      ForkOutcome(first.state, PostCanBeForked, post, DraftForkStatusName, reject) ==
      Outcome(Err(Failure(CouldNotForkMessage)), first.state)
  {
    ForkOpensFork(s, post, reject);
  }

  /**
   The same, through a `PostForker` built with these checks: after a
   successful first fork, `has_fork` answers yes, `can_fork` answers no and
   the second fork is refused.
   */
  method ForkTwice(forker: PostForker, post: int) returns (first: Result<int>, second: Result<int>)
    requires forker.store.Valid()
    requires forker.postCanBeForked == PostCanBeForked
    requires forker.postHasOpenFork == PostHasOpenFork
    requires forker.draftForkStatusName == DraftForkStatusName
    modifies forker.store
    ensures forker.store.Valid()
    ensures first.Ok? ==> second == Err(Failure(CouldNotForkMessage))
    ensures first.Ok? ==> forker.HasFork(post) && !forker.CanFork(post)
    ensures first.Ok? ==>
      forker.store.State() ==
      ForkOutcome(old(forker.store.State()), PostCanBeForked, post, DraftForkStatusName,
                  forker.store.rejectInsert).state
  {
    first := forker.Fork(post);
    second := forker.Fork(post);
    if first.Ok? {
      ForkSucceedsIff(old(forker.store.State()), PostCanBeForked, post, DraftForkStatusName,
                      forker.store.rejectInsert);
      SecondForkRefused(old(forker.store.State()), post, forker.store.rejectInsert);
      ForkOpensFork(old(forker.store.State()), post, forker.store.rejectInsert);
    }
  }
}

/** `processTags`: every page of `/tags` is inserted into `tag` (`ON CONFLICT
    DO NOTHING`) while the ids seen are collected; after a complete walk,
    every stored tag that was not seen is deleted with its links. Errors
    are logged and swallowed. */
module Tags {
  import opened Wrappers
  import opened Upsert
  import opened Schema
  import opened Fetch

  const ProcessName := "processTags"

  datatype TagResource = TagResource(id: TagId)

  function TagIds(tags: seq<TagResource>): set<TagId>
  {
    set i | 0 <= i < |tags| :: tags[i].id
  }

  /** `upsertTags`: only the query builder's refusal of an empty batch can
      fail; a tag already there, or listed twice, is skipped. */
  function UpsertTags(s: Store, tags: seq<TagResource>): (r: Result<Store>)
    ensures r.Ok? <==> tags != []
    ensures r.Ok? ==> r.value == s.(tags := s.tags + TagIds(tags))
  {
    if tags == [] then Err(EmptyValues) else Ok(s.(tags := s.tags + TagIds(tags)))
  }

  /** `deleteTags(tagSet)`: nothing for an empty set; otherwise every tag
      not in the set goes, and its links with it. */
  function DeleteTags(s: Store, tagSet: set<TagId>): (r: Store)
    ensures tagSet == {} ==> r == s
    ensures tagSet != {} ==> r.tags == s.tags * tagSet
    ensures tagSet != {} ==> forall link :: link in r.transactionTags <==>
      link in s.transactionTags && (link.1 in tagSet || link.1 !in s.tags)
    ensures r.(tags := s.tags, transactionTags := s.transactionTags) == s
  {
    if tagSet == {} then s else DeleteTagsWhere(s, s.tags - tagSet)
  }

  /** The store together with `tagSet`, the ids collected so far. */
  datatype Collated = Collated(store: Store, seen: set<TagId>)

  /** `upsertAndCollateTags`. When the insert is refused the exception ends
      the walk and the collected set is never read again, so the failed
      state keeps the set it had. */
  function UpsertAndCollate(c: Collated, tags: seq<TagResource>, page: int): Run<Collated>
  {
    var r := UpsertTags(c.store, tags);
    if r.Ok? then Done(Collated(r.value, c.seen + TagIds(tags))) else Failed(c, r.error)
  }

  /** What `processTags` leaves in the store. */
  function TagsRun(s: Store, listing: Listing<TagResource>): Store
  {
    var w := ListingWalk(Collated(s, {}), listing, UpsertAndCollate);
    if listing.first.None? || w.run.Failed? then w.run.state.store
    else DeleteTags(w.run.state.store, w.run.state.seen)
  }

  method ProcessTags(s: Store, listing: Listing<TagResource>) returns (r: Store)
    ensures r == TagsRun(s, listing)
  {
    var w := WalkListing(Collated(s, {}), listing, UpsertAndCollate);
    r := w.run.state.store;
    if listing.first.Some? && w.run.Done? {
      r := DeleteTags(r, w.run.state.seen);
    }
  }

  // ---------------------------------------------------------------------
  // Properties

  /** During the walk: every collected id is stored, every stored tag was
      there before or was collected, and nothing else changes. */
  ghost predicate CollatedFrom(s: Store, c: Collated)
  {
    && s.tags + c.seen <= c.store.tags
    && c.store.tags <= s.tags + c.seen
    && c.store.(tags := s.tags) == s
  }

  lemma WalkCollates(s: Store, listing: Listing<TagResource>)
    ensures CollatedFrom(s, ListingWalk(Collated(s, {}), listing, UpsertAndCollate).run.state)
  {
    var P := (c: Collated) => CollatedFrom(s, c);
    ListingPreserves(Collated(s, {}), listing, UpsertAndCollate, P);
  }

  /** The tag ids on the pages the callback was given. */
  function PageTagIds(calls: seq<PageCall<TagResource>>): (r: set<TagId>)
    ensures forall i :: 0 <= i < |calls| ==> TagIds(calls[i].items) <= r
    ensures forall t :: t in r ==> exists i :: 0 <= i < |calls| && t in TagIds(calls[i].items)
  {
    set i, t | 0 <= i < |calls| && t in TagIds(calls[i].items) :: t
  }

  /** A replay that completes adds the tag ids of every call to `seen`. */
  lemma {:induction false} ReplaySeen(c: Collated, calls: seq<PageCall<TagResource>>)
    requires Replay(c, calls, UpsertAndCollate).Done?
    ensures Replay(c, calls, UpsertAndCollate).state.seen == c.seen + PageTagIds(calls)
    decreases |calls|
  {
    if calls != [] {
      var r := UpsertAndCollate(c, calls[0].items, calls[0].page);
      ReplaySeen(r.state, calls[1..]);
      assert PageTagIds(calls) == TagIds(calls[0].items) + PageTagIds(calls[1..]) by {
        forall t | t in PageTagIds(calls) ensures t in TagIds(calls[0].items) + PageTagIds(calls[1..]) {
          var i :| 0 <= i < |calls| && t in TagIds(calls[i].items);
          if i > 0 {
            assert calls[1..][i - 1] == calls[i];
          }
        }
        forall i | 0 <= i < |calls| - 1 ensures TagIds(calls[1..][i].items) <= PageTagIds(calls) {
          assert calls[1..][i] == calls[i + 1];
        }
      }
    }
  }

  /** A complete walk has collected exactly the tag ids on its pages. */
  lemma SeenIsPageTags(s: Store, listing: Listing<TagResource>)
    ensures var w := ListingWalk(Collated(s, {}), listing, UpsertAndCollate);
      w.run.Done? ==> w.run.state.seen == PageTagIds(w.calls)
  {
    if listing.first.Some? {
      var c := Collated(s, {});
      var w := ListingWalk(c, listing, UpsertAndCollate);
      WalkIsReplay(c, ListingChain(listing), UpsertAndCollate, 1);
      if w.run.Done? {
        ReplaySeen(c, w.calls);
      }
    }
  }

  /** After a complete walk whose pages listed at least one tag, the stored
      tags are exactly the tag ids on those pages, only links to those tags
      remain, and no other table changes. A walk that failed or listed no
      tag deletes nothing. */
  lemma ProcessTagsMirrors(s: Store, listing: Listing<TagResource>)
    requires Valid(s)
    ensures var w := ListingWalk(Collated(s, {}), listing, UpsertAndCollate);
      var r := TagsRun(s, listing);
      var listed := PageTagIds(w.calls);
      && r.(tags := s.tags, transactionTags := s.transactionTags) == s
      && (listing.first.Some? && w.run.Done? && listed != {} ==>
            && r.tags == listed
            && (forall link :: link in r.transactionTags <==> link in s.transactionTags && link.1 in listed))
      && (!(listing.first.Some? && w.run.Done? && listed != {}) ==>
            s.tags <= r.tags && r.transactionTags == s.transactionTags)
  {
    WalkCollates(s, listing);
    SeenIsPageTags(s, listing);
  }

  lemma ProcessTagsValid(s: Store, listing: Listing<TagResource>)
    requires Valid(s)
    ensures Valid(TagsRun(s, listing))
  {
    forall c: Collated, tags: seq<TagResource>, page: int | Valid(c.store) ensures Valid(UpsertAndCollate(c, tags, page).state.store) {
      var r := UpsertAndCollate(c, tags, page).state.store;
      assert AccountIds(r) == AccountIds(c.store) && TransactionIds(r) == TransactionIds(c.store);
    }
    var Q := (c: Collated) => Valid(c.store);
    ListingPreserves(Collated(s, {}), listing, UpsertAndCollate, Q);
    var w := ListingWalk(Collated(s, {}), listing, UpsertAndCollate);
    if w.run.state.seen != {} {
      DeleteTagsWhereValid(w.run.state.store, w.run.state.store.tags - w.run.state.seen);
    }
  }
}

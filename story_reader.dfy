/** The story reader page: a page cursor moved by the Previous and Next buttons and by the
    page dots, restored from the learner's saved progress when the story loads, and written
    back to the story-progress store, with a completion flag, after every move. */
module StoryReading {
  import opened JsValues
  import opened Clock
  import opened Query
  import StoryProgressStore

  /** Previous: `Math.max(1, currentPage - 1)`. */
  function PreviousPage(page: int): (p: int)
    ensures p >= 1
    ensures page > 1 ==> p == page - 1
    ensures page <= 1 ==> p == 1
  {
    if page - 1 > 1 then page - 1 else 1
  }

  /** Next: `Math.min(story.pages.length, currentPage + 1)`. */
  function NextPage(page: int, pageCount: nat): (p: int)
    ensures p <= pageCount
    ensures page < pageCount ==> p == page + 1
    ensures page >= pageCount ==> p == pageCount
  {
    if pageCount < page + 1 then pageCount else page + 1
  }

  /** `story.pages[currentPage - 1]`: the position of the page on screen, or none when the
      cursor lies outside the story and the read gives `undefined`. */
  function PageIndex(page: int, pageCount: nat): (i: Option<nat>)
    ensures i.Some? ==> i.value < pageCount && i.value + 1 == page
    ensures i.None? ==> page < 1 || page > pageCount
  {
    if 1 <= page <= pageCount then Some(page - 1) else None
  }

  /** The record `saveProgress` hands to the store: learner, story, cursor, and completion as
      `currentPage >= story.pages.length`. */
  function ProgressRecord(profileId: Value, storyId: Value, page: int, pageCount: nat): (r: Record)
    ensures r.Keys == {"profileId", "storyId", "currentPage", "completed"}
    ensures Field(r, "profileId") == profileId && Field(r, "storyId") == storyId
    ensures Field(r, "currentPage") == Num(page)
    ensures 1 <= page <= pageCount ==> (Field(r, "completed") == Bool(true) <==> page == pageCount)
    ensures page < pageCount ==> Field(r, "completed") == Bool(false)
  {
    map["profileId" := profileId, "storyId" := storyId, "currentPage" := Num(page),
        "completed" := Bool(page >= pageCount)]
  }

  /** `progress[i]` is the first record of story `storyId`. */
  predicate FirstOfStory(progress: seq<Record>, storyId: Value, i: int)
  {
    0 <= i < |progress| && StrictEq(Field(progress[i], "storyId"), storyId) &&
    forall j :: 0 <= j < i ==> !StrictEq(Field(progress[j], "storyId"), storyId)
  }

  /** `progress.find(p => p.storyId === storyId)` over the learner's records, then
      `storyProgress.currentPage || 1`; without a saved record the cursor stays where it is. */
  function RestoredPage(progress: seq<Record>, storyId: Value, page: int): (p: Value)
    ensures (forall i :: 0 <= i < |progress| ==> !StrictEq(Field(progress[i], "storyId"), storyId)) ==>
              p == Num(page)
    ensures forall i :: FirstOfStory(progress, storyId, i) ==>
              p == (if Truthy(Field(progress[i], "currentPage")) then Field(progress[i], "currentPage") else Num(1))
    ensures FindIndex(progress, [Equals("storyId", storyId)]) >= 0 ==> Truthy(p)
  {
    var i := FindIndex(progress, [Equals("storyId", storyId)]);
    FirstStoryMatch(progress, storyId);
    if i == -1 then Num(page)
    else
      var saved := Field(progress[i], "currentPage");
      if Truthy(saved) then saved else Num(1)
  }

  /** The search by story finds the first record whose `storyId` is `storyId`, and only that
      one, or nothing when no record has it. */
  lemma FirstStoryMatch(progress: seq<Record>, storyId: Value)
    ensures var k := FindIndex(progress, [Equals("storyId", storyId)]);
            (k == -1 <==> forall i :: 0 <= i < |progress| ==> !StrictEq(Field(progress[i], "storyId"), storyId)) &&
            forall i :: FirstOfStory(progress, storyId, i) ==> k == i
  {
    var t := Equals("storyId", storyId);
    forall i | 0 <= i < |progress| ensures Passes(progress[i], [t]) <==> StrictEq(Field(progress[i], "storyId"), storyId) {
      PassesOne(progress[i], t);
    }
  }

  /** Saving a page and loading the story again gives the page back: the learner's records,
      searched by story, find the record `create` just wrote. */
  lemma SaveThenRestore(rs: seq<Record>, profileId: Value, storyId: Value, page: int, pageCount: nat,
                        now: Time, other: int)
    requires !profileId.NaN? && !storyId.NaN? && page != 0
    ensures var u := StoryProgressStore.Upsert(rs, ProgressRecord(profileId, storyId, page, pageCount), now);
            RestoredPage(Filter(u.records, [Equals("profileId", profileId)]), storyId, other) == Num(page)
  {
    var data := ProgressRecord(profileId, storyId, page, pageCount);
    var u := StoryProgressStore.Upsert(rs, data, now);
    StoryProgressStore.UpsertThenFind(rs, data, now);
    var pair := StoryProgressStore.PairOf(data);
    assert pair == [Equals("profileId", profileId)] + [Equals("storyId", storyId)];
    FindIndexInFilter(u.records, [Equals("profileId", profileId)], [Equals("storyId", storyId)]);
    if FindIndex(rs, pair) >= 0 {
      StoryProgressStore.UpsertMerges(rs, data, now);
    } else {
      StoryProgressStore.UpsertAppends(rs, data, now);
    }
    assert u.saved["currentPage"] == Num(page);
  }

  /** Because `create` merges into the stored record of the pair, saving an earlier page
      than the last turns a completed story back into an unfinished one; the record keeps
      its `Id`, and the store keeps its length. */
  lemma GoingBackUncompletes(rs: seq<Record>, profileId: Value, storyId: Value, page: int, pageCount: nat,
                             now: Time)
    requires page < pageCount
    requires FindIndex(rs, [Equals("profileId", profileId), Equals("storyId", storyId)]) >= 0
    ensures var i := FindIndex(rs, [Equals("profileId", profileId), Equals("storyId", storyId)]);
            var u := StoryProgressStore.Upsert(rs, ProgressRecord(profileId, storyId, page, pageCount), now);
            |u.records| == |rs|
            && Field(u.records[i], "completed") == Bool(false)
            && Field(u.records[i], "currentPage") == Num(page)
            && Field(u.records[i], "Id") == Field(rs[i], "Id")
  {
    var data := ProgressRecord(profileId, storyId, page, pageCount);
    assert StoryProgressStore.PairOf(data) == [Equals("profileId", profileId), Equals("storyId", storyId)];
    StoryProgressStore.UpsertMerges(rs, data, now);
  }

  /** The page's cursor over one loaded story. */
  class StoryReader {
    /** `story.pages.length` */
    const pageCount: nat
    var currentPage: int

    /** The cursor is on a page of the story. */
    predicate Valid()
      reads this
    {
      1 <= currentPage <= pageCount
    }

    /** `useState(1)` */
    constructor (pageCount: nat)
      ensures this.pageCount == pageCount && currentPage == 1
      ensures pageCount >= 1 ==> Valid()
    {
      this.pageCount := pageCount;
      currentPage := 1;
    }

    /** `loadStory`: the saved cursor of this story, or 1 when it is falsy. */
    method Restore(progress: seq<Record>, storyId: Value)
      requires RestoredPage(progress, storyId, currentPage).Num?
      modifies this
      ensures currentPage == RestoredPage(progress, storyId, old(currentPage)).n
    {
      var i := FindIndex(progress, [Equals("storyId", storyId)]);
      if i >= 0 {
        var saved := Field(progress[i], "currentPage");
        if Truthy(saved) {
          currentPage := saved.n;
        } else {
          currentPage := 1;
        }
      }
    }

    /** The Previous button. */
    method Previous()
      modifies this
      ensures currentPage == PreviousPage(old(currentPage))
      ensures old(Valid()) ==> Valid()
    {
      currentPage := if 1 > currentPage - 1 then 1 else currentPage - 1;
    }

    /** The Next button. */
    method Next()
      modifies this
      ensures currentPage == NextPage(old(currentPage), pageCount)
      ensures old(Valid()) ==> Valid()
    {
      currentPage := if pageCount < currentPage + 1 then pageCount else currentPage + 1;
    }

    /** The dot of page `index + 1`; there is one dot per page. */
    method GoTo(index: nat)
      requires index < pageCount
      modifies this
      ensures currentPage == index + 1 && Valid()
    {
      currentPage := index + 1;
    }

    /** The page content on screen exists exactly while the cursor is valid. */
    function Shown(): (i: Option<nat>)
      reads this
      ensures i.Some? <==> Valid()
      ensures i.Some? ==> i.value < pageCount
    {
      PageIndex(currentPage, pageCount)
    }

    /** `saveProgress`, run after every change of the cursor. */
    method Save(store: StoryProgressStore.StoryProgressService, profileId: Value, storyId: Value, now: Time)
      returns (saved: Record)
      modifies store
      ensures StoryProgressStore.Upserted(store.records, saved)
           == StoryProgressStore.Upsert(old(store.records), ProgressRecord(profileId, storyId, currentPage, pageCount), now)
    {
      var isCompleted := currentPage >= pageCount;
      saved := store.Create(map["profileId" := profileId, "storyId" := storyId,
                                "currentPage" := Num(currentPage), "completed" := Bool(isCompleted)], now);
    }
  }
}

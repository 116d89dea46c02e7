// pages/Creator.tsx: the six-step authoring wizard over a draft record,
// its memory-list editing and the finalisation that stamps id and time.

module Creator {
  import opened Types
  import Storage

  /** The fixed step order of the wizard. */
  const STEPS: seq<Step> := [Basics, Memories, Letter, Design, Privacy, Review]

  /** `steps.indexOf(step)`: where a step sits in the order. */
  function StepIndex(s: Step): (i: nat)
    ensures i < |STEPS| && STEPS[i] == s
  {
    match s
    case Basics => 0
    case Memories => 1
    case Letter => 2
    case Design => 3
    case Privacy => 4
    case Review => 5
  }

  /** Each position of the order holds the step whose index it is: the steps are distinct. */
  lemma StepAtIndex(i: nat)
    requires i < |STEPS|
    ensures StepIndex(STEPS[i]) == i
  {
    assert STEPS[i] in {Basics, Memories, Letter, Design, Privacy, Review};
  }

  /** The Go Back button is rendered only past the first step. */
  predicate BackOffered(s: Step): (offered: bool)
    ensures offered <==> s != Basics
  {
    StepIndex(s) > 0
  }

  /** The Next Chapter button is rendered only before the last step. */
  predicate NextOffered(s: Step): (offered: bool)
    ensures offered <==> s != Review
  {
    StepIndex(s) < |STEPS| - 1
  }

  /** The step `next` moves to. */
  function Advance(s: Step): (t: Step)
    requires NextOffered(s)
    ensures StepIndex(t) == StepIndex(s) + 1
  {
    StepAtIndex(StepIndex(s) + 1);
    STEPS[StepIndex(s) + 1]
  }

  /** The step `back` moves to. */
  function Retreat(s: Step): (t: Step)
    requires BackOffered(s)
    ensures StepIndex(t) == StepIndex(s) - 1
  {
    StepAtIndex(StepIndex(s) - 1);
    STEPS[StepIndex(s) - 1]
  }

  /** `back` undoes `next` and `next` undoes `back`. */
  lemma AdvanceRetreatInverse(s: Step)
    ensures NextOffered(s) ==> BackOffered(Advance(s)) && Retreat(Advance(s)) == s
    ensures BackOffered(s) ==> NextOffered(Retreat(s)) && Advance(Retreat(s)) == s
  {
    if NextOffered(s) {
      StepAtIndex(StepIndex(s));
    }
    if BackOffered(s) {
      StepAtIndex(StepIndex(s));
    }
  }

  /** The step reached by pressing Next `n` times from `s`. */
  function AdvanceTimes(s: Step, n: nat): Step
    requires StepIndex(s) + n < |STEPS|
    decreases n
  {
    if n == 0 then s else AdvanceTimes(Advance(s), n - 1)
  }

  /** Pressing Next `n` times moves the index up by exactly `n`. */
  lemma {:induction false} AdvanceTimesIndex(s: Step, n: nat)
    requires StepIndex(s) + n < |STEPS|
    ensures StepIndex(AdvanceTimes(s, n)) == StepIndex(s) + n
    decreases n
  {
    if n > 0 {
      AdvanceTimesIndex(Advance(s), n - 1);
    }
  }

  /**
   * From the first step, exactly five presses of Next reach the review step,
   * where Next is no longer offered; Back is never offered on the first step.
   */
  lemma {:induction false} WalkToReview(n: nat)
    requires n < |STEPS|
    ensures AdvanceTimes(Basics, n) == Review <==> n == 5
    ensures !NextOffered(Review) && !BackOffered(Basics)
  {
    AdvanceTimesIndex(Basics, n);
  }

  /** The draft the wizard starts from: classic theme, no memories, not premium, nothing else set. */
  function InitialDraft(): (d: Draft)
    ensures d.theme == Classic && d.memories == [] && !d.isPremium
    ensures d.creatorName.None? && d.partnerName.None? && d.title.None? && d.message.None?
    ensures d.mainImageUrl.None? && d.musicUrl.None? && d.password.None? && d.expiryHours.None?
  {
    Draft(None, None, None, None, [], None, None, Classic, None, None, false)
  }

  /** The memory `addMemory` appends: a fresh id and empty date, title and description. */
  function BlankMemory(freshId: string): (m: Memory)
    ensures m.id == freshId
    ensures m.date == "" && m.title == "" && m.description == "" && m.imageUrl.None?
  {
    Memory(freshId, "", "", "", None)
  }

  /** The list `memories.filter(x => x.id !== id)` keeps. */
  function RemoveById(ms: seq<Memory>, id: string): (r: seq<Memory>)
    ensures |r| <= |ms|
    ensures forall i :: 0 <= i < |r| ==> r[i].id != id && r[i] in ms
  {
    if ms == [] then []
    else if ms[0].id == id then RemoveById(ms[1..], id)
    else [ms[0]] + RemoveById(ms[1..], id)
  }

  /** Removing distributes over concatenation, so the kept memories keep their relative order. */
  lemma {:induction false} RemoveByIdConcat(a: seq<Memory>, b: seq<Memory>, id: string)
    ensures RemoveById(a + b, id) == RemoveById(a, id) + RemoveById(b, id)
  {
    if a == [] {
      assert a + b == b;
    } else {
      assert (a + b)[1..] == a[1..] + b;
      RemoveByIdConcat(a[1..], b, id);
    }
  }

  /** Removing an id that no memory carries leaves the list as it is. */
  lemma {:induction false} RemoveAbsentId(ms: seq<Memory>, id: string)
    requires forall i :: 0 <= i < |ms| ==> ms[i].id != id
    ensures RemoveById(ms, id) == ms
  {
    if ms != [] {
      RemoveAbsentId(ms[1..], id);
    }
  }

  /** Every memory with another id is kept as often as it occurred; none with the id is kept. */
  lemma {:induction false} RemoveByIdCounts(ms: seq<Memory>, id: string, m: Memory)
    ensures multiset(RemoveById(ms, id))[m] == if m.id == id then 0 else multiset(ms)[m]
  {
    if ms != [] {
      RemoveByIdCounts(ms[1..], id, m);
      assert ms == [ms[0]] + ms[1..];
    }
  }

  /** Removing the memory just added under an unused id restores the list. */
  lemma RemoveAddedMemory(ms: seq<Memory>, freshId: string)
    requires forall i :: 0 <= i < |ms| ==> ms[i].id != freshId
    ensures RemoveById(ms + [BlankMemory(freshId)], freshId) == ms
  {
    RemoveByIdConcat(ms, [BlankMemory(freshId)], freshId);
    RemoveAbsentId(ms, freshId);
  }

  /** The record `handleCreate` builds: the draft with `id` and `createdAt` stamped on. */
  function Finalize(d: Draft, id: string, createdAt: int): (p: ProposalData)
    ensures p.id == id && p.createdAt == createdAt
    ensures DraftOf(p) == d
  {
    ProposalData(id, d.creatorName, d.partnerName, d.title, d.message, d.memories,
                 d.mainImageUrl, d.musicUrl, d.theme, d.password, d.expiryHours,
                 createdAt, d.isPremium)
  }

  /** The authored fields of a record, without its id and creation time. */
  function DraftOf(p: ProposalData): Draft
  {
    Draft(p.creatorName, p.partnerName, p.title, p.message, p.memories,
          p.mainImageUrl, p.musicUrl, p.theme, p.password, p.expiryHours, p.isPremium)
  }

  /** A record is determined by its authored fields, id and creation time. */
  lemma FinalizeDraftOf(p: ProposalData)
    ensures Finalize(DraftOf(p), p.id, p.createdAt) == p
  {
  }

  /** The viewer route `/p/${id}`. */
  function ViewerRoute(id: string): (route: string)
    ensures |route| == |id| + 3
    ensures route[..3] == "/p/" && route[3..] == id
  {
    "/p/" + id
  }

  class Wizard {
    var step: Step
    var data: Draft

    constructor ()
      ensures step == Basics
      ensures data.theme == Classic && data.memories == [] && !data.isPremium
      ensures data.creatorName.None? && data.partnerName.None? && data.title.None?
      ensures data.message.None? && data.mainImageUrl.None? && data.musicUrl.None?
      ensures data.password.None? && data.expiryHours.None?
    {
      step := Basics;
      data := InitialDraft();
    }

    /** `next`: one step forward; only offered before the last step. */
    method Next()
      requires NextOffered(step)
      modifies this
      ensures step == Advance(old(step)) && StepIndex(step) == StepIndex(old(step)) + 1
      ensures data == old(data)
    {
      step := STEPS[StepIndex(step) + 1];
    }

    /** `back`: one step backward; only offered past the first step. */
    method Back()
      requires BackOffered(step)
      modifies this
      ensures step == Retreat(old(step)) && StepIndex(step) == StepIndex(old(step)) - 1
      ensures data == old(data)
    {
      step := STEPS[StepIndex(step) - 1];
    }

    /** `addMemory`: append one blank memory under a fresh id. */
    method AddMemory(freshId: string)
      modifies this
      ensures data.memories == old(data.memories) + [BlankMemory(freshId)]
      ensures data == old(data).(memories := data.memories) && step == old(step)
    {
      data := data.(memories := data.memories + [BlankMemory(freshId)]);
    }

    /** The trash button: drop every memory carrying `id`. */
    method RemoveMemory(id: string)
      modifies this
      ensures data.memories == RemoveById(old(data.memories), id)
      ensures data == old(data).(memories := data.memories) && step == old(step)
    {
      data := data.(memories := RemoveById(data.memories, id));
    }

    /** Edit the date of the memory at `idx` (the index of the rendered card). */
    method EditMemoryDate(idx: nat, value: string)
      requires idx < |data.memories|
      modifies this
      ensures |data.memories| == |old(data.memories)|
      ensures data.memories[idx] == old(data.memories[idx]).(date := value)
      ensures forall j :: 0 <= j < |data.memories| && j != idx ==> data.memories[j] == old(data.memories[j])
      ensures data == old(data).(memories := data.memories) && step == old(step)
    {
      var newMemories := data.memories;
      newMemories := newMemories[idx := newMemories[idx].(date := value)];
      data := data.(memories := newMemories);
    }

    /** Edit the title of the memory at `idx`. */
    method EditMemoryTitle(idx: nat, value: string)
      requires idx < |data.memories|
      modifies this
      ensures |data.memories| == |old(data.memories)|
      ensures data.memories[idx] == old(data.memories[idx]).(title := value)
      ensures forall j :: 0 <= j < |data.memories| && j != idx ==> data.memories[j] == old(data.memories[j])
      ensures data == old(data).(memories := data.memories) && step == old(step)
    {
      var newMemories := data.memories;
      newMemories := newMemories[idx := newMemories[idx].(title := value)];
      data := data.(memories := newMemories);
    }

    /** Edit the description of the memory at `idx`. */
    method EditMemoryDescription(idx: nat, value: string)
      requires idx < |data.memories|
      modifies this
      ensures |data.memories| == |old(data.memories)|
      ensures data.memories[idx] == old(data.memories[idx]).(description := value)
      ensures forall j :: 0 <= j < |data.memories| && j != idx ==> data.memories[j] == old(data.memories[j])
      ensures data == old(data).(memories := data.memories) && step == old(step)
    {
      var newMemories := data.memories;
      newMemories := newMemories[idx := newMemories[idx].(description := value)];
      data := data.(memories := newMemories);
    }

    method SetCreatorName(value: string)
      modifies this
      ensures data == old(data).(creatorName := Some(value)) && step == old(step)
    {
      data := data.(creatorName := Some(value));
    }

    method SetPartnerName(value: string)
      modifies this
      ensures data == old(data).(partnerName := Some(value)) && step == old(step)
    {
      data := data.(partnerName := Some(value));
    }

    method SetTitle(value: string)
      modifies this
      ensures data == old(data).(title := Some(value)) && step == old(step)
    {
      data := data.(title := Some(value));
    }

    method SetMainImageUrl(value: string)
      modifies this
      ensures data == old(data).(mainImageUrl := Some(value)) && step == old(step)
    {
      data := data.(mainImageUrl := Some(value));
    }

    method SetMessage(value: string)
      modifies this
      ensures data == old(data).(message := Some(value)) && step == old(step)
    {
      data := data.(message := Some(value));
    }

    /** A theme card: selects that theme. */
    method SetTheme(theme: Theme)
      modifies this
      ensures data == old(data).(theme := theme) && step == old(step)
    {
      data := data.(theme := theme);
    }

    method SetMusicUrl(value: string)
      modifies this
      ensures data == old(data).(musicUrl := Some(value)) && step == old(step)
    {
      data := data.(musicUrl := Some(value));
    }

    /** The password input; clearing it stores the empty string, not an absent password. */
    method SetPassword(value: string)
      modifies this
      ensures data == old(data).(password := Some(value)) && step == old(step)
    {
      data := data.(password := Some(value));
    }

    /**
     * `handleCreate`, on the review step where its button is rendered: the draft, unvalidated, with a generated id and the
     * given time stamped on; the record goes to `onCreate` and the route is
     * where the wizard navigates. The two random renderings and the clock
     * reading are parameters.
     */
    method HandleCreate(random1: string, random2: string, now: int) returns (finalData: ProposalData, route: string)
      requires step == Review
      ensures finalData.id == Storage.GenerateId(random1, random2) && finalData.createdAt == now
      ensures DraftOf(finalData) == data
      ensures route == ViewerRoute(finalData.id)
    {
      var id := Storage.GenerateId(random1, random2);
      finalData := Finalize(data, id, now);
      route := "/p/" + finalData.id;
    }
  }
}

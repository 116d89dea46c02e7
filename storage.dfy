// utils/storage.ts: an append-only table of proposals kept under one
// storage key, read and rewritten whole on every save.

module Storage {
  import opened Types

  /**
   * The value under the storage key. `Absent` is a key that was never
   * written, `EmptyString` an empty (falsy) stored string, and `Holds` a
   * serialized array of records.
   */
  datatype Slot = Absent | EmptyString | Holds(records: seq<ProposalData>)

  /** The first record of `rs` whose id is `id`, or None when there is none. */
  function FindById(rs: seq<ProposalData>, id: string): (r: Option<ProposalData>)
    ensures r.Some? ==> r.value in rs && r.value.id == id
    ensures r.None? <==> forall i :: 0 <= i < |rs| ==> rs[i].id != id
  {
    if rs == [] then None
    else if rs[0].id == id then Some(rs[0])
    else FindById(rs[1..], id)
  }

  /** The match FindById returns is the earliest one in storage order. */
  lemma {:induction false} FindByIdIsFirst(rs: seq<ProposalData>, id: string, k: nat)
    requires k < |rs| && rs[k].id == id
    requires forall j :: 0 <= j < k ==> rs[j].id != id
    ensures FindById(rs, id) == Some(rs[k])
  {
    if k > 0 {
      assert rs[0].id != id;
      FindByIdIsFirst(rs[1..], id, k - 1);
    }
  }

  /**
   * Appending a record never hides an earlier match: a lookup after an
   * append finds the old match if there was one, else the new record if
   * its id matches.
   */
  lemma {:induction false} FindByIdAfterAppend(rs: seq<ProposalData>, p: ProposalData, id: string)
    ensures FindById(rs + [p], id) ==
      if FindById(rs, id).Some? then FindById(rs, id)
      else if p.id == id then Some(p)
      else None
  {
    if rs == [] {
      assert rs + [p] == [p];
    } else {
      assert (rs + [p])[1..] == rs[1..] + [p];
      FindByIdAfterAppend(rs[1..], p, id);
    }
  }

  /** The JavaScript `String.prototype.substring`: both ends clamped to the string, swapped if reversed. */
  function Substring(s: string, start: int, end: int): (r: string)
    ensures |r| <= |s|
    ensures 0 <= start <= end <= |s| ==> r == s[start..end]
    ensures forall c :: c in r ==> c in s
  {
    var a := if start < 0 then 0 else if start > |s| then |s| else start;
    var b := if end < 0 then 0 else if end > |s| then |s| else end;
    if a <= b then s[a..b] else s[b..a]
  }

  /**
   * `substring` treats a negative index as 0 and an index past the end as
   * the length, and gives the same slice when its two indices are swapped.
   */
  lemma SubstringClampsAndSwaps(s: string, start: int, end: int)
    ensures Substring(s, start, end) == Substring(s, end, start)
    ensures start < 0 ==> Substring(s, start, end) == Substring(s, 0, end)
    ensures end > |s| ==> Substring(s, start, end) == Substring(s, start, |s|)
    ensures start > |s| ==> Substring(s, start, end) == Substring(s, |s|, end)
    ensures end < 0 ==> Substring(s, start, end) == Substring(s, start, 0)
    ensures 0 <= end <= start <= |s| ==> Substring(s, start, end) == s[end..start]
  {
  }

  /** One half of `generateId`: characters 2 to 15 of a base-36 rendering of a random number. */
  function IdFragment(digits: string): (f: string)
    ensures |f| <= 13
    ensures |digits| >= 15 ==> f == digits[2..15]
    ensures 2 <= |digits| < 15 ==> f == digits[2..]
    ensures |digits| < 2 ==> f == []
  {
    Substring(digits, 2, 15)
  }

  /**
   * `generateId`, given the two base-36 renderings of `Math.random()` it
   * draws: two fragments of at most 13 characters each, taken from the
   * renderings past their "0." prefix.
   */
  function GenerateId(random1: string, random2: string): (id: string)
    ensures |id| <= 26
    ensures var k := |IdFragment(random1)|;
      && k <= 13 && k <= |id| <= k + 13
      && id[..k] == IdFragment(random1) && id[k..] == IdFragment(random2)
    ensures |random1| >= 15 && |random2| >= 15 ==> |id| == 26 && id == random1[2..15] + random2[2..15]
    ensures forall c :: c in id ==> c in random1 || c in random2
  {
    IdFragment(random1) + IdFragment(random2)
  }

  class ProposalStore {
    var slot: Slot

    /** The records `getProposals` would return. */
    function Contents(): seq<ProposalData>
      reads this
    {
      if slot.Holds? then slot.records else []
    }

    /** A store over whatever the browser already keeps under the key. */
    constructor (initial: Slot)
      ensures slot == initial
    {
      slot := initial;
    }

    /** `getProposals`: the stored records, and none when the key is absent or empty. */
    method GetProposals() returns (rs: seq<ProposalData>)
      ensures rs == Contents()
      ensures slot == Absent || slot == EmptyString ==> rs == []
      ensures slot.Holds? ==> rs == slot.records
    {
      match slot
      case Absent => rs := [];
      case EmptyString => rs := [];
      case Holds(records) => rs := records;
    }

    /**
     * `saveProposal`: read the records, push one and write them all back.
     * No duplicate-id check is made.
     */
    method SaveProposal(proposal: ProposalData)
      modifies this
      ensures Contents() == old(Contents()) + [proposal]
      ensures slot == Holds(old(Contents()) + [proposal])
    {
      var proposals := GetProposals();
      proposals := proposals + [proposal];
      slot := Holds(proposals);
    }

    /** Successive `saveProposal` calls, one per record of `ps`, in order. */
    method SaveEach(ps: seq<ProposalData>)
      modifies this
      ensures Contents() == old(Contents()) + ps
      ensures |Contents()| == |old(Contents())| + |ps|
    {
      var i := 0;
      while i < |ps|
        invariant 0 <= i <= |ps|
        invariant Contents() == old(Contents()) + ps[..i]
      {
        SaveProposal(ps[i]);
        assert ps[..i + 1] == ps[..i] + [ps[i]];
        i := i + 1;
      }
      assert ps[..i] == ps;
    }

    /** `getProposalById`: a first-match scan over the stored records. */
    method GetProposalById(id: string) returns (r: Option<ProposalData>)
      ensures r == FindById(Contents(), id)
    {
      var proposals := GetProposals();
      var i := 0;
      while i < |proposals|
        invariant 0 <= i <= |proposals|
        invariant forall j :: 0 <= j < i ==> proposals[j].id != id
      {
        if proposals[i].id == id {
          FindByIdIsFirst(proposals, id, i);
          return Some(proposals[i]);
        }
        i := i + 1;
      }
      return None;
    }
  }

  /**
   * Two saves under the same id on a fresh key: both are kept, in order,
   * and a lookup by that id returns the first.
   */
  method SaveDuplicateIds(p: ProposalData, q: ProposalData) returns (stored: seq<ProposalData>, found: Option<ProposalData>)
    requires p.id == q.id
    ensures stored == [p, q]
    ensures found == Some(p)
  {
    var store := new ProposalStore(Absent);
    store.SaveProposal(p);
    store.SaveProposal(q);
    stored := store.GetProposals();
    found := store.GetProposalById(q.id);
    FindByIdIsFirst(stored, q.id, 0);
  }

  /**
   * Saving each of `ps` on a key that holds nothing yet stores exactly
   * those records, in call order, one more per save.
   */
  method SaveAllFromEmpty(ps: seq<ProposalData>) returns (stored: seq<ProposalData>)
    ensures stored == ps
  {
    var store := new ProposalStore(Absent);
    store.SaveEach(ps);
    stored := store.GetProposals();
  }
}

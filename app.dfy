// App.tsx: the in-memory list of proposals kept in step with the store,
// and the create handler the wizard calls.

module App {
  import opened Types
  import Storage
  import Creator

  class AppState {
    const store: Storage.ProposalStore
    /** The `proposals` state. */
    var proposals: seq<ProposalData>

    /** The in-memory list mirrors the stored records. */
    predicate InSync()
      reads this, store
    {
      proposals == store.Contents()
    }

    /** First render: the list starts empty. */
    constructor (store: Storage.ProposalStore)
      ensures this.store == store && proposals == []
    {
      this.store := store;
      proposals := [];
    }

    /** The mount effect: the list is replaced by the stored records. */
    method Mount()
      modifies this
      ensures proposals == store.Contents() && InSync()
      ensures unchanged(store)
    {
      proposals := store.GetProposals();
    }

    /**
     * `handleCreateProposal`: the record is appended to the store and the
     * same record to the end of the in-memory list, so a list in step with
     * the store stays in step.
     */
    method HandleCreateProposal(d: ProposalData)
      modifies this, store
      ensures store.Contents() == old(store.Contents()) + [d]
      ensures proposals == old(proposals) + [d]
      ensures old(InSync()) ==> InSync()
    {
      store.SaveProposal(d);
      proposals := proposals + [d];
    }

    /**
     * The wizard's `onCreate` bound to `handleCreateProposal`: finalising the
     * draft stores the stamped record, mirrors it in the list and yields the
     * viewer route for its id.
     */
    method CreateFromWizard(w: Creator.Wizard, random1: string, random2: string, now: int) returns (route: string)
      requires w.step == Review
      modifies this, store
      ensures var id := Storage.GenerateId(random1, random2);
        && store.Contents() == old(store.Contents()) + [Creator.Finalize(w.data, id, now)]
        && proposals == old(proposals) + [Creator.Finalize(w.data, id, now)]
        && route == Creator.ViewerRoute(id)
      ensures old(InSync()) ==> InSync()
    {
      var finalData;
      finalData, route := w.HandleCreate(random1, random2, now);
      HandleCreateProposal(finalData);
    }
  }

  /**
   * The authoring scenario: "Alex" and "Sam", two memories, a letter, the
   * dark theme and no password, finalised on an empty store. The stored
   * record keeps two memories, the dark theme, no password and the
   * generated id, and a lookup by that id finds it.
   */
  method AuthorAndView(random1: string, random2: string, now: int, message: string)
    returns (stored: seq<ProposalData>, found: Option<ProposalData>)
    ensures |stored| == 1
    ensures stored[0].creatorName == Some("Alex") && stored[0].partnerName == Some("Sam")
    ensures |stored[0].memories| == 2 && stored[0].theme == Dark && stored[0].password == None
    ensures stored[0].message == Some(message)
    ensures stored[0].id == Storage.GenerateId(random1, random2) && stored[0].createdAt == now
    ensures found == Some(stored[0])
  {
    var store := new Storage.ProposalStore(Storage.Absent);
    var app := new AppState(store);
    app.Mount();
    var w := new Creator.Wizard();
    w.SetCreatorName("Alex");
    w.SetPartnerName("Sam");
    w.Next();
    w.AddMemory("m1");
    w.AddMemory("m2");
    w.Next();
    w.SetMessage(message);
    w.Next();
    w.SetTheme(Dark);
    w.Next();
    w.Next();
    assert w.step == Review;
    var _ := app.CreateFromWizard(w, random1, random2, now);
    stored := store.GetProposals();
    found := store.GetProposalById(Storage.GenerateId(random1, random2));
  }
}

// pages/ProposalView.tsx: loading a record by id, the password gate, the
// accept button and the theme lookup. Rendering and animation are not modelled.

module ProposalView {
  import opened Types
  import opened Constants
  import Storage

  /** `themes.find(t => t.id === wanted)`. */
  function FindTheme(themes: seq<Theme>, wanted: Theme): (r: Option<Theme>)
    ensures r.Some? ==> r.value in themes && ThemeId(r.value) == ThemeId(wanted)
    ensures r.None? <==> forall i :: 0 <= i < |themes| ==> ThemeId(themes[i]) != ThemeId(wanted)
  {
    if themes == [] then None
    else if ThemeId(themes[0]) == ThemeId(wanted) then Some(themes[0])
    else FindTheme(themes[1..], wanted)
  }

  /** `themes.find(...) || themes[0]`: the matching entry, else the first entry. */
  function ThemeOrFirst(themes: seq<Theme>, wanted: Theme): (t: Theme)
    requires themes != []
    ensures t in themes
    ensures wanted in themes ==> t == wanted
    ensures wanted !in themes ==> t == themes[0]
  {
    ThemeIdInjective(themes[0], wanted);
    match FindTheme(themes, wanted)
    case Some(found) =>
      ThemeIdInjective(found, wanted);
      found
    case None => themes[0]
  }

  /** Over the real theme table the fallback never fires: every stored theme is found. */
  lemma ThemeLookupFinds(wanted: Theme)
    ensures ThemeOrFirst(THEMES, wanted) == wanted
  {
    ThemesCoverUnion(wanted);
  }

  class Viewer {
    var data: Option<ProposalData>
    var isLocked: bool
    /** What the visitor has typed into the password box. */
    var password: string
    var hasAccepted: Option<bool>

    /** A lock is only ever set on a loaded record, and acceptance is never false. */
    ghost predicate Valid()
      reads this
    {
      (isLocked ==> data.Some?) && hasAccepted != Some(false)
    }

    /** The theme the shown record is rendered in: its own theme, found in the table. */
    function Theme(): (t: Theme)
      reads this
      requires data.Some?
      ensures t in THEMES && t == data.value.theme
    {
      ThemeLookupFinds(data.value.theme);
      ThemeOrFirst(THEMES, data.value.theme)
    }

    constructor ()
      ensures Valid()
      ensures data == None && !isLocked && password == "" && hasAccepted == None
    {
      data := None;
      isLocked := false;
      password := "";
      hasAccepted := None;
    }

    /**
     * The load effect for route parameter `id`: a found record is shown and
     * locks the view when its password is truthy; an unknown id sends the
     * visitor home. An empty id does nothing.
     */
    method Load(store: Storage.ProposalStore, id: string) returns (navigateTo: Option<string>)
      requires Valid()
      modifies this
      ensures Valid()
      ensures password == old(password) && hasAccepted == old(hasAccepted)
      ensures id == "" ==> data == old(data) && isLocked == old(isLocked) && navigateTo == None
      ensures id != "" ==>
        match Storage.FindById(store.Contents(), id)
        case Some(p) =>
          data == Some(p) && isLocked == (old(isLocked) || Truthy(p.password)) && navigateTo == None
        case None =>
          data == old(data) && isLocked == old(isLocked) && navigateTo == Some("/")
    {
      navigateTo := None;
      if id != "" {
        var p := store.GetProposalById(id);
        if p.Some? {
          data := p;
          if Truthy(p.value.password) {
            isLocked := true;
          }
        } else {
          navigateTo := Some("/");
        }
      }
    }

    /** The password box's change handler. */
    method TypePassword(value: string)
      requires Valid()
      modifies this
      ensures Valid()
      ensures password == value
      ensures data == old(data) && isLocked == old(isLocked) && hasAccepted == old(hasAccepted)
    {
      password := value;
    }

    /**
     * `handleUnlock`: the lock clears exactly when the typed password equals
     * the stored one; otherwise nothing changes, with no attempt counting.
     */
    method HandleUnlock()
      requires Valid()
      modifies this
      ensures Valid()
      ensures isLocked == (old(isLocked) && !(data.Some? && data.value.password == Some(password)))
      ensures data == old(data) && password == old(password) && hasAccepted == old(hasAccepted)
    {
      if data.Some? && data.value.password == Some(password) {
        isLocked := false;
      }
    }

    /** The Yes button, rendered once a record is shown unlocked and not yet accepted. */
    method Accept()
      requires Valid() && data.Some? && !isLocked && hasAccepted != Some(true)
      modifies this
      ensures Valid()
      ensures hasAccepted == Some(true)
      ensures data == old(data) && isLocked == old(isLocked) && password == old(password)
    {
      hasAccepted := Some(true);
    }
  }

  /**
   * Opening `/p/{id}` on a fresh view: the record FindById gives is shown,
   * the view is locked exactly when that record's password is truthy (an
   * empty password does not lock), and an unknown id leads home with
   * nothing shown.
   */
  method OpenProposal(store: Storage.ProposalStore, id: string)
    returns (shown: Option<ProposalData>, locked: bool, navigateTo: Option<string>)
    requires id != ""
    ensures shown == Storage.FindById(store.Contents(), id)
    ensures locked <==> shown.Some? && Truthy(shown.value.password)
    ensures navigateTo == if shown.None? then Some("/") else None
  {
    var view := new Viewer();
    navigateTo := view.Load(store, id);
    shown, locked := view.data, view.isLocked;
  }

  /**
   * A locked view opened on a record with a truthy password: a wrong
   * guess leaves it locked, the stored password unlocks it, and no later
   * handler locks it again.
   */
  method UnlockThenAccept(store: Storage.ProposalStore, id: string, guess: string)
    returns (lockedAfterGuess: bool, lockedAfterSecret: bool, accepted: Option<bool>)
    requires id != ""
    requires Storage.FindById(store.Contents(), id).Some?
    requires Truthy(Storage.FindById(store.Contents(), id).value.password)
    ensures lockedAfterGuess <==> Some(guess) != Storage.FindById(store.Contents(), id).value.password
    ensures !lockedAfterSecret && accepted == Some(true)
  {
    var view := new Viewer();
    var _ := view.Load(store, id);
    view.TypePassword(guess);
    view.HandleUnlock();
    lockedAfterGuess := view.isLocked;
    view.TypePassword(view.data.value.password.value);
    view.HandleUnlock();
    lockedAfterSecret := view.isLocked;
    view.Accept();
    view.HandleUnlock();
    accepted := view.hasAccepted;
  }
}

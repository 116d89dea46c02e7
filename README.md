# Proposal generator: record store, authoring wizard and viewer gate

This project models the sequential logic under the proposal generator's
React pages and proves properties about it:

- the **record store** (`utils/storage.ts`). It keeps an append-only table of
  `ProposalData` records under one browser storage key. `saveProposal` reads
  the table, pushes one record and writes the table back. `getProposals`
  reads it, and an absent or empty key reads as no records.
  `getProposalById` returns the first record with a given id. `generateId`
  glues two random base-36 fragments together;
- the **authoring wizard** (`pages/Creator.tsx`). It is a six-step linear
  state machine (`basics → memories → letter → design → privacy → review`)
  over a partial record. The memory list can be appended to, filtered by id
  and edited field by field. `handleCreate` stamps an id and a creation time
  on the draft;
- the **viewer gate** (`pages/ProposalView.tsx`). It loads a record by
  route id and is locked iff the record's password is truthy. It unlocks on
  exact equality and has a one-way "accept" flag. It resolves the theme,
  falling back to the first entry of the theme table;
- the **application mirror** (`App.tsx`). An in-memory list is loaded from
  the store on mount, and every create appends the same record to both.

Modules follow the source files: `Types` (types.dfy, for `types.ts`),
`Constants` (constants.dfy, the theme ids of `constants.tsx`), `Storage`
(storage.dfy), `Creator` (creator.dfy), `ProposalView` (proposal_view.dfy)
and `App` (app.dfy). The storage key is a `slot` field of the
`ProposalStore` class. The wizard, the viewer and the application state are
classes whose methods update their fields. Searches, filters and lookups
are functions, and the lemmas are stated about those functions.

The wizard's draft is a `Partial<ProposalData>`, and `handleCreate` casts it
to `ProposalData` without filling anything in. So every field the wizard may
leave unset is an `Option` both in `Draft` and in the stored `ProposalData`.
The type declares these fields as required, but the code does not make them
so. The code is followed here.

Some sources of nondeterminism become parameters:
- the two `Math.random().toString(36)` renderings used by `generateId`;
- the `Math.random()` string that names a new memory;
- the `Date.now()` reading.

Navigation is a returned route string.

## Model

| member | source | states |
|---|---|---|
| Constants.ThemeId | constants.tsx:24-98 | every entry of the theme table carries a non-empty id |
| Constants.ThemeIdInjective | constants.tsx:26-80 | two theme entries have equal ids iff they are the same theme, so finding by id finds by theme |
| Constants.ThemesCoverUnion | types.ts:19 | every tag of the theme union has an entry in the theme table |
| Storage.FindById | utils/storage.ts:17-19 | a found record is stored and carries the id; not-found (a value, never an error) iff no stored record has the id |
| Storage.FindByIdIsFirst | utils/storage.ts:18 | the lookup returns the earliest record with the id, in storage order |
| Storage.FindByIdAfterAppend | utils/storage.ts:11-19 | after appending `p`, a lookup by `p.id` returns `p` only when no earlier record has that id, else the earlier record; lookups by other ids are unaffected |
| Storage.ProposalStore.SaveEach | utils/storage.ts:11-15 | n successive `saveProposal` calls leave the old table followed by exactly those n records in call order, one record more per save |
| Storage.Substring | utils/storage.ts:22 | with indices inside the string and in order, `substring` is the slice between them; in every case the result is no longer than the string and holds only its characters |
| Storage.SubstringClampsAndSwaps | utils/storage.ts:22 | `substring` treats a negative index as 0 and an index past the end as the length, and swapping its two indices gives the same result |
| Storage.IdFragment | utils/storage.ts:22 | each fragment is at most 13 characters long: characters 2 to 15 of the rendering, or what exists of them |
| Storage.GenerateId | utils/storage.ts:21-23 | for every rendering length the id is the first fragment followed by the second, each at most 13 characters (exactly 26 in all for full-length renderings), drawn only from the random renderings |
| Storage.ProposalStore.constructor | utils/storage.ts:4 | a store starts over whatever value the key already holds |
| Storage.ProposalStore.GetProposals | utils/storage.ts:6-9 | returns the stored records, and the empty sequence when the key is absent or holds the empty string; it changes nothing |
| Storage.ProposalStore.SaveProposal | utils/storage.ts:11-15 | the stored table becomes the old table followed by the record; earlier records and their order are unchanged and no duplicate-id check is made |
| Storage.ProposalStore.GetProposalById | utils/storage.ts:17-19 | the first-match scan returns exactly the FindById result over the stored records and changes nothing |
| Storage.SaveAllFromEmpty | utils/storage.ts:11-15 | saving n records one by one on a key that holds nothing yet stores exactly those records, in call order |
| Storage.SaveDuplicateIds | utils/storage.ts:11-19 | two saves under one id on a fresh key keep both records in order, and the lookup returns the first |
| Creator.StepIndex | pages/Creator.tsx:27-28 | the index of a step is a position in the six-step order that holds that step |
| Creator.StepAtIndex | pages/Creator.tsx:27-28 | the index of the step at position i is i, so the six steps are distinct |
| Creator.BackOffered | pages/Creator.tsx:392 | the Go Back button is rendered on every step except `basics` |
| Creator.NextOffered | pages/Creator.tsx:398 | the Next Chapter button is rendered on every step except `review` |
| Creator.Advance | pages/Creator.tsx:30 | `next` moves the step index up by exactly one |
| Creator.Retreat | pages/Creator.tsx:31 | `back` moves the step index down by exactly one |
| Creator.AdvanceRetreatInverse | pages/Creator.tsx:30-31 | `back` after `next` and `next` after `back` return to the same step, and both stay within the offered range |
| Creator.AdvanceTimesIndex | pages/Creator.tsx:30 | n presses of Next raise the index by exactly n |
| Creator.WalkToReview | pages/Creator.tsx:392-402 | from `basics`, Next reaches `review` after exactly five presses; Next is not offered at `review` and Back is not offered at `basics` |
| Creator.InitialDraft | pages/Creator.tsx:21-25 | the starting draft has theme classic, no memories, isPremium false and every other field unset |
| Creator.BlankMemory | pages/Creator.tsx:44-49 | the memory `addMemory` builds carries the fresh id, empty date, title and description, and no image |
| Creator.RemoveById | pages/Creator.tsx:163 | the filtered list is no longer, holds no memory with the id, and holds only memories of the old list |
| Creator.RemoveByIdConcat | pages/Creator.tsx:163 | filtering distributes over concatenation, so kept memories keep their relative order |
| Creator.RemoveAbsentId | pages/Creator.tsx:163 | removing an id no memory carries leaves the list unchanged |
| Creator.RemoveByIdCounts | pages/Creator.tsx:163 | every memory with another id keeps its number of occurrences; every memory with the id is gone |
| Creator.RemoveAddedMemory | pages/Creator.tsx:43-51 | removing the memory just added under an unused id gives back the old list |
| Creator.Finalize | pages/Creator.tsx:34-38 | the final record has the given id and time, and every other field is the draft's, unchanged |
| Creator.FinalizeDraftOf | pages/Creator.tsx:34-38 | a record is rebuilt exactly from its draft fields, id and time, the inverse of Finalize |
| Creator.ViewerRoute | pages/Creator.tsx:40 | the route is `/p/` followed by the id, and the id can be read back from it |
| Creator.Wizard.constructor | pages/Creator.tsx:20-25 | the wizard starts at `basics` with theme classic, no memories, not premium and every other field unset |
| Creator.Wizard.Next | pages/Creator.tsx:30 | offered only before the last step; moves one step forward and leaves the draft alone |
| Creator.Wizard.Back | pages/Creator.tsx:31 | offered only past the first step; moves one step back and leaves the draft alone |
| Creator.Wizard.AddMemory | pages/Creator.tsx:43-51 | appends exactly one memory with the fresh id and empty date, title and description; earlier memories and all other fields are unchanged |
| Creator.Wizard.RemoveMemory | pages/Creator.tsx:163 | the memory list becomes the filtered list; nothing else changes |
| Creator.Wizard.EditMemoryDate | pages/Creator.tsx:173-177 | only the date of the memory at idx changes; the length, other memories and other fields are unchanged |
| Creator.Wizard.EditMemoryTitle | pages/Creator.tsx:184-188 | only the title of the memory at idx changes; the length, other memories and other fields are unchanged |
| Creator.Wizard.EditMemoryDescription | pages/Creator.tsx:197-201 | only the description of the memory at idx changes; the length, other memories and other fields are unchanged |
| Creator.Wizard.SetCreatorName | pages/Creator.tsx:108 | sets only the creator name |
| Creator.Wizard.SetPartnerName | pages/Creator.tsx:114 | sets only the partner name |
| Creator.Wizard.SetTitle | pages/Creator.tsx:121 | sets only the title |
| Creator.Wizard.SetMainImageUrl | pages/Creator.tsx:128 | sets only the hero image URL |
| Creator.Wizard.SetMessage | pages/Creator.tsx:237 | sets only the message |
| Creator.Wizard.SetTheme | pages/Creator.tsx:262 | sets only the theme |
| Creator.Wizard.SetMusicUrl | pages/Creator.tsx:288 | sets only the music URL |
| Creator.Wizard.SetPassword | pages/Creator.tsx:319 | sets only the password; an emptied box stores the empty string |
| Creator.Wizard.HandleCreate | pages/Creator.tsx:33-41 | offered only on the `review` step, where its button is rendered; yields the draft with a generated id and the given time, every other field copied, and the route `/p/` + id; the draft is not validated |
| Types.Truthy | pages/ProposalView.tsx:136 | a password is truthy exactly when it is present and non-empty; an absent or empty password is not truthy |
| ProposalView.FindTheme | pages/ProposalView.tsx:189 | a found theme is in the table and has the wanted id; not found iff no entry has that id |
| ProposalView.ThemeOrFirst | pages/ProposalView.tsx:189 | the theme used is the matching entry, or the first entry when none matches |
| ProposalView.ThemeLookupFinds | pages/ProposalView.tsx:189 | over the real theme table every stored theme is found, so the fallback is never taken |
| ProposalView.Viewer.Theme | pages/ProposalView.tsx:189 | the theme a shown record is rendered in is an entry of the table and is the record's own theme |
| ProposalView.Viewer.constructor | pages/ProposalView.tsx:117-121 | the view starts with no data, unlocked, an empty typed password and no acceptance |
| ProposalView.Viewer.Load | pages/ProposalView.tsx:131-141 | a found record is shown and locks the view iff its password is truthy; an unknown id leaves the data alone and navigates to `/`; the lock is never cleared here |
| ProposalView.Viewer.TypePassword | pages/ProposalView.tsx:180 | records the typed password and changes nothing else |
| ProposalView.Viewer.HandleUnlock | pages/ProposalView.tsx:143-147 | the lock clears iff a record is shown and the typed password equals its password exactly; otherwise nothing changes, and it never locks |
| ProposalView.Viewer.Accept | pages/ProposalView.tsx:395-408 | the Yes button, offered on an unlocked shown record, sets acceptance to true; acceptance is never false |
| ProposalView.OpenProposal | pages/ProposalView.tsx:131-141 | opening a route id on a fresh view shows the first stored record with that id, is locked iff its password is truthy (an empty password does not lock), and an unknown id navigates home |
| ProposalView.UnlockThenAccept | pages/ProposalView.tsx:143-147 | on a locked record a wrong guess keeps the lock, the stored password clears it, and acceptance becomes true |
| App.AppState.constructor | App.tsx:11 | the in-memory list starts empty |
| App.AppState.Mount | App.tsx:13-15 | on mount the list is replaced by the stored records and the store is unchanged |
| App.AppState.HandleCreateProposal | App.tsx:17-20 | the record is appended to the store and to the end of the list; a list equal to the store stays equal |
| App.AppState.CreateFromWizard | App.tsx:26 | called from the wizard's `review` step, the wizard's finalised record is appended to both the store and the list, and the route names its id |
| App.AuthorAndView | pages/Creator.tsx:33-41 | authoring Alex and Sam with two memories, a letter, the dark theme and no password stores one record with two memories, theme dark, no password and the generated id, and a lookup by that id finds it |

## Left out

- JSON serialisation and the browser storage API. The key holds records
  directly. A malformed stored value makes `JSON.parse` throw, uncaught,
  and is not modelled. The model does not claim "unreadable storage reads
  as empty".
- `Math.random`, its base-36 formatting and `Date.now` are not modelled.
  Their results are parameters. The model does not claim that generated ids
  are unique: `generateId` is not collision-free, and `saveProposal` makes
  no duplicate-id check.
- Rendering and styling are not modelled: JSX, Tailwind classes, framer-motion
  animation and scroll progress (pages/ProposalView.tsx:124-129). The same
  holds for the theme styling fields, `components/UI.tsx` and
  `pages/Landing.tsx`.
- Audio playback (`toggleMusic`, `isPlaying`) and date formatting are
  presentation and are not modelled.
- React Router is not modelled. A navigation is a returned route string. The
  wizard's "Back to Home" button only navigates and is not modelled.
- Cross-tab races on the shared storage key are not modelled. The code does
  not handle them.
- The memory edits mutate the memory object at `idx` inside a shallow copy of
  the array. Here they replace the memory value at `idx`. The shallow copy
  shares every memory object with the old array. The spread in `handleCreate`
  shares the memories array between the draft and the record passed to
  `onCreate`. Neither sharing is observable, though:
  - the old array is dropped as soon as the new one is set;
  - `saveProposal` stores a serialised snapshot;
  - the wizard is left right after creation.
  So values model the same behaviour, and in-place aliasing is not captured.
- The edit handlers read the `data` captured at render time, not the previous
  state. Event handlers run one at a time, so this is the same as reading the
  current draft.
- `Next`, `Back` and `HandleCreate` require the conditions under which their
  buttons are rendered: not the last step, not the first step, and the
  `review` step. The source's out-of-range `steps[6]` and `steps[-1]` cannot
  be reached from the UI and are not modelled.
- `Accept` requires what the render needs before the Yes button appears:
  shown data, unlocked, not yet accepted. The No button has no handler and
  is not modelled.
- `Viewer.Load` treats an undefined route id like an empty one. Both are
  falsy and do nothing.
- `expiryHours` and `isPremium` are stored but never read. No operation
  beyond copying them is modelled.

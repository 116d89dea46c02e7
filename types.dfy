// The records of types.ts: a memory, a proposal, the theme tag and the
// wizard step tag, plus the partial record the wizard builds.

module Types {

  datatype Option<+T> = None | Some(value: T)

  /** The four-way theme union of ProposalData.theme. */
  datatype Theme = Classic | Modern | Ethereal | Dark

  /** The six wizard steps of ProposalStep. */
  datatype Step = Basics | Memories | Letter | Design | Privacy | Review

  /** One timeline entry; `imageUrl` is optional and never set by the wizard. */
  datatype Memory = Memory(
    id: string,
    date: string,
    title: string,
    description: string,
    imageUrl: Option<string>)

  /**
   * The in-progress record of the wizard (a Partial<ProposalData>): every
   * scalar field may be missing. The wizard always keeps `theme`,
   * `memories` and `isPremium` present, so they are not optional here.
   */
  datatype Draft = Draft(
    creatorName: Option<string>,
    partnerName: Option<string>,
    title: Option<string>,
    message: Option<string>,
    memories: seq<Memory>,
    mainImageUrl: Option<string>,
    musicUrl: Option<string>,
    theme: Theme,
    password: Option<string>,
    expiryHours: Option<int>,
    isPremium: bool)

  /**
   * A stored proposal. Creation casts the draft to ProposalData without
   * filling in missing fields, so the fields the draft may lack stay
   * optional in the stored record too.
   */
  datatype ProposalData = ProposalData(
    id: string,
    creatorName: Option<string>,
    partnerName: Option<string>,
    title: Option<string>,
    message: Option<string>,
    memories: seq<Memory>,
    mainImageUrl: Option<string>,
    musicUrl: Option<string>,
    theme: Theme,
    password: Option<string>,
    expiryHours: Option<int>,
    createdAt: int,
    isPremium: bool)

  /** JavaScript truthiness of an optional string: present and non-empty. */
  predicate Truthy(s: Option<string>): (truthy: bool)
    ensures truthy ==> s.Some? && |s.value| > 0
    ensures s == None || s == Some("") ==> !truthy
    ensures s.Some? && |s.value| > 0 ==> truthy
  {
    s.Some? && s.value != ""
  }
}

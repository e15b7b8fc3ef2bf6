/** The read-only partner view: find the partnership naming the user, take
    the other member as the partner, and fetch the partner's tasks. Both
    query functions catch every failure and fall back to "no partner" or
    to the empty list. */
module PartnerTasks {
  import opened Wrappers
  import opened Tasks

  /** What the partnership query returns: `{ partnership, partnerId }`. */
  datatype PartnershipData = PartnershipData(partnership: Partnership, partnerId: UserId)

  /** The other member of the partnership. The comparison is with
      `partner1` only, so a record whose two members are both the user
      yields the user. */
  function PartnerId(p: Partnership, user: UserId): (r: UserId)
    ensures r == p.partner1 || r == p.partner2
    ensures (user == p.partner1 || user == p.partner2) && p.partner1 != p.partner2 ==> r != user
    ensures p.partner1 == user && p.partner2 == user ==> r == user
    ensures p.partner1 != user ==> r == p.partner1
  {
    if p.partner1 == user then p.partner2 else p.partner1
  }

  /** The partner of the user's partner is the user again. */
  lemma PartnerOfPartner(p: Partnership, user: UserId)
    requires user == p.partner1 || user == p.partner2
    ensures PartnerId(p, PartnerId(p, user)) == user
  {
  }

  /** The partnership query runs only with a user id. */
  predicate PartnershipQueryEnabled(user: Option<UserId>) {
    Present(user)
  }

  /** The partnership query function. `lookup` is what the first-match
      request answers; a failure of any kind, not-found included, becomes
      "no partner" rather than an error. */
  function PartnershipQuery(user: Option<UserId>, lookup: Result<Partnership, Error>)
    : (r: Option<PartnershipData>)
    ensures r.Some? <==> PartnershipQueryEnabled(user) && lookup.Success?
    ensures r.Some? ==> r.value.partnership == lookup.value
                        && r.value.partnerId == PartnerId(lookup.value, user.value)
  {
    if !PartnershipQueryEnabled(user) then None
    else match lookup
      case Failure(_) => None
      case Success(p) => Some(PartnershipData(p, PartnerId(p, user.value)))
  }

  /** `partnershipData?.partnerId`; the query's data is `undefined` before it
      has run and `null` for "no partner", and both read as `None`. */
  function PartnerIdOf(data: Option<PartnershipData>): (r: Option<UserId>)
    ensures r.Some? <==> data.Some?
    ensures data.Some? ==> r.value == data.value.partnerId
  {
    match data
    case Some(d) => Some(d.partnerId)
    case None => None
  }

  /** The partner tasks query runs only with a partner id. */
  predicate PartnerTasksQueryEnabled(partnerId: Option<UserId>) {
    Present(partnerId)
  }

  /** The partner tasks query function. `answer` is what the owner-filtered
      list request answers; a failure becomes the empty list. */
  function PartnerTasksQuery(partnerId: Option<UserId>, answer: Result<seq<Task>, Error>)
    : (r: seq<Task>)
    ensures !PartnerTasksQueryEnabled(partnerId) ==> r == []
    ensures answer.Failure? ==> r == []
    ensures PartnerTasksQueryEnabled(partnerId) && answer.Success? ==> r == answer.value
  {
    if !Present(partnerId) then []
    else match answer
      case Failure(_) => []
      case Success(tasks) => tasks
  }

  /** The partner's tasks once both queries have run: without a user, without
      a partnership, or after any failed request, the list is empty; when
      both requests succeed and the partner id is non-empty, it is exactly
      the fetched list; with an empty partner id the tasks query is
      disabled and the list is empty. */
  function ResolvedPartnerTasks(
    user: Option<UserId>, lookup: Result<Partnership, Error>, answer: Result<seq<Task>, Error>)
    : (r: seq<Task>)
    ensures !Present(user) || lookup.Failure? || answer.Failure? ==> r == []
    ensures r != [] ==> r == answer.value
    ensures Present(user) && lookup.Success? && answer.Success?
            && Present(Some(PartnerId(lookup.value, user.value)))
            ==> r == answer.value
    ensures Present(user) && lookup.Success?
            && !Present(Some(PartnerId(lookup.value, user.value)))
            ==> r == []
  {
    PartnerTasksQuery(PartnerIdOf(PartnershipQuery(user, lookup)), answer)
  }

  /** One query's state as the query library reports it. */
  datatype QueryState<T> = QueryState(data: Option<T>, isLoading: bool, isError: bool, error: Option<Error>)

  /** What the hook hands to the view. It carries data and flags only: no
      operation that writes to the partner's tasks. */
  datatype PartnerTasksView = PartnerTasksView(
    partnership: Option<Partnership>,
    partnerId: Option<UserId>,
    partnerTasks: seq<Task>,
    isLoading: bool,
    isError: bool,
    error: Option<Error>)

  /** The hook's combination of the two queries. */
  function UsePartnerTasks(partnership: QueryState<PartnershipData>, tasks: QueryState<seq<Task>>)
    : (v: PartnerTasksView)
    ensures v.isLoading <==> partnership.isLoading || tasks.isLoading
    ensures v.isError <==> partnership.isError || tasks.isError
    ensures partnership.error.Some? ==> v.error == partnership.error
    ensures partnership.error.None? ==> v.error == tasks.error
    ensures tasks.data.None? ==> v.partnerTasks == []
    ensures tasks.data.Some? ==> v.partnerTasks == tasks.data.value
    ensures v.partnerId == PartnerIdOf(partnership.data)
    ensures partnership.data.None? ==> v.partnership.None?
    ensures partnership.data.Some? ==> v.partnership == Some(partnership.data.value.partnership)
  {
    PartnerTasksView(
      if partnership.data.Some? then Some(partnership.data.value.partnership) else None,
      PartnerIdOf(partnership.data),
      tasks.data.GetOr([]),
      partnership.isLoading || tasks.isLoading,
      partnership.isError || tasks.isError,
      if partnership.error.Some? then partnership.error else tasks.error)
  }
}

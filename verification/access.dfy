/**
 * Who may add whom to a tournament, and who may see a private tournament. Each policy is a
 * decision over a snapshot of the tournament; an allowed addition then appends to the roster.
 */
module Access {
  import opened Domain
  import opened Lifecycle
  import opened Tournaments

  /** The outcome of a policy: go ahead, or refuse with a message for the caller. */
  datatype Decision = Allow | Deny(reason: string)

  const AddAfterStart := "Participants cannot be added to this tournament once it has started or finished"
  const AddToPrivateByNonOwner := "User cannot add participant to this private tournament without being the owner"
  const AddOtherToPublicByNonOwner := "User can only add another participant to public tournament if owner"
  const ViewPrivateDenied := "User does not have permissions to view this tournament"

  /**
   * May `actor` add `target` to a tournament in `status`? The status is checked first, then the
   * visibility, then whether the actor is the owner or adds themselves.
   */
  function AddParticipantDecision(status: TournamentStatus, visibility: Visibility, owner: UserId, actor: UserId, target: UserId): (d: Decision)
    ensures d == Allow <==> status == NotStarted && (actor == owner || (visibility == Public && actor == target))
    ensures status != NotStarted ==> d == Deny(AddAfterStart)
    ensures status == NotStarted && visibility == Private && actor != owner ==> d == Deny(AddToPrivateByNonOwner)
    ensures status == NotStarted && visibility == Public && actor != owner && actor != target ==> d == Deny(AddOtherToPublicByNonOwner)
  {
    if status != NotStarted then Deny(AddAfterStart)
    else match visibility
      case Private => if actor == owner then Allow else Deny(AddToPrivateByNonOwner)
      case Public => if actor == owner || actor == target then Allow else Deny(AddOtherToPublicByNonOwner)
  }

  /** May `actor` see a tournament? Public ones are open to all, private ones to the owner and the roster. */
  function ViewDecision(visibility: Visibility, owner: UserId, participants: seq<UserId>, actor: UserId): (d: Decision)
    ensures d == Allow <==> visibility == Public || actor == owner || actor in participants
    ensures d != Allow ==> d == Deny(ViewPrivateDenied)
  {
    if visibility == Public || actor == owner || actor in participants then Allow
    else Deny(ViewPrivateDenied)
  }

  /**
   * The add-participant service: decides with the tournament's status on `today`, and on
   * Allow appends `target` to the roster; on Deny the roster is left as it was.
   */
  method AddParticipantAs(t: Tournament, actor: UserId, target: UserId, today: Date) returns (d: Decision)
    modifies t`participants
    ensures d == AddParticipantDecision(StatusAt(t.startDate, t.endDate, today), t.visibility, t.owner, actor, target)
    ensures d == Allow <==>
      StatusAt(t.startDate, t.endDate, today) == NotStarted && (t.UserIsOwner(actor) || (t.visibility == Public && actor == target))
    ensures d == Allow ==> t.participants == old(t.participants) + [target]
    ensures d == Allow ==> t.IsAParticipant(target) && ViewDecision(t.visibility, t.owner, t.participants, target) == Allow
    ensures d != Allow ==> t.participants == old(t.participants)
    ensures old(t.Valid()) ==> t.Valid()
  {
    d := AddParticipantDecision(StatusAt(t.startDate, t.endDate, today), t.visibility, t.owner, actor, target);
    if d == Allow {
      t.AddParticipant(target);
    }
  }

  /** Once a tournament has started, no addition is allowed on that day or any later one. */
  lemma AddingStaysClosed(start: Date, end: Date, visibility: Visibility, owner: UserId, actor: UserId, target: UserId, d1: Date, d2: Date)
    requires d1 <= d2
    requires AddParticipantDecision(StatusAt(start, end, d1), visibility, owner, actor, target) == Deny(AddAfterStart)
    ensures AddParticipantDecision(StatusAt(start, end, d2), visibility, owner, actor, target) == Deny(AddAfterStart)
  {
  }

  /**
   * Whoever may add someone to a tournament may also see it: on a private tournament only the
   * owner may add, and a public one is open to all.
   */
  lemma AddersMayView(status: TournamentStatus, visibility: Visibility, owner: UserId, participants: seq<UserId>, actor: UserId, target: UserId)
    requires AddParticipantDecision(status, visibility, owner, actor, target) == Allow
    ensures ViewDecision(visibility, owner, participants, actor) == Allow
  {
  }

  /**
   * A private tournament that starts next week: its owner adds another user, who may then see
   * it, while a third user may not.
   */
  method PrivateTournamentScenario(today: Date, julian: UserId, agus: UserId, other: UserId)
    returns (added: Decision, seenByAgus: Decision, seenByOther: Decision)
    requires julian != agus && other != julian && other != agus
    ensures added == Allow && seenByAgus == Allow
    ensures seenByOther == Deny(ViewPrivateDenied)
  {
    var t := new Tournament("Superliga", today + 7, today + 14, Private, [EN, ES], julian);
    seenByAgus := ViewDecision(t.visibility, t.owner, t.participants, agus);
    assert seenByAgus == Deny(ViewPrivateDenied);
    added := AddParticipantAs(t, julian, agus, today);
    seenByAgus := ViewDecision(t.visibility, t.owner, t.participants, agus);
    seenByOther := ViewDecision(t.visibility, t.owner, t.participants, other);
  }
}

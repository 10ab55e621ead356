/**
 * A tournament as the mutable entity it is: its window, visibility, languages and owner are set
 * at creation, and its roster of participants grows in place.
 */
module Tournaments {
  import opened Domain

  class Tournament {
    var name: string
    var startDate: Date
    var endDate: Date
    var visibility: Visibility
    var languages: seq<Language>
    var owner: UserId
    /** The roster, in joining order; the same user may appear more than once. */
    var participants: seq<UserId>

    /** The owner heads the roster, having joined it at creation. */
    ghost predicate Valid()
      reads this
    {
      |participants| > 0 && participants[0] == owner
    }

    /** A new tournament whose only participant is its owner. */
    constructor (name: string, startDate: Date, endDate: Date, visibility: Visibility, languages: seq<Language>, owner: UserId)
      ensures this.name == name && this.startDate == startDate && this.endDate == endDate
      ensures this.visibility == visibility && this.languages == languages && this.owner == owner
      ensures participants == [owner]
      ensures Valid() && IsAParticipant(owner) && UserIsOwner(owner)
    {
      this.name := name;
      this.startDate := startDate;
      this.endDate := endDate;
      this.visibility := visibility;
      this.languages := languages;
      this.owner := owner;
      this.participants := [owner];
    }

    function IsAParticipant(u: UserId): (b: bool)
      reads this
      ensures b <==> exists i :: 0 <= i < |participants| && participants[i] == u
    {
      u in participants
    }

    /**
     * Appends `u` to the roster, whether or not it is already there. Only the roster may
     * change, so the owner, window, visibility and languages stay as they were.
     */
    method AddParticipant(u: UserId)
      modifies this`participants
      ensures participants == old(participants) + [u]
      ensures old(Valid()) ==> Valid()
      ensures IsAParticipant(u)
      ensures forall v :: old(IsAParticipant(v)) ==> IsAParticipant(v)
    {
      participants := participants + [u];
    }

    function UserIsOwner(u: UserId): (b: bool)
      reads this
      ensures b <==> u == owner
    {
      owner == u
    }

    function SupportsLanguage(lang: Language): (b: bool)
      reads this
      ensures b <==> exists i :: 0 <= i < |languages| && languages[i] == lang
    {
      lang in languages
    }
  }

  /** A valid tournament's owner is on its roster. */
  lemma OwnerIsParticipant(t: Tournament)
    requires t.Valid()
    ensures t.IsAParticipant(t.owner) && t.UserIsOwner(t.owner)
  {
  }
}

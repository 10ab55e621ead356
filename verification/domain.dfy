/** Value types shared by the tournament model: dates, users, languages and play results. */
module Domain {

  /** A calendar date, as a count of days since 1970-01-01 (`LocalDate.toEpochDay`). */
  type Date = int

  /** A user is identified by an opaque id; two users are equal iff their ids are. */
  type UserId = int

  /** The game languages a tournament can be played in. */
  datatype Language = EN | ES

  datatype Visibility = Public | Private

  /** The lifecycle status of a tournament, derived from a reference date. */
  datatype TournamentStatus = NotStarted | Started | Finished

  /** One completed game: how many attempts it took, in which language, on which day. */
  datatype GameResult = GameResult(attempts: nat, language: Language, date: Date)

  datatype Option<+T> = None | Some(value: T)

  /** No value occurs twice in `s`. */
  predicate Distinct<T(==)>(s: seq<T>) {
    forall i, j :: 0 <= i < j < |s| ==> s[i] != s[j]
  }

  /** `r` is a result for day `day` in language `lang`. */
  predicate Matches(r: GameResult, day: Date, lang: Language) {
    r.date == day && r.language == lang
  }

  /** No two results share the same (day, language) slot. */
  predicate UniqueSlots(results: seq<GameResult>) {
    forall i, j :: 0 <= i < j < |results| ==> !Matches(results[j], results[i].date, results[i].language)
  }
}

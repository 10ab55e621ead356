/**
 * The score of one participant at a reference date: for every elapsed tournament day and every
 * tournament language, the attempts of the participant's result for that slot, or a fixed
 * penalty when the slot was not played. Lower is better.
 */
module Scoring {
  import opened Domain
  import opened Lifecycle

  /** What an elapsed (day, language) slot without a result costs. */
  const MissPenalty: nat := 7

  /** The attempts of the first result for (`day`, `lang`), if there is one. */
  function Lookup(results: seq<GameResult>, day: Date, lang: Language): (r: Option<nat>)
    ensures r.None? <==> forall i :: 0 <= i < |results| ==> !Matches(results[i], day, lang)
    ensures r.Some? ==>
      exists i :: 0 <= i < |results| && Matches(results[i], day, lang) && results[i].attempts == r.value
        && forall j :: 0 <= j < i ==> !Matches(results[j], day, lang)
  {
    if results == [] then None
    else if Matches(results[0], day, lang) then Some(results[0].attempts)
    else Lookup(results[1..], day, lang)
  }

  /** What one (day, language) slot adds to the score. */
  function SlotScore(results: seq<GameResult>, day: Date, lang: Language): nat {
    match Lookup(results, day, lang)
    case Some(attempts) => attempts
    case None => MissPenalty
  }

  /** What one day adds to the score, summed over the tournament's languages. */
  function DayScore(results: seq<GameResult>, day: Date, languages: seq<Language>): nat {
    if languages == [] then 0
    else SlotScore(results, day, languages[0]) + DayScore(results, day, languages[1..])
  }

  /** The score over the first `n` days of a tournament starting on `start`. */
  function ScoreOver(results: seq<GameResult>, start: Date, languages: seq<Language>, n: nat): nat {
    if n == 0 then 0
    else ScoreOver(results, start, languages, n - 1) + DayScore(results, start + n - 1, languages)
  }

  /**
   * The score at `date` of a participant with `results` in a tournament with window
   * [start, end] played in `languages`: the sum over its played days.
   */
  function ScoreAt(results: seq<GameResult>, start: Date, end: Date, languages: seq<Language>, date: Date): (score: nat)
    requires start <= end
    requires UniqueSlots(results) && Distinct(languages)
    ensures date <= start ==> score == 0
  {
    ScoreOver(results, start, languages, DaysPlayedAt(start, end, date).value)
  }

  // ---------------------------------------------------------------------------------------
  // Reference definition: the penalty for every slot, corrected by every result that counts.

  /** `r` falls on one of the first `n` days from `start`, in one of the `languages`. */
  predicate Counted(r: GameResult, start: Date, languages: seq<Language>, n: nat) {
    r.language in languages && start <= r.date < start + n
  }

  /** How much a result changes the score compared with missing its slot. */
  function Bonus(r: GameResult, start: Date, languages: seq<Language>, n: nat): int {
    if Counted(r, start, languages, n) then r.attempts - MissPenalty else 0
  }

  function Adjustment(results: seq<GameResult>, start: Date, languages: seq<Language>, n: nat): int {
    if results == [] then 0
    else Adjustment(results[..|results| - 1], start, languages, n)
         + Bonus(results[|results| - 1], start, languages, n)
  }

  /** Every slot of the first `n` days charged the penalty, corrected by each counted result. */
  function ReferenceScore(results: seq<GameResult>, start: Date, languages: seq<Language>, n: nat): int {
    MissPenalty * |languages| * n + Adjustment(results, start, languages, n)
  }

  // ---------------------------------------------------------------------------------------
  // Lemmas

  /** Under unique slots, the result found is the only one for its slot. */
  lemma LookupUnique(results: seq<GameResult>, day: Date, lang: Language, i: int)
    requires UniqueSlots(results)
    requires 0 <= i < |results| && Matches(results[i], day, lang)
    ensures Lookup(results, day, lang) == Some(results[i].attempts)
  {
  }

  /** Appending a result only changes the lookup of its own slot, and only if that was empty. */
  lemma {:induction false} LookupAppend(init: seq<GameResult>, r: GameResult, day: Date, lang: Language)
    ensures Lookup(init + [r], day, lang) ==
      if Lookup(init, day, lang).Some? then Lookup(init, day, lang)
      else if Matches(r, day, lang) then Some(r.attempts)
      else None
  {
    if init != [] {
      assert (init + [r])[1..] == init[1..] + [r];
      LookupAppend(init[1..], r, day, lang);
    }
  }

  lemma {:induction false} DayScoreNoResults(day: Date, languages: seq<Language>)
    ensures DayScore([], day, languages) == MissPenalty * |languages|
  {
    if languages != [] {
      DayScoreNoResults(day, languages[1..]);
    }
  }

  /** With no results every elapsed slot costs the penalty. */
  lemma {:induction false} ScoreOverNoResults(start: Date, languages: seq<Language>, n: nat)
    ensures ScoreOver([], start, languages, n) == MissPenalty * |languages| * n
  {
    if n > 0 {
      ScoreOverNoResults(start, languages, n - 1);
      DayScoreNoResults(start + n - 1, languages);
      assert MissPenalty * |languages| * n == MissPenalty * |languages| * (n - 1) + MissPenalty * |languages|;
    }
  }

  lemma {:induction false} DayScoreAppend(init: seq<GameResult>, r: GameResult, day: Date, languages: seq<Language>)
    requires Distinct(languages)
    requires Lookup(init, r.date, r.language).None?
    ensures DayScore(init + [r], day, languages) ==
      DayScore(init, day, languages)
      + (if day == r.date && r.language in languages then r.attempts - MissPenalty else 0)
  {
    if languages != [] {
      var lang, rest := languages[0], languages[1..];
      assert Distinct(rest) by {
        forall i, j | 0 <= i < j < |rest| ensures rest[i] != rest[j] {
          assert rest[i] == languages[i + 1] && rest[j] == languages[j + 1];
        }
      }
      DayScoreAppend(init, r, day, rest);
      LookupAppend(init, r, day, lang);
      if lang == r.language {
        assert r.language !in rest by {
          forall i | 0 <= i < |rest| ensures rest[i] != lang {
            assert rest[i] == languages[i + 1];
          }
        }
      }
      assert r.language in languages <==> r.language == lang || r.language in rest;
    }
  }

  lemma {:induction false} ScoreOverAppend(init: seq<GameResult>, r: GameResult, start: Date, languages: seq<Language>, n: nat)
    requires Distinct(languages)
    requires Lookup(init, r.date, r.language).None?
    ensures ScoreOver(init + [r], start, languages, n) ==
      ScoreOver(init, start, languages, n) + Bonus(r, start, languages, n)
  {
    if n > 0 {
      ScoreOverAppend(init, r, start, languages, n - 1);
      DayScoreAppend(init, r, start + n - 1, languages);
    }
  }

  /** Dropping the last result keeps the slots unique, and the last result's slot is then empty. */
  lemma UniqueSlotsInit(results: seq<GameResult>)
    requires UniqueSlots(results) && results != []
    ensures UniqueSlots(results[..|results| - 1])
    ensures Lookup(results[..|results| - 1], results[|results| - 1].date, results[|results| - 1].language).None?
  {
  }

  /** The slot-by-slot score agrees with the reference definition. */
  lemma {:induction false} ScoreOverIsReference(results: seq<GameResult>, start: Date, languages: seq<Language>, n: nat)
    requires UniqueSlots(results) && Distinct(languages)
    ensures ScoreOver(results, start, languages, n) == ReferenceScore(results, start, languages, n)
  {
    if results == [] {
      ScoreOverNoResults(start, languages, n);
    } else {
      var init, last := results[..|results| - 1], results[|results| - 1];
      UniqueSlotsInit(results);
      ScoreOverIsReference(init, start, languages, n);
      ScoreOverAppend(init, last, start, languages, n);
      assert init + [last] == results;
    }
  }

  /** The score at a date is the reference score over the days played at that date. */
  lemma ScoreAtIsReference(results: seq<GameResult>, start: Date, end: Date, languages: seq<Language>, date: Date)
    requires start <= end
    requires UniqueSlots(results) && Distinct(languages)
    ensures ScoreAt(results, start, end, languages, date)
         == ReferenceScore(results, start, languages, DaysPlayedAt(start, end, date).value)
  {
    ScoreOverIsReference(results, start, languages, DaysPlayedAt(start, end, date).value);
  }

  /** A participant without results scores the penalty for every elapsed slot. */
  lemma ScoreWithoutResults(start: Date, end: Date, languages: seq<Language>, date: Date)
    requires start <= end && Distinct(languages)
    ensures ScoreAt([], start, end, languages, date)
         == MissPenalty * DaysPlayedAt(start, end, date).value * |languages|
  {
    var n := DaysPlayedAt(start, end, date).value;
    ScoreOverNoResults(start, languages, n);
    assert MissPenalty * |languages| * n == MissPenalty * n * |languages|;
  }

  /** Appending a result changes the score by its bonus at the date, and by nothing else. */
  lemma ScoreAtAppend(results: seq<GameResult>, r: GameResult, start: Date, end: Date, languages: seq<Language>, date: Date)
    requires start <= end && Distinct(languages)
    requires UniqueSlots(results + [r])
    ensures UniqueSlots(results)
    ensures ScoreAt(results + [r], start, end, languages, date)
         == ScoreAt(results, start, end, languages, date) + Bonus(r, start, languages, DaysPlayedAt(start, end, date).value)
  {
    UniqueSlotsInit(results + [r]);
    assert (results + [r])[..|results|] == results;
    ScoreOverAppend(results, r, start, languages, DaysPlayedAt(start, end, date).value);
  }

  /** A result in a language the tournament is not played in adds nothing. */
  lemma ScoreIgnoresOtherLanguage(results: seq<GameResult>, r: GameResult, start: Date, end: Date, languages: seq<Language>, date: Date)
    requires start <= end && Distinct(languages)
    requires UniqueSlots(results + [r])
    requires r.language !in languages
    ensures UniqueSlots(results)
    ensures ScoreAt(results + [r], start, end, languages, date) == ScoreAt(results, start, end, languages, date)
  {
    ScoreAtAppend(results, r, start, end, languages, date);
  }

  /** A result dated before the start or after the end of the tournament adds nothing. */
  lemma ScoreIgnoresOutsideWindow(results: seq<GameResult>, r: GameResult, start: Date, end: Date, languages: seq<Language>, date: Date)
    requires start <= end && Distinct(languages)
    requires UniqueSlots(results + [r])
    requires r.date < start || end < r.date
    ensures UniqueSlots(results)
    ensures ScoreAt(results + [r], start, end, languages, date) == ScoreAt(results, start, end, languages, date)
  {
    ScoreAtAppend(results, r, start, end, languages, date);
    DaysPlayedBounded(start, end, date);
  }

  /** A result for a day that has not yet elapsed at the date adds nothing yet. */
  lemma ScoreIgnoresUnelapsedDay(results: seq<GameResult>, r: GameResult, start: Date, end: Date, languages: seq<Language>, date: Date)
    requires start <= end && Distinct(languages)
    requires UniqueSlots(results + [r])
    requires date <= r.date
    ensures UniqueSlots(results)
    ensures ScoreAt(results + [r], start, end, languages, date) == ScoreAt(results, start, end, languages, date)
  {
    ScoreAtAppend(results, r, start, end, languages, date);
  }

  /** Playing a missed, elapsed slot replaces its penalty by the attempts taken. */
  lemma ScorePlayedSlotReplacesPenalty(results: seq<GameResult>, r: GameResult, start: Date, end: Date, languages: seq<Language>, date: Date)
    requires start <= end && Distinct(languages)
    requires UniqueSlots(results + [r])
    requires r.language in languages && start <= r.date && r.date < date && r.date <= end
    ensures UniqueSlots(results)
    ensures ScoreAt(results + [r], start, end, languages, date) + MissPenalty
         == ScoreAt(results, start, end, languages, date) + r.attempts
  {
    ScoreAtAppend(results, r, start, end, languages, date);
  }

  lemma {:induction false} ScoreOverMonotone(results: seq<GameResult>, start: Date, languages: seq<Language>, n1: nat, n2: nat)
    requires n1 <= n2
    ensures ScoreOver(results, start, languages, n1) <= ScoreOver(results, start, languages, n2)
  {
    if n1 < n2 {
      ScoreOverMonotone(results, start, languages, n1, n2 - 1);
    }
  }

  /** The score never decreases as the reference date advances. */
  lemma ScoreMonotone(results: seq<GameResult>, start: Date, end: Date, languages: seq<Language>, d1: Date, d2: Date)
    requires start <= end && d1 <= d2
    requires UniqueSlots(results) && Distinct(languages)
    ensures ScoreAt(results, start, end, languages, d1) <= ScoreAt(results, start, end, languages, d2)
  {
    DaysPlayedMonotone(start, end, d1, d2);
    ScoreOverMonotone(results, start, languages,
      DaysPlayedAt(start, end, d1).value, DaysPlayedAt(start, end, d2).value);
  }

  /** Past the end of the tournament the score no longer changes. */
  lemma ScoreConstantAfterEnd(results: seq<GameResult>, start: Date, end: Date, languages: seq<Language>, d1: Date, d2: Date)
    requires start <= end && end < d1 && end < d2
    requires UniqueSlots(results) && Distinct(languages)
    ensures ScoreAt(results, start, end, languages, d1) == ScoreAt(results, start, end, languages, d2)
  {
  }

  // ---------------------------------------------------------------------------------------
  // The scenarios of the leaderboard tests: a window 2016-06-10 .. 2016-06-12 (epoch days
  // 16962 .. 16964) and a player with 2 attempts on the first day and 3 on the second, in ES.

  function TwoDaysPlayed(): seq<GameResult> {
    [GameResult(2, ES, 16962), GameResult(3, ES, 16963)]
  }

  /** Only elapsed days count: on the end day the score is 2 + 3. */
  lemma ScenarioEndDay()
    ensures ScoreAt(TwoDaysPlayed(), 16962, 16964, [ES], 16964) == 5
  {
  }

  /** Results in other languages and outside the window are ignored. */
  lemma ScenarioIgnoredResults()
    ensures ScoreAt(TwoDaysPlayed() + [GameResult(3, EN, 16962)], 16962, 16964, [ES], 16964) == 5
    ensures ScoreAt(TwoDaysPlayed() + [GameResult(1, ES, 16961), GameResult(0, ES, 16965)], 16962, 16964, [ES], 16964) == 5
  {
    ScenarioEndDay();
    ScoreIgnoresOtherLanguage(TwoDaysPlayed(), GameResult(3, EN, 16962), 16962, 16964, [ES], 16964);
    var before := TwoDaysPlayed() + [GameResult(1, ES, 16961)];
    ScoreIgnoresOutsideWindow(TwoDaysPlayed(), GameResult(1, ES, 16961), 16962, 16964, [ES], 16964);
    assert before + [GameResult(0, ES, 16965)] == TwoDaysPlayed() + [GameResult(1, ES, 16961), GameResult(0, ES, 16965)];
    ScoreIgnoresOutsideWindow(before, GameResult(0, ES, 16965), 16962, 16964, [ES], 16964);
  }

  /** Stretching the window to 2016-06-14 penalises the two missed days: 2 + 3 + 7 + 7. */
  lemma ScenarioMissedDays()
    ensures ScoreAt(TwoDaysPlayed(), 16962, 16966, [ES], 16966) == 19
  {
  }

  /** Once finished, the end day's result is counted too: 2 + 3 + 1. */
  lemma ScenarioFinished()
    ensures ScoreAt(TwoDaysPlayed() + [GameResult(1, ES, 16964)], 16962, 16964, [ES], 16966) == 6
  {
    assert ScoreAt(TwoDaysPlayed(), 16962, 16964, [ES], 16966) == 12;
    ScorePlayedSlotReplacesPenalty(TwoDaysPlayed(), GameResult(1, ES, 16964), 16962, 16964, [ES], 16966);
  }

  /** Playing one language of two: each missed EN slot costs the penalty, 5 + 14. */
  lemma ScenarioOneLanguageOfTwo()
    ensures ScoreAt(TwoDaysPlayed(), 16962, 16964, [ES, EN], 16964) == 19
  {
  }

  /** A player without results, one language and then two, from the day before the start on. */
  lemma ScenarioNoResults()
    ensures ScoreAt([], 16962, 16964, [ES], 16961) == 0
    ensures ScoreAt([], 16962, 16964, [ES], 16962) == 0
    ensures ScoreAt([], 16962, 16964, [ES], 16963) == 7
    ensures ScoreAt([], 16962, 16964, [ES], 16964) == 14
    ensures ScoreAt([], 16962, 16964, [ES], 16965) == 21
    ensures ScoreAt([], 16962, 16964, [ES], 16966) == 21
    ensures ScoreAt([], 16962, 16964, [ES, EN], 16961) == 0
    ensures ScoreAt([], 16962, 16964, [ES, EN], 16962) == 0
    ensures ScoreAt([], 16962, 16964, [ES, EN], 16963) == 14
    ensures ScoreAt([], 16962, 16964, [ES, EN], 16964) == 28
    ensures ScoreAt([], 16962, 16964, [ES, EN], 16965) == 42
    ensures ScoreAt([], 16962, 16964, [ES, EN], 16966) == 42
  {
  }
}

# Word-game tournaments: lifecycle, scoring, ranking and access rules

This project models the core of a tournament service for a daily word-guessing game, written in Dafny.

A tournament has a few fixed attributes:

- an inclusive date window `[startDate, endDate]`;
- a list of game languages;
- a visibility (public or private);
- an owner;
- a roster of participants, which starts as the owner and grows by appending.

Each participant plays games. A game gives a result: the number of attempts, a language and a date.

The model covers:

- **Lifecycle** (`lifecycle.dfy`): the tournament's status at a reference date (not started, started or finished), and the number of fully elapsed tournament days at that date.
- **Scoring** (`scoring.dfy`): a participant's score at a date. For every elapsed day and every tournament language, add the attempts of the participant's result for that (day, language) slot. If there is no result for the slot, add a penalty of 7. Lower is better. The rule is written slot by slot. It is also proved equal to an independent reference definition: 7 for every slot, plus `attempts - 7` for every result that counts.
- **Ranking** (`ranking.dfy`): the leaderboard. It holds one scoreboard per roster entry and is ordered by a stable sort on ascending score.
- **Tournament** (`tournament.dfy`): the tournament entity as a class. Its roster is a `seq` that the constructor seeds with the owner and that `AddParticipant` appends to in place.
- **Access** (`access.dfy`): two decisions that return `Allow` or `Deny(reason)` with the service's exact messages. One says who may add whom (status first, then visibility, then owner or self). The other says who may see a tournament. A service method appends to the roster only on `Allow`.

Modelling choices:

- Dates are `int` epoch days (2016-06-10 is day 16962).
- Users are ids.
- The reference date is always an explicit parameter.
- A user's results come from a `map<UserId, seq<GameResult>>`.
- `LocalDate.datesUntil(x).count()` is `x - start`. `datesUntil` throws when its end lies before its start. `DaysPlayedAt` models this as `None`, which happens for an inverted window from the start day on (the status there is already Finished, so the count runs to the end date).

The model does not reproduce the code of `Scoreboard` and `TournamentService`; it takes their behaviour from the tests that state it: `LeaderboardTest.java` for the score rule and `TournamentServiceTest.java` for the two policies. Where the code and its tests settle a question, the model follows them:

- The denial messages are those the tests check verbatim.
- The languages are a `List`, not a set.
- The add policy checks the status at the current day. Here that day is the parameter `today`.
- `LeaderboardTest.java` calls the day count `getDaysPlayedUntilDate`, while `Tournament.java` names it `getDaysPlayedAtDate`. The tests expect the same values from both, so `DaysPlayedAt` models them as one function.

## Model

| member | source | states |
|---|---|---|
| `Lifecycle.StatusAt` | src/main/java/com/tacs2022/wordlehelper/domain/tournaments/Tournament.java:93-100 | NotStarted iff the date is before the start; Started iff start <= date <= end (both bounds inclusive); Finished iff the date is not before the start and after the end |
| `Lifecycle.StatusMonotone` | src/main/java/com/tacs2022/wordlehelper/domain/tournaments/Tournament.java:93-100 | as the reference date advances the status only moves NotStarted, Started, Finished, never back |
| `Lifecycle.DatesUntilCount` | src/main/java/com/tacs2022/wordlehelper/domain/tournaments/Tournament.java:80-82 | the count of `from.datesUntil(to)` is `to - from`, and there is none (the library throws) when `to` is before `from` |
| `Lifecycle.DaysPlayedAt` | src/main/java/com/tacs2022/wordlehelper/domain/tournaments/Tournament.java:74-83 | 0 before the start; `date - start` from the start through the end day; `end - start + 1` after the end; undefined (the count throws) exactly when the window is inverted and the date is on or after the start day |
| `Lifecycle.DaysPlayedBounded` | src/main/java/com/tacs2022/wordlehelper/domain/tournaments/Tournament.java:74-83 | on a window with start <= end the days played are defined and at most the window's length |
| `Lifecycle.DaysPlayedMonotone` | src/main/java/com/tacs2022/wordlehelper/domain/tournaments/Tournament.java:74-83 | on a window with start <= end the days played never decrease as the date advances |
| `Lifecycle.DaysPlayedConstantAfterEnd` | src/test/java/Tournaments/LeaderboardTest.java:85-90 | after the end the days played are the same however far past it the date is |
| `Lifecycle.ThreeDayWindowDaysPlayed` | src/test/java/Tournaments/LeaderboardTest.java:68-90 | for the window June 10-12: 0 two days and one day before the start and on it, 1 and 2 on the next days (2 on the end day), then 3 |
| `Scoring.Lookup` | src/test/java/Tournaments/LeaderboardTest.java:42-58 | finds a result for a (day, language) slot iff one exists, and returns the attempts of the first result for that slot (no earlier result matches it) |
| `Scoring.ScoreAt` | src/test/java/Tournaments/LeaderboardTest.java:92-116 | the score is 0 on or before the start day, when no day has elapsed |
| `Scoring.LookupUnique` | src/test/java/Tournaments/LeaderboardTest.java:42-45 | when no slot has two results, the lookup returns the attempts of the one result for that slot |
| `Scoring.ScoreOverIsReference` | src/test/java/Tournaments/LeaderboardTest.java:42-128 | over n elapsed days the slot-by-slot score equals 7 per slot plus `attempts - 7` for every result in a tournament language on one of those days |
| `Scoring.ScoreAtIsReference` | src/test/java/Tournaments/LeaderboardTest.java:42-128 | the score at a date is that reference score taken over the days played at that date |
| `Scoring.ScoreAtAppend` | src/test/java/Tournaments/LeaderboardTest.java:47-58 | appending a result changes the score by `attempts - 7` if it lies in a tournament language on an elapsed day, and by nothing otherwise |
| `Scoring.ScoreWithoutResults` | src/test/java/Tournaments/LeaderboardTest.java:92-116 | a participant with no results scores 7 x days played x number of languages |
| `Scoring.ScoreIgnoresOtherLanguage` | src/test/java/Tournaments/LeaderboardTest.java:47-51 | a result in a language the tournament is not played in leaves the score unchanged at every date |
| `Scoring.ScoreIgnoresOutsideWindow` | src/test/java/Tournaments/LeaderboardTest.java:53-58 | a result dated before the start or after the end leaves the score unchanged at every date |
| `Scoring.ScoreIgnoresUnelapsedDay` | src/test/java/Tournaments/LeaderboardTest.java:42-45 | a result for the reference date or a later day leaves the score at that date unchanged (only elapsed days count) |
| `Scoring.ScorePlayedSlotReplacesPenalty` | src/test/java/Tournaments/LeaderboardTest.java:118-122 | a result for a missed, elapsed slot in a tournament language replaces that slot's penalty of 7 by its attempts |
| `Scoring.ScoreMonotone` | src/test/java/Tournaments/LeaderboardTest.java:92-116 | the score never decreases as the reference date advances |
| `Scoring.ScoreConstantAfterEnd` | src/test/java/Tournaments/LeaderboardTest.java:101-102 | after the end day the score is the same at every date |
| `Scoring.ScenarioEndDay` | src/test/java/Tournaments/LeaderboardTest.java:42-45 | results 2 (June 10) and 3 (June 11), window June 10-12 in ES: the score on June 12 is 5 |
| `Scoring.ScenarioIgnoredResults` | src/test/java/Tournaments/LeaderboardTest.java:47-58 | adding an EN result, or ES results dated June 9 and June 13, keeps that score at 5 |
| `Scoring.ScenarioMissedDays` | src/test/java/Tournaments/LeaderboardTest.java:60-66 | with the window stretched to June 14 the score on June 14 is 2 + 3 + 7 + 7 = 19 |
| `Scoring.ScenarioFinished` | src/test/java/Tournaments/LeaderboardTest.java:118-122 | with 1 attempt on the end day, the score two days after the end is 2 + 3 + 1 = 6 |
| `Scoring.ScenarioOneLanguageOfTwo` | src/test/java/Tournaments/LeaderboardTest.java:124-128 | played in ES and EN with only ES results, the score at start + 2 is 5 + 14 = 19 |
| `Scoring.ScenarioNoResults` | src/test/java/Tournaments/LeaderboardTest.java:92-116 | without results: 0, 0, 7, 14, 21, 21 in one language and 0, 0, 14, 28, 42, 42 in two, from the day before the start to two days after the end |
| `Ranking.InsertByScore` | src/main/java/com/tacs2022/wordlehelper/domain/tournaments/Tournament.java:63 | inserting a scoreboard adds exactly that element to the multiset of entries |
| `Ranking.InsertKeepsSorted` | src/main/java/com/tacs2022/wordlehelper/domain/tournaments/Tournament.java:63 | inserting into a list sorted by ascending score keeps it sorted |
| `Ranking.InsertWithScore` | src/main/java/com/tacs2022/wordlehelper/domain/tournaments/Tournament.java:63 | the inserted scoreboard goes in front of the entries it ties with, and their order is kept |
| `Ranking.InsertUsers` | src/main/java/com/tacs2022/wordlehelper/domain/tournaments/Tournament.java:63 | inserting adds exactly the inserted board's user to the multiset of users |
| `Ranking.SortByScore` | src/main/java/com/tacs2022/wordlehelper/domain/tournaments/Tournament.java:63 | the sort is a permutation of its input |
| `Ranking.SortIsSorted` | src/main/java/com/tacs2022/wordlehelper/domain/tournaments/Tournament.java:63 | the sort's output is ordered by ascending score |
| `Ranking.SortPermutesUsers` | src/main/java/com/tacs2022/wordlehelper/domain/tournaments/Tournament.java:63 | the sort's output lists the same users, with the same multiplicities |
| `Ranking.SortIsStable` | src/main/java/com/tacs2022/wordlehelper/domain/tournaments/Tournament.java:61-64 | for every score, the entries with that score keep their input order (a stable sort, as on an ordered stream) |
| `Ranking.Boards` | src/main/java/com/tacs2022/wordlehelper/domain/tournaments/Tournament.java:61-62 | one scoreboard per roster entry, in roster order, each carrying that user's score at the date |
| `Ranking.LeaderboardAt` | src/main/java/com/tacs2022/wordlehelper/domain/tournaments/Tournament.java:60-65 | one scoreboard per roster entry (its users are a permutation of the roster); sorted by ascending score; each entry's total is its user's score at the date; entries with equal scores keep roster order |
| `Ranking.LeaderHasFewestAttempts` | src/test/java/com/tacs2022/wordlehelper/TournamentServiceTest.java:150-159 | the first entry of a non-empty leaderboard scores no more than any participant |
| `Ranking.ScenarioFewestAttemptsWins` | src/test/java/com/tacs2022/wordlehelper/TournamentServiceTest.java:150-159 | in EN and ES at start + 2, the player with 2 and 3 attempts scores 19 and is ranked ahead of the one with 1 and 7, who scores 22 |
| `Tournaments.Tournament.constructor` | src/main/java/com/tacs2022/wordlehelper/domain/tournaments/Tournament.java:37-46 | stores every attribute as given and seeds the roster with exactly the owner, who is then a participant and the owner |
| `Tournaments.Tournament.IsAParticipant` | src/main/java/com/tacs2022/wordlehelper/domain/tournaments/Tournament.java:48-50 | holds iff the user occurs at some position of the roster |
| `Tournaments.Tournament.AddParticipant` | src/main/java/com/tacs2022/wordlehelper/domain/tournaments/Tournament.java:52-54 | appends exactly one entry at the end of the roster with no duplicate check; earlier entries and every other attribute are unchanged; the owner stays at the head |
| `Tournaments.Tournament.UserIsOwner` | src/main/java/com/tacs2022/wordlehelper/domain/tournaments/Tournament.java:56-58 | holds iff the user is the owner |
| `Tournaments.Tournament.SupportsLanguage` | src/main/java/com/tacs2022/wordlehelper/domain/tournaments/Tournament.java:85-87 | holds iff the language occurs in the tournament's language list |
| `Tournaments.OwnerIsParticipant` | src/main/java/com/tacs2022/wordlehelper/domain/tournaments/Tournament.java:44-54 | while the owner heads the roster, the owner is a participant |
| `Access.AddParticipantDecision` | src/test/java/com/tacs2022/wordlehelper/TournamentServiceTest.java:85-148 | allowed iff not started and either the actor is the owner or the tournament is public and the actor adds themselves; a started or finished tournament is refused with its own message even for the owner; a private one for a non-owner with its own message; a public one for a non-owner adding someone else with its own message |
| `Access.ViewDecision` | src/test/java/com/tacs2022/wordlehelper/TournamentServiceTest.java:161-190 | allowed iff the tournament is public, or the actor is its owner or on its roster; otherwise refused with "User does not have permissions to view this tournament" |
| `Access.AddParticipantAs` | src/test/java/com/tacs2022/wordlehelper/TournamentServiceTest.java:129-148 | decides with the status on the given day, allowing iff not started and the actor is the owner (`userIsOwner`) or adds themselves to a public tournament; on Allow appends the target to the roster, who is then a participant and may see the tournament; on Deny leaves the roster as it was |
| `Access.AddingStaysClosed` | src/test/java/com/tacs2022/wordlehelper/TournamentServiceTest.java:85-103 | once additions are refused because the tournament has started, they stay refused on every later day |
| `Access.AddersMayView` | src/test/java/com/tacs2022/wordlehelper/TournamentServiceTest.java:105-190 | whoever may add a participant may also see the tournament (a private one admits only its owner as adder, a public one is visible to all) |
| `Access.PrivateTournamentScenario` | src/test/java/com/tacs2022/wordlehelper/TournamentServiceTest.java:129-190 | on a private tournament starting next week, the owner adds another user, who may then see it, while a third user is refused |

## Left out

- `Tournament.getStatus` (Tournament.java:89-91) reads the system clock. Only the status at an explicit date is modelled, and the add policy takes the current day as a parameter.
- `Scoring.ScoreAt`: requires `startDate <= endDate`. The `Scoreboard` source is not part of this model. With an inverted window, the day count it relies on throws from the start day on (`DaysPlayedAt` returns `None` there).
- `Ranking.LeaderboardAt`: requires `startDate <= endDate` for the same reason.
- Duplicate results for one (day, language) slot are excluded by precondition (`UniqueSlots`), because no visible code settles them. Duplicate entries in the language list are excluded the same way (`Distinct`). In the leaderboard the precondition (`WellFormedHistory`) covers each user's whole history, including users off the roster and slots outside the window or the language list.
- `Scoring.ScoreAt`: does not model the 32-bit overflow of the Java `int` score. The score is an unbounded `nat`; the source wraps past 2^31 - 1, which with every slot missed happens after about 3.07 x 10^8 (day, language) slots.
- `Ranking.LeaderboardAt`: does not model the 32-bit overflow of the `int` total in each scoreboard (`getTotalAttempts`), for the same reason; ordering by an unbounded score differs from the source's only past that overflow.
- Attempts are taken to be non-negative (`GameResult.attempts` is a `nat`). The Java result holds an `int` and nothing in the code rules out a negative count; `Scoring.ScoreMonotone` relies on this.
- `Lifecycle.DaysPlayedAt`: does not model the `(int)` narrowing of the `long` day count. It matters only for windows of 2^31 days or more.
- The Java `Scoreboard` keeps a reference to its tournament and computes its score on demand. The model stores the score at the leaderboard's date in each entry.
- The language enum is not part of this model. Only its two values used by the tests, EN and ES, are modelled.
- The tournament's id and name play no part in any rule. The name is stored; the generated id is not modelled.
- The setters of the date window and the language list are left out: they are owner edits, not core rules. Every function takes the current window and languages as inputs, so nothing is cached.
- `TournamentController` is HTTP routing. Its own `addParticipant` answers 400 for a missing id and otherwise appends without the policy.
- `UserController` and `UserService` are left out. They are CRUD wrappers, and their `postTournament` and `addResult` are empty.
- `ExpiredRequestException`, persistence and dependency-injection annotations, and password hashing are left out.
- Concurrent additions to one roster are left out; the model is sequential.

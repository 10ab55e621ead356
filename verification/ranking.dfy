/**
 * The leaderboard of a tournament at a date: one scoreboard per roster entry, ordered by score
 * with the lowest first. The ordering is a stable sort, so entries with equal scores keep the
 * order in which they appear in the roster.
 */
module Ranking {
  import opened Domain
  import opened Lifecycle
  import opened Scoring

  /** A participant and their score at the leaderboard's date. */
  datatype Scoreboard = Scoreboard(user: UserId, totalAttempts: nat)

  /** The game results of every user, by id; a user without an entry has played nothing. */
  type History = map<UserId, seq<GameResult>>

  /** No user has two results for the same (day, language) slot. */
  predicate WellFormedHistory(history: History) {
    forall u :: u in history ==> UniqueSlots(history[u])
  }

  function ResultsOf(history: History, u: UserId): (results: seq<GameResult>)
    ensures WellFormedHistory(history) ==> UniqueSlots(results)
    ensures u !in history ==> results == []
  {
    if u in history then history[u] else []
  }

  predicate SortedByScore(s: seq<Scoreboard>) {
    forall i, j :: 0 <= i < j < |s| ==> s[i].totalAttempts <= s[j].totalAttempts
  }

  /** The entries of `s` whose score is `k`, in the order they have in `s`. */
  function WithScore(s: seq<Scoreboard>, k: nat): seq<Scoreboard> {
    if s == [] then []
    else (if s[0].totalAttempts == k then [s[0]] else []) + WithScore(s[1..], k)
  }

  function Users(s: seq<Scoreboard>): (users: seq<UserId>)
    ensures |users| == |s|
    ensures forall i :: 0 <= i < |s| ==> users[i] == s[i].user
  {
    if s == [] then [] else [s[0].user] + Users(s[1..])
  }

  /**
   * Inserts `b` into `s` in front of the first entry whose score is not lower, so that `b`
   * stays ahead of the entries it ties with.
   */
  function InsertByScore(b: Scoreboard, s: seq<Scoreboard>): (r: seq<Scoreboard>)
    ensures multiset(r) == multiset(s) + multiset{b}
  {
    if s == [] || b.totalAttempts <= s[0].totalAttempts then [b] + s
    else
      assert s == [s[0]] + s[1..];
      [s[0]] + InsertByScore(b, s[1..])
  }

  lemma {:induction false} InsertKeepsSorted(b: Scoreboard, s: seq<Scoreboard>)
    requires SortedByScore(s)
    ensures SortedByScore(InsertByScore(b, s))
  {
    if s != [] && s[0].totalAttempts < b.totalAttempts {
      var rest := InsertByScore(b, s[1..]);
      InsertKeepsSorted(b, s[1..]);
      forall x | x in rest ensures s[0].totalAttempts <= x.totalAttempts {
        assert x in multiset(rest);
        if x != b {
          assert x in multiset(s[1..]);
        }
      }
      var r := [s[0]] + rest;
      forall i, j | 0 <= i < j < |r| ensures r[i].totalAttempts <= r[j].totalAttempts {
        if i == 0 {
          assert r[j] in rest;
        } else {
          assert r[i] == rest[i - 1] && r[j] == rest[j - 1];
        }
      }
    }
  }

  /** The entries tying with `b` are those of `s`, with `b` in front of them. */
  lemma {:induction false} InsertWithScore(b: Scoreboard, s: seq<Scoreboard>, k: nat)
    ensures WithScore(InsertByScore(b, s), k) == (if b.totalAttempts == k then [b] else []) + WithScore(s, k)
  {
    if s == [] || b.totalAttempts <= s[0].totalAttempts {
      assert ([b] + s)[1..] == s;
    } else {
      var rest := InsertByScore(b, s[1..]);
      InsertWithScore(b, s[1..], k);
      assert ([s[0]] + rest)[1..] == rest;
    }
  }

  lemma {:induction false} InsertUsers(b: Scoreboard, s: seq<Scoreboard>)
    ensures multiset(Users(InsertByScore(b, s))) == multiset(Users(s)) + multiset{b.user}
  {
    if s == [] || b.totalAttempts <= s[0].totalAttempts {
      assert Users([b] + s) == [b.user] + Users(s);
    } else {
      var rest := InsertByScore(b, s[1..]);
      InsertUsers(b, s[1..]);
      assert Users([s[0]] + rest) == [s[0].user] + Users(rest);
      assert Users(s) == [s[0].user] + Users(s[1..]);
    }
  }

  /** A stable insertion sort by ascending score. */
  function SortByScore(s: seq<Scoreboard>): (r: seq<Scoreboard>)
    ensures multiset(r) == multiset(s)
  {
    if s == [] then []
    else
      assert s == [s[0]] + s[1..];
      InsertByScore(s[0], SortByScore(s[1..]))
  }

  lemma {:induction false} SortIsSorted(s: seq<Scoreboard>)
    ensures SortedByScore(SortByScore(s))
  {
    if s != [] {
      SortIsSorted(s[1..]);
      InsertKeepsSorted(s[0], SortByScore(s[1..]));
    }
  }

  lemma {:induction false} SortPermutesUsers(s: seq<Scoreboard>)
    ensures multiset(Users(SortByScore(s))) == multiset(Users(s))
  {
    if s != [] {
      SortPermutesUsers(s[1..]);
      InsertUsers(s[0], SortByScore(s[1..]));
      assert Users(s) == [s[0].user] + Users(s[1..]);
    }
  }

  /** The sort is stable: the entries with any one score keep their relative order. */
  lemma {:induction false} SortIsStable(s: seq<Scoreboard>, k: nat)
    ensures WithScore(SortByScore(s), k) == WithScore(s, k)
  {
    if s != [] {
      SortIsStable(s[1..], k);
      InsertWithScore(s[0], SortByScore(s[1..]), k);
    }
  }

  /** The scoreboard of every roster entry at `date`, in roster order. */
  function Boards(participants: seq<UserId>, history: History, start: Date, end: Date, languages: seq<Language>, date: Date): (boards: seq<Scoreboard>)
    requires start <= end && Distinct(languages) && WellFormedHistory(history)
    ensures Users(boards) == participants
    ensures forall i :: 0 <= i < |boards| ==>
      boards[i].totalAttempts == ScoreAt(ResultsOf(history, participants[i]), start, end, languages, date)
  {
    if participants == [] then []
    else
      [Scoreboard(participants[0], ScoreAt(ResultsOf(history, participants[0]), start, end, languages, date))]
      + Boards(participants[1..], history, start, end, languages, date)
  }

  /**
   * The leaderboard at `date`: a permutation of the roster's scoreboards, sorted by ascending
   * score, with equal scores in roster order.
   */
  function LeaderboardAt(participants: seq<UserId>, history: History, start: Date, end: Date, languages: seq<Language>, date: Date): (board: seq<Scoreboard>)
    requires start <= end && Distinct(languages) && WellFormedHistory(history)
    ensures |board| == |participants|
    ensures multiset(Users(board)) == multiset(participants)
    ensures SortedByScore(board)
    ensures forall i :: 0 <= i < |board| ==>
      board[i].totalAttempts == ScoreAt(ResultsOf(history, board[i].user), start, end, languages, date)
    ensures forall k :: WithScore(board, k) == WithScore(Boards(participants, history, start, end, languages, date), k)
  {
    var boards := Boards(participants, history, start, end, languages, date);
    var board := SortByScore(boards);
    assert |board| == |multiset(board)| == |multiset(boards)| == |boards|;
    SortIsSorted(boards);
    SortPermutesUsers(boards);
    assert forall k :: WithScore(board, k) == WithScore(boards, k) by {
      forall k ensures WithScore(board, k) == WithScore(boards, k) {
        SortIsStable(boards, k);
      }
    }
    assert forall i :: 0 <= i < |board| ==> board[i] in multiset(boards);
    board
  }

  /** The first entry of the leaderboard has the fewest total attempts of all. */
  lemma LeaderHasFewestAttempts(participants: seq<UserId>, history: History, start: Date, end: Date, languages: seq<Language>, date: Date)
    requires start <= end && Distinct(languages) && WellFormedHistory(history)
    requires participants != []
    ensures var board := LeaderboardAt(participants, history, start, end, languages, date);
      forall u :: u in participants ==>
        board[0].totalAttempts <= ScoreAt(ResultsOf(history, u), start, end, languages, date)
  {
    var board := LeaderboardAt(participants, history, start, end, languages, date);
    forall u | u in participants
      ensures board[0].totalAttempts <= ScoreAt(ResultsOf(history, u), start, end, languages, date)
    {
      assert u in multiset(Users(board));
      var i :| 0 <= i < |board| && Users(board)[i] == u;
    }
  }

  /**
   * Two players in a tournament played in EN and ES, two days in: the one with 2 and 3 attempts
   * in ES scores 2 + 3 + 7 + 7 = 19 and leads the one with 1 and 7, who scores 1 + 7 + 7 + 7 = 22.
   */
  lemma ScenarioFewestAttemptsWins(start: Date, first: UserId, second: UserId)
    requires first != second
    ensures var history := map[
        first := [GameResult(2, ES, start), GameResult(3, ES, start + 1), GameResult(4, ES, start + 2)],
        second := [GameResult(1, ES, start), GameResult(7, ES, start + 1), GameResult(4, ES, start + 2)]];
      WellFormedHistory(history) &&
      LeaderboardAt([first, second], history, start, start + 7, [EN, ES], start + 2)
        == [Scoreboard(first, 19), Scoreboard(second, 22)]
  {
    var firstResults := [GameResult(2, ES, start), GameResult(3, ES, start + 1), GameResult(4, ES, start + 2)];
    var secondResults := [GameResult(1, ES, start), GameResult(7, ES, start + 1), GameResult(4, ES, start + 2)];
    var history := map[first := firstResults, second := secondResults];
    assert DaysPlayedAt(start, start + 7, start + 2) == Some(2);
    forall d: Date | d == start || d == start + 1
      ensures Lookup(firstResults, d, EN) == None && Lookup(secondResults, d, EN) == None
    {
    }
    LookupUnique(firstResults, start, ES, 0);
    LookupUnique(firstResults, start + 1, ES, 1);
    LookupUnique(secondResults, start, ES, 0);
    LookupUnique(secondResults, start + 1, ES, 1);
    assert [EN, ES][1..] == [ES];
    forall rs: seq<GameResult>, d: Date
      ensures DayScore(rs, d, [EN, ES]) == SlotScore(rs, d, EN) + SlotScore(rs, d, ES)
    {
      assert DayScore(rs, d, [ES]) == SlotScore(rs, d, ES) + DayScore(rs, d, []);
    }
    assert DayScore(firstResults, start, [EN, ES]) == 7 + 2;
    assert DayScore(firstResults, start + 1, [EN, ES]) == 7 + 3;
    assert DayScore(secondResults, start, [EN, ES]) == 7 + 1;
    assert DayScore(secondResults, start + 1, [EN, ES]) == 7 + 7;
    assert ScoreOver(firstResults, start, [EN, ES], 1) == 9;
    assert ScoreOver(secondResults, start, [EN, ES], 1) == 8;
    assert ScoreOver(firstResults, start, [EN, ES], 2) == 19;
    assert ScoreOver(secondResults, start, [EN, ES], 2) == 22;
    var boards := Boards([first, second], history, start, start + 7, [EN, ES], start + 2);
    assert boards == [Scoreboard(first, 19), Scoreboard(second, 22)];
    assert SortByScore(boards[1..]) == [Scoreboard(second, 22)];
  }
}

/**
 * The account ledger of server.js: the `users` table, keyed uniquely by
 * `student_id`, and the four request handlers that read and write it.
 *
 * The table is a map from student id to account, so the UNIQUE constraint
 * on `student_id` holds by construction. Timestamps (`CURRENT_TIMESTAMP`)
 * are the `now` parameter of the handlers that write them.
 */
module Ledger {
  import opened Wrappers
  import opened Text

  /** Column defaults of a new row. */
  const DEFAULT_CHIPS: int := 100

  /** `LIMIT 10` of the ranking query. */
  const RANKING_LIMIT: nat := 10

  /** One row of `users`, without its key. */
  datatype Account = Account(chips: int, totalWins: nat, totalLosses: nat, createdAt: int, lastLogin: int)

  /** The `user` object of a successful login reply. */
  datatype UserInfo = UserInfo(studentId: string, chips: int, totalWins: nat, totalLosses: nat, isNew: bool)

  /** The reply of the stats handler; the win rate is in tenths of a percent. */
  datatype Stats = Stats(
    studentId: string, chips: int, totalWins: nat, totalLosses: nat,
    winRateTenths: nat, createdAt: int, lastLogin: int)

  /** One row of the ranking query. */
  datatype RankingRow = RankingRow(studentId: string, chips: int, totalWins: nat, totalLosses: nat, winRateTenths: nat)

  /** The 400 reply (no student id) and the 404 reply (no such user). */
  datatype LedgerError = MissingStudentId | UserNotFound

  /**
   * The win rate `wins / (wins + losses) * 100` rounded half up to one
   * decimal, counted in tenths of a percent; 0 when no game was played.
   */
  function WinRateTenths(wins: nat, losses: nat): nat {
    if wins + losses == 0 then 0
    else (2000 * wins + (wins + losses)) / (2 * (wins + losses))
  }

  /**
   * The win rate is 0 with no games, is the nearest tenth of a percent
   * (halves rounded up) otherwise, lies between 0 and 100 percent, is 0
   * without wins and 100 percent without losses.
   */
  lemma WinRateBounds(wins: nat, losses: nat)
    ensures wins + losses == 0 ==> WinRateTenths(wins, losses) == 0
    ensures wins + losses > 0 ==>
      2 * WinRateTenths(wins, losses) * (wins + losses) <= 2000 * wins + (wins + losses)
      < 2 * (WinRateTenths(wins, losses) + 1) * (wins + losses)
    ensures WinRateTenths(wins, losses) <= 1000
    ensures wins == 0 ==> WinRateTenths(wins, losses) == 0
    ensures wins > 0 && losses == 0 ==> WinRateTenths(wins, losses) == 1000
  {
    var n := wins + losses;
    if n > 0 {
      var r := WinRateTenths(wins, losses);
      var a := 2000 * wins + n;
      DivisionBounds(a, 2 * n);
      assert 2000 * wins <= 2000 * n;
      QuotientBelow(a, 2 * n, 1001);
      if wins == 0 {
        QuotientBelow(a, 2 * n, 1);
      }
      if losses == 0 {
        assert a == 2 * n * 1000 + n;
        QuotientBelow(a, 2 * n, 1001);
        QuotientAtLeast(a, 2 * n, 1000);
      }
    }
  }

  /** Euclidean division of a natural number brackets it between two multiples. */
  lemma DivisionBounds(a: nat, b: nat)
    requires b > 0
    ensures b * (a / b) <= a < b * (a / b + 1)
  {
  }

  /** A quotient is below `k` when the dividend is below `b * k`. */
  lemma QuotientBelow(a: nat, b: nat, k: nat)
    requires b > 0 && a < b * k
    ensures a / b < k
  {
    DivisionBounds(a, b);
  }

  /** A quotient is at least `k` when the dividend is at least `b * k`. */
  lemma QuotientAtLeast(a: nat, b: nat, k: nat)
    requires b > 0 && b * k <= a
    ensures k <= a / b
  {
    DivisionBounds(a, b);
  }

  /** `!studentId || !studentId.trim()`: the login handler's 400 case. */
  predicate LoginIdMissing(studentId: Option<string>) {
    studentId.None? || Trim(studentId.value) == []
  }

  /** `!studentId`: the update handler's 400 case (absent or empty). */
  predicate UpdateIdMissing(studentId: Option<string>) {
    studentId.None? || studentId.value == []
  }

  /** The table after the login handler. */
  function AfterLogin(accounts: map<string, Account>, studentId: Option<string>, now: int): map<string, Account> {
    if LoginIdMissing(studentId) then accounts
    else if studentId.value in accounts then
      accounts[studentId.value := accounts[studentId.value].(lastLogin := now)]
    else
      accounts[studentId.value := Account(DEFAULT_CHIPS, 0, 0, now, now)]
  }

  /** The reply of the login handler. */
  function LoginReply(accounts: map<string, Account>, studentId: Option<string>): Result<UserInfo, LedgerError> {
    if LoginIdMissing(studentId) then Failure(MissingStudentId)
    else if studentId.value in accounts then
      var a := accounts[studentId.value];
      Success(UserInfo(studentId.value, a.chips, a.totalWins, a.totalLosses, false))
    else
      Success(UserInfo(studentId.value, DEFAULT_CHIPS, 0, 0, true))
  }

  /** The table after the update-chips handler. */
  function AfterUpdate(accounts: map<string, Account>, studentId: Option<string>, chips: int, isWin: bool): map<string, Account> {
    if UpdateIdMissing(studentId) || studentId.value !in accounts then accounts
    else
      var a := accounts[studentId.value];
      accounts[studentId.value :=
        if isWin then a.(chips := chips, totalWins := a.totalWins + 1)
        else a.(chips := chips, totalLosses := a.totalLosses + 1)]
  }

  /** The reply of the update-chips handler: the new balance, or why nothing changed. */
  function UpdateReply(accounts: map<string, Account>, studentId: Option<string>, chips: int): Result<int, LedgerError> {
    if UpdateIdMissing(studentId) then Failure(MissingStudentId)
    else if studentId.value !in accounts then Failure(UserNotFound)
    else Success(chips)
  }

  /** The reply of the stats handler. */
  function StatsOf(accounts: map<string, Account>, studentId: string): Result<Stats, LedgerError> {
    if studentId !in accounts then Failure(UserNotFound)
    else
      var a := accounts[studentId];
      Success(Stats(studentId, a.chips, a.totalWins, a.totalLosses,
                    WinRateTenths(a.totalWins, a.totalLosses), a.createdAt, a.lastLogin))
  }

  /** The ranking row of one account. */
  function RowOf(studentId: string, a: Account): RankingRow {
    RankingRow(studentId, a.chips, a.totalWins, a.totalLosses, WinRateTenths(a.totalWins, a.totalLosses))
  }

  /** `studentId` heads one of the rows. */
  predicate Listed(rows: seq<RankingRow>, studentId: string) {
    exists i :: 0 <= i < |rows| && rows[i].studentId == studentId
  }

  /**
   * What `ORDER BY chips DESC LIMIT 10` may return: as many rows as there
   * are accounts, up to 10, each the row of a distinct stored account, by
   * non-increasing chips, and no account left out has more chips than a row
   * listed. Ties may come in any order.
   */
  ghost predicate IsRanking(accounts: map<string, Account>, rows: seq<RankingRow>) {
    && |rows| == (if |accounts| < RANKING_LIMIT then |accounts| else RANKING_LIMIT)
    && (forall i :: 0 <= i < |rows| ==>
          rows[i].studentId in accounts && rows[i] == RowOf(rows[i].studentId, accounts[rows[i].studentId]))
    && (forall i, j :: 0 <= i < j < |rows| ==> rows[i].studentId != rows[j].studentId)
    && (forall i, j :: 0 <= i < j < |rows| ==> rows[i].chips >= rows[j].chips)
    && (forall id, i :: id in accounts && !Listed(rows, id) && 0 <= i < |rows| ==> accounts[id].chips <= rows[i].chips)
  }

  /** A login with a missing or blank id is refused and changes nothing. */
  lemma LoginRejectsBlank(accounts: map<string, Account>, studentId: Option<string>, now: int)
    requires studentId.None? || IsBlank(studentId.value)
    ensures LoginReply(accounts, studentId) == Failure(MissingStudentId)
    ensures AfterLogin(accounts, studentId, now) == accounts
  {
    if studentId.Some? {
      TrimEmptyIffBlank(studentId.value);
    }
  }

  /**
   * A first login inserts exactly one account, with 100 chips and no games,
   * reports it as new, and leaves every other account as it was.
   */
  lemma LoginCreates(accounts: map<string, Account>, id: string, now: int)
    requires !IsBlank(id) && id !in accounts
    ensures var after := AfterLogin(accounts, Some(id), now);
      && after.Keys == accounts.Keys + {id}
      && |after| == |accounts| + 1
      && after[id] == Account(DEFAULT_CHIPS, 0, 0, now, now)
      && (forall other :: other in accounts ==> after[other] == accounts[other])
    ensures LoginReply(accounts, Some(id)) == Success(UserInfo(id, DEFAULT_CHIPS, 0, 0, true))
  {
    TrimEmptyIffBlank(id);
  }

  /**
   * A later login returns the stored balance and counters, reports the
   * account as not new, and changes nothing but its last-login time.
   */
  lemma LoginKnown(accounts: map<string, Account>, id: string, now: int)
    requires !IsBlank(id) && id in accounts
    ensures var after := AfterLogin(accounts, Some(id), now);
      && after.Keys == accounts.Keys
      && after[id] == accounts[id].(lastLogin := now)
      && (forall other :: other in accounts && other != id ==> after[other] == accounts[other])
    ensures var a := accounts[id];
      LoginReply(accounts, Some(id)) == Success(UserInfo(id, a.chips, a.totalWins, a.totalLosses, false))
  {
    TrimEmptyIffBlank(id);
  }

  /**
   * Any login with a non-blank id succeeds, and the reply carries the
   * balance and counters that the table then holds for that id.
   */
  lemma LoginReplyMatchesTable(accounts: map<string, Account>, id: string, now: int)
    requires !IsBlank(id)
    ensures var reply := LoginReply(accounts, Some(id));
      var after := AfterLogin(accounts, Some(id), now);
      && reply.Success? && reply.value.studentId == id && id in after
      && reply.value.chips == after[id].chips
      && reply.value.totalWins == after[id].totalWins
      && reply.value.totalLosses == after[id].totalLosses
  {
    if id in accounts {
      LoginKnown(accounts, id, now);
    } else {
      LoginCreates(accounts, id, now);
    }
  }

  /**
   * Recording a result for a stored account sets its balance, adds one to
   * exactly one of its counters, and leaves everything else unchanged.
   */
  lemma UpdateIncrementsOneCounter(accounts: map<string, Account>, id: string, chips: int, isWin: bool)
    requires id != [] && id in accounts
    ensures var after := AfterUpdate(accounts, Some(id), chips, isWin);
      && after.Keys == accounts.Keys
      && after[id].chips == chips
      && after[id].totalWins == accounts[id].totalWins + (if isWin then 1 else 0)
      && after[id].totalLosses == accounts[id].totalLosses + (if isWin then 0 else 1)
      && after[id].createdAt == accounts[id].createdAt
      && after[id].lastLogin == accounts[id].lastLogin
      && (forall other :: other in accounts && other != id ==> after[other] == accounts[other])
    ensures UpdateReply(accounts, Some(id), chips) == Success(chips)
  {
  }

  /** Recording a result for a missing or unknown id changes nothing and says why. */
  lemma UpdateRejects(accounts: map<string, Account>, studentId: Option<string>, chips: int, isWin: bool)
    requires UpdateIdMissing(studentId) || studentId.value !in accounts
    ensures AfterUpdate(accounts, studentId, chips, isWin) == accounts
    ensures UpdateReply(accounts, studentId, chips) ==
      if UpdateIdMissing(studentId) then Failure(MissingStudentId) else Failure(UserNotFound)
  {
  }

  /**
   * Right after a first login the stats show 100 chips, no wins, no
   * losses and a win rate of 0.
   */
  lemma StatsAfterFirstLogin(accounts: map<string, Account>, id: string, now: int)
    requires !IsBlank(id) && id !in accounts
    ensures StatsOf(AfterLogin(accounts, Some(id), now), id) ==
      Success(Stats(id, DEFAULT_CHIPS, 0, 0, 0, now, now))
  {
    LoginCreates(accounts, id, now);
  }

  /**
   * Logging in twice: the first reply is a new account with 100 chips, the
   * second returns the same balance and is not new.
   */
  lemma LoginTwice(accounts: map<string, Account>, id: string, first: int, second: int)
    requires !IsBlank(id) && id !in accounts
    ensures LoginReply(accounts, Some(id)) == Success(UserInfo(id, DEFAULT_CHIPS, 0, 0, true))
    ensures LoginReply(AfterLogin(accounts, Some(id), first), Some(id)) ==
      Success(UserInfo(id, DEFAULT_CHIPS, 0, 0, false))
  {
    LoginCreates(accounts, id, first);
    LoginKnown(AfterLogin(accounts, Some(id), first), id, second);
  }

  /**
   * Stats for an unknown id are "not found"; for a stored account they
   * repeat its balance and counters, with a win rate of 0 before any game.
   */
  lemma StatsLookup(accounts: map<string, Account>, id: string)
    ensures StatsOf(accounts, id).Failure? <==> id !in accounts
    ensures id in accounts ==>
      var s := StatsOf(accounts, id).value;
      && s.chips == accounts[id].chips
      && s.totalWins == accounts[id].totalWins
      && s.totalLosses == accounts[id].totalLosses
      && (s.totalWins + s.totalLosses == 0 ==> s.winRateTenths == 0)
  {
  }

  /**
   * A first loss recorded right after a first login: the stats show the new
   * balance, no wins and one loss.
   */
  lemma FirstLossAfterLogin(accounts: map<string, Account>, id: string, now: int, chips: int)
    requires !IsBlank(id) && id !in accounts
    ensures StatsOf(AfterUpdate(AfterLogin(accounts, Some(id), now), Some(id), chips, false), id) ==
      Success(Stats(id, chips, 0, 1, 0, now, now))
  {
    LoginCreates(accounts, id, now);
    WinRateBounds(0, 1);
  }

  /**
   * Three accounts holding 50, 200 and 10 chips are ranked 200, 50, 10,
   * whichever order the query returns ties in.
   */
  lemma RankingOfThree(rows: seq<RankingRow>, a: Account, b: Account, c: Account)
    requires a.chips == 50 && b.chips == 200 && c.chips == 10
    requires IsRanking(map["S001" := a, "S002" := b, "S003" := c], rows)
    ensures |rows| == 3
    ensures rows[0].studentId == "S002" && rows[1].studentId == "S001" && rows[2].studentId == "S003"
    ensures rows[0].chips == 200 && rows[1].chips == 50 && rows[2].chips == 10
  {
    var m := map["S001" := a, "S002" := b, "S003" := c];
    assert m.Keys == {"S001", "S002", "S003"};
    assert |m| == 3;
  }

  /**
   * Part way through the ranking: `rows` are the richest accounts picked so
   * far, in order, and `remaining` are the accounts not picked yet, none of
   * them richer than a picked one.
   */
  ghost predicate RankingSoFar(accounts: map<string, Account>, rows: seq<RankingRow>, remaining: set<string>) {
    && remaining <= accounts.Keys
    && |rows| + |remaining| == |accounts|
    && (forall i :: 0 <= i < |rows| ==>
          rows[i].studentId in accounts && rows[i].studentId !in remaining &&
          rows[i] == RowOf(rows[i].studentId, accounts[rows[i].studentId]))
    && (forall i, j :: 0 <= i < j < |rows| ==> rows[i].studentId != rows[j].studentId)
    && (forall i, j :: 0 <= i < j < |rows| ==> rows[i].chips >= rows[j].chips)
    && (forall id :: id in accounts && id !in remaining ==> Listed(rows, id))
    && (forall id, i :: id in remaining && 0 <= i < |rows| ==> accounts[id].chips <= rows[i].chips)
  }

  /** Picking the richest remaining account extends the ranking by one row. */
  lemma RankingStep(accounts: map<string, Account>, rows: seq<RankingRow>, remaining: set<string>, top: string)
    requires RankingSoFar(accounts, rows, remaining)
    requires top in remaining
    requires forall id :: id in remaining ==> accounts[id].chips <= accounts[top].chips
    ensures RankingSoFar(accounts, rows + [RowOf(top, accounts[top])], remaining - {top})
  {
    var row := RowOf(top, accounts[top]);
    var next, left := rows + [row], remaining - {top};
    assert |left| == |remaining| - 1;
    forall i | 0 <= i < |next|
      ensures next[i].studentId in accounts && next[i].studentId !in left
      ensures next[i] == RowOf(next[i].studentId, accounts[next[i].studentId])
    {
      if i < |rows| {
        assert next[i] == rows[i];
      }
    }
    forall i, j | 0 <= i < j < |next|
      ensures next[i].studentId != next[j].studentId && next[i].chips >= next[j].chips
    {
      assert next[i] == rows[i];
      if j == |rows| {
        assert rows[i].studentId !in remaining;
        assert accounts[top].chips <= rows[i].chips;
      } else {
        assert next[j] == rows[j];
      }
    }
    forall id | id in accounts && id !in left
      ensures Listed(next, id)
    {
      if id == top {
        assert next[|rows|].studentId == id;
      } else {
        var i :| 0 <= i < |rows| && rows[i].studentId == id;
        assert next[i].studentId == id;
      }
    }
    forall id, i | id in left && 0 <= i < |next|
      ensures accounts[id].chips <= next[i].chips
    {
      if i < |rows| {
        assert next[i] == rows[i];
      }
    }
  }

  /** Once ten rows are picked or no account remains, the rows are a ranking. */
  lemma RankingDone(accounts: map<string, Account>, rows: seq<RankingRow>, remaining: set<string>)
    requires RankingSoFar(accounts, rows, remaining)
    requires |rows| <= RANKING_LIMIT && (|rows| == RANKING_LIMIT || remaining == {})
    ensures IsRanking(accounts, rows)
  {
    assert |accounts| == |accounts.Keys|;
  }

  /** The `users` table and its handlers. */
  class Store {
    var accounts: map<string, Account>

    /** Only the login handler inserts, and it refuses blank ids. */
    ghost predicate Valid()
      reads this
    {
      forall id :: id in accounts ==> !IsBlank(id)
    }

    constructor ()
      ensures Valid() && accounts == map[]
    {
      accounts := map[];
    }

    /** `POST /api/login`: log in, creating the account on first use. */
    method Login(studentId: Option<string>, now: int) returns (r: Result<UserInfo, LedgerError>)
      requires Valid()
      modifies this
      ensures Valid()
      ensures accounts == AfterLogin(old(accounts), studentId, now)
      ensures r == LoginReply(old(accounts), studentId)
    {
      if studentId.None? || Trim(studentId.value) == [] {
        return Failure(MissingStudentId);
      }
      var id := studentId.value;
      TrimEmptyIffBlank(id);
      if id in accounts {
        var a := accounts[id];
        accounts := accounts[id := a.(lastLogin := now)];
        r := Success(UserInfo(id, a.chips, a.totalWins, a.totalLosses, false));
      } else {
        accounts := accounts[id := Account(DEFAULT_CHIPS, 0, 0, now, now)];
        r := Success(UserInfo(id, DEFAULT_CHIPS, 0, 0, true));
      }
    }

    /** `POST /api/update-chips`: store a spin's new balance and count it as a win or a loss. */
    method UpdateChips(studentId: Option<string>, chips: int, isWin: bool) returns (r: Result<int, LedgerError>)
      requires Valid()
      modifies this
      ensures Valid()
      ensures accounts == AfterUpdate(old(accounts), studentId, chips, isWin)
      ensures r == UpdateReply(old(accounts), studentId, chips)
    {
      if studentId.None? || studentId.value == [] {
        return Failure(MissingStudentId);
      }
      var id := studentId.value;
      if id !in accounts {
        return Failure(UserNotFound);
      }
      var a := accounts[id];
      if isWin {
        accounts := accounts[id := a.(chips := chips, totalWins := a.totalWins + 1)];
      } else {
        accounts := accounts[id := a.(chips := chips, totalLosses := a.totalLosses + 1)];
      }
      r := Success(chips);
    }

    /** `GET /api/stats/:studentId`. */
    method GetStats(studentId: string) returns (r: Result<Stats, LedgerError>)
      ensures r == StatsOf(accounts, studentId)
    {
      if studentId !in accounts {
        return Failure(UserNotFound);
      }
      var a := accounts[studentId];
      r := Success(Stats(studentId, a.chips, a.totalWins, a.totalLosses,
                         WinRateTenths(a.totalWins, a.totalLosses), a.createdAt, a.lastLogin));
    }

    /**
     * `GET /api/ranking`: the query's ORDER BY and LIMIT, evaluated by
     * taking a richest remaining account until ten rows are taken or none
     * remain.
     */
    method Ranking() returns (rows: seq<RankingRow>)
      ensures IsRanking(accounts, rows)
    {
      var remaining := accounts.Keys;
      rows := [];
      assert |accounts| == |accounts.Keys|;
      while |rows| < RANKING_LIMIT && remaining != {}
        invariant RankingSoFar(accounts, rows, remaining)
        invariant |rows| <= RANKING_LIMIT
        decreases remaining
      {
        var top := Richest(remaining);
        RankingStep(accounts, rows, remaining, top);
        rows := rows + [RowOf(top, accounts[top])];
        remaining := remaining - {top};
      }
      RankingDone(accounts, rows, remaining);
    }

    /** An account of `candidates` with the most chips. */
    method Richest(candidates: set<string>) returns (top: string)
      requires candidates != {} && candidates <= accounts.Keys
      ensures top in candidates
      ensures forall id :: id in candidates ==> accounts[id].chips <= accounts[top].chips
    {
      var rest := candidates;
      top :| top in rest;
      rest := rest - {top};
      while rest != {}
        invariant rest <= candidates && top in candidates
        invariant forall id :: id in candidates - rest ==> accounts[id].chips <= accounts[top].chips
        decreases rest
      {
        var next :| next in rest;
        if accounts[next].chips > accounts[top].chips {
          top := next;
        }
        rest := rest - {next};
      }
    }
  }
}

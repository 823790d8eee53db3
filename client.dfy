/**
 * The client state of `SlotMachine` (main.jsx) that the spin, the result
 * bookkeeping, login and logout change. Each `useState` variable is a field;
 * the spin's animation is not modelled, so a spin is one atomic step and
 * `isSpinning` is false between steps.
 */
module Client {
  import opened Wrappers
  import opened Symbols
  import opened Engine
  import opened Ledger

  /** The guest's starting balance, restored on logout. */
  const GUEST_CHIPS: int := 100

  /** The win probability, in percent, before an administrator moves the slider. */
  const DEFAULT_WIN_PROBABILITY: int := 25

  /** The reels shown before the first spin. */
  const INITIAL_REELS: Reels := Reels(Apple, Orange, Lemon)

  /** The message line under the reels. */
  datatype Message =
    | NoMessage
    | InsufficientChipsMessage
    | WinMessage(amount: int)
    | LoseMessage
    | NewUserMessage
    | WelcomeBackMessage
    | LoginFailedMessage

  /** The body of the `update-chips` request a spin by a logged-in player sends. */
  datatype Report = Report(studentId: string, chips: int, isWin: bool)

  /** The stats shown after a recorded result: new balance, one more win or one more loss. */
  function CountResult(stats: UserInfo, newChips: int, isWin: bool): (r: UserInfo)
    ensures r.studentId == stats.studentId && r.isNew == stats.isNew && r.chips == newChips
    ensures r.totalWins + r.totalLosses == stats.totalWins + stats.totalLosses + 1
    ensures isWin ==> r.totalWins == stats.totalWins + 1 && r.totalLosses == stats.totalLosses
    ensures !isWin ==> r.totalLosses == stats.totalLosses + 1 && r.totalWins == stats.totalWins
  {
    stats.(chips := newChips,
           totalWins := stats.totalWins + (if isWin then 1 else 0),
           totalLosses := stats.totalLosses + (if isWin then 0 else 1))
  }

  class SlotMachine {
    var user: Option<UserInfo>
    var chips: int
    var currentBet: int
    var reels: Reels
    var isSpinning: bool
    var result: Message
    var userStats: Option<UserInfo>
    var showStats: bool
    var winProbability: int

    /**
     * The bet is one of the three bet buttons, the reels show symbols, the
     * probability is in the slider's range, no spin is in flight between
     * steps, and stats are held exactly while someone is logged in.
     */
    ghost predicate Valid()
      reads this
    {
      && 1 <= currentBet <= 3
      && IsReels(reels)
      && 1 <= winProbability <= 50
      && !isSpinning
      && (user.Some? <==> userStats.Some?)
    }

    /** The initial `useState` values: a guest with 100 chips. */
    constructor ()
      ensures Valid()
      ensures user == None && userStats == None && chips == GUEST_CHIPS && currentBet == 1
      ensures reels == INITIAL_REELS && result == NoMessage && !showStats
      ensures winProbability == DEFAULT_WIN_PROBABILITY
    {
      user := None;
      chips := GUEST_CHIPS;
      currentBet := 1;
      reels := INITIAL_REELS;
      isSpinning := false;
      result := NoMessage;
      userStats := None;
      showStats := false;
      winProbability := DEFAULT_WIN_PROBABILITY;
    }

    /** A bet button. */
    method SetBet(bet: int)
      requires Valid() && 1 <= bet <= 3
      modifies this`currentBet
      ensures Valid() && currentBet == bet
    {
      currentBet := bet;
    }

    /** The administrator's win-probability slider. */
    method SetWinProbability(p: int)
      requires Valid() && 1 <= p <= 50
      modifies this`winProbability
      ensures Valid() && winProbability == p
    {
      winProbability := p;
    }

    /**
     * `spin`: refuse a bet the balance cannot cover; otherwise deduct it,
     * decide a forced win or loss, show the final reels and credit the
     * payout. For a logged-in player it also hands back the `update-chips`
     * request to send.
     */
    method Spin(d: Draws) returns (report: Option<Report>)
      requires Valid() && EnoughDraws(d.reelDraws) && DrawnFromSymbols(d.reelDraws)
      modifies this
      ensures Valid()
      ensures user == old(user) && userStats == old(userStats) && showStats == old(showStats)
      ensures currentBet == old(currentBet) && winProbability == old(winProbability)
      ensures match SpinOutcome(old(chips), old(currentBet), old(winProbability), d)
        case InsufficientChips =>
          chips == old(chips) && reels == old(reels) && result == InsufficientChipsMessage && report == None
        case Spun(_, finalReels, winAmount, finalChips, isWin) =>
          && chips == finalChips && reels == finalReels
          && result == (if isWin then WinMessage(winAmount) else LoseMessage)
          && report == (if old(user).Some? then Some(Report(old(user).value.studentId, finalChips, isWin)) else None)
      ensures old(chips) >= old(currentBet) ==> chips >= 0
    {
      if chips < currentBet {
        result := InsufficientChipsMessage;
        return None;
      }
      SpinBalance(chips, currentBet, winProbability, d);
      FinalReelsAreSymbols(winProbability, d);
      isSpinning := true;
      result := NoMessage;
      var newChips := chips - currentBet;
      chips := newChips;

      var finalReels: Reels;
      if ShouldWin(d.roll, winProbability) {
        finalReels := WINNING_COMBINATIONS[d.winPick];
      } else {
        var attempts;
        finalReels, attempts := DrawLosingReels(d.reelDraws);
      }
      reels := finalReels;
      isSpinning := false;

      var payout := Payout(finalReels);
      if payout.Some? && payout.value != 0 {
        var winAmount := currentBet * payout.value;
        var finalChips := newChips + winAmount;
        chips := finalChips;
        result := WinMessage(winAmount);
        report := if user.Some? then Some(Report(user.value.studentId, finalChips, true)) else None;
      } else {
        result := LoseMessage;
        report := if user.Some? then Some(Report(user.value.studentId, newChips, false)) else None;
      }
    }

    /**
     * `updateChips` after the server answered: a guest sends nothing; when
     * the server accepted the result, the shown stats take the new balance
     * and one more win or one more loss.
     */
    method RecordResult(newChips: int, isWin: bool, accepted: bool)
      requires Valid()
      modifies this`userStats
      ensures Valid()
      ensures userStats ==
        if user.Some? && accepted && old(userStats).Some?
        then Some(CountResult(old(userStats).value, newChips, isWin))
        else old(userStats)
    {
      if user.None? {
        return;
      }
      if accepted && userStats.Some? {
        userStats := Some(CountResult(userStats.value, newChips, isWin));
      }
    }

    /** `handleLogin` after a successful reply: adopt the server's balance and stats. */
    method LoginSucceeded(info: UserInfo)
      requires Valid()
      modifies this`user, this`chips, this`userStats, this`result
      ensures Valid()
      ensures user == Some(info) && chips == info.chips && userStats == Some(info)
      ensures result == if info.isNew then NewUserMessage else WelcomeBackMessage
    {
      user := Some(info);
      chips := info.chips;
      userStats := Some(info);
      result := if info.isNew then NewUserMessage else WelcomeBackMessage;
    }

    /** `handleLogin` after a refused reply. */
    method LoginFailed()
      requires Valid()
      modifies this`result
      ensures Valid() && result == LoginFailedMessage
    {
      result := LoginFailedMessage;
    }

    /** `handleLogout`: back to a guest with 100 chips and no stats. */
    method Logout()
      requires Valid()
      modifies this`user, this`chips, this`result, this`userStats, this`showStats
      ensures Valid()
      ensures user == None && chips == GUEST_CHIPS && result == NoMessage
      ensures userStats == None && !showStats
    {
      user := None;
      chips := GUEST_CHIPS;
      result := NoMessage;
      userStats := None;
      showStats := false;
    }
  }
}

/**
 * The client and the ledger together: a login from the form, a spin whose
 * result the client reports with `update-chips`, and a logout. Requests
 * are handled one at a time, as the single-threaded client issues them.
 */
module Session {
  import opened Wrappers
  import opened Text
  import opened Engine
  import opened Ledger
  import opened Client

  /**
   * What the player sees while logged in is what the ledger holds: the
   * balance, and in the stats the balance and both counters.
   */
  ghost predicate Synced(c: SlotMachine, s: Store)
    reads c, s
  {
    c.user.Some? ==>
      var id := c.user.value.studentId;
      && id in s.accounts
      && c.userStats.Some?
      && c.chips == s.accounts[id].chips
      && c.userStats.value.chips == c.chips
      && c.userStats.value.totalWins == s.accounts[id].totalWins
      && c.userStats.value.totalLosses == s.accounts[id].totalLosses
  }

  /**
   * `handleLogin` and the login handler: a blank form does nothing;
   * otherwise the trimmed id is sent, the server never refuses it, and the
   * client adopts the stored account.
   */
  method LogIn(c: SlotMachine, s: Store, typed: string, now: int)
    requires c.Valid() && s.Valid()
    modifies c, s
    ensures c.Valid() && s.Valid()
    ensures IsBlank(typed) ==> unchanged(c) && unchanged(s)
    ensures !IsBlank(typed) ==>
      && s.accounts == AfterLogin(old(s.accounts), Some(Trim(typed)), now)
      && LoginReply(old(s.accounts), Some(Trim(typed))).Success?
      && c.user == Some(LoginReply(old(s.accounts), Some(Trim(typed))).value)
      && c.user.value.studentId == Trim(typed)
      && c.result == (if c.user.value.isNew then NewUserMessage else WelcomeBackMessage)
      && Synced(c, s)
    ensures c.reels == old(c.reels) && c.currentBet == old(c.currentBet)
    ensures c.winProbability == old(c.winProbability) && c.showStats == old(c.showStats)
  {
    // `!studentId.trim()`, stated as `IsBlank` (see `TrimEmptyIffBlank`).
    if IsBlank(typed) {
      return;
    }
    TrimOfNonBlank(typed);
    AdoptLogin(c, s, Trim(typed), now);
  }

  /**
   * The login request with an id that is already trimmed and not blank: the
   * server answers with the stored or new account, never with the 400 reply
   * (the client's `LoginFailed`), and the client adopts it.
   */
  method AdoptLogin(c: SlotMachine, s: Store, id: string, now: int)
    requires c.Valid() && s.Valid() && !IsBlank(id)
    modifies c, s
    ensures c.Valid() && s.Valid()
    ensures s.accounts == AfterLogin(old(s.accounts), Some(id), now)
    ensures LoginReply(old(s.accounts), Some(id)).Success?
    ensures c.user == Some(LoginReply(old(s.accounts), Some(id)).value) && c.user.value.studentId == id
    ensures c.result == (if c.user.value.isNew then NewUserMessage else WelcomeBackMessage)
    ensures Synced(c, s)
    ensures c.reels == old(c.reels) && c.currentBet == old(c.currentBet)
    ensures c.winProbability == old(c.winProbability) && c.showStats == old(c.showStats)
  {
    assert c as object != s as object;
    var info := RequestLogin(s, id, now);
    c.LoginSucceeded(info);
  }

  /**
   * The login request and its reply: a trimmed, non-blank id always gets a
   * success reply, and the reply carries what the table then holds for it.
   */
  method RequestLogin(s: Store, id: string, now: int) returns (info: UserInfo)
    requires s.Valid() && !IsBlank(id)
    modifies s
    ensures s.Valid()
    ensures s.accounts == AfterLogin(old(s.accounts), Some(id), now)
    ensures LoginReply(old(s.accounts), Some(id)) == Success(info)
    ensures info.studentId == id && id in s.accounts
    ensures info.chips == s.accounts[id].chips
    ensures info.totalWins == s.accounts[id].totalWins && info.totalLosses == s.accounts[id].totalLosses
  {
    LoginReplyMatchesTable(s.accounts, id, now);
    var reply := s.Login(Some(id), now);
    info := reply.value;
  }

  /**
   * One spin followed, for a logged-in player, by its `update-chips`
   * request and the stats update: the ledger changes only for the player's
   * account, exactly as recording that spin's result prescribes, and the
   * client stays in step with it. A guest's spin never reaches the ledger.
   */
  method PlaySpin(c: SlotMachine, s: Store, d: Draws)
    requires c.Valid() && s.Valid() && Synced(c, s)
    requires EnoughDraws(d.reelDraws) && DrawnFromSymbols(d.reelDraws)
    modifies c, s
    ensures c.Valid() && s.Valid() && Synced(c, s)
    ensures c.user == old(c.user) && c.currentBet == old(c.currentBet)
    ensures c.winProbability == old(c.winProbability) && c.showStats == old(c.showStats)
    ensures match SpinOutcome(old(c.chips), old(c.currentBet), old(c.winProbability), d)
      case InsufficientChips =>
        && s.accounts == old(s.accounts)
        && c.chips == old(c.chips) && c.reels == old(c.reels) && c.userStats == old(c.userStats)
        && c.result == InsufficientChipsMessage
      case Spun(_, finalReels, winAmount, finalChips, isWin) =>
        && c.chips == finalChips >= 0
        && c.reels == finalReels
        && c.result == (if isWin then WinMessage(winAmount) else LoseMessage)
        && s.accounts ==
          (if old(c.user).Some? then AfterUpdate(old(s.accounts), Some(old(c.user).value.studentId), finalChips, isWin)
           else old(s.accounts))
        && c.userStats ==
          (if old(c.user).Some? then Some(CountResult(old(c.userStats).value, finalChips, isWin))
           else old(c.userStats))
  {
    var report := c.Spin(d);
    if report.Some? {
      var id := report.value.studentId;
      assert !IsBlank(id);
      assert c as object != s as object;
      var reply := s.UpdateChips(Some(id), report.value.chips, report.value.isWin);
      c.RecordResult(report.value.chips, report.value.isWin, reply.Success?);
    }
  }

  /** `handleLogout`: the session returns to a guest and the ledger keeps the account. */
  method LogOut(c: SlotMachine, s: Store)
    requires c.Valid() && s.Valid()
    modifies c
    ensures c.Valid() && Synced(c, s) && s.accounts == old(s.accounts)
    ensures c.user == None && c.chips == GUEST_CHIPS && c.userStats == None
    ensures c.result == NoMessage && !c.showStats
    ensures c.reels == old(c.reels) && c.currentBet == old(c.currentBet)
    ensures c.winProbability == old(c.winProbability)
  {
    c.Logout();
  }
}

/**
 * The buyer record's PIN lockout and its close (anonymisation), as the
 * buyer model tests pin them down: a failure counter with a lockout
 * threshold, a lockout timestamp that expires after a configured length,
 * a sticky "was locked out" flag, and an irreversible close.
 *
 * Timestamps are integer seconds and the clock is a parameter `now`; the
 * settings PIN_FAILURES and PIN_FAILURE_LENGTH are the parameters `limit`
 * and `length`; the random part of an anonymised uuid is the parameter
 * `suffix`, and the ANONYMISED prefix the parameter `anonymised`.
 */
module Buyers {
  import opened Wrappers

  /** What `close` did: closed the buyer, or raised `ValueError` for one already closed. */
  datatype CloseResult = Closed | AlreadyClosed

  class Buyer {
    var pinFailures: nat
    var pinLockedOut: Option<int>
    var pinWasLockedOut: bool
    var active: bool
    var email: string
    var emailSig: string
    var uuid: string

    /** `Buyer.objects.create(uuid=..., email=...)`: an active buyer with no failures and no lockout. */
    constructor (uuid: string, email: string, emailSig: string)
      ensures this.uuid == uuid && this.email == email && this.emailSig == emailSig && active
      ensures pinFailures == 0 && pinLockedOut == None && !pinWasLockedOut
    {
      this.uuid := uuid;
      this.email := email;
      this.emailSig := emailSig;
      active := true;
      pinFailures := 0;
      pinLockedOut := None;
      pinWasLockedOut := false;
    }

    /**
     * `incr_lockout`: one more failure; once the count reaches the threshold
     * the buyer is locked out from `now` on, marked as having been locked
     * out, and the caller is told so.
     */
    method IncrLockout(limit: nat, now: int) returns (locked: bool)
      modifies this
      ensures pinFailures == old(pinFailures) + 1
      ensures locked <==> pinFailures >= limit
      ensures locked ==> pinLockedOut == Some(now) && pinWasLockedOut
      ensures !locked ==> pinLockedOut == old(pinLockedOut) && pinWasLockedOut == old(pinWasLockedOut)
      ensures active == old(active) && email == old(email) && emailSig == old(emailSig) && uuid == old(uuid)
    {
      pinFailures := pinFailures + 1;
      locked := pinFailures >= limit;
      if locked {
        pinLockedOut := Some(now);
        pinWasLockedOut := true;
      }
    }

    /** `clear_lockout(clear_was_locked)`: no failures and no lockout; the sticky flag goes only on request. */
    method ClearLockout(clearWasLocked: bool)
      modifies this
      ensures pinFailures == 0 && pinLockedOut == None
      ensures pinWasLockedOut == (!clearWasLocked && old(pinWasLockedOut))
      ensures active == old(active) && email == old(email) && emailSig == old(emailSig) && uuid == old(uuid)
    {
      pinFailures := 0;
      pinLockedOut := None;
      if clearWasLocked {
        pinWasLockedOut := false;
      }
    }

    /**
     * The `locked_out` property: false without a lockout; true while the
     * lockout is younger than `length`; once it is older, false, and the
     * read clears the lockout as `clear_lockout()` does.
     */
    method LockedOut(length: int, now: int) returns (locked: bool)
      modifies this
      ensures old(pinLockedOut).None? ==> !locked
      ensures old(pinLockedOut).Some? && now - old(pinLockedOut).value < length ==> locked
      ensures old(pinLockedOut).Some? && now - old(pinLockedOut).value > length ==> !locked
      ensures locked || old(pinLockedOut).None? ==>
        pinFailures == old(pinFailures) && pinLockedOut == old(pinLockedOut)
      ensures !locked && old(pinLockedOut).Some? ==> pinFailures == 0 && pinLockedOut == None
      ensures pinWasLockedOut == old(pinWasLockedOut)
      ensures active == old(active) && email == old(email) && emailSig == old(emailSig) && uuid == old(uuid)
    {
      if pinLockedOut.None? {
        return false;
      }
      if now - pinLockedOut.value > length {
        ClearLockout(false);
        return false;
      }
      locked := true;
    }

    /**
     * `close`: an active buyer becomes inactive, loses its email and email
     * signature, and gets an anonymised uuid; closing again is an error.
     */
    method Close(anonymised: string, suffix: string) returns (r: CloseResult)
      modifies this
      ensures !old(active) ==> r == AlreadyClosed && unchanged(this)
      ensures old(active) ==> r == Closed && !active && email == "" && emailSig == ""
      ensures old(active) ==> uuid == anonymised + suffix && anonymised <= uuid
      ensures pinFailures == old(pinFailures) && pinLockedOut == old(pinLockedOut)
      ensures pinWasLockedOut == old(pinWasLockedOut)
    {
      if !active {
        return AlreadyClosed;
      }
      active := false;
      email := "";
      emailSig := "";
      uuid := anonymised + suffix;
      r := Closed;
    }
  }

  // ---------------------------------------------------------------------
  // The lockout and close cases of the buyer model tests, each on a fresh buyer.
  // ---------------------------------------------------------------------

  /** No lockout is not locked out; a lockout stamped now is. */
  method ScenarioLockedOut(uuid: string, length: int, now: int) returns (before: bool, after: bool)
    requires length > 0
    ensures !before && after
  {
    var buyer := new Buyer(uuid, "", "");
    before := buyer.LockedOut(length, now);
    buyer.pinLockedOut := Some(now);
    after := buyer.LockedOut(length, now);
  }

  /**
   * `limit` failures in a row: each adds one to the count; every call but
   * the last answers false and leaves no lockout; the last answers true and
   * sets the lockout and the sticky flag.
   */
  method ScenarioIncrement(uuid: string, limit: nat, now: int)
    returns (answers: seq<bool>, counts: seq<nat>, stamped: seq<bool>, wasLockedOut: bool)
    ensures |answers| == |counts| == |stamped| == limit
    ensures forall x | 0 <= x < limit :: counts[x] == x + 1
    ensures forall x | 0 <= x < limit - 1 :: !answers[x] && !stamped[x]
    ensures limit > 0 ==> answers[limit - 1] && stamped[limit - 1] && wasLockedOut
  {
    var buyer := new Buyer(uuid, "", "");
    answers, counts, stamped := [], [], [];
    var x := 1;
    while x <= limit
      invariant 1 <= x <= limit + 1
      invariant |answers| == |counts| == |stamped| == x - 1
      invariant buyer.pinFailures == x - 1
      invariant x <= limit ==> buyer.pinLockedOut == None
      invariant forall y | 0 <= y < x - 1 :: counts[y] == y + 1
      invariant forall y | 0 <= y < x - 1 && y < limit - 1 :: !answers[y] && !stamped[y]
      invariant x == limit + 1 && limit > 0 ==> answers[limit - 1] && stamped[limit - 1] && buyer.pinWasLockedOut
    {
      var res := buyer.IncrLockout(limit, now);
      answers := answers + [res];
      counts := counts + [buyer.pinFailures];
      stamped := stamped + [buyer.pinLockedOut.Some?];
      x := x + 1;
    }
    wasLockedOut := buyer.pinWasLockedOut;
  }

  /** A failure past the threshold marks the buyer, and a default clear keeps the mark. */
  method ScenarioWasLockedOut(uuid: string, limit: nat, now: int) returns (afterIncr: bool, afterClear: bool)
    ensures afterIncr && afterClear
  {
    var buyer := new Buyer(uuid, "", "");
    buyer.pinFailures := limit;
    var _ := buyer.IncrLockout(limit, now);
    afterIncr := buyer.pinWasLockedOut;
    buyer.ClearLockout(false);
    afterClear := buyer.pinWasLockedOut;
  }

  /** A clear asked to clear the mark removes it. */
  method ScenarioClearWasLockedOut(uuid: string, limit: nat, now: int) returns (afterIncr: bool, afterClear: bool)
    ensures afterIncr && !afterClear
  {
    var buyer := new Buyer(uuid, "", "");
    buyer.pinFailures := limit;
    var _ := buyer.IncrLockout(limit, now);
    afterIncr := buyer.pinWasLockedOut;
    buyer.ClearLockout(true);
    afterClear := buyer.pinWasLockedOut;
  }

  /** A lockout a minute short of its length still holds. */
  method ScenarioUnderTimeout(uuid: string, length: int, now: int) returns (locked: bool)
    ensures locked
  {
    var buyer := new Buyer(uuid, "", "");
    buyer.pinLockedOut := Some(now - (length - 60));
    locked := buyer.LockedOut(length, now);
  }

  /** A lockout a minute past its length has expired, and reading it cleared the stamp. */
  method ScenarioOverTimeout(uuid: string, length: int, now: int) returns (locked: bool, stamp: Option<int>)
    ensures !locked && stamp == None
  {
    var buyer := new Buyer(uuid, "", "");
    buyer.pinLockedOut := Some(now - (length + 60));
    locked := buyer.LockedOut(length, now);
    stamp := buyer.pinLockedOut;
  }

  /** Closing anonymises: inactive, no email, no signature, a uuid with the ANONYMISED prefix. */
  method ScenarioClose(uuid: string, email: string, emailSig: string, anonymised: string, suffix: string)
    returns (active: bool, closedEmail: string, closedSig: string, closedUuid: string)
    ensures !active && closedEmail == "" && closedSig == "" && anonymised <= closedUuid
  {
    var buyer := new Buyer(uuid, email, emailSig);
    var _ := buyer.Close(anonymised, suffix);
    active, closedEmail, closedSig, closedUuid := buyer.active, buyer.email, buyer.emailSig, buyer.uuid;
  }

  /** A second close fails. */
  method ScenarioRepeatClose(uuid: string, email: string, anonymised: string, suffix: string)
    returns (first: CloseResult, second: CloseResult)
    ensures first == Closed && second == AlreadyClosed
  {
    var buyer := new Buyer(uuid, email, "");
    first := buyer.Close(anonymised, suffix);
    second := buyer.Close(anonymised, suffix);
  }
}

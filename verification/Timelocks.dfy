/** The timelock ladder (htlc-timelock.ts) and the lock check before a reveal
    (htlc-evm-lock-guard.ts). Times are unix seconds. */
module Timelocks {
  import opened Wrappers

  const MIN_GAP: int := 60 + 15 * 60 + 5 * 60
  const DEFAULT_GAP: int := 60 * 60
  const MIN_CANTON_EXPIRATION_SECONDS: int := 2 * 60 * 60
  const MAX_EXPIRATION_SECONDS: int := 7 * 24 * 60 * 60
  const EVM_CLAIM_MARGIN_SECONDS: int := 10 * 60
  const EVM_TIMELOCK_BIND_TOLERANCE_SECONDS: int := 120

  datatype Ladder = Ladder(userTimelock: int, solverTimelock: int)

  datatype TimelockError = TooShort | Misconfigured | TooSoon | Inverted | TooFar

  function Max(a: int, b: int): int { if a >= b then a else b }

  function Min(a: int, b: int): int { if a <= b then a else b }

  function TimelocksFromExpiration(nowSeconds: int, expirationSeconds: int): Result<Ladder, TimelockError> {
    if expirationSeconds < MIN_CANTON_EXPIRATION_SECONDS then Err(TooShort)
    else
      var gap := Max(MIN_GAP, Min(DEFAULT_GAP, expirationSeconds / 4));
      var user := nowSeconds + expirationSeconds;
      if user - gap <= nowSeconds then Err(Misconfigured) else Ok(Ladder(user, user - gap))
  }

  function AssertValidTimelocks(nowSeconds: int, l: Ladder): Result<(), TimelockError> {
    if l.solverTimelock <= nowSeconds + 60 then Err(TooSoon)
    else if l.userTimelock - l.solverTimelock < MIN_GAP then Err(Inverted)
    else if l.userTimelock > nowSeconds + MAX_EXPIRATION_SECONDS then Err(TooFar)
    else Ok(())
  }

  /** The gap is a quarter of the expiration, at most an hour; the minimum never binds. The
      longer leg ends exactly at the expiration. */
  lemma DerivedGap(now: int, expiration: int)
    requires expiration >= MIN_CANTON_EXPIRATION_SECONDS
    ensures TimelocksFromExpiration(now, expiration).Ok?
    ensures var l := TimelocksFromExpiration(now, expiration).value;
      && l.userTimelock == now + expiration
      && l.userTimelock - l.solverTimelock == Min(DEFAULT_GAP, expiration / 4) && MIN_GAP < l.userTimelock - l.solverTimelock
      && (l.userTimelock - l.solverTimelock == DEFAULT_GAP <==> expiration >= 4 * DEFAULT_GAP)
  {
  }

  /** A ladder made at `now` from any expiration of at least two hours passes the server check
      at time `server` exactly when the clocks keep it inside both bounds. */
  lemma DerivedLadderAcceptedIff(now: int, expiration: int, server: int)
    requires expiration >= MIN_CANTON_EXPIRATION_SECONDS
    ensures TimelocksFromExpiration(now, expiration).Ok?
    ensures var l := TimelocksFromExpiration(now, expiration).value;
      AssertValidTimelocks(server, l).Ok?
      <==> now + expiration - MAX_EXPIRATION_SECONDS <= server < l.solverTimelock - 60
  {
  }

  /** In particular: from two hours to seven days, at the moment it was made and for a server
      clock up to an hour later. */
  lemma EveryOfferedExpirationAccepted(now: int, expiration: int, server: int)
    requires MIN_CANTON_EXPIRATION_SECONDS <= expiration <= MAX_EXPIRATION_SECONDS
    requires now <= server < now + 60 * 60
    ensures TimelocksFromExpiration(now, expiration).Ok?
    ensures AssertValidTimelocks(server, TimelocksFromExpiration(now, expiration).value).Ok?
  {
    DerivedLadderAcceptedIff(now, expiration, server);
  }

  /** Two hours are the shortest expiration; the server wants more than a minute left on the short
      leg, twenty-one minutes between the legs, and no more than a week in all. */
  lemma LadderBounds(now: int, expiration: int, l: Ladder)
    ensures TimelocksFromExpiration(now, expiration).Ok? <==> expiration >= 7200
    ensures AssertValidTimelocks(now, l).Ok?
            <==> now < l.solverTimelock - 60 && l.solverTimelock <= l.userTimelock - 1260 && l.userTimelock <= now + 604800
  {
  }

  // ----- The lock check before a reveal -----

  datatype Lock = Lock(unlockTime: int, amount: int, token: string, receiver: string)

  datatype Required = Required(wbtcAmount: int, token: string, solver: string, userTimelock: Option<int>)

  datatype LockError = NotLocked | WrongToken | TooSmall | WrongReceiver | WrongTimelock | ExpiresTooSoon

  function Abs(x: int): int { if x < 0 then -x else x }

  /** Token and solver address are already lower-case. */
  function AssertEvmLockSafeForReveal(lock: Lock, req: Required, nowSec: int): Result<(), LockError> {
    if lock.amount == 0 then Err(NotLocked)
    else if lock.token != req.token then Err(WrongToken)
    else if lock.amount < req.wbtcAmount then Err(TooSmall)
    else if lock.receiver != req.solver then Err(WrongReceiver)
    else if req.userTimelock.Some? && Abs(lock.unlockTime - req.userTimelock.value) > EVM_TIMELOCK_BIND_TOLERANCE_SECONDS
    then Err(WrongTimelock)
    else if lock.unlockTime - nowSec < EVM_CLAIM_MARGIN_SECONDS then Err(ExpiresTooSoon)
    else Ok(())
  }

  /** For every accepted ladder and bound lock, at least 1140 seconds are left at any instant up
      to solverTimelock, so the ten-minute margin refuses no reveal before the short leg ends. */
  lemma MarginNeverRefusesInTime(server: int, l: Ladder, lock: Lock, req: Required, nowSec: int)
    requires AssertValidTimelocks(server, l).Ok? && req.userTimelock == Some(l.userTimelock)
    requires Abs(lock.unlockTime - l.userTimelock) <= EVM_TIMELOCK_BIND_TOLERANCE_SECONDS
    requires nowSec <= l.solverTimelock
    ensures lock.unlockTime - nowSec >= 1140
    ensures AssertEvmLockSafeForReveal(lock, req, nowSec) != Err(ExpiresTooSoon)
    ensures AssertEvmLockSafeForReveal(lock, req, nowSec).Ok? <==>
              lock.amount != 0 && lock.token == req.token && lock.amount >= req.wbtcAmount && lock.receiver == req.solver
  {
  }

  /** The window for a reveal: the lock ends within two minutes of the agreed time, on either side,
      and ten minutes from now at the earliest. */
  lemma RevealWindow(lock: Lock, req: Required, nowSec: int)
    requires lock.amount > 0 && lock.token == req.token && lock.receiver == req.solver && lock.amount >= req.wbtcAmount
    ensures AssertEvmLockSafeForReveal(lock, req, nowSec).Ok?
            <==> && nowSec <= lock.unlockTime - 600
                 && (req.userTimelock.Some? ==> req.userTimelock.value - 120 <= lock.unlockTime <= req.userTimelock.value + 120)
  {
  }

  /** A reveal that passed leaves the solver ten minutes, and a lock no earlier than two minutes
      before userTimelock. */
  lemma AcceptedRevealLeavesMargin(lock: Lock, req: Required, nowSec: int)
    requires AssertEvmLockSafeForReveal(lock, req, nowSec).Ok? && req.userTimelock.Some?
    ensures nowSec + EVM_CLAIM_MARGIN_SECONDS <= lock.unlockTime
    ensures req.userTimelock.value - EVM_TIMELOCK_BIND_TOLERANCE_SECONDS <= lock.unlockTime
    ensures lock.amount >= req.wbtcAmount && lock.receiver == req.solver
  {
  }
}

/** What token rotation guarantees over whole runs, and where reuse detection stops short. */
module RotationLaws {
  import opened Core
  import opened Rotation
  import opened RotationKeep

  // ------------------------------------------------------------------ runs

  datatype Step =
    | TickStep(now: Time)
    | SignupStep(u: Uuid, d: Uuid, pubkey: nat, s: Uuid, jti: Uuid)
    | LoginReadStep(l: nat, u: Uuid, want: Option<Uuid>, pubkey: nat)
    | LoginWriteStep(l: nat, newDevice: Uuid, s: Uuid, jti: Uuid)
    | BeginStep(t: nat, token: Token)
    | LockStep(t: nat, found: Option<Uuid>)
    | FinishStep(t: nat, s: Uuid, jti: Uuid)
    | LogoutStep(s: Uuid)
    | LogoutTokenStep(token: Token)
    | LogoutDeviceStep(v: nat, u: Uuid, d: Uuid)
    | RevokeDeviceStep(v: nat, u: Uuid, d: Uuid, current: Uuid)
    | ApplyStep(v: nat)

  ghost predicate NoneLocked(a: Auth, ss: set<Uuid>) {
    forall s :: s in ss ==> !Locked(a, s)
  }

  /** Drawn ids are new, presented tokens carry a valid signature, and a statement waits for row locks. */
  ghost predicate Enabled(a: Auth, step: Step) {
    match step
    case TickStep(now) => a.clock <= now
    case SignupStep(_, d, _, s, jti) => d !in a.devices && s !in a.sessions && FreshJti(a.sessions, jti)
    case LoginReadStep(l, _, _, _) => l !in a.logins
    case LoginWriteStep(l, newDevice, s, jti) =>
      && l in a.logins && newDevice !in a.devices && s !in a.sessions && FreshJti(a.sessions, jti)
      && (a.logins[l].device.Some? ==> !BeingRevoked(a, a.logins[l].device.value))
    case BeginStep(t, token) => t !in a.txs && token in a.issued
    case LockStep(t, found) =>
      && t in a.txs && a.txs[t].Waiting?
      && (match found
          case None => FreshJti(a.sessions, a.txs[t].token.jti)
          case Some(s) => s in WithJti(a.sessions, a.txs[t].token.jti) && !Locked(a, s))
    case FinishStep(t, s, jti) =>
      && t in a.txs && a.txs[t].Holding? && a.txs[t].sid in a.sessions
      && s !in a.sessions && FreshJti(a.sessions, jti)
      && (EndingOf(a.txs[t]) == Reuse ==> !Locked(a, a.txs[t].row.next.value))
    case LogoutStep(s) => !Locked(a, s)
    case LogoutTokenStep(token) => NoneLocked(a, WithJti(a.sessions, token.jti))
    case LogoutDeviceStep(v, _, d) => v !in a.revs && !BeingRevoked(a, d)
    case RevokeDeviceStep(v, _, d, _) => v !in a.revs && !BeingRevoked(a, d)
    case ApplyStep(v) =>
      && v in a.revs && (a.revs[v].owned ==> a.revs[v].device in a.devices)
      && NoneLocked(a, Targets(a.sessions, a.revs[v]))
  }

  ghost function Next(a: Auth, step: Step): Auth
    requires Enabled(a, step)
  {
    match step
    case TickStep(now) => a.(clock := now)
    case SignupStep(u, d, pubkey, s, jti) => Signup(a, u, d, pubkey, s, jti)
    case LoginReadStep(l, u, want, pubkey) => LoginRead(a, l, u, want, pubkey)
    case LoginWriteStep(l, newDevice, s, jti) => LoginWrite(a, l, newDevice, s, jti)
    case BeginStep(t, token) => Begin(a, t, token)
    case LockStep(t, found) => Lock(a, t, found)
    case FinishStep(t, s, jti) => Finish(a, t, s, jti)
    case LogoutStep(s) => Logout(a, {s})
    case LogoutTokenStep(token) => Logout(a, WithJti(a.sessions, token.jti))
    case LogoutDeviceStep(v, u, d) => StartLogout(a, v, u, d)
    case RevokeDeviceStep(v, u, d, current) => StartRevoke(a, v, u, d, current).0
    case ApplyStep(v) => Apply(a, v)
  }

  lemma TickKeeps(a: Auth, now: Time)
    requires AuthOk(a)
    ensures AuthOk(a.(clock := now))
  {
    hide RowsOk, LateOk, RevsOk, LoginsOk, LinksOk, Ordered, IssuedOk, RedeemedOk, CountOk, LocksOk;
  }

  lemma StepKeeps(a: Auth, step: Step)
    requires AuthOk(a) && Enabled(a, step)
    ensures AuthOk(Next(a, step))
  {
    hide AuthOk, Finish, LoginWrite, StartRevoke, StartLogout, Apply, Targets, WithJti, BeingRevoked, Locked;
    match step
    case TickStep(now) => TickKeeps(a, now);
    case SignupStep(u, d, pubkey, s, jti) => SignupKeeps(a, u, d, pubkey, s, jti);
    case LoginReadStep(l, u, want, pubkey) => LoginReadKeeps(a, l, u, want, pubkey);
    case LoginWriteStep(l, newDevice, s, jti) => LoginWriteKeeps(a, l, newDevice, s, jti);
    case BeginStep(t, token) => BeginKeeps(a, t, token);
    case LockStep(t, found) => LockKeeps(a, t, found);
    case FinishStep(t, s, jti) => FinishKeeps(a, t, s, jti);
    case LogoutStep(s) => LogoutKeeps(a, {s});
    case LogoutTokenStep(token) => LogoutKeeps(a, WithJti(a.sessions, token.jti));
    case LogoutDeviceStep(v, u, d) => LogoutStartKeeps(a, v, u, d);
    case RevokeDeviceStep(v, u, d, current) => RevokeStartKeeps(a, v, u, d, current);
    case ApplyStep(v) => ApplyKeeps(a, v);
  }

  /** `b` is reached from `a` by the steps. */
  ghost predicate Reaches(a: Auth, steps: seq<Step>, b: Auth)
    decreases |steps|
  {
    if steps == [] then a == b
    else Enabled(a, steps[0]) && Reaches(Next(a, steps[0]), steps[1..], b)
  }

  lemma {:induction false} EveryRun(a: Auth, steps: seq<Step>, b: Auth)
    requires AuthOk(a) && Reaches(a, steps, b)
    ensures AuthOk(b)
    decreases |steps|
  {
    hide AuthOk;
    if steps != [] {
      StepKeeps(a, steps[0]);
      EveryRun(Next(a, steps[0]), steps[1..], b);
    }
  }

  lemma EmptyAuthOk()
    ensures AuthOk(EmptyAuth)
  {
    var rank: map<Uuid, nat> := map[];
    assert IsOrder(EmptyAuth.sessions, rank);
  }

  // ------------------------------------------------------- redeemed once

  /** Under any interleaving no refresh token is redeemed twice. */
  lemma RedeemedAtMostOnce(steps: seq<Step>, b: Auth, jti: Uuid)
    requires Reaches(EmptyAuth, steps, b)
    ensures b.redeemed[jti] <= 1
  {
    EmptyAuthOk();
    EveryRun(EmptyAuth, steps, b);
    if jti in b.redeemed {
      assert !FreshJti(b.sessions, jti);
      var s :| s in b.sessions && b.sessions[s].jti == jti;
    }
  }

  /** Redeemable tokens never outnumber signups and logins. */
  lemma RedeemableBounded(steps: seq<Step>, b: Auth)
    requires Reaches(EmptyAuth, steps, b)
    ensures |set s | s in b.sessions && Redeemable(b.sessions, s)| <= b.started
  {
    EmptyAuthOk();
    EveryRun(EmptyAuth, steps, b);
    var live := set s | s in b.sessions && Redeemable(b.sessions, s);
    assert live <= b.sessions.Keys - Rotated(b.sessions);
    SubsetSize(live, b.sessions.Keys - Rotated(b.sessions));
    assert Rotated(b.sessions) <= b.sessions.Keys;
    assert |b.sessions.Keys - Rotated(b.sessions)| == |b.sessions.Keys| - |Rotated(b.sessions)|;
  }

  // ---------------------------------------------------------------- chains

  /** The session `n` rotations after `s`. */
  ghost function After(ss: Sessions, s: Uuid, n: nat): Option<Uuid>
    decreases n
  {
    if s !in ss then None
    else if n == 0 then Some(s)
    else if ss[s].next.None? then None
    else After(ss, ss[s].next.value, n - 1)
  }

  lemma {:induction false} AfterRises(ss: Sessions, rank: map<Uuid, nat>, s: Uuid, n: nat)
    requires IsOrder(ss, rank) && After(ss, s, n).Some?
    ensures s in ss && After(ss, s, n).value in ss && rank[s] + n <= rank[After(ss, s, n).value]
    decreases n
  {
    if n > 0 {
      AfterRises(ss, rank, ss[s].next.value, n - 1);
    }
  }

  lemma {:induction false} AfterSameDevice(ss: Sessions, s: Uuid, n: nat)
    requires LinksOk(ss) && After(ss, s, n).Some?
    ensures s in ss && After(ss, s, n).value in ss
    ensures ss[After(ss, s, n).value].user == ss[s].user && ss[After(ss, s, n).value].device == ss[s].device
    decreases n
  {
    if n > 0 {
      AfterSameDevice(ss, ss[s].next.value, n - 1);
    }
  }

  /** In every reachable state rotation chains are simple paths within one user and device. */
  lemma ChainsAreSimplePaths(steps: seq<Step>, b: Auth, s: Uuid, n: nat)
    requires Reaches(EmptyAuth, steps, b) && After(b.sessions, s, n).Some?
    ensures n > 0 ==> After(b.sessions, s, n) != Some(s)
    ensures var r := After(b.sessions, s, n).value;
      && s in b.sessions && r in b.sessions
      && b.sessions[r].user == b.sessions[s].user && b.sessions[r].device == b.sessions[s].device
    ensures forall q, r | q in b.sessions && r in b.sessions && b.sessions[q].next.Some? ::
              b.sessions[q].next == b.sessions[r].next ==> q == r
  {
    EmptyAuthOk();
    EveryRun(EmptyAuth, steps, b);
    var rank: map<Uuid, nat> :| IsOrder(b.sessions, rank);
    AfterRises(b.sessions, rank, s, n);
    AfterSameDevice(b.sessions, s, n);
  }

  /** A chain has at most one redeemable token: its tip. */
  lemma {:induction false} OneRedeemablePerChain(ss: Sessions, s: Uuid, m: nat, n: nat)
    requires After(ss, s, m).Some? && After(ss, s, n).Some?
    requires Redeemable(ss, After(ss, s, m).value) && Redeemable(ss, After(ss, s, n).value)
    ensures After(ss, s, m) == After(ss, s, n)
    decreases m
  {
    if m > 0 && n > 0 {
      OneRedeemablePerChain(ss, ss[s].next.value, m - 1, n - 1);
    }
  }

  // ------------------------------------------------------------ dead chains

  /** One step never makes an existing session redeemable, and rewires no session that is not. */
  lemma FrozenStep(a: Auth, step: Step, s: Uuid)
    requires AuthOk(a) && Enabled(a, step) && s in a.sessions && !Redeemable(a.sessions, s)
    ensures s in Next(a, step).sessions && !Redeemable(Next(a, step).sessions, s)
    ensures Next(a, step).sessions[s].next == a.sessions[s].next
  {
    hide RowsOk, LateOk, RevsOk, LoginsOk, LinksOk, Ordered, IssuedOk, RedeemedOk, CountOk, LocksOk, FreshJti, NoneLocked, Locked, Finish;
    if step.FinishStep? {
      FrozenFinish(a, step.t, step.s, step.jti, s);
    }
  }

  lemma FrozenFinish(a: Auth, t: nat, s': Uuid, jti': Uuid, s: Uuid)
    requires LocksOk(a.sessions, a.txs, a.issued) && t in a.txs && a.txs[t].Holding?
    requires s' !in a.sessions && s in a.sessions && !Redeemable(a.sessions, s)
    ensures var b := Finish(a, t, s', jti');
      s in b.sessions && !Redeemable(b.sessions, s) && b.sessions[s].next == a.sessions[s].next
  {
  }

  /** No token at or after `s` in its chain can be redeemed. */
  ghost predicate Dead(ss: Sessions, s: Uuid) {
    s in ss && forall n: nat :: After(ss, s, n).Some? ==> !Redeemable(ss, After(ss, s, n).value)
  }

  lemma {:induction false} FrozenAfter(a: Auth, step: Step, s: Uuid, n: nat)
    requires AuthOk(a) && Enabled(a, step) && Dead(a.sessions, s)
    ensures After(Next(a, step).sessions, s, n) == After(a.sessions, s, n)
    decreases n
  {
    hide Next, Enabled, AuthOk, Dead, Redeemable;
    DeadHere(a, s);
    FrozenStep(a, step, s);
    if n > 0 && a.sessions[s].next.Some? {
      DeadNext(a.sessions, s);
      FrozenAfter(a, step, a.sessions[s].next.value, n - 1);
    }
  }

  lemma DeadHere(a: Auth, s: Uuid)
    requires AuthOk(a) && Dead(a.sessions, s)
    ensures s in a.sessions && !Redeemable(a.sessions, s)
    ensures a.sessions[s].next.Some? ==> a.sessions[s].next.value in a.sessions
  {
    hide RowsOk, LateOk, RevsOk, LoginsOk, Ordered, IssuedOk, RedeemedOk, CountOk, LocksOk;
    assert After(a.sessions, s, 0) == Some(s);
  }

  lemma DeadNext(ss: Sessions, s: Uuid)
    requires Dead(ss, s) && ss[s].next.Some? && ss[s].next.value in ss
    ensures Dead(ss, ss[s].next.value)
  {
    var r := ss[s].next.value;
    forall n: nat | After(ss, r, n).Some?
      ensures !Redeemable(ss, After(ss, r, n).value)
    {
      assert After(ss, s, n + 1) == After(ss, r, n);
    }
  }

  lemma DeadStep(a: Auth, step: Step, s: Uuid)
    requires AuthOk(a) && Enabled(a, step) && Dead(a.sessions, s)
    ensures Dead(Next(a, step).sessions, s)
  {
    assert After(a.sessions, s, 0) == Some(s);
    FrozenStep(a, step, s);
    hide AuthOk, Next, Enabled;
    forall n: nat | After(Next(a, step).sessions, s, n).Some?
      ensures !Redeemable(Next(a, step).sessions, After(Next(a, step).sessions, s, n).value)
    {
      FrozenAfter(a, step, s, n);
      AfterInTable(a.sessions, s, n);
      FrozenStep(a, step, After(a.sessions, s, n).value);
    }
  }

  lemma {:induction false} AfterInTable(ss: Sessions, s: Uuid, n: nat)
    requires After(ss, s, n).Some?
    ensures After(ss, s, n).value in ss
    decreases n
  {
    if n > 0 {
      AfterInTable(ss, ss[s].next.value, n - 1);
    }
  }

  /** A dead chain stays dead in every later state. */
  lemma {:induction false} DeadForever(a: Auth, steps: seq<Step>, b: Auth, s: Uuid)
    requires AuthOk(a) && Reaches(a, steps, b) && Dead(a.sessions, s)
    ensures Dead(b.sessions, s)
    decreases |steps|
  {
    hide AuthOk, Dead;
    if steps != [] {
      StepKeeps(a, steps[0]);
      DeadStep(a, steps[0], s);
      DeadForever(Next(a, steps[0]), steps[1..], b, s);
    }
  }

  // -------------------------------------------------------- reuse detection

  /** A replay of a rotated, unrevoked token, about to finish under its lock. */
  ghost predicate Replay(a: Auth, t: nat) {
    && AuthOk(a) && t in a.txs && a.txs[t].Holding? && EndingOf(a.txs[t]) == Reuse
  }

  /** It creates no session and revokes exactly its own session and the direct successor. */
  lemma ReplayRevokesTwo(a: Auth, t: nat, s': Uuid, jti': Uuid)
    requires Replay(a, t)
    ensures var b, s := Finish(a, t, s', jti'), a.txs[t].sid;
      && s in a.sessions && a.sessions[s].next.Some? && a.sessions[s].next.value in a.sessions
      && b.sessions.Keys == a.sessions.Keys && b.redeemed == a.redeemed && b.issued == a.issued
      && b.sessions[s].revoked.Some? && b.sessions[a.sessions[s].next.value].revoked.Some?
      && forall r :: r in a.sessions && r != s && r != a.sessions[s].next.value ==> b.sessions[r] == a.sessions[r]
  {
    hide RowsOk, LateOk, RevsOk, LoginsOk, Ordered, IssuedOk, RedeemedOk, CountOk;
    JtiFindsOwnSession(a, a.txs[t].token, a.txs[t].sid);
  }

  /**
   The chain is dead after a replay exactly when nothing beyond the direct
   successor could be redeemed: in particular when the successor was the tip.
   */
  lemma ReplayKillsChain(a: Auth, t: nat, s': Uuid, jti': Uuid)
    requires Replay(a, t)
    ensures var b, s := Finish(a, t, s', jti'), a.txs[t].sid;
      var n := a.sessions[s].next.value;
      n in a.sessions && (Dead(b.sessions, s) <==> a.sessions[n].next.None? || Dead(a.sessions, a.sessions[n].next.value))
  {
    var b, s := Finish(a, t, s', jti'), a.txs[t].sid;
    ReplayLinks(a, t, s', jti');
    var rank := ReplayOrder(a, t, s', jti');
    hide Replay, Finish, Dead, LinksOk, Ordered, IsOrder, Redeemable;
    var n := a.sessions[s].next.value;
    TwoDeadSteps(b.sessions, s, n);
    if a.sessions[n].next.Some? {
      SameBeyond(a.sessions, b.sessions, rank, n, a.sessions[n].next.value);
    }
  }

  /** Both revoked sessions rank below everything after them, which is untouched. */
  lemma ReplayOrder(a: Auth, t: nat, s': Uuid, jti': Uuid) returns (rank: map<Uuid, nat>)
    requires Replay(a, t)
    ensures var b, s := Finish(a, t, s', jti'), a.txs[t].sid;
      && IsOrder(a.sessions, rank) && s in a.sessions && a.sessions[s].next.Some?
      && var n := a.sessions[s].next.value;
         && n in a.sessions && rank[s] < rank[n]
         && (a.sessions[n].next.Some? ==> a.sessions[n].next.value in a.sessions && rank[n] < rank[a.sessions[n].next.value])
         && b.sessions.Keys == a.sessions.Keys
         && forall r :: r in a.sessions && rank[n] < rank[r] ==> b.sessions[r] == a.sessions[r]
  {
    ReplayRevokesTwo(a, t, s', jti');
    hide RowsOk, LateOk, RevsOk, LoginsOk, IssuedOk, RedeemedOk, CountOk, Finish;
    rank :| IsOrder(a.sessions, rank);
  }

  /** A third token of the chain survives: if it could be redeemed before the replay, it still can. */
  lemma ReplayMissesThird(a: Auth, t: nat, s': Uuid, jti': Uuid, m: Uuid)
    requires Replay(a, t)
    requires var n := a.txs[t].row.next.value;
      n in a.sessions && a.sessions[n].next == Some(m) && Redeemable(a.sessions, m)
    ensures Redeemable(Finish(a, t, s', jti').sessions, m)
  {
    ReplayRevokesTwo(a, t, s', jti');
    var s, n := a.txs[t].sid, a.txs[t].row.next.value;
    var rank: map<Uuid, nat> :| IsOrder(a.sessions, rank);
    assert rank[s] < rank[n] < rank[m];
  }

  lemma {:induction false} DeadFromAbove(ss: Sessions, q: Uuid, n: nat, s: Uuid)
    requires After(ss, q, n) == Some(s) && Dead(ss, s)
    ensures Dead(ss, q)
    decreases n
  {
    if n > 0 {
      DeadFromAbove(ss, ss[q].next.value, n - 1, s);
      forall k: nat | After(ss, q, k).Some?
        ensures !Redeemable(ss, After(ss, q, k).value)
      {
        if k > 0 {
          assert After(ss, q, k) == After(ss, ss[q].next.value, k - 1);
        }
      }
    }
  }

  lemma {:induction false} AfterFrame(ss: Sessions, ss': Sessions, q: Uuid, n: nat)
    requires ss'.Keys == ss.Keys && forall r :: r in ss ==> ss'[r].next == ss[r].next
    ensures After(ss', q, n) == After(ss, q, n)
    decreases n
  {
    if n > 0 && q in ss && ss[q].next.Some? {
      AfterFrame(ss, ss', ss[q].next.value, n - 1);
    }
  }

  /**
   Replaying a rotated token whose direct successor is the chain's tip ends the
   chain: from its first session on, no token of it is redeemable in any later state.
   */
  lemma ReplayEndsChain(a: Auth, t: nat, s': Uuid, jti': Uuid, q: Uuid, n: nat, steps: seq<Step>, b: Auth)
    requires Replay(a, t) && s' !in a.sessions && FreshJti(a.sessions, jti')
    requires a.txs[t].row.next.value in a.sessions && a.sessions[a.txs[t].row.next.value].next.None?
    requires !Locked(a, a.txs[t].row.next.value)
    requires After(a.sessions, q, n) == Some(a.txs[t].sid)
    requires Reaches(Finish(a, t, s', jti'), steps, b)
    ensures Dead(b.sessions, q)
  {
    ReplayKillsChain(a, t, s', jti');
    ReplayLinks(a, t, s', jti');
    FinishKeeps(a, t, s', jti');
    hide AuthOk, Finish, Dead;
    var c := Finish(a, t, s', jti');
    AfterFrame(a.sessions, c.sessions, q, n);
    DeadFromAbove(c.sessions, q, n, a.txs[t].sid);
    DeadForever(c, steps, b, q);
  }

  lemma ReplayLinks(a: Auth, t: nat, s': Uuid, jti': Uuid)
    requires Replay(a, t)
    ensures var b, s := Finish(a, t, s', jti'), a.txs[t].sid;
      && LinksOk(a.sessions) && Ordered(a.sessions) && s in a.sessions && a.sessions[s].next.Some?
      && b.sessions.Keys == a.sessions.Keys
      && (forall r :: r in a.sessions ==> b.sessions[r].next == a.sessions[r].next)
      && !Redeemable(b.sessions, s) && !Redeemable(b.sessions, a.sessions[s].next.value)
  {
    hide RowsOk, LateOk, RevsOk, LoginsOk, IssuedOk, RedeemedOk, CountOk;
    JtiFindsOwnSession(a, a.txs[t].token, a.txs[t].sid);
  }

  lemma TwoDeadSteps(ss: Sessions, s: Uuid, n: Uuid)
    requires s in ss && n in ss && ss[s].next == Some(n) && !Redeemable(ss, s) && !Redeemable(ss, n)
    requires ss[n].next.Some? ==> ss[n].next.value in ss
    ensures Dead(ss, s) <==> ss[n].next.None? || Dead(ss, ss[n].next.value)
  {
    if Dead(ss, s) {
      DeadNext(ss, s);
      if ss[n].next.Some? {
        DeadNext(ss, n);
      }
    }
    if ss[n].next.None? || Dead(ss, ss[n].next.value) {
      forall k: nat | After(ss, s, k).Some?
        ensures !Redeemable(ss, After(ss, s, k).value)
      {
        if k >= 2 {
          assert After(ss, s, k) == After(ss, n, k - 1) == After(ss, ss[n].next.value, k - 2);
        }
      }
    }
  }

  /** Rows that rank above `n` are the same in both tables, so is everything after `m`. */
  lemma SameBeyond(ss: Sessions, ss': Sessions, rank: map<Uuid, nat>, n: Uuid, m: Uuid)
    requires IsOrder(ss, rank) && n in ss && m in ss && rank[n] < rank[m] && ss'.Keys == ss.Keys
    requires forall r :: r in ss && rank[n] < rank[r] ==> ss'[r] == ss[r]
    ensures Dead(ss', m) <==> Dead(ss, m)
  {
    forall k: nat
      ensures After(ss', m, k) == After(ss, m, k)
      ensures After(ss, m, k).Some? ==> After(ss, m, k).value in ss && rank[n] < rank[After(ss, m, k).value]
    {
      SameAfter(ss, ss', rank, n, m, k);
    }
  }

  lemma {:induction false} SameAfter(ss: Sessions, ss': Sessions, rank: map<Uuid, nat>, n: Uuid, m: Uuid, k: nat)
    requires IsOrder(ss, rank) && n in ss && m in ss && rank[n] < rank[m] && ss'.Keys == ss.Keys
    requires forall r :: r in ss && rank[n] < rank[r] ==> ss'[r] == ss[r]
    ensures After(ss', m, k) == After(ss, m, k)
    ensures After(ss, m, k).Some? ==> After(ss, m, k).value in ss && rank[n] < rank[After(ss, m, k).value]
    decreases k
  {
    if k > 0 && ss[m].next.Some? && ss[m].next.value in ss {
      SameAfter(ss, ss', rank, n, ss[m].next.value, k - 1);
    }
  }
}

/** Short runs from the empty tables that reach the states the exact conditions speak of. */
module RotationRuns {
  import opened Core
  import opened Rotation
  import opened RotationKeep
  import opened RotationLaws
  import opened RevocationLaws

  lemma {:induction false} Extend(a: Auth, steps: seq<Step>, b: Auth, step: Step)
    requires Reaches(a, steps, b) && Enabled(b, step)
    ensures Reaches(a, steps + [step], Next(b, step))
    decreases |steps|
  {
    hide Enabled, Next;
    var all := steps + [step];
    if steps == [] {
      assert all[0] == step && all[1..] == [];
      assert Reaches(Next(b, step), [], Next(b, step));
    } else {
      Extend(Next(a, steps[0]), steps[1..], b, step);
      assert all[0] == steps[0] && all[1..] == steps[1..] + [step];
    }
  }

  /** One user, one device, one session. */
  const Start := Signup(EmptyAuth, 1, 2, 7, 10, 20)

  const First := Token(1, 10, 2, 20)

  lemma Started()
    ensures Reaches(EmptyAuth, [SignupStep(1, 2, 7, 10, 20)], Start)
    ensures Start == Auth(map[10 := NewSession(1, 2, 10, 20)], map[2 := Device(1, 7, None)], map[], map[], map[],
                          0, 1, {First}, multiset{}, {})
  {
    assert Reaches(EmptyAuth, [], EmptyAuth);
    Extend(EmptyAuth, [], EmptyAuth, SignupStep(1, 2, 7, 10, 20));
    assert [] + [SignupStep(1, 2, 7, 10, 20)] == [SignupStep(1, 2, 7, 10, 20)];
  }

  /** `a` with the lock of the row of `token` taken by a refresh. */
  function LockedBy(a: Auth, token: Token): Auth
    requires token.sid in a.sessions
  {
    a.(txs := map[0 := Holding(token, token.sid, a.sessions[token.sid])])
  }

  lemma LockRun(a: Auth, steps: seq<Step>, token: Token) returns (steps': seq<Step>)
    requires Reaches(EmptyAuth, steps, a) && a.txs == map[] && token in a.issued
    requires token.sid in a.sessions && a.sessions[token.sid].jti == token.jti
    ensures Reaches(EmptyAuth, steps', LockedBy(a, token))
  {
    hide Reaches, Enabled, Next;
    var begin, lock := BeginStep(0, token), LockStep(0, Some(token.sid));
    LockSteps(a, token);
    Extend(EmptyAuth, steps, a, begin);
    Extend(EmptyAuth, steps + [begin], Next(a, begin), lock);
    steps' := steps + [begin] + [lock];
  }

  lemma LockSteps(a: Auth, token: Token)
    requires a.txs == map[] && token in a.issued && token.sid in a.sessions && a.sessions[token.sid].jti == token.jti
    ensures var begin, lock := BeginStep(0, token), LockStep(0, Some(token.sid));
      && Enabled(a, begin) && Enabled(Next(a, begin), lock)
      && Next(Next(a, begin), lock) == LockedBy(a, token)
  {
    var b := Begin(a, 0, token);
    assert !Locked(b, token.sid);
    assert b.txs[0 := Holding(token, token.sid, a.sessions[token.sid])]
        == map[0 := Holding(token, token.sid, a.sessions[token.sid])];
  }

  /** The tables after `token` is rotated. */
  function RotatedTo(a: Auth, token: Token, s': Uuid, jti': Uuid): Auth
    requires token.sid in a.sessions
  {
    var row := NewSession(token.sub, token.did, s', jti');
    a.(sessions := a.sessions[s' := row][token.sid := a.sessions[token.sid].(next := Some(s'))],
       txs := map[], issued := a.issued + {row.hash}, redeemed := a.redeemed + multiset{token.jti},
       late := LateWith(a, token.did, s'))
  }

  lemma FinishEnds(a: Auth, token: Token, s': Uuid, jti': Uuid)
    requires token.sid in a.sessions && a.sessions[token.sid].hash == token && Redeemable(a.sessions, token.sid)
    requires a.sessions[token.sid] == NewSession(token.sub, token.did, token.sid, token.jti)
    requires s' !in a.sessions && FreshJti(a.sessions, jti')
    ensures Enabled(LockedBy(a, token), FinishStep(0, s', jti'))
    ensures Next(LockedBy(a, token), FinishStep(0, s', jti')) == RotatedTo(a, token, s', jti')
  {
    hide FreshJti;
    assert LockedBy(a, token).txs - {0} == map[];
    assert BeingRevoked(LockedBy(a, token), token.did) == BeingRevoked(a, token.did);
  }

  lemma RotateRun(a: Auth, steps: seq<Step>, token: Token, s': Uuid, jti': Uuid) returns (steps': seq<Step>)
    requires Reaches(EmptyAuth, steps, a) && a.txs == map[] && token in a.issued && token.sid in a.sessions
    requires a.sessions[token.sid] == NewSession(token.sub, token.did, token.sid, token.jti)
    requires s' !in a.sessions && FreshJti(a.sessions, jti')
    ensures Reaches(EmptyAuth, steps', RotatedTo(a, token, s', jti'))
  {
    hide Reaches, Enabled, Next, FreshJti, RotatedTo;
    steps' := LockRun(a, steps, token);
    FinishEnds(a, token, s', jti');
    Extend(EmptyAuth, steps', LockedBy(a, token), FinishStep(0, s', jti'));
    steps' := steps' + [FinishStep(0, s', jti')];
  }

  // -------------------------------------------------------- reuse detection

  const Second := Token(1, 11, 2, 21)

  /** The session table after one and after two rotations. */
  const Two: Sessions := map[10 := NewSession(1, 2, 10, 20).(next := Some(11)), 11 := NewSession(1, 2, 11, 21)]
  const Three: Sessions := map[10 := NewSession(1, 2, 10, 20).(next := Some(11)),
                               11 := NewSession(1, 2, 11, 21).(next := Some(12)), 12 := NewSession(1, 2, 12, 22)]

  lemma TwoSessions() returns (steps: seq<Step>, a: Auth)
    ensures Reaches(EmptyAuth, steps, a) && a.txs == map[] && a.sessions == Two && a.issued == {First, Second}
  {
    Started();
    hide Reaches;
    steps := RotateRun(Start, [SignupStep(1, 2, 7, 10, 20)], First, 11, 21);
    a := RotatedTo(Start, First, 11, 21);
  }

  lemma ThreeSessions() returns (steps: seq<Step>, a: Auth)
    ensures Reaches(EmptyAuth, steps, a) && a.txs == map[] && a.sessions == Three && First in a.issued
  {
    hide Reaches;
    var b;
    steps, b := TwoSessions();
    steps := RotateRun(b, steps, Second, 12, 22);
    a := RotatedTo(b, Second, 12, 22);
  }

  /** The first token is presented again after it was rotated. */
  lemma ReplayRun(c: Auth, steps: seq<Step>) returns (steps': seq<Step>)
    requires Reaches(EmptyAuth, steps, c) && c.txs == map[] && First in c.issued
    requires c.sessions == Two || c.sessions == Three
    ensures Reaches(EmptyAuth, steps', LockedBy(c, First)) && AuthOk(LockedBy(c, First))
  {
    hide Reaches, AuthOk, LockedBy;
    steps' := LockRun(c, steps, First);
    EmptyAuthOk();
    EveryRun(EmptyAuth, steps', LockedBy(c, First));
  }

  lemma ReplayReady(a: Auth)
    requires AuthOk(a) && (a.sessions == Two || a.sessions == Three) && a.txs == map[0 := Holding(First, 10, a.sessions[10])]
    ensures Replay(a, 0) && !Locked(a, 11) && Enabled(a, FinishStep(0, 13, 23))
  {
    hide AuthOk;
  }

  /** A replay in a chain of two ends the chain: no later state has a redeemable token of it. */
  lemma ReplayOfTwo(later: seq<Step>, b: Auth) returns (steps: seq<Step>, a: Auth)
    ensures Reaches(EmptyAuth, steps, a) && Replay(a, 0) && a.sessions == Two
    ensures Reaches(Finish(a, 0, 13, 23), later, b) ==> Dead(b.sessions, 10)
  {
    hide Reaches, Dead, AuthOk, Replay, Enabled, Finish, Locked;
    var c;
    steps, c := TwoSessions();
    steps := ReplayRun(c, steps);
    a := LockedBy(c, First);
    ReplayReady(a);
    assert After(a.sessions, 10, 0) == Some(10);
    if Reaches(Finish(a, 0, 13, 23), later, b) {
      ReplayEndsChain(a, 0, 13, 23, 10, 0, later, b);
    }
  }

  /** A replay in a chain of three leaves the third token redeemable. */
  lemma ReplayOfThree() returns (steps: seq<Step>, a: Auth)
    ensures Reaches(EmptyAuth, steps, a) && Replay(a, 0) && Enabled(a, FinishStep(0, 13, 23))
    ensures var b := Finish(a, 0, 13, 23);
      After(b.sessions, 10, 2) == Some(12) && Redeemable(b.sessions, 12) && !Dead(b.sessions, 10)
  {
    hide Reaches, Dead, AuthOk, Replay, Enabled, Finish, Locked, After, Redeemable;
    var c;
    steps, c := ThreeSessions();
    steps := ReplayRun(c, steps);
    a := LockedBy(c, First);
    ReplayReady(a);
    ThirdLeft(a);
  }

  lemma ThirdLeft(a: Auth)
    requires a.sessions == Three && a.txs == map[0 := Holding(First, 10, Three[10])]
    ensures var b := Finish(a, 0, 13, 23);
      After(b.sessions, 10, 2) == Some(12) && Redeemable(b.sessions, 12) && !Dead(b.sessions, 10)
  {
    var b := Finish(a, 0, 13, 23);
    assert After(b.sessions, 12, 0) == Some(12);
    assert After(b.sessions, 11, 1) == Some(12);
    assert After(b.sessions, 10, 2) == Some(12);
  }

  // ------------------------------------------------------ revocation races

  /** The first token is being refreshed when the revocation of its device takes its snapshot. */
  const Racing := LockedBy(Start, First).(revs := map[0 := Revocation(1, 2, true, false, {10}, 0)])

  /** The refresh commits, then the revocation. */
  const Raced := Apply(RotatedTo(Racing, First, 11, 21), 0)

  /**
   Reached from the empty tables: a revoked device with a redeemable token, which
   the refresh check accepts and the request check refuses.
   */
  lemma RefreshBeatsRevocation() returns (steps: seq<Step>)
    ensures RotationPending(Racing, 2) && Reaches(EmptyAuth, steps, Raced)
    ensures Revoked(Raced.devices, 2) && Redeemable(Raced.sessions, 11) && Raced.late == {11}
    ensures Second in Raced.issued && !RequestAdmitted(Raced, Second)
  {
    Started();
    hide Reaches;
    steps := LockRun(Start, [SignupStep(1, 2, 7, 10, 20)], First);
    RaceSteps();
    assert HoldsOn(Racing.txs, 0, 2);
    hide Enabled, Next;
    Extend(EmptyAuth, steps, LockedBy(Start, First), RevokeDeviceStep(0, 1, 2, 3));
    steps := steps + [RevokeDeviceStep(0, 1, 2, 3)];
    Extend(EmptyAuth, steps, Racing, FinishStep(0, 11, 21));
    steps := steps + [FinishStep(0, 11, 21)];
    Extend(EmptyAuth, steps, RotatedTo(Racing, First, 11, 21), ApplyStep(0));
    steps := steps + [ApplyStep(0)];
  }

  lemma RaceSteps()
    ensures Enabled(LockedBy(Start, First), RevokeDeviceStep(0, 1, 2, 3))
    ensures Next(LockedBy(Start, First), RevokeDeviceStep(0, 1, 2, 3)) == Racing
    ensures Enabled(Racing, FinishStep(0, 11, 21)) && Next(Racing, FinishStep(0, 11, 21)) == RotatedTo(Racing, First, 11, 21)
    ensures Enabled(RotatedTo(Racing, First, 11, 21), ApplyStep(0))
  {
    Started();
    var a := LockedBy(Start, First);
    assert a.sessions.Keys == {10};
    assert Racing.txs - {0} == map[];
    assert BeingRevoked(Racing, 2);
  }

  /** The revocation takes its snapshot before any refresh has a lock. */
  const Quiet := Start.(revs := map[0 := Revocation(1, 2, true, false, {10}, 0)])

  /** Then a refresh locks the row before the update reaches it, and commits. */
  const Overtaken := Apply(RotatedTo(Quiet, First, 11, 21), 0)

  /**
   Reached from the empty tables: nobody holds a row of the device at the
   snapshot, and yet a redeemable token is left on the revoked device.
   */
  lemma LateLockBeatsRevocation() returns (steps: seq<Step>)
    ensures !RotationPending(Quiet, 2) && Reaches(EmptyAuth, steps, Overtaken)
    ensures Revoked(Overtaken.devices, 2) && Redeemable(Overtaken.sessions, 11) && Overtaken.late == {11}
  {
    Started();
    hide Reaches;
    QuietSteps();
    var revoke := RevokeDeviceStep(0, 1, 2, 3);
    assert Quiet.txs == map[] && Quiet.sessions[10] == NewSession(1, 2, 10, 20) && FreshJti(Quiet.sessions, 21);
    hide Enabled, Next;
    Extend(EmptyAuth, [SignupStep(1, 2, 7, 10, 20)], Start, revoke);
    steps := RotateRun(Quiet, [SignupStep(1, 2, 7, 10, 20)] + [revoke], First, 11, 21);
    Extend(EmptyAuth, steps, RotatedTo(Quiet, First, 11, 21), ApplyStep(0));
    steps := steps + [ApplyStep(0)];
  }

  lemma QuietSteps()
    ensures Enabled(Start, RevokeDeviceStep(0, 1, 2, 3)) && Next(Start, RevokeDeviceStep(0, 1, 2, 3)) == Quiet
    ensures Enabled(RotatedTo(Quiet, First, 11, 21), ApplyStep(0)) && BeingRevoked(Quiet, 2)
  {
    Started();
    assert Start.sessions.Keys == {10};
    assert Quiet.revs[0].owned;
  }

  /** A login reads its device, the device is revoked, the login writes. */
  const Chosen := Start.(logins := map[0 := Choice(1, Some(2), 7)])
  const Shut := Apply(Chosen.(revs := map[0 := Revocation(1, 2, true, false, {10}, 0)]), 0)
  const Reopened := LoginWrite(Shut, 0, 3, 11, 21)

  /** Reached from the empty tables: a login leaves a redeemable token on a revoked device. */
  lemma LoginBeatsRevocation() returns (steps: seq<Step>)
    ensures Reaches(EmptyAuth, steps, Reopened)
    ensures Revoked(Reopened.devices, 2) && Redeemable(Reopened.sessions, 11) && Reopened.sessions[11].device == 2
  {
    Started();
    LoginSteps();
    hide Reaches, Enabled, Next;
    var read, revoke, commit := LoginReadStep(0, 1, Some(2), 7), RevokeDeviceStep(0, 1, 2, 3), ApplyStep(0);
    steps := [SignupStep(1, 2, 7, 10, 20)];
    Extend(EmptyAuth, steps, Start, read);
    Extend(EmptyAuth, steps + [read], Chosen, revoke);
    Extend(EmptyAuth, steps + [read] + [revoke], Next(Chosen, revoke), commit);
    Extend(EmptyAuth, steps + [read] + [revoke] + [commit], Shut, LoginWriteStep(0, 3, 11, 21));
    steps := steps + [read] + [revoke] + [commit] + [LoginWriteStep(0, 3, 11, 21)];
  }

  lemma LoginSteps()
    ensures Enabled(Start, LoginReadStep(0, 1, Some(2), 7)) && Next(Start, LoginReadStep(0, 1, Some(2), 7)) == Chosen
    ensures Enabled(Chosen, RevokeDeviceStep(0, 1, 2, 3))
    ensures Enabled(Next(Chosen, RevokeDeviceStep(0, 1, 2, 3)), ApplyStep(0))
    ensures Next(Next(Chosen, RevokeDeviceStep(0, 1, 2, 3)), ApplyStep(0)) == Shut
    ensures Enabled(Shut, LoginWriteStep(0, 3, 11, 21)) && Next(Shut, LoginWriteStep(0, 3, 11, 21)) == Reopened
  {
    Started();
    assert Chosen.sessions.Keys == {10};
  }
}

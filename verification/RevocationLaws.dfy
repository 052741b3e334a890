/**
 What a device revocation guarantees when it runs beside refreshes and logins.
 Under READ COMMITTED its session update waits for locked rows but then writes
 only rows of its snapshot, so a session inserted meanwhile escapes it.
 */
module RevocationLaws {
  import opened Core
  import opened Rotation
  import opened RotationKeep
  import opened RotationLaws

  // -------------------------------------------------------- race-free runs

  /**
   The two ways past a revocation: a refresh that rotates while a revocation of
   its device is in flight, and a login that writes after the device it read was
   revoked.
   */
  ghost predicate Races(a: Auth, step: Step)
    requires Enabled(a, step)
  {
    match step
    case FinishStep(t, _, _) => EndingOf(a.txs[t]) == Rotate && BeingRevoked(a, a.txs[t].row.device)
    case LoginWriteStep(l, _, _, _) => a.logins[l].device.Some? && Revoked(a.devices, a.logins[l].device.value)
    case _ => false
  }

  ghost predicate RaceFree(a: Auth, steps: seq<Step>)
    decreases |steps|
  {
    steps == [] ||
    (Enabled(a, steps[0]) && !Races(a, steps[0]) && RaceFree(Next(a, steps[0]), steps[1..]))
  }

  lemma LateGrows(a: Auth, step: Step)
    requires Enabled(a, step)
    ensures a.late <= Next(a, step).late
  {
    hide Locked, NoneLocked, FreshJti, Revoke, Targets, WithJti;
  }

  /** As long as no session is late, the next step makes one late exactly when it races. */
  lemma FirstLate(a: Auth, step: Step)
    requires AuthOk(a) && a.late == {} && Enabled(a, step)
    ensures Next(a, step).late == {} <==> !Races(a, step)
  {
    hide Locked, NoneLocked, FreshJti, Revoke, Targets, WithJti, LinksOk, Ordered, IssuedOk, RedeemedOk, CountOk;
    match step
    case FinishStep(t, s, _) =>
      assert EndingOf(a.txs[t]) == Rotate ==> !Revoked(a.devices, a.txs[t].row.device);
      assert s in a.late + {s};
    case LoginWriteStep(l, newDevice, s, jti) => LoginLate(a, l, newDevice, s, jti);
    case _ =>
  }

  lemma LoginLate(a: Auth, l: nat, newDevice: Uuid, s: Uuid, jti: Uuid)
    requires AuthOk(a) && Enabled(a, LoginWriteStep(l, newDevice, s, jti))
    ensures LoginWrite(a, l, newDevice, s, jti).late
         == if Races(a, LoginWriteStep(l, newDevice, s, jti)) then a.late + {s} else a.late
  {
    hide FreshJti, LinksOk, Ordered, IssuedOk, RedeemedOk, CountOk, LocksOk;
    var c := a.logins[l];
    if c.device.None? {
      NewDeviceIsQuiet(a, newDevice);
    }
  }

  /** No revocation is in flight for a device that does not exist. */
  lemma NewDeviceIsQuiet(a: Auth, d: Uuid)
    requires AuthOk(a) && d !in a.devices
    ensures !BeingRevoked(a, d)
  {
    hide RowsOk, LateOk, LoginsOk, LinksOk, Ordered, IssuedOk, RedeemedOk, CountOk, LocksOk;
  }

  /** A run leaves no late session exactly when none of its steps races. */
  lemma {:induction false} LateExact(a: Auth, steps: seq<Step>, b: Auth)
    requires AuthOk(a) && Reaches(a, steps, b) && a.late == {}
    ensures b.late == {} <==> RaceFree(a, steps)
    decreases |steps|
  {
    hide AuthOk, Enabled, Next, Races;
    if steps != [] {
      StepKeeps(a, steps[0]);
      FirstLate(a, steps[0]);
      if Races(a, steps[0]) {
        LateStays(Next(a, steps[0]), steps[1..], b);
      } else {
        LateExact(Next(a, steps[0]), steps[1..], b);
      }
    }
  }

  lemma {:induction false} LateStays(a: Auth, steps: seq<Step>, b: Auth)
    requires Reaches(a, steps, b)
    ensures a.late <= b.late
    decreases |steps|
  {
    hide Enabled, Next;
    if steps != [] {
      LateGrows(a, steps[0]);
      LateStays(Next(a, steps[0]), steps[1..], b);
    }
  }

  // ------------------------------------------------------ reachable states

  /**
   In every reachable state the sessions of a revoked device are revoked, except
   those inserted while it was revoked or being revoked; after a race-free run
   there are no exceptions. Revocation time and reason are always set together.
   */
  lemma RevokedDeviceIsOut(steps: seq<Step>, b: Auth, s: Uuid)
    requires Reaches(EmptyAuth, steps, b) && s in b.sessions
    ensures b.sessions[s].device in b.devices && b.devices[b.sessions[s].device].owner == b.sessions[s].user
    ensures b.sessions[s].revoked.None? <==> b.sessions[s].reason.None?
    ensures Revoked(b.devices, b.sessions[s].device) && s !in b.late ==>
              b.sessions[s].revoked.Some? && !Redeemable(b.sessions, s)
    ensures RaceFree(EmptyAuth, steps) ==> b.late == {} && DevicesOk(b.sessions, b.devices)
  {
    EmptyAuthOk();
    EveryRun(EmptyAuth, steps, b);
    LateExact(EmptyAuth, steps, b);
  }

  /** The two queries of `require_auth`: the device row and the session row of the claims. */
  predicate RequestAdmitted(a: Auth, claims: Token) {
    && claims.did in a.devices && a.devices[claims.did].owner == claims.sub && a.devices[claims.did].revoked.None?
    && claims.sid in a.sessions && a.sessions[claims.sid].user == claims.sub && a.sessions[claims.sid].revoked.None?
  }

  /**
   For the claims of an issued token the request check is the refresh check plus
   an unrevoked device. They disagree only on a late session of a revoked device,
   so after a race-free run they always agree.
   */
  lemma RequestAndRefreshAgree(steps: seq<Step>, b: Auth, claims: Token)
    requires Reaches(EmptyAuth, steps, b) && claims in b.issued
    ensures claims.sid in b.sessions
    ensures RequestAdmitted(b, claims) <==> b.sessions[claims.sid].reason.None? && !Revoked(b.devices, claims.did)
    ensures claims.sid !in b.late || !Revoked(b.devices, claims.did) ==>
              (RequestAdmitted(b, claims) <==> b.sessions[claims.sid].reason.None?)
    ensures RaceFree(EmptyAuth, steps) ==> (RequestAdmitted(b, claims) <==> b.sessions[claims.sid].reason.None?)
  {
    EmptyAuthOk();
    EveryRun(EmptyAuth, steps, b);
    LateExact(EmptyAuth, steps, b);
    assert b.sessions[claims.sid].hash == claims;
  }

  /** A login that writes after its read keeps revoked devices shut exactly when it does not race. */
  lemma LoginRaceExact(a: Auth, l: nat, newDevice: Uuid, s: Uuid, jti: Uuid)
    requires AuthOk(a) && DevicesOk(a.sessions, a.devices) && Enabled(a, LoginWriteStep(l, newDevice, s, jti))
    ensures var b := LoginWrite(a, l, newDevice, s, jti);
      DevicesOk(b.sessions, b.devices) <==> a.logins[l].device.None? || !Revoked(a.devices, a.logins[l].device.value)
  {
    hide FreshJti, LinksOk, Ordered, IssuedOk, RedeemedOk, CountOk, LocksOk, RevsOk, LateOk, LateWith, BeingRevoked;
    var b := LoginWrite(a, l, newDevice, s, jti);
    assert s in b.sessions && b.sessions[s].revoked.None?;
    if a.logins[l].device.None? {
      assert forall r :: r in a.sessions ==> a.sessions[r].device != newDevice;
    }
  }

  // -------------------------------------------- one revocation, start to end

  /** The session of `d` that a step inserts: only a rotation can, while `d` is being revoked. */
  ghost function Inserted(b: Auth, step: Step, d: Uuid): set<Uuid>
    requires Enabled(b, step)
  {
    match step
    case FinishStep(t, s, _) => if EndingOf(b.txs[t]) == Rotate && b.txs[t].row.device == d then {s} else {}
    case _ => {}
  }

  /** The sessions that a step revokes. */
  ghost function RevokedBy(b: Auth, step: Step): set<Uuid>
    requires Enabled(b, step)
  {
    match step
    case LogoutStep(s) => {s}
    case LogoutTokenStep(token) => WithJti(b.sessions, token.jti)
    case FinishStep(t, _, _) =>
      if EndingOf(b.txs[t]) == Reuse then {b.txs[t].token.sid, b.txs[t].row.next.value} else {}
    case ApplyStep(v) => Targets(b.sessions, b.revs[v])
    case _ => {}
  }

  /** The sessions rotated into `d` by the steps, on top of `sofar`, and not revoked again by a later one. */
  ghost function Escaping(b: Auth, steps: seq<Step>, d: Uuid, sofar: set<Uuid>): set<Uuid>
    decreases |steps|
  {
    if steps == [] || !Enabled(b, steps[0]) then sofar
    else Escaping(Next(b, steps[0]), steps[1..], d, sofar + Inserted(b, steps[0], d) - RevokedBy(b, steps[0]))
  }

  /** The sessions of `d` that are usable in `ss'` and were not there in `ss`. */
  function UsableNew(ss: Sessions, ss': Sessions, d: Uuid): set<Uuid> {
    set s | s in ss' && s !in ss && ss'[s].device == d && ss'[s].revoked.None?
  }

  lemma RevokeUsable(ss: Sessions, ss': Sessions, gone: set<Uuid>, now: Time, reason: Reason, d: Uuid)
    ensures UsableNew(ss, Revoke(ss', gone, now, reason), d) == UsableNew(ss, ss', d) - gone
  {
  }

  lemma OpenUsable(ss: Sessions, ss': Sessions, s: Uuid, row: Session, d: Uuid)
    requires s !in ss' && s !in ss && row.revoked.None?
    ensures UsableNew(ss, ss'[s := row], d) == UsableNew(ss, ss', d) + if row.device == d then {s} else {}
  {
  }

  lemma LinkUsable(ss: Sessions, ss': Sessions, s: Uuid, next: Option<Uuid>, d: Uuid)
    requires s in ss'
    ensures UsableNew(ss, ss'[s := ss'[s].(next := next)], d) == UsableNew(ss, ss', d)
  {
  }

  /** A refresh that finishes inserts and revokes what its ending says. */
  lemma FinishUsable(ss: Sessions, b: Auth, t: nat, s': Uuid, jti': Uuid, d: Uuid)
    requires Enabled(b, FinishStep(t, s', jti')) && s' !in ss
    ensures UsableNew(ss, Finish(b, t, s', jti').sessions, d)
         == UsableNew(ss, b.sessions, d) + Inserted(b, FinishStep(t, s', jti'), d) - RevokedBy(b, FinishStep(t, s', jti'))
  {
    hide UsableNew, Revoke, FreshJti, Locked, LateWith;
    var tx := b.txs[t];
    match EndingOf(tx)
    case Invalid =>
    case Reuse => RevokeUsable(ss, b.sessions, {tx.token.sid, tx.row.next.value}, b.clock, ReuseDetected, d);
    case Rotate =>
      var row := NewSession(tx.row.user, tx.row.device, s', jti');
      OpenUsable(ss, b.sessions, s', row, d);
      LinkUsable(ss, b.sessions[s' := row], tx.sid, Some(s'), d);
  }

  /** A signup is on a new device, and a login on `d` waits for the lock of the device row. */
  lemma OpenElsewhere(ss: Sessions, b: Auth, step: Step, d: Uuid)
    requires Enabled(b, step) && (step.SignupStep? || step.LoginWriteStep?) && d in b.devices && BeingRevoked(b, d)
    requires ss.Keys <= b.sessions.Keys
    ensures UsableNew(ss, Next(b, step).sessions, d) == UsableNew(ss, b.sessions, d)
  {
    hide UsableNew, BeingRevoked, LateWith, FreshJti;
    match step
    case SignupStep(u, d', _, s, jti) => OpenUsable(ss, b.sessions, s, NewSession(u, d', s, jti), d);
    case LoginWriteStep(l, newDevice, s, jti) =>
      var c := b.logins[l];
      var d' := if c.device.Some? then c.device.value else newDevice;
      OpenUsable(ss, b.sessions, s, NewSession(c.user, d', s, jti), d);
  }

  lemma LogoutUsable(ss: Sessions, b: Auth, step: Step, d: Uuid)
    requires Enabled(b, step) && (step.LogoutStep? || step.LogoutTokenStep? || step.ApplyStep?)
    ensures UsableNew(ss, Next(b, step).sessions, d) == UsableNew(ss, b.sessions, d) - RevokedBy(b, step)
  {
    hide UsableNew, Revoke, NoneLocked, Locked;
    match step
    case LogoutStep(s) => RevokeUsable(ss, b.sessions, {s}, b.clock, LoggedOut, d);
    case LogoutTokenStep(token) => RevokeUsable(ss, b.sessions, WithJti(b.sessions, token.jti), b.clock, LoggedOut, d);
    case ApplyStep(w) =>
      RevokeUsable(ss, b.sessions, Targets(b.sessions, b.revs[w]), b.revs[w].at, DeviceRevoked, d);
  }

  /** What is usable and new on a device being revoked after one step. */
  lemma UsableStep(ss: Sessions, b: Auth, step: Step, v: nat, d: Uuid)
    requires AuthOk(b) && Enabled(b, step) && v in b.revs && b.revs[v].owned && b.revs[v].device == d
    requires ss.Keys <= b.sessions.Keys
    ensures UsableNew(ss, Next(b, step).sessions, d)
         == UsableNew(ss, b.sessions, d) + Inserted(b, step, d) - RevokedBy(b, step)
  {
    hide AuthOk, UsableNew, FreshJti, Locked, NoneLocked;
    RevocationDevice(b, v);
    if step.SignupStep? || step.LoginWriteStep? {
      OpenElsewhere(ss, b, step, d);
    } else if step.LogoutStep? || step.LogoutTokenStep? || step.ApplyStep? {
      LogoutUsable(ss, b, step, d);
    } else if step.FinishStep? {
      FinishUsable(ss, b, step.t, step.s, step.jti, d);
    } else {
      assert Next(b, step).sessions == b.sessions;
    }
  }

  /** No step removes a session or ends a revocation but its own commit. */
  lemma RevocationStays(b: Auth, step: Step, v: nat)
    requires Enabled(b, step) && v in b.revs && step != ApplyStep(v)
    ensures v in Next(b, step).revs && Next(b, step).revs[v] == b.revs[v]
    ensures b.sessions.Keys <= Next(b, step).sessions.Keys
  {
    hide FreshJti, NoneLocked, Locked, BeingRevoked, LateWith, Targets, WithJti;
  }

  lemma {:induction false} UsableRun(ss: Sessions, b: Auth, steps: seq<Step>, c: Auth, v: nat, d: Uuid)
    requires AuthOk(b) && Reaches(b, steps, c) && v in b.revs && b.revs[v].owned && b.revs[v].device == d
    requires ss.Keys <= b.sessions.Keys && ApplyStep(v) !in steps
    ensures AuthOk(c) && v in c.revs && c.revs[v] == b.revs[v] && ss.Keys <= c.sessions.Keys
    ensures UsableNew(ss, c.sessions, d) == Escaping(b, steps, d, UsableNew(ss, b.sessions, d))
    decreases |steps|
  {
    hide AuthOk, Next, Enabled, UsableNew, Inserted, RevokedBy;
    if steps != [] {
      StepKeeps(b, steps[0]);
      RevocationStays(b, steps[0], v);
      UsableStep(ss, b, steps[0], v, d);
      UsableRun(ss, Next(b, steps[0]), steps[1..], c, v, d);
    }
  }

  /** Every session of the device is revoked. */
  ghost predicate ShutOut(ss: Sessions, d: Uuid) {
    forall s :: s in SessionsOn(ss, d) ==> ss[s].revoked.Some?
  }

  /** The commit leaves usable exactly what was inserted since the snapshot and is usable still. */
  lemma ApplyShuts(ss: Sessions, b: Auth, v: nat, d: Uuid)
    requires AuthOk(b) && v in b.revs && b.revs[v].owned && b.revs[v].device == d && d in b.devices && b.revs[v].seen == ss.Keys
    ensures ShutOut(Apply(b, v).sessions, d) <==> UsableNew(ss, b.sessions, d) == {}
  {
    hide AuthOk, UsableNew, ShutOut, Revoke;
    SeenAreRevoked(b, v);
    RevokedElsewhere(ss, b.sessions, Targets(b.sessions, b.revs[v]), b.revs[v].at, d);
  }

  lemma RevokedElsewhere(ss: Sessions, ss': Sessions, gone: set<Uuid>, now: Time, d: Uuid)
    requires gone <= ss.Keys
    requires var ss'' := Revoke(ss', gone, now, DeviceRevoked);
      forall s :: s in ss'' && s in ss && ss''[s].device == d ==> ss''[s].revoked.Some?
    ensures ShutOut(Revoke(ss', gone, now, DeviceRevoked), d) <==> UsableNew(ss, ss', d) == {}
  {
    var ss'' := Revoke(ss', gone, now, DeviceRevoked);
    assert SessionsOn(ss'', d) == SessionsOn(ss', d);
    if UsableNew(ss, ss', d) != {} {
      var s :| s in UsableNew(ss, ss', d);
      assert s in SessionsOn(ss'', d) && ss''[s].revoked.None?;
    } else {
      forall s | s in SessionsOn(ss'', d)
        ensures ss''[s].revoked.Some?
      {
        assert s !in UsableNew(ss, ss', d);
      }
    }
  }

  /**
   Exactly when a revocation works, be it that of `revoke_device` or of `logout`,
   whatever runs between its snapshot at `a` and its commit after `b`: it shuts the
   device out if and only if every session that a refresh rotated into the device
   meanwhile was revoked again meanwhile.
   */
  lemma RevocationExact(a: Auth, v: nat, steps: seq<Step>, b: Auth)
    requires AuthOk(a) && v in a.revs && a.revs[v].owned && a.revs[v].seen == a.sessions.Keys
    requires Reaches(a, steps, b) && ApplyStep(v) !in steps && Enabled(b, ApplyStep(v))
    ensures ShutOut(Apply(b, v).sessions, a.revs[v].device) <==> Escaping(a, steps, a.revs[v].device, {}) == {}
  {
    hide AuthOk, ShutOut, Escaping, Reaches, Enabled, Apply, UsableNew;
    var d := a.revs[v].device;
    NothingNew(a.sessions, d);
    UsableRun(a.sessions, a, steps, b, v, d);
    RevocationDevice(b, v);
    ApplyShuts(a.sessions, b, v, d);
  }

  lemma NothingNew(ss: Sessions, d: Uuid)
    ensures UsableNew(ss, ss, d) == {}
  {
  }

  // ------------------------------------------------ by the rotations alone

  /** Some refresh rotates a row of `d` during the steps. */
  ghost predicate RotatesIn(b: Auth, steps: seq<Step>, d: Uuid)
    decreases |steps|
  {
    steps != [] && Enabled(b, steps[0])
    && (Inserted(b, steps[0], d) != {} || RotatesIn(Next(b, steps[0]), steps[1..], d))
  }

  /** No step revokes a session of `d` that is not in `ss`. */
  ghost predicate SparesNew(ss: Sessions, b: Auth, steps: seq<Step>, d: Uuid)
    decreases |steps|
  {
    steps != [] && Enabled(b, steps[0]) ==>
      && (forall s :: s in RevokedBy(b, steps[0]) && s in SessionsOn(b.sessions, d) ==> s in ss)
      && SparesNew(ss, Next(b, steps[0]), steps[1..], d)
  }

  lemma {:induction false} NoRotationNoEscape(b: Auth, steps: seq<Step>, d: Uuid)
    requires !RotatesIn(b, steps, d)
    ensures Escaping(b, steps, d, {}) == {}
    decreases |steps|
  {
    hide Enabled, Next, Inserted, RevokedBy;
    if steps != [] && Enabled(b, steps[0]) {
      NoRotationNoEscape(Next(b, steps[0]), steps[1..], d);
      assert {} + {} - RevokedBy(b, steps[0]) == {};
    }
  }

  lemma {:induction false} RotationEscapes(ss: Sessions, b: Auth, steps: seq<Step>, c: Auth, v: nat, d: Uuid)
    requires AuthOk(b) && Reaches(b, steps, c) && v in b.revs && b.revs[v].owned && b.revs[v].device == d
    requires ss.Keys <= b.sessions.Keys && ApplyStep(v) !in steps && SparesNew(ss, b, steps, d)
    requires RotatesIn(b, steps, d) || UsableNew(ss, b.sessions, d) != {}
    ensures UsableNew(ss, c.sessions, d) != {}
    decreases |steps|
  {
    hide AuthOk, Next, Enabled;
    if steps != [] {
      var b' := Next(b, steps[0]);
      StepKeeps(b, steps[0]);
      RevocationStays(b, steps[0], v);
      UsableStep(ss, b, steps[0], v, d);
      NewSurvives(ss, b, steps[0], d);
      RotationEscapes(ss, b', steps[1..], c, v, d);
    }
  }

  /** A step that spares the new sessions keeps those there are and the one it inserts. */
  lemma NewSurvives(ss: Sessions, b: Auth, step: Step, d: Uuid)
    requires Enabled(b, step) && forall s :: s in RevokedBy(b, step) && s in SessionsOn(b.sessions, d) ==> s in ss
    ensures UsableNew(ss, b.sessions, d) !! RevokedBy(b, step)
    ensures Inserted(b, step, d) !! RevokedBy(b, step)
  {
    hide FreshJti, Locked, NoneLocked;
  }

  /**
   Without a rotation of one of its rows in between, a revocation always works.
   It fails whenever there is one, unless a logout or replay revokes the new
   session before the commit. Locks may be taken at any time.
   */
  lemma RevocationByRotations(a: Auth, v: nat, steps: seq<Step>, b: Auth)
    requires AuthOk(a) && v in a.revs && a.revs[v].owned && a.revs[v].seen == a.sessions.Keys
    requires Reaches(a, steps, b) && ApplyStep(v) !in steps && Enabled(b, ApplyStep(v))
    ensures !RotatesIn(a, steps, a.revs[v].device) ==> ShutOut(Apply(b, v).sessions, a.revs[v].device)
    ensures SparesNew(a.sessions, a, steps, a.revs[v].device) ==>
              (ShutOut(Apply(b, v).sessions, a.revs[v].device) <==> !RotatesIn(a, steps, a.revs[v].device))
  {
    hide AuthOk, ShutOut, Escaping, Reaches, Enabled, Apply, UsableNew, RotatesIn, SparesNew;
    var d := a.revs[v].device;
    RevocationExact(a, v, steps, b);
    if !RotatesIn(a, steps, d) {
      NoRotationNoEscape(a, steps, d);
    } else if SparesNew(a.sessions, a, steps, d) {
      RotationEscapes(a.sessions, a, steps, b, v, d);
      NothingNew(a.sessions, d);
      UsableRun(a.sessions, a, steps, b, v, d);
    }
  }

  // --------------------------------------- by the holders at the snapshot

  /** `t` holds the lock of a session of `d`. */
  predicate HoldsOn(txs: map<nat, Tx>, t: nat, d: Uuid) {
    t in txs && txs[t].Holding? && txs[t].row.device == d
  }

  /** Nobody takes a lock on a row of `d` during the steps. */
  ghost predicate NoNewLocks(b: Auth, steps: seq<Step>, d: Uuid)
    decreases |steps|
  {
    steps != [] && Enabled(b, steps[0]) ==>
      && (steps[0].LockStep? && steps[0].found.Some? ==> b.sessions[steps[0].found.value].device != d)
      && NoNewLocks(Next(b, steps[0]), steps[1..], d)
  }

  /** `t` held its row of `d` at the start and has finished since. */
  predicate Finished(txs: map<nat, Tx>, txs': map<nat, Tx>, t: nat, d: Uuid) {
    HoldsOn(txs, t, d) && !(t in txs' && txs'[t] == txs[t])
  }

  /** Some refresh that held a row of `d` at the start has rotated it. */
  ghost predicate HasRotated(txs: map<nat, Tx>, txs': map<nat, Tx>, d: Uuid) {
    exists t :: Finished(txs, txs', t, d) && EndingOf(txs[t]) == Rotate
  }

  /** Nobody has taken a lock on a row of `d` since. */
  ghost predicate NoNewHolders(txs: map<nat, Tx>, txs': map<nat, Tx>, d: Uuid) {
    forall t :: HoldsOn(txs', t, d) ==> t in txs && txs[t] == txs'[t]
  }

  /** The same transactions hold rows of `d`. */
  ghost predicate SameHolders(txs: map<nat, Tx>, txs': map<nat, Tx>, d: Uuid) {
    forall t :: HoldsOn(txs, t, d) || HoldsOn(txs', t, d) ==> t in txs && t in txs' && txs[t] == txs'[t]
  }

  lemma SameHoldersSame(txs: map<nat, Tx>, txs': map<nat, Tx>, txs'': map<nat, Tx>, d: Uuid)
    requires SameHolders(txs', txs'', d) && NoNewHolders(txs, txs', d)
    ensures NoNewHolders(txs, txs'', d) && (HasRotated(txs, txs'', d) <==> HasRotated(txs, txs', d))
  {
    forall t
      ensures Finished(txs, txs'', t, d) <==> Finished(txs, txs', t, d)
    {
    }
  }

  /** The holders left when `t` finishes, and whether any so far has rotated. */
  lemma HolderLeaves(txs: map<nat, Tx>, txs': map<nat, Tx>, t: nat, d: Uuid)
    requires NoNewHolders(txs, txs', d) && HoldsOn(txs', t, d)
    ensures NoNewHolders(txs, txs' - {t}, d)
    ensures HasRotated(txs, txs' - {t}, d) <==> HasRotated(txs, txs', d) || EndingOf(txs'[t]) == Rotate
  {
    forall r
      ensures Finished(txs, txs' - {t}, r, d) <==> Finished(txs, txs', r, d) || r == t
    {
    }
  }

  /** Setting a transaction that neither held nor will hold a row of `d`. */
  lemma OneTx(txs: map<nat, Tx>, t: nat, tx: Tx, d: Uuid)
    requires !HoldsOn(txs, t, d) && !(tx.Holding? && tx.row.device == d)
    ensures SameHolders(txs, txs[t := tx], d)
  {
  }

  lemma OneLess(txs: map<nat, Tx>, t: nat, d: Uuid)
    requires !HoldsOn(txs, t, d)
    ensures SameHolders(txs, txs - {t}, d)
  {
  }

  lemma SameTxs(txs: map<nat, Tx>, d: Uuid)
    ensures SameHolders(txs, txs, d)
  {
  }

  lemma LockTx(b: Auth, t: nat, found: Option<Uuid>, d: Uuid)
    requires t in b.txs && b.txs[t].Waiting? && (found.Some? ==> found.value in b.sessions && b.sessions[found.value].device != d)
    ensures SameHolders(b.txs, Lock(b, t, found).txs, d)
  {
    if found.None? {
      OneLess(b.txs, t, d);
    } else {
      OneTx(b.txs, t, Holding(b.txs[t].token, found.value, b.sessions[found.value]), d);
    }
  }

  lemma FinishTx(b: Auth, t: nat, s': Uuid, jti': Uuid)
    requires t in b.txs && b.txs[t].Holding? && b.txs[t].sid in b.sessions
    ensures Finish(b, t, s', jti').txs == b.txs - {t}
  {
  }

  lemma HoldersStep(txs: map<nat, Tx>, b: Auth, step: Step, d: Uuid)
    requires Enabled(b, step) && NoNewHolders(txs, b.txs, d)
    requires step.LockStep? && step.found.Some? ==> b.sessions[step.found.value].device != d
    ensures NoNewHolders(txs, Next(b, step).txs, d)
    ensures HasRotated(txs, Next(b, step).txs, d) <==> HasRotated(txs, b.txs, d) || Inserted(b, step, d) != {}
  {
    hide SameHolders, NoNewHolders, HasRotated, FreshJti, NoneLocked, Locked, Revoke, BeingRevoked, LateWith, Targets, Finish;
    match step
    case FinishStep(t, s', jti') =>
      FinishTx(b, t, s', jti');
      if HoldsOn(b.txs, t, d) {
        HolderLeaves(txs, b.txs, t, d);
      } else {
        OneLess(b.txs, t, d);
        SameHoldersSame(txs, b.txs, b.txs - {t}, d);
      }
    case BeginStep(t, token) =>
      OneTx(b.txs, t, Waiting(token), d);
      SameHoldersSame(txs, b.txs, Next(b, step).txs, d);
    case LockStep(t, found) =>
      LockTx(b, t, found, d);
      SameHoldersSame(txs, b.txs, Next(b, step).txs, d);
    case _ =>
      SameTxs(b.txs, d);
      SameHoldersSame(txs, b.txs, b.txs, d);
  }

  lemma {:induction false} HoldersRun(txs: map<nat, Tx>, b: Auth, steps: seq<Step>, c: Auth, d: Uuid)
    requires Reaches(b, steps, c) && NoNewLocks(b, steps, d) && NoNewHolders(txs, b.txs, d)
    ensures NoNewHolders(txs, c.txs, d)
    ensures HasRotated(txs, c.txs, d) <==> HasRotated(txs, b.txs, d) || RotatesIn(b, steps, d)
    decreases |steps|
  {
    hide Next, Enabled, Inserted, NoNewHolders, HasRotated;
    if steps != [] {
      HoldersStep(txs, b, steps[0], d);
      HoldersRun(txs, Next(b, steps[0]), steps[1..], c, d);
    }
  }

  /** Some refresh holds a row of the device and is going to rotate it. */
  predicate RotationPending(a: Auth, d: Uuid) {
    exists t :: t in a.txs && HoldsOn(a.txs, t, d) && EndingOf(a.txs[t]) == Rotate
  }

  /**
   What can be told at the snapshot: if nobody locks a row of the device after it,
   the revocation works if and only if no holder is going to rotate.
   */
  lemma RevocationByHolders(a: Auth, v: nat, steps: seq<Step>, b: Auth)
    requires AuthOk(a) && v in a.revs && a.revs[v].owned && a.revs[v].seen == a.sessions.Keys
    requires Reaches(a, steps, b) && ApplyStep(v) !in steps && Enabled(b, ApplyStep(v))
    requires SparesNew(a.sessions, a, steps, a.revs[v].device) && NoNewLocks(a, steps, a.revs[v].device)
    ensures ShutOut(Apply(b, v).sessions, a.revs[v].device) <==> !RotationPending(a, a.revs[v].device)
  {
    hide AuthOk, ShutOut, Reaches, Enabled, Apply, RotatesIn, SparesNew, NoNewLocks, HasRotated, NoNewHolders, RotationPending, UsableNew;
    var d := a.revs[v].device;
    RevocationByRotations(a, v, steps, b);
    NoHoldersYet(a.txs, d);
    HoldersRun(a.txs, a, steps, b, d);
    UsableRun(a.sessions, a, steps, b, v, d);
    CommitReady(b, v);
    HoldersDone(a, b, v, d);
  }

  lemma CommitReady(b: Auth, v: nat)
    requires Enabled(b, ApplyStep(v))
    ensures v in b.revs && NoneLocked(b, Targets(b.sessions, b.revs[v]))
  {
  }

  lemma NoHoldersYet(txs: map<nat, Tx>, d: Uuid)
    ensures NoNewHolders(txs, txs, d) && !HasRotated(txs, txs, d)
  {
  }

  /** At the commit every refresh that would rotate a row of the device has done so. */
  lemma HoldersDone(a: Auth, b: Auth, v: nat, d: Uuid)
    requires AuthOk(a) && AuthOk(b) && v in b.revs && NoneLocked(b, Targets(b.sessions, b.revs[v]))
    requires b.revs[v].owned && b.revs[v].device == d && b.revs[v].seen == a.sessions.Keys
    ensures HasRotated(a.txs, b.txs, d) <==> RotationPending(a, d)
  {
    hide AuthOk, Targets;
    forall t | t in a.txs && HoldsOn(a.txs, t, d) && EndingOf(a.txs[t]) == Rotate
      ensures Finished(a.txs, b.txs, t, d)
    {
      assert t in b.txs && b.txs[t] == a.txs[t] ==> Locked(b, a.txs[t].sid);
      if t in b.txs && b.txs[t] == a.txs[t] {
        HolderIsTarget(a, b, t, v, d);
      }
    }
  }

  lemma HolderIsTarget(a: Auth, b: Auth, t: nat, v: nat, d: Uuid)
    requires AuthOk(a) && AuthOk(b) && HoldsOn(a.txs, t, d) && EndingOf(a.txs[t]) == Rotate
    requires t in b.txs && b.txs[t] == a.txs[t]
    requires v in b.revs && b.revs[v].owned && b.revs[v].device == d && b.revs[v].seen == a.sessions.Keys
    ensures a.txs[t].sid in Targets(b.sessions, b.revs[v])
  {
    hide LateOk, LoginsOk, LinksOk, Ordered, IssuedOk, RedeemedOk, CountOk;
  }
}

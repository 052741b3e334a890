/** Every session step keeps the invariant, under any interleaving. */
module RotationKeep {
  import opened Core
  import opened Rotation

  // ------------------------------------------------------ opening sessions

  lemma OpenRows(ss: Sessions, ds: Devices, s: Uuid, row: Session)
    requires RowsOk(ss, ds)
    requires s !in ss && FreshJti(ss, row.jti) && row.hash == Token(row.user, s, row.device, row.jti)
    requires row.revoked.None? && row.reason.None?
    requires row.device in ds && ds[row.device].owner == row.user
    ensures RowsOk(ss[s := row], ds)
  {
  }

  /** A session inserted for a device that is revoked or being revoked is late. */
  lemma OpenLate(a: Auth, s: Uuid, row: Session)
    requires LateOk(a.sessions, a.devices, a.late) && RevsOk(a.sessions, a.devices, a.revs, a.late) && s !in a.sessions
    ensures var late := LateWith(a, row.device, s);
      && LateOk(a.sessions[s := row], a.devices, late)
      && RevsOk(a.sessions[s := row], a.devices, a.revs, late)
  {
  }

  lemma OpenLinks(ss: Sessions, s: Uuid, row: Session)
    requires LinksOk(ss) && Ordered(ss) && s !in ss && row.next.None?
    ensures LinksOk(ss[s := row]) && Ordered(ss[s := row])
  {
    var rank: map<Uuid, nat> :| IsOrder(ss, rank);
    assert IsOrder(ss[s := row], rank[s := 0]);
  }

  lemma OpenRedeemed(ss: Sessions, redeemed: multiset<Uuid>, s: Uuid, row: Session)
    requires RedeemedOk(ss, redeemed) && s !in ss && FreshJti(ss, row.jti) && row.next.None?
    ensures RedeemedOk(ss[s := row], redeemed)
  {
    var ss' := ss[s := row];
    assert row.jti !in redeemed;
    forall j | j in redeemed
      ensures !FreshJti(ss', j)
    {
      var r :| r in ss && ss[r].jti == j;
      assert r in ss' && ss'[r].jti == j;
    }
  }

  lemma OpenCount(ss: Sessions, started: nat, s: Uuid, row: Session)
    requires CountOk(ss, started) && s !in ss && row.next.None?
    ensures CountOk(ss[s := row], started + 1)
  {
    assert Rotated(ss[s := row]) == Rotated(ss);
    assert ss[s := row].Keys == ss.Keys + {s};
  }

  lemma OpenLocks(ss: Sessions, txs: map<nat, Tx>, issued: set<Token>, s: Uuid, row: Session)
    requires LocksOk(ss, txs, issued) && IssuedOk(ss, issued) && s !in ss && row.hash.sid == s
    ensures LocksOk(ss[s := row], txs, issued + {row.hash}) && IssuedOk(ss[s := row], issued + {row.hash})
  {
  }

  lemma OpenKeeps(a: Auth, u: Uuid, d: Uuid, s: Uuid, jti: Uuid)
    requires AuthOk(a) && s !in a.sessions && FreshJti(a.sessions, jti)
    requires d in a.devices && a.devices[d].owner == u
    ensures AuthOk(Open(a, u, d, s, jti))
  {
    hide RowsOk, LateOk, RevsOk, LoginsOk, LateWith, LinksOk, Ordered, IssuedOk, RedeemedOk, CountOk, LocksOk, FreshJti;
    var row := NewSession(u, d, s, jti);
    OpenRows(a.sessions, a.devices, s, row);
    OpenLate(a, s, row);
    OpenLinks(a.sessions, s, row);
    OpenRedeemed(a.sessions, a.redeemed, s, row);
    OpenCount(a.sessions, a.started, s, row);
    OpenLocks(a.sessions, a.txs, a.issued, s, row);
  }

  lemma AddDeviceKeeps(a: Auth, d: Uuid, row: Device)
    requires AuthOk(a) && d !in a.devices
    ensures AuthOk(a.(devices := a.devices[d := row]))
  {
    hide LinksOk, Ordered, IssuedOk, RedeemedOk, CountOk, LocksOk;
  }

  lemma SignupKeeps(a: Auth, u: Uuid, d: Uuid, pubkey: nat, s: Uuid, jti: Uuid)
    requires AuthOk(a) && d !in a.devices && s !in a.sessions && FreshJti(a.sessions, jti)
    ensures AuthOk(Signup(a, u, d, pubkey, s, jti))
  {
    hide AuthOk;
    AddDeviceKeeps(a, d, Device(u, pubkey, None));
    OpenKeeps(a.(devices := a.devices[d := Device(u, pubkey, None)]), u, d, s, jti);
  }

  lemma LoginReadKeeps(a: Auth, l: nat, u: Uuid, want: Option<Uuid>, pubkey: nat)
    requires AuthOk(a)
    ensures AuthOk(LoginRead(a, l, u, want, pubkey))
  {
    hide RowsOk, LateOk, RevsOk, LinksOk, Ordered, IssuedOk, RedeemedOk, CountOk, LocksOk;
  }

  lemma LoginWriteKeeps(a: Auth, l: nat, newDevice: Uuid, s: Uuid, jti: Uuid)
    requires AuthOk(a) && l in a.logins && newDevice !in a.devices && s !in a.sessions && FreshJti(a.sessions, jti)
    ensures AuthOk(LoginWrite(a, l, newDevice, s, jti))
  {
    DropLogin(a, l);
    hide AuthOk;
    var c, b := a.logins[l], a.(logins := a.logins - {l});
    match c.device
    case Some(d) => OpenKeeps(b, c.user, d, s, jti);
    case None =>
      AddDeviceKeeps(b, newDevice, Device(c.user, c.pubkey, None));
      OpenKeeps(b.(devices := b.devices[newDevice := Device(c.user, c.pubkey, None)]), c.user, newDevice, s, jti);
  }

  lemma DropLogin(a: Auth, l: nat)
    requires AuthOk(a) && l in a.logins
    ensures AuthOk(a.(logins := a.logins - {l}))
    ensures a.logins[l].device.Some? ==>
              a.logins[l].device.value in a.devices && a.devices[a.logins[l].device.value].owner == a.logins[l].user
  {
    hide RowsOk, LateOk, RevsOk, LinksOk, Ordered, IssuedOk, RedeemedOk, CountOk, LocksOk;
  }

  // -------------------------------------------------------------- revoking

  lemma RevokeRows(ss: Sessions, ds: Devices, gone: set<Uuid>, now: Time, reason: Reason)
    requires RowsOk(ss, ds)
    ensures RowsOk(Revoke(ss, gone, now, reason), ds)
  {
  }

  lemma RevokeLate(a: Auth, gone: set<Uuid>, now: Time, reason: Reason)
    requires LateOk(a.sessions, a.devices, a.late) && RevsOk(a.sessions, a.devices, a.revs, a.late)
    ensures LateOk(Revoke(a.sessions, gone, now, reason), a.devices, a.late)
    ensures RevsOk(Revoke(a.sessions, gone, now, reason), a.devices, a.revs, a.late)
  {
  }

  lemma RevokeLinks(ss: Sessions, gone: set<Uuid>, now: Time, reason: Reason)
    requires LinksOk(ss) && Ordered(ss)
    ensures LinksOk(Revoke(ss, gone, now, reason)) && Ordered(Revoke(ss, gone, now, reason))
  {
    var rank: map<Uuid, nat> :| IsOrder(ss, rank);
    assert IsOrder(Revoke(ss, gone, now, reason), rank);
  }

  lemma RevokeRedeemed(ss: Sessions, redeemed: multiset<Uuid>, gone: set<Uuid>, now: Time, reason: Reason)
    requires RedeemedOk(ss, redeemed)
    ensures RedeemedOk(Revoke(ss, gone, now, reason), redeemed)
  {
    var ss' := Revoke(ss, gone, now, reason);
    forall j | j in redeemed
      ensures !FreshJti(ss', j)
    {
      assert !FreshJti(ss, j);
      var r :| r in ss && ss[r].jti == j;
      assert r in ss' && ss'[r].jti == j;
    }
  }

  lemma RevokeCount(ss: Sessions, issued: set<Token>, started: nat, gone: set<Uuid>, now: Time, reason: Reason)
    requires IssuedOk(ss, issued) && CountOk(ss, started)
    ensures IssuedOk(Revoke(ss, gone, now, reason), issued) && CountOk(Revoke(ss, gone, now, reason), started)
  {
    var ss' := Revoke(ss, gone, now, reason);
    assert ss'.Keys == ss.Keys;
    assert Rotated(ss') == Rotated(ss);
  }

  lemma RevokeLocks(a: Auth, gone: set<Uuid>, now: Time, reason: Reason)
    requires LocksOk(a.sessions, a.txs, a.issued)
    requires forall s :: s in gone ==> !Locked(a, s)
    ensures LocksOk(Revoke(a.sessions, gone, now, reason), a.txs, a.issued)
  {
    forall t | t in a.txs && a.txs[t].Holding?
      ensures a.txs[t].sid !in gone
    {
      assert Locked(a, a.txs[t].sid);
    }
  }

  /** Revoking rows nobody has locked. */
  lemma RevokeKeeps(a: Auth, gone: set<Uuid>, now: Time, reason: Reason)
    requires AuthOk(a)
    requires forall s :: s in gone ==> !Locked(a, s)
    ensures AuthOk(a.(sessions := Revoke(a.sessions, gone, now, reason)))
  {
    hide RowsOk, LateOk, RevsOk, LoginsOk, LinksOk, Ordered, IssuedOk, RedeemedOk, CountOk, LocksOk, Locked;
    RevokeRows(a.sessions, a.devices, gone, now, reason);
    RevokeLate(a, gone, now, reason);
    RevokeLinks(a.sessions, gone, now, reason);
    RevokeRedeemed(a.sessions, a.redeemed, gone, now, reason);
    RevokeCount(a.sessions, a.issued, a.started, gone, now, reason);
    RevokeLocks(a, gone, now, reason);
  }

  lemma LogoutKeeps(a: Auth, gone: set<Uuid>)
    requires AuthOk(a) && forall s :: s in gone ==> !Locked(a, s)
    ensures AuthOk(Logout(a, gone))
  {
    hide AuthOk, Locked;
    RevokeKeeps(a, gone, a.clock, LoggedOut);
  }

  /** A revocation starts with every session of the moment in its snapshot. */
  lemma StartKeeps(a: Auth, v: nat, r: Revocation)
    requires AuthOk(a) && r.seen == a.sessions.Keys
    requires r.owned ==> r.device in a.devices && a.devices[r.device].owner == r.user
    ensures AuthOk(a.(revs := a.revs[v := r]))
  {
    hide RowsOk, LoginsOk, LinksOk, Ordered, IssuedOk, RedeemedOk, CountOk, LocksOk;
  }

  lemma RevokeStartKeeps(a: Auth, v: nat, u: Uuid, d: Uuid, current: Uuid)
    requires AuthOk(a)
    ensures AuthOk(StartRevoke(a, v, u, d, current).0)
  {
    hide AuthOk;
    if StartRevoke(a, v, u, d, current).1 == Done {
      StartKeeps(a, v, Revocation(u, d, true, false, a.sessions.Keys, a.clock));
    }
  }

  lemma LogoutStartKeeps(a: Auth, v: nat, u: Uuid, d: Uuid)
    requires AuthOk(a)
    ensures AuthOk(StartLogout(a, v, u, d))
  {
    hide AuthOk;
    StartKeeps(a, v, Revocation(u, d, d in a.devices && a.devices[d].owner == u, true, a.sessions.Keys, a.clock));
  }

  lemma RevocationDevice(a: Auth, v: nat)
    requires AuthOk(a) && v in a.revs && a.revs[v].owned
    ensures a.revs[v].device in a.devices && a.devices[a.revs[v].device].owner == a.revs[v].user
  {
    hide RowsOk, LateOk, LoginsOk, LinksOk, Ordered, IssuedOk, RedeemedOk, CountOk, LocksOk;
  }

  /** Marking the device of a revocation, its snapshot revoked already. */
  lemma MarkDeviceKeeps(a: Auth, v: nat)
    requires AuthOk(a) && v in a.revs && a.revs[v].owned && a.revs[v].device in a.devices
    requires forall s :: s in a.sessions && s in a.revs[v].seen && a.sessions[s].device == a.revs[v].device ==>
               a.sessions[s].revoked.Some?
    ensures var r := a.revs[v];
      AuthOk(a.(devices := a.devices[r.device := a.devices[r.device].(revoked := Some(r.at))], revs := a.revs - {v}))
  {
    hide LinksOk, Ordered, IssuedOk, RedeemedOk, CountOk, LocksOk;
  }

  /** The update revokes every session of the device that its snapshot holds. */
  lemma SeenAreRevoked(a: Auth, v: nat)
    requires AuthOk(a) && v in a.revs && (a.revs[v].owned || a.revs[v].all)
    ensures var r := a.revs[v];
      var ss := Revoke(a.sessions, Targets(a.sessions, r), r.at, DeviceRevoked);
      && ss.Keys == a.sessions.Keys
      && forall s :: s in ss && s in r.seen && ss[s].device == r.device ==> ss[s].revoked.Some?
  {
    hide LateOk, LoginsOk, LinksOk, Ordered, IssuedOk, RedeemedOk, CountOk, LocksOk;
  }

  lemma ApplyKeeps(a: Auth, v: nat)
    requires AuthOk(a) && v in a.revs
    requires forall s :: s in Targets(a.sessions, a.revs[v]) ==> !Locked(a, s)
    ensures a.revs[v].owned ==> a.revs[v].device in a.devices
    ensures AuthOk(Apply(a, v))
  {
    var r := a.revs[v];
    if r.owned {
      RevocationDevice(a, v);
      SeenAreRevoked(a, v);
    }
    hide Locked, Targets, Revoke;
    var b := a.(sessions := Revoke(a.sessions, Targets(a.sessions, r), r.at, DeviceRevoked));
    RevokeKeeps(a, Targets(a.sessions, r), r.at, DeviceRevoked);
    hide AuthOk;
    if r.owned {
      MarkDeviceKeeps(b, v);
    } else {
      DropRevocation(b, v);
    }
  }

  lemma DropRevocation(a: Auth, v: nat)
    requires AuthOk(a)
    ensures AuthOk(a.(revs := a.revs - {v}))
  {
    hide RowsOk, LateOk, LoginsOk, LinksOk, Ordered, IssuedOk, RedeemedOk, CountOk, LocksOk;
  }

  // --------------------------------------------------------------- refresh

  lemma BeginKeeps(a: Auth, t: nat, token: Token)
    requires AuthOk(a) && t !in a.txs && token in a.issued
    ensures AuthOk(Begin(a, t, token))
  {
    hide RowsOk, LateOk, RevsOk, LoginsOk, LinksOk, Ordered, IssuedOk, RedeemedOk, CountOk;
  }

  /** The row a token's jti finds is the row of the token's own session. */
  lemma JtiFindsOwnSession(a: Auth, token: Token, s: Uuid)
    requires AuthOk(a) && token in a.issued && s in a.sessions && a.sessions[s].jti == token.jti
    ensures s == token.sid && a.sessions[s].hash == token
  {
    assert a.sessions[token.sid].hash == token;
    assert a.sessions[token.sid].jti == token.jti;
  }

  lemma LockKeeps(a: Auth, t: nat, found: Option<Uuid>)
    requires AuthOk(a) && t in a.txs && a.txs[t].Waiting?
    requires found.Some? ==> found.value in WithJti(a.sessions, a.txs[t].token.jti) && !Locked(a, found.value)
    ensures AuthOk(Lock(a, t, found))
  {
    hide RowsOk, LateOk, RevsOk, LoginsOk, LinksOk, Ordered, IssuedOk, RedeemedOk, CountOk;
  }

  lemma ReleaseKeeps(a: Auth, t: nat)
    requires AuthOk(a)
    ensures AuthOk(a.(txs := a.txs - {t}))
  {
    hide RowsOk, LateOk, RevsOk, LoginsOk, LinksOk, Ordered, IssuedOk, RedeemedOk, CountOk;
  }

  /** Linking a session to one that nobody links to and that links to nobody. */
  lemma LinkKeepsLinks(ss: Sessions, s: Uuid, s': Uuid)
    requires LinksOk(ss) && Ordered(ss)
    requires s in ss && s' in ss && s != s' && ss[s].next.None? && ss[s'].next.None?
    requires ss[s'].user == ss[s].user && ss[s'].device == ss[s].device
    requires forall r :: r in ss ==> ss[r].next != Some(s')
    ensures LinksOk(ss[s := ss[s].(next := Some(s'))]) && Ordered(ss[s := ss[s].(next := Some(s'))])
  {
    var rank: map<Uuid, nat> :| IsOrder(ss, rank);
    var r: nat := if rank[s'] <= rank[s] then rank[s] + 1 else rank[s'];
    assert IsOrder(ss[s := ss[s].(next := Some(s'))], rank[s' := r]);
  }

  lemma LinkKeepsRows(ss: Sessions, ds: Devices, s: Uuid, s': Uuid)
    requires RowsOk(ss, ds) && s in ss
    ensures RowsOk(ss[s := ss[s].(next := Some(s'))], ds)
  {
  }

  lemma LinkKeepsLate(ss: Sessions, ds: Devices, revs: map<nat, Revocation>, late: set<Uuid>, s: Uuid, s': Uuid)
    requires LateOk(ss, ds, late) && RevsOk(ss, ds, revs, late) && s in ss
    ensures LateOk(ss[s := ss[s].(next := Some(s'))], ds, late)
    ensures RevsOk(ss[s := ss[s].(next := Some(s'))], ds, revs, late)
  {
  }

  lemma LinkIssued(ss: Sessions, issued: set<Token>, s: Uuid, s': Uuid)
    requires IssuedOk(ss, issued) && s in ss
    ensures IssuedOk(ss[s := ss[s].(next := Some(s'))], issued)
  {
  }

  lemma LinkRedeemed(ss: Sessions, ds: Devices, redeemed: multiset<Uuid>, s: Uuid, s': Uuid)
    requires RowsOk(ss, ds) && RedeemedOk(ss, redeemed) && s in ss && ss[s].next.None?
    ensures RedeemedOk(ss[s := ss[s].(next := Some(s'))], redeemed + multiset{ss[s].jti})
  {
    var ss', redeemed' := ss[s := ss[s].(next := Some(s'))], redeemed + multiset{ss[s].jti};
    forall j | j in redeemed'
      ensures !FreshJti(ss', j)
    {
      if j == ss[s].jti {
        assert s in ss' && ss'[s].jti == j;
      } else {
        assert !FreshJti(ss, j);
        var r :| r in ss && ss[r].jti == j;
        assert r in ss' && ss'[r].jti == j;
      }
    }
    forall r | r in ss'
      ensures redeemed'[ss'[r].jti] == (if ss'[r].next.Some? then 1 else 0)
    {
      assert ss'[r].jti == ss[r].jti;
      if r != s {
        assert ss[r].jti != ss[s].jti;
      }
    }
  }

  lemma LinkCount(ss: Sessions, started: nat, s: Uuid, s': Uuid)
    requires CountOk(ss, started + 1) && s in ss && ss[s].next.None?
    ensures CountOk(ss[s := ss[s].(next := Some(s'))], started)
  {
    var ss' := ss[s := ss[s].(next := Some(s'))];
    assert ss'.Keys == ss.Keys;
    assert Rotated(ss') == Rotated(ss) + {s};
  }

  /** Writing the row its own transaction has locked disturbs no other holder. */
  lemma LinkLocks(ss: Sessions, txs: map<nat, Tx>, issued: set<Token>, t: nat, s': Uuid)
    requires LocksOk(ss, txs, issued) && t in txs && txs[t].Holding?
    ensures var s := txs[t].sid;
      LocksOk(ss[s := ss[s].(next := Some(s'))], txs - {t}, issued)
  {
  }

  lemma NobodyLinksToNew(ss: Sessions, s': Uuid, row: Session)
    requires LinksOk(ss) && s' !in ss && row.next.None?
    ensures var mid := ss[s' := row];
      forall r :: r in mid ==> mid[r].next != Some(s')
  {
  }

  lemma RotateKeeps(a: Auth, t: nat, s': Uuid, jti': Uuid)
    requires AuthOk(a) && t in a.txs && a.txs[t].Holding? && EndingOf(a.txs[t]) == Rotate
    requires s' !in a.sessions && FreshJti(a.sessions, jti')
    ensures AuthOk(Finish(a, t, s', jti'))
  {
    var tx := a.txs[t];
    var s, row := tx.sid, NewSession(tx.row.user, tx.row.device, s', jti');
    assert s in a.sessions && a.sessions[s] == tx.row;
    assert tx.row.device in a.devices && a.devices[tx.row.device].owner == tx.row.user;
    NobodyLinksToNew(a.sessions, s', row);
    hide RowsOk, LateOk, RevsOk, LoginsOk, LinksOk, Ordered, IssuedOk, RedeemedOk, CountOk, LocksOk, FreshJti, LateWith;
    var mid := a.sessions[s' := row];
    OpenRows(a.sessions, a.devices, s', row);
    OpenLate(a, s', row);
    OpenLinks(a.sessions, s', row);
    OpenRedeemed(a.sessions, a.redeemed, s', row);
    OpenCount(a.sessions, a.started, s', row);
    OpenLocks(a.sessions, a.txs, a.issued, s', row);
    LinkKeepsRows(mid, a.devices, s, s');
    LinkKeepsLate(mid, a.devices, a.revs, LateWith(a, row.device, s'), s, s');
    LinkKeepsLinks(mid, s, s');
    LinkIssued(mid, a.issued + {row.hash}, s, s');
    LinkRedeemed(mid, a.devices, a.redeemed, s, s');
    LinkCount(mid, a.started, s, s');
    LinkLocks(mid, a.txs, a.issued + {row.hash}, t, s');
  }

  lemma FinishKeeps(a: Auth, t: nat, s': Uuid, jti': Uuid)
    requires AuthOk(a) && t in a.txs && a.txs[t].Holding?
    requires s' !in a.sessions && FreshJti(a.sessions, jti')
    requires EndingOf(a.txs[t]) == Reuse ==> !Locked(a, a.txs[t].row.next.value)
    ensures AuthOk(Finish(a, t, s', jti'))
  {
    hide RowsOk, LateOk, RevsOk, LoginsOk, LinksOk, Ordered, IssuedOk, RedeemedOk, CountOk;
    var tx := a.txs[t];
    match EndingOf(tx)
    case Invalid => ReleaseKeeps(a, t);
    case Reuse =>
      ReleaseKeeps(a, t);
      JtiFindsOwnSession(a, tx.token, tx.sid);
      var b := a.(txs := a.txs - {t});
      assert !Locked(b, tx.sid) && !Locked(b, tx.row.next.value);
      RevokeKeeps(b, {tx.token.sid, tx.row.next.value}, a.clock, ReuseDetected);
    case Rotate => RotateKeeps(a, t, s', jti');
  }
}

/**
 What each session call does, row by row, read off the tables as they are at that
 moment and not from the functions that `Rotation` builds the calls from.
 */
module SessionEffects {
  import opened Core
  import opened Rotation
  import opened RotationKeep
  import opened RotationLaws

  /** A new row for `s`: usable, not rotated, and the only one its token opens. */
  predicate IsFresh(row: Session, u: Uuid, d: Uuid, s: Uuid, jti: Uuid) {
    && row.user == u && row.device == d && row.jti == jti && row.hash == Token(u, s, d, jti)
    && row.revoked.None? && row.reason.None? && row.next.None?
  }

  /** The rows `gone` carry that time and reason, and no row differs otherwise. */
  ghost predicate RevokesExactly(ss: Sessions, ss': Sessions, gone: set<Uuid>, now: Time, reason: Reason) {
    && ss'.Keys == ss.Keys
    && (forall s :: s in ss && s !in gone ==> ss'[s] == ss[s])
    && (forall s :: s in ss && s in gone ==> ss'[s] == ss[s].(revoked := Some(now), reason := Some(reason)))
  }

  /** A revocation of `d` is in flight or done. */
  ghost predicate GoingOrGone(a: Auth, d: Uuid) {
    || (exists v :: v in a.revs && a.revs[v].owned && a.revs[v].device == d)
    || (d in a.devices && a.devices[d].revoked.Some?)
  }

  // --------------------------------------------------------------- refresh

  /**
   A refresh that has the lock, in any state: by the row of its token as it is now.
   A revoked row changes nothing. An unrevoked, rotated one costs it and its
   successor their validity. Any other is rotated into a new session, once.
   */
  lemma RefreshRows(a: Auth, t: nat, s': Uuid, jti': Uuid)
    requires AuthOk(a) && t in a.txs && a.txs[t].Holding? && s' !in a.sessions
    ensures a.txs[t].sid in a.sessions && a.txs[t].token.sid in a.sessions
    ensures var c, sid := Finish(a, t, s', jti'), a.txs[t].token.sid;
      var row := a.sessions[sid];
      && (row.reason.Some? ==> c == a.(txs := a.txs - {t}))
      && (row.reason.None? && row.next.Some? ==>
            && RevokesExactly(a.sessions, c.sessions, {sid, row.next.value}, a.clock, ReuseDetected)
            && c == a.(txs := a.txs - {t}, sessions := c.sessions))
      && (row.reason.None? && row.next.None? ==>
            && c.sessions.Keys == a.sessions.Keys + {s'}
            && IsFresh(c.sessions[s'], row.user, row.device, s', jti')
            && c.sessions[sid] == row.(next := Some(s'))
            && (forall s :: s in a.sessions && s != sid ==> c.sessions[s] == a.sessions[s])
            && c.late == (if GoingOrGone(a, row.device) then a.late + {s'} else a.late)
            && c == a.(txs := a.txs - {t}, sessions := c.sessions, late := c.late,
                       issued := a.issued + {Token(row.user, s', row.device, jti')},
                       redeemed := a.redeemed + multiset{row.jti}))
  {
    hide AuthOk, Finish, RevokesExactly, IsFresh, GoingOrGone;
    HeldRow(a, t);
    InvalidEnds(a, t, s', jti');
    ReuseEnds(a, t, s', jti');
    RotateEnds(a, t, s', jti');
  }

  /** `t` holds the row of its own token, as the table has it. */
  predicate HoldsOwn(a: Auth, t: nat) {
    && t in a.txs && a.txs[t].Holding? && a.txs[t].sid == a.txs[t].token.sid && a.txs[t].sid in a.sessions
    && a.sessions[a.txs[t].sid] == a.txs[t].row && a.txs[t].row.hash == a.txs[t].token
  }

  lemma InvalidEnds(a: Auth, t: nat, s': Uuid, jti': Uuid)
    requires HoldsOwn(a, t)
    ensures a.sessions[a.txs[t].sid].reason.Some? ==> Finish(a, t, s', jti') == a.(txs := a.txs - {t})
  {
  }

  lemma ReuseEnds(a: Auth, t: nat, s': Uuid, jti': Uuid)
    requires HoldsOwn(a, t)
    ensures var c, row := Finish(a, t, s', jti'), a.sessions[a.txs[t].sid];
      row.reason.None? && row.next.Some? ==>
        && RevokesExactly(a.sessions, c.sessions, {a.txs[t].sid, row.next.value}, a.clock, ReuseDetected)
        && c == a.(txs := a.txs - {t}, sessions := c.sessions)
  {
  }

  lemma RotateEnds(a: Auth, t: nat, s': Uuid, jti': Uuid)
    requires HoldsOwn(a, t) && s' !in a.sessions
    ensures var c, sid := Finish(a, t, s', jti'), a.txs[t].sid;
      var row := a.sessions[sid];
      row.reason.None? && row.next.None? ==>
        && c.sessions.Keys == a.sessions.Keys + {s'}
        && IsFresh(c.sessions[s'], row.user, row.device, s', jti')
        && c.sessions[sid] == row.(next := Some(s'))
        && (forall s :: s in a.sessions && s != sid ==> c.sessions[s] == a.sessions[s])
        && c.late == (if GoingOrGone(a, row.device) then a.late + {s'} else a.late)
        && c == a.(txs := a.txs - {t}, sessions := c.sessions, late := c.late,
                   issued := a.issued + {Token(row.user, s', row.device, jti')},
                   redeemed := a.redeemed + multiset{row.jti})
  {
  }

  lemma HeldRow(a: Auth, t: nat)
    requires AuthOk(a) && t in a.txs && a.txs[t].Holding?
    ensures HoldsOwn(a, t)
  {
    hide LateOk, RevsOk, LoginsOk, LinksOk, Ordered, RedeemedOk, CountOk;
    JtiFindsOwnSession(a, a.txs[t].token, a.txs[t].sid);
  }

  /** Redeemable is what a refresh rotates: it inserts a session exactly then. */
  lemma RedeemableMeans(a: Auth, t: nat, s': Uuid, jti': Uuid)
    requires AuthOk(a) && t in a.txs && a.txs[t].Holding? && s' !in a.sessions
    ensures a.txs[t].sid in a.sessions && (s' in Finish(a, t, s', jti').sessions <==> Redeemable(a.sessions, a.txs[t].token.sid))
  {
    hide AuthOk, Finish;
    RefreshRows(a, t, s', jti');
  }

  // ------------------------------------------------------- signup and login

  lemma SignupRows(a: Auth, u: Uuid, d: Uuid, pubkey: nat, s: Uuid, jti: Uuid)
    requires s !in a.sessions && d !in a.devices
    ensures var c := Signup(a, u, d, pubkey, s, jti);
      && c.devices.Keys == a.devices.Keys + {d} && c.devices[d] == Device(u, pubkey, None)
      && (forall e :: e in a.devices ==> c.devices[e] == a.devices[e])
      && c.sessions.Keys == a.sessions.Keys + {s} && IsFresh(c.sessions[s], u, d, s, jti)
      && (forall r :: r in a.sessions ==> c.sessions[r] == a.sessions[r])
      && c == a.(devices := c.devices, sessions := c.sessions, late := c.late, started := a.started + 1,
                 issued := a.issued + {Token(u, s, d, jti)})
  {
  }

  /** The device a login may reuse: the one it names, if that is the user's, unrevoked, and has the key sent. */
  predicate Reusable(ds: Devices, u: Uuid, want: Option<Uuid>, pubkey: nat) {
    && want.Some? && want.value in ds && ds[want.value].owner == u && ds[want.value].revoked.None?
    && ds[want.value].pubkey == pubkey
  }

  /**
   A login with nothing between its read and its writes: one new session, on a
   device that is the user's, unrevoked and has the key sent. It is the named one
   exactly when that may be reused, and a new row otherwise.
   */
  lemma LoginRows(a: Auth, l: nat, u: Uuid, want: Option<Uuid>, pubkey: nat, newDevice: Uuid, s: Uuid, jti: Uuid)
    requires l !in a.logins && s !in a.sessions && newDevice !in a.devices
    ensures l in LoginRead(a, l, u, want, pubkey).logins
    ensures var c := LoginWrite(LoginRead(a, l, u, want, pubkey), l, newDevice, s, jti);
      var d := if Reusable(a.devices, u, want, pubkey) then want.value else newDevice;
      && c.sessions.Keys == a.sessions.Keys + {s} && IsFresh(c.sessions[s], u, d, s, jti)
      && (forall r :: r in a.sessions ==> c.sessions[r] == a.sessions[r])
      && d in c.devices && c.devices[d] == Device(u, pubkey, None)
      && c.devices.Keys == a.devices.Keys + {d} && (forall e :: e in a.devices ==> c.devices[e] == a.devices[e])
      && c == a.(devices := c.devices, sessions := c.sessions, late := c.late, started := a.started + 1,
                 issued := a.issued + {Token(u, s, d, jti)})
  {
    assert LoginRead(a, l, u, want, pubkey).logins - {l} == a.logins;
  }

  /** Its writes alone, later: on the device read, whatever has become of it, or on a new one. */
  lemma LoginWriteRows(a: Auth, l: nat, newDevice: Uuid, s: Uuid, jti: Uuid)
    requires l in a.logins && s !in a.sessions && newDevice !in a.devices
    ensures var c, choice := LoginWrite(a, l, newDevice, s, jti), a.logins[l];
      var d := if choice.device.Some? then choice.device.value else newDevice;
      && c.sessions.Keys == a.sessions.Keys + {s} && IsFresh(c.sessions[s], choice.user, d, s, jti)
      && (forall r :: r in a.sessions ==> c.sessions[r] == a.sessions[r])
      && (forall e :: e in a.devices ==> e in c.devices && c.devices[e] == a.devices[e])
      && (choice.device.None? ==> newDevice in c.devices && c.devices[newDevice] == Device(choice.user, choice.pubkey, None))
      && (s in c.late <==> s in a.late || GoingOrGone(a, d))
  {
    var c, choice := LoginWrite(a, l, newDevice, s, jti), a.logins[l];
    if choice.device.None? {
      assert BeingRevoked(a.(logins := a.logins - {l}, devices := a.devices[newDevice := Device(choice.user, choice.pubkey, None)]), newDevice)
          == BeingRevoked(a, newDevice);
    } else {
      assert BeingRevoked(a.(logins := a.logins - {l}), choice.device.value) == BeingRevoked(a, choice.device.value);
    }
  }

  // ---------------------------------------------- logging out, revocation

  lemma LogoutRows(a: Auth, gone: set<Uuid>)
    ensures var c := Logout(a, gone);
      c == a.(sessions := c.sessions) && RevokesExactly(a.sessions, c.sessions, gone, a.clock, LoggedOut)
  {
  }

  /** `revoke_device` refuses the current device, and one that is foreign, unknown or revoked. */
  lemma StartRevokeRows(a: Auth, v: nat, u: Uuid, d: Uuid, current: Uuid)
    ensures var r := StartRevoke(a, v, u, d, current);
      && r.1 == (if d == current then Failed(BadRequest)
                 else if d in a.devices && a.devices[d].owner == u && a.devices[d].revoked.None? then Done
                 else Failed(NotFound))
      && (r.1 != Done ==> r.0 == a)
      && (r.1 == Done ==> && v in r.0.revs && r.0.revs[v].device == d && r.0.revs[v].user == u && r.0.revs[v].owned
                          && !r.0.revs[v].all && r.0.revs[v].seen == a.sessions.Keys && r.0.revs[v].at == a.clock
                          && r.0 == a.(revs := a.revs[v := r.0.revs[v]]))
  {
  }

  lemma StartLogoutRows(a: Auth, v: nat, u: Uuid, d: Uuid)
    ensures var c := StartLogout(a, v, u, d);
      && v in c.revs && c.revs[v].device == d && c.revs[v].user == u && c.revs[v].all
      && (c.revs[v].owned <==> d in a.devices && a.devices[d].owner == u)
      && c.revs[v].seen == a.sessions.Keys && c.revs[v].at == a.clock && c == a.(revs := a.revs[v := c.revs[v]])
  {
  }

  /**
   The commit of a revocation: of the rows in its snapshot, those of the device
   are revoked, which `revoke_device` limits to unrevoked ones of its user; the
   device row is revoked too if the update of it hit.
   */
  lemma ApplyRows(a: Auth, v: nat)
    requires v in a.revs && (a.revs[v].owned ==> a.revs[v].device in a.devices)
    ensures var c, r := Apply(a, v), a.revs[v];
      && c == a.(devices := c.devices, sessions := c.sessions, revs := a.revs - {v})
      && c.devices.Keys == a.devices.Keys
      && (forall e :: e in a.devices && !(r.owned && e == r.device) ==> c.devices[e] == a.devices[e])
      && (r.owned ==> c.devices[r.device] == a.devices[r.device].(revoked := Some(r.at)))
      && c.sessions.Keys == a.sessions.Keys
      && forall s :: s in a.sessions ==>
           if && s in r.seen && a.sessions[s].device == r.device
              && (r.all || (a.sessions[s].user == r.user && a.sessions[s].revoked.None?))
           then c.sessions[s] == a.sessions[s].(revoked := Some(r.at), reason := Some(DeviceRevoked))
           else c.sessions[s] == a.sessions[s]
  {
  }
}

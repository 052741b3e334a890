/** The session calls as methods over the session and device tables, proved against `Rotation`. */
module AuthService {
  import opened Core
  import opened Rotation
  import opened RotationKeep

  /** A signup waiting for its completion; `email` is the normalized address. */
  datatype PendingSignup = PendingSignup(email: string, expires: Time)

  const SIGNUP_SECONDS := 10 * 60

  /** No normalized address belongs to two users. */
  predicate UniqueAddresses(users: map<Uuid, string>) {
    forall u, w :: u in users && w in users && users[u] == users[w] ==> u == w
  }

  class SessionTables {
    var sessions: Sessions
    var devices: Devices
    var users: map<Uuid, string>
    var pendingSignups: map<nat, PendingSignup>
    var clock: Time
    ghost var started: nat
    ghost var issued: set<Token>
    ghost var redeemed: multiset<Uuid>
    ghost var late: set<Uuid>

    /** The tables between calls: nothing is in flight. */
    ghost function View(): Auth
      reads this
    {
      Auth(sessions, devices, map[], map[], map[], clock, started, issued, redeemed, late)
    }

    ghost predicate Valid()
      reads this
    {
      AuthOk(View()) && UniqueAddresses(users)
    }

    constructor ()
      ensures View() == EmptyAuth && pendingSignups == map[] && users == map[]
    {
      sessions, devices, users, pendingSignups, clock := map[], map[], map[], map[], 0;
      started, issued, redeemed, late := 0, {}, multiset{}, {};
    }

    /** The session insert of signup and login, for a device that is not revoked. */
    method OpenSession(u: Uuid, d: Uuid, s: Uuid, jti: Uuid) returns (token: Token)
      requires !Revoked(devices, d)
      modifies this`sessions, this`started, this`issued
      ensures View() == Open(old(View()), u, d, s, jti) && token == Token(u, s, d, jti)
    {
      token := Token(u, s, d, jti);
      sessions := sessions[s := Session(u, d, jti, token, None, None, None)];
      started := started + 1;
      issued := issued + {token};
    }

    /** `signup_init`: refused for a registered address, else a signup token good for ten minutes. */
    method SignupInit(email: string, signup: nat) returns (r: Status)
      requires signup !in pendingSignups
      modifies this`pendingSignups
      ensures r == if email in users.Values then Failed(Conflict) else Done
      ensures pendingSignups == if r == Done then old(pendingSignups)[signup := PendingSignup(email, clock + SIGNUP_SECONDS)]
                                else old(pendingSignups)
    {
      if email in users.Values {
        return Failed(Conflict);
      }
      pendingSignups := pendingSignups[signup := PendingSignup(email, clock + SIGNUP_SECONDS)];
      r := Done;
    }

    /**
     `signup_complete`: a signup token works once, only before it expires, and only
     if nobody registered its address in the meantime; any try uses it up. No
     address is ever registered twice.
     */
    method SignupComplete(signup: nat, u: Uuid, d: Uuid, pubkey: nat, s: Uuid, jti: Uuid) returns (r: Status)
      requires Valid() && u !in users && d !in devices && s !in sessions && FreshJti(sessions, jti)
      modifies this
      ensures Valid() && pendingSignups == old(pendingSignups) - {signup}
      ensures r == Done <==> && signup in old(pendingSignups) && old(pendingSignups)[signup].expires >= old(clock)
                             && old(pendingSignups)[signup].email !in old(users).Values
      ensures r == Failed(Conflict) <==> && signup in old(pendingSignups) && old(pendingSignups)[signup].expires >= old(clock)
                                         && old(pendingSignups)[signup].email in old(users).Values
      ensures View() == if r == Done then Signup(old(View()), u, d, pubkey, s, jti) else old(View())
      ensures users == if r == Done then old(users)[u := old(pendingSignups)[signup].email] else old(users)
    {
      hide AuthOk, FreshJti, Open;
      SignupKeeps(View(), u, d, pubkey, s, jti);
      if signup !in pendingSignups {
        assert pendingSignups - {signup} == pendingSignups;
        return Failed(BadRequest);
      }
      var pending := pendingSignups[signup];
      pendingSignups := pendingSignups - {signup};
      if pending.expires < clock {
        return Failed(BadRequest);
      }
      if pending.email in users.Values {
        return Failed(Conflict);
      }
      RegisterKeeps(users, u, pending.email);
      hide UniqueAddresses;
      users := users[u := pending.email];
      devices := devices[d := Device(u, pubkey, None)];
      var token := OpenSession(u, d, s, jti);
      r := Done;
    }

    /** The device query of `login` and the insert of a new device row where it finds none. */
    method DeviceForLogin(u: Uuid, want: Option<Uuid>, pubkey: nat, newDevice: Uuid) returns (d: Uuid)
      requires newDevice !in devices
      modifies this`devices
      ensures match ChooseDevice(old(devices), u, want, pubkey)
              case Some(x) => d == x && devices == old(devices)
              case None => d == newDevice && devices == old(devices)[newDevice := Device(u, pubkey, None)]
      ensures d in devices && devices[d].owner == u && devices[d].revoked.None? && devices[d].pubkey == pubkey
      ensures if want.Some? && want.value in old(devices) && old(devices)[want.value] == Device(u, pubkey, None)
              then d == want.value && devices == old(devices) else d == newDevice
    {
      if want.Some? && want.value in devices && devices[want.value].owner == u && devices[want.value].revoked.None? {
        if devices[want.value].pubkey == pubkey {
          return want.value;
        }
      }
      devices := devices[newDevice := Device(u, pubkey, None)];
      d := newDevice;
    }

    /** The device and session part of `login`, run alone: its read and its writes. */
    method LoginSession(u: Uuid, want: Option<Uuid>, pubkey: nat, newDevice: Uuid, s: Uuid, jti: Uuid) returns (token: Token)
      requires Valid() && newDevice !in devices && s !in sessions && FreshJti(sessions, jti)
      modifies this
      ensures Valid() && View() == LoginWrite(LoginRead(old(View()), 0, u, want, pubkey), 0, newDevice, s, jti)
      ensures s in sessions && sessions[s].hash == token
      ensures var d := sessions[s].device;
        && d in devices && devices[d].owner == u && devices[d].revoked.None? && devices[d].pubkey == pubkey
        && if want.Some? && want.value in old(devices) && old(devices)[want.value] == Device(u, pubkey, None)
           then d == want.value && devices == old(devices) else d == newDevice
    {
      hide AuthOk, FreshJti, LoginRead, LoginWrite, ChooseDevice, Open;
      ghost var a := View();
      LoginReadKeeps(a, 0, u, want, pubkey);
      LoginAlone(a, u, want, pubkey, newDevice, s, jti);
      LoginWriteKeeps(LoginRead(a, 0, u, want, pubkey), 0, newDevice, s, jti);
      var d := DeviceForLogin(u, want, pubkey, newDevice);
      token := OpenSession(u, d, s, jti);
      OpenedRow(a.(devices := devices), u, d, s, jti);
    }

    /**
     `refresh`, run alone: it equals a begin, a lock and a finish of one
     transaction. A token whose signature does not verify is refused unread.
     */
    method Refresh(token: Token, verified: bool, s': Uuid, jti': Uuid) returns (r: Status)
      requires Valid() && (verified ==> token in issued) && s' !in sessions && FreshJti(sessions, jti')
      modifies this
      ensures Valid()
      ensures !verified ==> r == Failed(InvalidRefreshToken) && View() == old(View())
      ensures verified ==>
        && token.sid in old(sessions)
        && View() == Finish(Lock(Begin(old(View()), 0, token), 0, Some(token.sid)), 0, s', jti')
        && r == (match EndingOf(Holding(token, token.sid, old(sessions)[token.sid]))
                 case Invalid => Failed(InvalidRefreshToken)
                 case Reuse => Failed(RefreshTokenReuse)
                 case Rotate => Done)
      ensures verified ==> var row := old(sessions)[token.sid];
        && (row.reason.Some? ==> r == Failed(InvalidRefreshToken) && View() == old(View()))
        && (row.reason.None? && row.next.Some? ==> r == Failed(RefreshTokenReuse) && sessions.Keys == old(sessions).Keys)
        && (row.reason.None? && row.next.None? ==>
              r == Done && token.sid in sessions && sessions[token.sid] == row.(next := Some(s')) && s' in sessions)
    {
      hide AuthOk, Finish, Lock, Begin;
      if !verified {
        return Failed(InvalidRefreshToken);
      }
      TokenRow(View(), token);
      RefreshAlone(View(), token, s', jti');
      RefreshKeeps(View(), token, s', jti');
      var s :| s in sessions && sessions[s].jti == token.jti;
      var row := sessions[s];
      if row.reason.Some? {
        return Failed(InvalidRefreshToken);
      }
      if row.next.Some? {
        sessions := Revoke(sessions, {token.sid, row.next.value}, clock, ReuseDetected);
        return Failed(RefreshTokenReuse);
      }
      if row.hash != token {
        return Failed(InvalidRefreshToken);
      }
      sessions := sessions[s' := NewSession(row.user, row.device, s', jti')];
      sessions := sessions[s := sessions[s].(next := Some(s'))];
      issued := issued + {Token(row.user, s', row.device, jti')};
      redeemed := redeemed + multiset{row.jti};
      if Revoked(devices, row.device) {
        late := late + {s'};
      }
      r := Done;
    }

    method LogoutSession(s: Uuid, rt: Option<Token>)
      requires Valid()
      modifies this
      ensures Valid()
      ensures var gone := {s} + if rt.Some? then WithJti(old(sessions), rt.value.jti) else {};
        View() == Logout(old(View()), gone)
      ensures s in sessions ==> !Redeemable(sessions, s)
      ensures rt.Some? && rt.value in issued ==> rt.value.sid in sessions && !Redeemable(sessions, rt.value.sid)
    {
      hide AuthOk, Revoke, WithJti;
      ghost var a, gone := View(), {s} + if rt.Some? then WithJti(sessions, rt.value.jti) else {};
      LogoutKeeps(a, gone);
      LoggedOutRows(a, gone, s, rt);
      RevokeTwice(sessions, {s}, if rt.Some? then WithJti(sessions, rt.value.jti) else {}, clock, LoggedOut);
      sessions := Revoke(sessions, {s}, clock, LoggedOut);
      if rt.Some? {
        sessions := Revoke(sessions, WithJti(sessions, rt.value.jti), clock, LoggedOut);
      } else {
        assert {s} + {} == {s};
      }
    }

    /** `logout` with device revocation, run alone: the device of the caller and every session on it. */
    method LogoutAndRevokeDevice(u: Uuid, d: Uuid)
      requires Valid()
      modifies this
      ensures Valid() && View() == Apply(StartLogout(old(View()), 0, u, d), 0)
      ensures forall s :: s in sessions && sessions[s].device == d ==> sessions[s].revoked.Some?
    {
      hide AuthOk, Revoke;
      ghost var a := StartLogout(View(), 0, u, d);
      LogoutStartKeeps(View(), 0, u, d);
      ApplyKeeps(a, 0);
      AppliedAlone(View(), a, 0);
      SeenAreRevoked(a, 0);
      if d in devices && devices[d].owner == u {
        devices := devices[d := devices[d].(revoked := Some(clock))];
      }
      sessions := Revoke(sessions, Targets(sessions, Revocation(u, d, true, true, sessions.Keys, clock)), clock, DeviceRevoked);
    }

    /** `revoke_device`, run alone. */
    method RevokeDeviceCall(u: Uuid, d: Uuid, current: Uuid) returns (r: Status)
      requires Valid()
      modifies this
      ensures Valid() && (View(), r) == RevokeDevice(old(View()), u, d, current)
      ensures r == Done ==> Revoked(devices, d) && forall s :: s in sessions && sessions[s].device == d ==> sessions[s].revoked.Some?
    {
      hide AuthOk, Revoke;
      if d == current {
        return Failed(BadRequest);
      }
      if d !in devices || devices[d].owner != u || devices[d].revoked.Some? {
        return Failed(NotFound);
      }
      ghost var a := StartRevoke(View(), 0, u, d, current).0;
      RevokeStartKeeps(View(), 0, u, d, current);
      ApplyKeeps(a, 0);
      AppliedAlone(View(), a, 0);
      SeenAreRevoked(a, 0);
      devices := devices[d := devices[d].(revoked := Some(clock))];
      sessions := Revoke(sessions, Targets(sessions, Revocation(u, d, true, false, sessions.Keys, clock)), clock, DeviceRevoked);
      r := Done;
    }
  }

  lemma AppliedAlone(a: Auth, b: Auth, v: nat)
    requires a.revs == map[] && v in b.revs && b == a.(revs := a.revs[v := b.revs[v]])
    ensures b.revs - {v} == map[]
  {
  }

  /** A login with nothing else in flight. */
  lemma LoginAlone(a: Auth, u: Uuid, want: Option<Uuid>, pubkey: nat, newDevice: Uuid, s: Uuid, jti: Uuid)
    requires a.logins == map[]
    ensures var b := LoginRead(a, 0, u, want, pubkey);
      && 0 in b.logins && b.sessions == a.sessions && b.devices == a.devices
      && LoginWrite(b, 0, newDevice, s, jti) ==
         (match ChooseDevice(a.devices, u, want, pubkey)
          case Some(d) => Open(a, u, d, s, jti)
          case None => Open(a.(devices := a.devices[newDevice := Device(u, pubkey, None)]), u, newDevice, s, jti))
  {
    hide ChooseDevice;
    assert LoginRead(a, 0, u, want, pubkey).logins - {0} == map[];
    var c := a.(devices := a.devices[newDevice := Device(u, pubkey, None)]);
    assert BeingRevoked(c, newDevice) == BeingRevoked(a, newDevice);
  }

  lemma OpenedRow(a: Auth, u: Uuid, d: Uuid, s: Uuid, jti: Uuid)
    ensures var b := Open(a, u, d, s, jti);
      s in b.sessions && b.sessions[s].device == d && b.sessions[s].hash == Token(u, s, d, jti) && b.devices == a.devices
  {
  }

  lemma LoggedOutRows(a: Auth, gone: set<Uuid>, s: Uuid, rt: Option<Token>)
    requires AuthOk(a) && s in gone && (rt.Some? ==> WithJti(a.sessions, rt.value.jti) <= gone)
    ensures var ss := Logout(a, gone).sessions;
      && (s in ss ==> !Redeemable(ss, s))
      && (rt.Some? && rt.value in a.issued ==> rt.value.sid in ss && !Redeemable(ss, rt.value.sid))
  {
    if rt.Some? && rt.value in a.issued {
      TokenRow(a, rt.value);
      assert rt.value.sid in WithJti(a.sessions, rt.value.jti);
    }
  }

  lemma RevokeTwice(ss: Sessions, s: set<Uuid>, t: set<Uuid>, now: Time, reason: Reason)
    ensures Revoke(Revoke(ss, s, now, reason), t, now, reason) == Revoke(ss, s + t, now, reason)
    ensures forall jti :: WithJti(Revoke(ss, s, now, reason), jti) == WithJti(ss, jti)
  {
  }

  /** A signed token finds exactly its own session row. */
  lemma TokenRow(a: Auth, token: Token)
    requires AuthOk(a) && token in a.issued
    ensures token.sid in a.sessions && a.sessions[token.sid].jti == token.jti && a.sessions[token.sid].hash == token
    ensures forall s :: s in a.sessions && a.sessions[s].jti == token.jti ==> s == token.sid
  {
    hide LateOk, RevsOk, LoginsOk, LinksOk, Ordered, RedeemedOk, CountOk, LocksOk;
    assert a.sessions[token.sid].hash == token;
  }

  /** What one refresh leaves, from begin to finish with no other transaction in flight. */
  lemma RefreshAlone(a: Auth, token: Token, s': Uuid, jti': Uuid)
    requires a.txs == map[] && a.revs == map[] && token.sid in a.sessions && s' != token.sid
    ensures var row := a.sessions[token.sid];
      Finish(Lock(Begin(a, 0, token), 0, Some(token.sid)), 0, s', jti') ==
      (match EndingOf(Holding(token, token.sid, row))
       case Invalid => a
       case Reuse => a.(sessions := Revoke(a.sessions, {token.sid, row.next.value}, a.clock, ReuseDetected))
       case Rotate =>
         a.(sessions := a.sessions[s' := NewSession(row.user, row.device, s', jti')]
                                  [token.sid := a.sessions[s' := NewSession(row.user, row.device, s', jti')][token.sid].(next := Some(s'))],
            issued := a.issued + {Token(row.user, s', row.device, jti')},
            redeemed := a.redeemed + multiset{row.jti},
            late := if Revoked(a.devices, row.device) then a.late + {s'} else a.late))
  {
    var b := Lock(Begin(a, 0, token), 0, Some(token.sid));
    assert b.txs - {0} == map[];
    assert !BeingRevoked(b, b.txs[0].row.device);
  }

  lemma RegisterKeeps(users: map<Uuid, string>, u: Uuid, email: string)
    requires UniqueAddresses(users) && u !in users && email !in users.Values
    ensures UniqueAddresses(users[u := email])
  {
    var users' := users[u := email];
    forall w | w in users
      ensures users[w] != email
    {
      assert users[w] in users.Values;
    }
  }

  lemma RefreshKeeps(a: Auth, token: Token, s': Uuid, jti': Uuid)
    requires AuthOk(a) && a.txs == map[] && token in a.issued && s' !in a.sessions && FreshJti(a.sessions, jti')
    requires token.sid in a.sessions && a.sessions[token.sid].jti == token.jti
    ensures AuthOk(Finish(Lock(Begin(a, 0, token), 0, Some(token.sid)), 0, s', jti'))
  {
    hide AuthOk, FreshJti;
    BeginKeeps(a, 0, token);
    var b := Begin(a, 0, token);
    assert token.sid in WithJti(b.sessions, token.jti);
    LockKeeps(b, 0, Some(token.sid));
    NoSelfLink(a, token.sid);
    FinishKeeps(Lock(b, 0, Some(token.sid)), 0, s', jti');
  }

  lemma NoSelfLink(a: Auth, s: Uuid)
    requires AuthOk(a) && s in a.sessions
    ensures a.sessions[s].next != Some(s)
  {
    var rank: map<Uuid, nat> :| IsOrder(a.sessions, rank);
  }
}

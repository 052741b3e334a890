/**
 Sessions and refresh-token rotation. A refresh is a transaction that takes the
 row lock of its session (`FOR UPDATE`), so it has begin, lock and finish steps. A
 login reads its device before it writes, and a device revocation takes the
 snapshot of its session update before it has waited for every row lock, so both
 have two steps. All of them interleave.
 */
module Rotation {
  import opened Core

  /** A refresh token by its claims; the stored hash is an injective image, modelled as the token. */
  datatype Token = Token(sub: Uuid, sid: Uuid, did: Uuid, jti: Uuid)

  datatype Reason = LoggedOut | DeviceRevoked | ReuseDetected

  datatype Device = Device(owner: Uuid, pubkey: nat, revoked: Option<Time>)

  datatype Session = Session(user: Uuid, device: Uuid, jti: Uuid, hash: Token,
                             revoked: Option<Time>, reason: Option<Reason>, next: Option<Uuid>)

  /** A refresh in flight: not yet locked, or holding the lock with the row as it read it. */
  datatype Tx = Waiting(token: Token) | Holding(token: Token, sid: Uuid, row: Session)

  /** A login after its device query: the device it will reuse, if any. */
  datatype Choice = Choice(user: Uuid, device: Option<Uuid>, pubkey: nat)

  /**
   A device revocation in flight. `owned`: its device update hit a row, whose lock
   it holds. `seen`: the rows in the snapshot of its session update, which skips
   revoked rows and other users' unless `all`.
   */
  datatype Revocation = Revocation(user: Uuid, device: Uuid, owned: bool, all: bool, seen: set<Uuid>, at: Time)

  type Sessions = map<Uuid, Session>
  type Devices = map<Uuid, Device>

  /**
   The two tables and the transactions in flight. The last four fields are
   history: signups and logins, tokens signed, tokens rotated, and sessions
   inserted for a device that was revoked or being revoked at that moment.
   */
  datatype Auth = Auth(sessions: Sessions, devices: Devices,
                       txs: map<nat, Tx>, logins: map<nat, Choice>, revs: map<nat, Revocation>, clock: Time,
                       started: nat, issued: set<Token>, redeemed: multiset<Uuid>, late: set<Uuid>)

  const EmptyAuth := Auth(map[], map[], map[], map[], map[], 0, 0, {}, multiset{}, {})

  predicate Locked(a: Auth, s: Uuid) {
    exists t :: t in a.txs && a.txs[t].Holding? && a.txs[t].sid == s
  }

  /** Some revocation holds the lock of the device row. */
  predicate BeingRevoked(a: Auth, d: Uuid) {
    exists v :: v in a.revs && a.revs[v].owned && a.revs[v].device == d
  }

  predicate Revoked(ds: Devices, d: Uuid) {
    d in ds && ds[d].revoked.Some?
  }

  /** The late sessions once `s` is inserted on `d`. */
  function LateWith(a: Auth, d: Uuid, s: Uuid): set<Uuid> {
    if BeingRevoked(a, d) || Revoked(a.devices, d) then a.late + {s} else a.late
  }

  /** A token that a refresh would rotate. */
  predicate Redeemable(ss: Sessions, s: Uuid) {
    s in ss && ss[s].reason.None? && ss[s].next.None?
  }

  // ----------------------------------------------------------------- steps

  function NewSession(u: Uuid, d: Uuid, s: Uuid, jti: Uuid): Session {
    Session(u, d, jti, Token(u, s, d, jti), None, None, None)
  }

  /** The session insert shared by signup and login. */
  function Open(a: Auth, u: Uuid, d: Uuid, s: Uuid, jti: Uuid): Auth {
    a.(sessions := a.sessions[s := NewSession(u, d, s, jti)],
       started := a.started + 1,
       issued := a.issued + {Token(u, s, d, jti)},
       late := LateWith(a, d, s))
  }

  /** `signup_complete`: a new user, device and session. */
  function Signup(a: Auth, u: Uuid, d: Uuid, pubkey: nat, s: Uuid, jti: Uuid): Auth {
    Open(a.(devices := a.devices[d := Device(u, pubkey, None)]), u, d, s, jti)
  }

  /** The device query of `login`: the named device if it is the user's, unrevoked and has the same key. */
  function ChooseDevice(ds: Devices, u: Uuid, want: Option<Uuid>, pubkey: nat): Option<Uuid> {
    if want.Some? && want.value in ds && ds[want.value].owner == u
       && ds[want.value].revoked.None? && ds[want.value].pubkey == pubkey
    then want else None
  }

  function LoginRead(a: Auth, l: nat, u: Uuid, want: Option<Uuid>, pubkey: nat): Auth {
    a.(logins := a.logins[l := Choice(u, ChooseDevice(a.devices, u, want, pubkey), pubkey)])
  }

  /** The writes of `login`: the chosen device without a second look at it, or a new one. */
  function LoginWrite(a: Auth, l: nat, newDevice: Uuid, s: Uuid, jti: Uuid): Auth
    requires l in a.logins
  {
    var c := a.logins[l];
    var b := a.(logins := a.logins - {l});
    match c.device
    case Some(d) => Open(b, c.user, d, s, jti)
    case None => Open(b.(devices := b.devices[newDevice := Device(c.user, c.pubkey, None)]), c.user, newDevice, s, jti)
  }

  function Begin(a: Auth, t: nat, token: Token): Auth {
    a.(txs := a.txs[t := Waiting(token)])
  }

  /** The locked read: `found` is the row with the token's jti, if any. */
  function Lock(a: Auth, t: nat, found: Option<Uuid>): Auth
    requires t in a.txs && (found.Some? ==> found.value in a.sessions)
  {
    match found
    case None => a.(txs := a.txs - {t})
    case Some(s) => a.(txs := a.txs[t := Holding(a.txs[t].token, s, a.sessions[s])])
  }

  function Revoke(ss: Sessions, gone: set<Uuid>, now: Time, reason: Reason): Sessions {
    map s | s in ss :: if s in gone then ss[s].(revoked := Some(now), reason := Some(reason)) else ss[s]
  }

  /** How a locked refresh ends. */
  datatype Ending = Invalid | Reuse | Rotate

  function EndingOf(tx: Tx): Ending
    requires tx.Holding?
  {
    if tx.row.reason.Some? then Invalid
    else if tx.row.next.Some? then Reuse
    else if tx.row.hash != tx.token then Invalid
    else Rotate
  }

  /** The rest of `refresh` under the lock, and its commit or rollback. */
  function Finish(a: Auth, t: nat, s': Uuid, jti': Uuid): Auth
    requires t in a.txs && a.txs[t].Holding? && a.txs[t].sid in a.sessions
  {
    var tx := a.txs[t];
    var b := a.(txs := a.txs - {t});
    match EndingOf(tx)
    case Invalid => b
    case Reuse => b.(sessions := Revoke(a.sessions, {tx.token.sid, tx.row.next.value}, a.clock, ReuseDetected))
    case Rotate =>
      var successor := NewSession(tx.row.user, tx.row.device, s', jti');
      b.(sessions := a.sessions[s' := successor][tx.sid := a.sessions[tx.sid].(next := Some(s'))],
         issued := a.issued + {successor.hash},
         redeemed := a.redeemed + multiset{tx.row.jti},
         late := LateWith(a, tx.row.device, s'))
  }

  function SessionsOn(ss: Sessions, d: Uuid): set<Uuid> {
    set s | s in ss && ss[s].device == d
  }

  function WithJti(ss: Sessions, jti: Uuid): set<Uuid> {
    set s | s in ss && ss[s].jti == jti
  }

  /** `logout` of one session; both of its updates are of this form, each a transaction of its own. */
  function Logout(a: Auth, gone: set<Uuid>): Auth {
    a.(sessions := Revoke(a.sessions, gone, a.clock, LoggedOut))
  }

  /** `revoke_device` up to the snapshot of its session update. */
  function StartRevoke(a: Auth, v: nat, u: Uuid, d: Uuid, current: Uuid): (Auth, Status) {
    if d == current then (a, Failed(BadRequest))
    else if d !in a.devices || a.devices[d].owner != u || a.devices[d].revoked.Some? then (a, Failed(NotFound))
    else (a.(revs := a.revs[v := Revocation(u, d, true, false, a.sessions.Keys, a.clock)]), Done)
  }

  /** `logout` with device revocation up to the same point; it updates every row of the device. */
  function StartLogout(a: Auth, v: nat, u: Uuid, d: Uuid): Auth {
    var owned := d in a.devices && a.devices[d].owner == u;
    a.(revs := a.revs[v := Revocation(u, d, owned, true, a.sessions.Keys, a.clock)])
  }

  /** The rows the session update writes: seen in the snapshot, and matching when their turn comes. */
  function Targets(ss: Sessions, r: Revocation): set<Uuid> {
    set s | s in ss && s in r.seen && ss[s].device == r.device
            && (r.all || (ss[s].user == r.user && ss[s].revoked.None?))
  }

  /** The session update and the commit of a revocation. */
  function Apply(a: Auth, v: nat): Auth
    requires v in a.revs && (a.revs[v].owned ==> a.revs[v].device in a.devices)
  {
    var r := a.revs[v];
    a.(devices := if r.owned then a.devices[r.device := a.devices[r.device].(revoked := Some(r.at))] else a.devices,
       sessions := Revoke(a.sessions, Targets(a.sessions, r), r.at, DeviceRevoked),
       revs := a.revs - {v})
  }

  /** `revoke_device` with nothing else in flight. */
  function RevokeDevice(a: Auth, u: Uuid, d: Uuid, current: Uuid): (Auth, Status) {
    var started := StartRevoke(a, 0, u, d, current);
    if started.1 == Done then (Apply(started.0, 0), Done) else started
  }

  // ------------------------------------------------------------- invariant

  ghost predicate RowsOk(ss: Sessions, ds: Devices) {
    && (forall s :: s in ss ==> ss[s].device in ds && ds[ss[s].device].owner == ss[s].user)
    && (forall s :: s in ss ==> ss[s].hash == Token(ss[s].user, s, ss[s].device, ss[s].jti))
    && (forall s, r :: s in ss && r in ss && ss[s].jti == ss[r].jti ==> s == r)
    && (forall s :: s in ss ==> (ss[s].revoked.Some? <==> ss[s].reason.Some?))
  }

  /** A revoked device has only revoked sessions. */
  ghost predicate DevicesOk(ss: Sessions, ds: Devices) {
    forall s :: s in ss && Revoked(ds, ss[s].device) ==> ss[s].revoked.Some?
  }

  /** The sessions of a revoked device are revoked, except late ones. */
  ghost predicate LateOk(ss: Sessions, ds: Devices, late: set<Uuid>) {
    && late <= ss.Keys
    && forall s :: s in ss && Revoked(ds, ss[s].device) ==> ss[s].revoked.Some? || s in late
  }

  /** What a revocation in flight has not seen is late. */
  ghost predicate RevsOk(ss: Sessions, ds: Devices, revs: map<nat, Revocation>, late: set<Uuid>) {
    && (forall v :: v in revs && revs[v].owned ==> revs[v].device in ds && ds[revs[v].device].owner == revs[v].user)
    && (forall v, s :: v in revs && s in ss && revs[v].owned && ss[s].device == revs[v].device ==>
          s in revs[v].seen || s in late)
  }

  /** A login will reuse a device of its own user. */
  ghost predicate LoginsOk(ds: Devices, logins: map<nat, Choice>) {
    forall l :: l in logins && logins[l].device.Some? ==>
      logins[l].device.value in ds && ds[logins[l].device.value].owner == logins[l].user
  }

  ghost predicate IsOrder(ss: Sessions, rank: map<Uuid, nat>) {
    && ss.Keys <= rank.Keys
    && forall s :: s in ss && ss[s].next.Some? && ss[s].next.value in ss ==> rank[s] < rank[ss[s].next.value]
  }

  /** No rotation loop. */
  ghost predicate Ordered(ss: Sessions) {
    exists rank: map<Uuid, nat> :: IsOrder(ss, rank)
  }

  /** Rotation edges lead to an existing session of the same user and device, and no two to the same. */
  ghost predicate LinksOk(ss: Sessions) {
    && (forall s :: s in ss && ss[s].next.Some? ==>
          && ss[s].next.value in ss
          && ss[ss[s].next.value].user == ss[s].user && ss[ss[s].next.value].device == ss[s].device)
    && (forall s, r :: s in ss && r in ss && ss[s].next.Some? && ss[s].next == ss[r].next ==> s == r)
  }

  /** Every signed token is the one its session row stores. */
  ghost predicate IssuedOk(ss: Sessions, issued: set<Token>) {
    forall k :: k in issued ==> k.sid in ss && ss[k.sid].hash == k
  }

  predicate FreshJti(ss: Sessions, jti: Uuid) {
    forall s :: s in ss ==> ss[s].jti != jti
  }

  /** A token was redeemed once if its session has been rotated, and never otherwise. */
  ghost predicate RedeemedOk(ss: Sessions, redeemed: multiset<Uuid>) {
    && (forall s :: s in ss ==> redeemed[ss[s].jti] == (if ss[s].next.Some? then 1 else 0))
    && (forall j :: j in redeemed ==> !FreshJti(ss, j))
  }

  function Rotated(ss: Sessions): set<Uuid> {
    set s | s in ss && ss[s].next.Some?
  }

  /** Each signup or login opened one session; each rotation opened one more. */
  ghost predicate CountOk(ss: Sessions, started: nat) {
    |ss| == started + |Rotated(ss)|
  }

  /** A locked row is still as its holder read it, and no row has two holders. */
  ghost predicate LocksOk(ss: Sessions, txs: map<nat, Tx>, issued: set<Token>) {
    && (forall t :: t in txs ==> txs[t].token in issued)
    && (forall t :: t in txs && txs[t].Holding? ==>
          txs[t].sid in ss && ss[txs[t].sid] == txs[t].row && txs[t].token.jti == txs[t].row.jti)
    && (forall t, r :: t in txs && r in txs && txs[t].Holding? && txs[r].Holding? ==>
          (txs[t].sid == txs[r].sid ==> t == r))
  }

  ghost predicate AuthOk(a: Auth) {
    && RowsOk(a.sessions, a.devices) && LateOk(a.sessions, a.devices, a.late)
    && RevsOk(a.sessions, a.devices, a.revs, a.late) && LoginsOk(a.devices, a.logins)
    && LinksOk(a.sessions) && Ordered(a.sessions)
    && IssuedOk(a.sessions, a.issued) && RedeemedOk(a.sessions, a.redeemed)
    && CountOk(a.sessions, a.started) && LocksOk(a.sessions, a.txs, a.issued)
  }
}

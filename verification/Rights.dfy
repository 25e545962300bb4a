/** Who may do what: the exact effect of the user, capability and owner requests on every decision the
    daemon takes afterwards (src/vcd/auth.c), for every user and every context. */
module Rights {
  import opened Wrappers
  import opened Schema
  import opened Store
  import opened Validate
  import opened Lookup
  import opened Auth
  import opened Template
  import opened Invariant
  import opened Requests
  import opened Reachable
  import opened Guarantees

  /** Every decision about user u comes out the same. */
  ghost predicate SameRights(db: Db, d: Db, u: string) {
    && SameLogin(db, d, u)
    && (forall c :: HasCapability(d, u, c) <==> HasCapability(db, u, c))
    && (forall n :: IsOwner(d, u, n) <==> IsOwner(db, u, n))
  }

  ghost predicate SameLogin(db: Db, d: Db, u: string) {
    && GetUid(d, u) == GetUid(db, u)
    && (IsAdmin(d, u) <==> IsAdmin(db, u))
    && (forall p, g :: AuthValid(d, u, p, g) <==> AuthValid(db, u, p, g))
  }

  ghost predicate SameOwned(db: set<Row>, d: set<Row>, t: Table, id: int) {
    forall r: Row :: r.t == t && r.id == id ==> (r in d <==> r in db)
  }

  lemma LoginSame(db: Db, d: Db, u: string)
    requires SameKeyed(db, d, User, Text(u))
    ensures SameLogin(db, d, u)
  {
    IdOfSame(db, d, User, u);
  }

  lemma CapsSame(db: Db, d: Db, u: string)
    requires GetUid(d, u) == GetUid(db, u) && (GetUid(db, u) != 0 ==> SameOwned(db, d, UserCaps, GetUid(db, u)))
    ensures forall c :: HasCapability(d, u, c) <==> HasCapability(db, u, c)
  {
  }

  lemma OwnersSame(db: Db, d: Db, u: string)
    requires SameLogin(db, d, u) && SameRows(db, d, XidNameMap)
    requires GetUid(db, u) != 0 ==> SameKeyed(db, d, XidUidMap, Int(GetUid(db, u)))
    ensures forall n :: IsOwner(d, u, n) <==> IsOwner(db, u, n)
  {
    forall n ensures GetXid(d, n) == GetXid(db, n) {
      IdOfSame(db, d, XidNameMap, n);
    }
  }

  /** Two names never look up the same object. */
  lemma IdOfInjective(db: Db, t: Table, m: string, n: string)
    requires NameTable(t) && IdOf(db, t, m) == IdOf(db, t, n) != 0
    ensures m == n
  {
    var a :| a in db && a.t == t && a.key == Text(m) && a.id == IdOf(db, t, m);
    var b :| b in db && b.t == t && b.key == Text(n) && b.id == IdOf(db, t, n);
    SameKeySameRow(db, t, a, b);
  }

  /** What the row of a user decides. */
  lemma RowDecides(db: Db, u: string, r: Row)
    requires r in db && r.t == User && r.key == Text(u) && |r.data| == 2 && ValidUsername(u)
    ensures GetUid(db, u) == r.id
    ensures IsAdmin(db, u) <==> r.data[1] == Int(1)
    ensures forall p, g :: AuthValid(db, u, p, g) <==> p != [] && r.data[0] == Text(g)
  {
    forall q | q in db && q.t == User && q.key == Text(u) ensures q == r {
      SameKeySameRow(db, User, q, r);
    }
  }

  // ----- users

  /** Updates of one user keep the rows of every other. */
  lemma OtherUsersKept(db: Db, uid: int, i: nat, v: Val, d: Db, username: string, u: string)
    requires Exec(db, Update(User, uid, DataCol(i), v)) == Some(d)
    requires GetUid(db, username) == uid != 0 && u != username
    ensures SameKeyed(db, d, User, Text(u))
  {
    forall r: Row | r.t == User && r.key == Text(u) ensures r in d <==> r in db {
      if r in db {
        var q :| q in db && q.t == User && q.key == Text(username) && q.id == uid;
        SameKeySameRow(db, User, q, r);
        assert Updated(r, User, uid, DataCol(i), v) in d;
      }
      if r in d {
        var p :| p in db && r == Updated(p, User, uid, DataCol(i), v);
        var q :| q in db && q.t == User && q.key == Text(username) && q.id == uid;
        SameKeySameRow(db, User, q, p);
      }
    }
  }

  lemma OtherRightsKept(db: Db, uid: int, i: nat, v: Val, d: Db, username: string, u: string)
    requires Exec(db, Update(User, uid, DataCol(i), v)) == Some(d)
    requires GetUid(db, username) == uid != 0 && u != username
    ensures SameRights(db, d, u)
  {
    ExecFrame(db, Update(User, uid, DataCol(i), v));
    OtherUsersKept(db, uid, i, v, d, username, u);
    LoginSame(db, d, u);
    CapsSame(db, d, u);
    OwnersSame(db, d, u);
  }

  /** The updated row itself. */
  lemma UserRowUpdated(db: Db, uid: int, i: nat, v: Val, d: Db, r: Row) returns (q: Row)
    requires Exec(db, Update(User, uid, DataCol(i), v)) == Some(d)
    requires r in db && r.t == User && r.id == uid && |r.data| == 2 && i < 2
    ensures q in d && q == r.(data := r.data[i := v])
  {
    q := Updated(r, User, uid, DataCol(i), v);
  }

  /** The administrator flag of an existing user. */
  lemma FlagSet(db: Db, username: string, admin: bool, d: Db)
    requires Inv(db) && GetUid(db, username) != 0
    requires Exec(db, Update(User, GetUid(db, username), DataCol(1), Flag(admin))) == Some(d)
    ensures GetUid(d, username) == GetUid(db, username) && (IsAdmin(d, username) <==> admin)
    ensures forall p, g :: AuthValid(d, username, p, g) <==> AuthValid(db, username, p, g)
  {
    var uid := GetUid(db, username);
    var r :| r in db && r.t == User && r.key == Text(username) && r.id == uid;
    var q := UserRowUpdated(db, uid, 1, Flag(admin), d, r);
    RowDecides(db, username, r);
    RowDecides(d, username, q);
  }

  /** The password of an existing user. */
  lemma PasswordSet(db: Db, username: string, hash: string, d: Db)
    requires Inv(db) && GetUid(db, username) != 0
    requires Exec(db, Update(User, GetUid(db, username), DataCol(0), Text(hash))) == Some(d)
    ensures IsAdmin(d, username) <==> IsAdmin(db, username)
    ensures forall p, g :: AuthValid(d, username, p, g) <==> p != [] && g == hash
  {
    var uid := GetUid(db, username);
    var r :| r in db && r.t == User && r.key == Text(username) && r.id == uid;
    var q := UserRowUpdated(db, uid, 0, Text(hash), d, r);
    RowDecides(db, username, r);
    RowDecides(d, username, q);
  }

  lemma SameRightsTrans(a: Db, b: Db, c: Db, u: string)
    requires SameRights(a, b, u) && SameRights(b, c, u)
    ensures SameRights(a, c, u)
  {
  }

  /** vcd.user.set: afterwards the user is an administrator iff asked for, logs in with the new password
      and no other (the old one if none was given), and nobody else's rights have changed. */
  lemma UserSetEffect(db: Db, username: string, pass: string, hash: string, admin: bool, u: string)
    requires Inv(db) && DoUserSet(db, username, pass, hash, admin).fault == NoFault
    ensures var d := DoUserSet(db, username, pass, hash, admin).db;
            && (IsAdmin(d, username) <==> admin)
            && (forall p, g :: AuthValid(d, username, p, g) <==>
                  if pass != [] then p != [] && g == hash else AuthValid(db, username, p, g))
            && (u != username ==> SameRights(db, d, u))
  {
    if GetUid(db, username) == 0 {
      NewUserEffect(db, username, pass, hash, admin, u);
    } else {
      UpdatedUserEffect(db, username, pass, hash, admin, u);
    }
  }

  lemma UpdatedUserEffect(db: Db, username: string, pass: string, hash: string, admin: bool, u: string)
    requires Inv(db) && GetUid(db, username) != 0
    requires DoUserSet(db, username, pass, hash, admin).fault == NoFault
    ensures var d := DoUserSet(db, username, pass, hash, admin).db;
            && (IsAdmin(d, username) <==> admin)
            && (forall p, g :: AuthValid(d, username, p, g) <==>
                  if pass != [] then p != [] && g == hash else AuthValid(db, username, p, g))
            && (u != username ==> SameRights(db, d, u))
  {
    var uid := GetUid(db, username);
    var d1 := Exec(db, Update(User, uid, DataCol(1), Flag(admin))).value;
    UpdateUser(db, uid, 1, Flag(admin));
    FlagSet(db, username, admin, d1);
    var d := DoUserSet(db, username, pass, hash, admin).db;
    if pass == [] {
      assert d == d1;
    } else {
      assert Exec(d1, Update(User, uid, DataCol(0), Text(hash))) == Some(d);
      PasswordSet(d1, username, hash, d);
    }
    if u != username {
      OtherRightsKept(db, uid, 1, Flag(admin), d1, username, u);
      if pass != [] {
        OtherRightsKept(d1, uid, 0, Text(hash), d, username, u);
        SameRightsTrans(db, d1, d, u);
      }
    }
  }

  lemma UserAdded(db: Db, d: Db, row: Row, u: string)
    requires row.t == User && d == db + {row} && row.key != Text(u)
    ensures SameRights(db, d, u)
  {
    LoginSame(db, d, u);
    CapsSame(db, d, u);
    OwnersSame(db, d, u);
  }

  lemma NewUserEffect(db: Db, username: string, pass: string, hash: string, admin: bool, u: string)
    requires Inv(db) && GetUid(db, username) == 0
    requires DoUserSet(db, username, pass, hash, admin).fault == NoFault
    ensures var d := DoUserSet(db, username, pass, hash, admin).db;
            && (IsAdmin(d, username) <==> admin)
            && (forall p, g :: AuthValid(d, username, p, g) <==> p != [] && g == hash)
            && pass != []
            && (u != username ==> SameRights(db, d, u))
  {
    var d := DoUserSet(db, username, pass, hash, admin).db;
    var row := UserRow(MaxId(db, User) + 1, username, hash, admin);
    NewUserRow(db, username, pass, hash, admin);
    RowDecides(d, username, row);
    if u != username {
      UserAdded(db, d, row, u);
    }
  }

  lemma OtherUserRows(db: Db, d: Db, username: string, uid: int, u: string)
    requires GetUid(db, username) == uid != 0 && u != username
    requires forall r: Row :: r.t == User ==> (r in d <==> r in db && r.id != uid)
    ensures SameKeyed(db, d, User, Text(u))
  {
    var q :| q in db && q.t == User && q.key == Text(username) && q.id == uid;
    forall r: Row | r.t == User && r.key == Text(u) ensures r in d <==> r in db {
      if r in db {
        SameKeySameRow(db, User, q, r);
      }
    }
  }

  /** Without the rows of uid, whose name is `username`, every other user keeps its rights. */
  lemma OthersAfterRemoval(db: Db, d: Db, username: string, uid: int, u: string)
    requires GetUid(db, username) == uid != 0 && u != username
    requires forall r: Row :: r in d <==>
               r in db && !((r.t == User || r.t == UserCaps) && r.id == uid) && !(r.t == XidUidMap && r.key == Int(uid))
    ensures SameRights(db, d, u)
  {
    OtherUserRows(db, d, username, uid, u);
    LoginSame(db, d, u);
    if GetUid(db, u) == uid {
      IdOfInjective(db, User, u, username);
    }
    CapsSame(db, d, u);
    OwnersSame(db, d, u);
  }

  /** vcd.user.remove: the user is unknown afterwards, its id has no capability and owns nothing, and
      nobody else's rights have changed. */
  lemma UserRemoveEffect(db: Db, username: string, u: string)
    requires DoUserRemove(db, username).fault == NoFault
    ensures var d := DoUserRemove(db, username).db;
            && GetUid(d, username) == 0 && !Has(d, User, GetUid(db, username))
            && (forall r :: r in d && r.t == UserCaps ==> r.id != GetUid(db, username))
            && (forall r :: r in d && r.t == XidUidMap ==> r.key != Int(GetUid(db, username)))
            && (u != username ==> SameRights(db, d, u))
  {
    var uid := GetUid(db, username);
    UserRemoveRows(db, uid);
    var d := DoUserRemove(db, username).db;
    var q :| q in db && q.t == User && q.key == Text(username) && q.id == uid;
    forall r | r in d && r.t == User ensures r.key != Text(username) {
      SameKeySameRow(db, User, q, r);
    }
    if u != username {
      OthersAfterRemoval(db, d, username, uid, u);
    }
  }

  // ----- capabilities

  lemma CapRowIff(db: Db, d: Db, uid: int, cap: string, v: int, c: string)
    requires Exec(db, Replace(Row(UserCaps, uid, Text(cap), []))) == Some(d)
    ensures HasCapRow(d, v, c) <==> HasCapRow(db, v, c) || (v == uid && c == cap)
  {
    var row := Row(UserCaps, uid, Text(cap), []);
    assert row in d;
    if HasCapRow(db, v, c) && !(v == uid && c == cap) {
      var r :| r in db && r.t == UserCaps && r.id == v && r.key == Text(c);
      assert r in d;
    }
  }

  /** A change to the capability table alone decides nothing about logins and owners. */
  lemma OnlyCapsChanged(db: Db, d: Db, u: string)
    requires forall r: Row :: r.t != UserCaps ==> (r in d <==> r in db)
    ensures SameLogin(db, d, u) && forall n :: IsOwner(d, u, n) <==> IsOwner(db, u, n)
  {
    LoginSame(db, d, u);
    OwnersSame(db, d, u);
  }

  /** Capabilities in terms of rows: every user has rows of its own. */
  lemma CapabilityIff(db: Db, u: string, username: string, c: Cap)
    requires GetUid(db, username) != 0
    ensures HasCapability(db, u, c) <==> GetUid(db, u) != 0 && c in LISTED && HasCapRow(db, GetUid(db, u), KeyOfCap(c))
    ensures GetUid(db, u) == GetUid(db, username) <==> u == username
  {
    if GetUid(db, u) == GetUid(db, username) {
      IdOfInjective(db, User, u, username);
    }
  }

  /** vcd.user.caps.add grants that capability to that user and nothing else to anybody. */
  lemma CapsAddEffect(db: Db, username: string, cap: string, u: string, c: Cap)
    requires DoCapsAdd(db, username, cap).fault == NoFault
    ensures var d := DoCapsAdd(db, username, cap).db;
            && SameLogin(db, d, u)
            && (forall n :: IsOwner(d, u, n) <==> IsOwner(db, u, n))
            && (HasCapability(d, u, c) <==> HasCapability(db, u, c) || (u == username && c in LISTED && KeyOfCap(c) == cap))
  {
    var uid := GetUid(db, username);
    var d := DoCapsAdd(db, username, cap).db;
    assert uid != 0 && Exec(db, Replace(Row(UserCaps, uid, Text(cap), []))) == Some(d);
    CapGranted(db, username, cap, d, u, c);
  }

  lemma CapGranted(db: Db, username: string, cap: string, d: Db, u: string, c: Cap)
    requires GetUid(db, username) != 0
    requires Exec(db, Replace(Row(UserCaps, GetUid(db, username), Text(cap), []))) == Some(d)
    ensures SameLogin(db, d, u) && forall n :: IsOwner(d, u, n) <==> IsOwner(db, u, n)
    ensures HasCapability(d, u, c) <==> HasCapability(db, u, c) || (u == username && c in LISTED && KeyOfCap(c) == cap)
  {
    ExecFrame(db, Replace(Row(UserCaps, GetUid(db, username), Text(cap), [])));
    OnlyCapsChanged(db, d, u);
    OnlyCapsChanged(db, d, username);
    CapabilityIff(db, u, username, c);
    CapabilityIff(d, u, username, c);
    CapRowIff(db, d, GetUid(db, username), cap, GetUid(db, u), KeyOfCap(c));
  }

  lemma CapRowGone(db: Db, d: Db, w: Where, v: int, c: string)
    requires Exec(db, Delete(UserCaps, w)) == Some(d) && !w.ByKey?
    ensures HasCapRow(d, v, c) <==> HasCapRow(db, v, c) && !(v == w.id && (w.ById? || w.key == Text(c)))
  {
    if HasCapRow(db, v, c) && !(v == w.id && (w.ById? || w.key == Text(c))) {
      var r :| r in db && r.t == UserCaps && r.id == v && r.key == Text(c);
      assert r in d;
    }
  }

  /** vcd.user.caps.remove takes that capability, or all of them, from that user. */
  lemma CapsRemoveEffect(db: Db, username: string, cap: string, u: string, c: Cap)
    requires DoCapsRemove(db, username, cap).fault == NoFault
    ensures var d := DoCapsRemove(db, username, cap).db;
            && SameLogin(db, d, u)
            && (forall n :: IsOwner(d, u, n) <==> IsOwner(db, u, n))
            && (HasCapability(d, u, c) <==> HasCapability(db, u, c) && !(u == username && (cap == [] || KeyOfCap(c) == cap)))
  {
    var uid := GetUid(db, username);
    var d := DoCapsRemove(db, username, cap).db;
    var w := if cap != [] then ByBoth(uid, Text(cap)) else ById(uid);
    assert uid != 0 && Exec(db, Delete(UserCaps, w)) == Some(d);
    CapRevoked(db, username, w, d, u, c);
  }

  lemma CapRevoked(db: Db, username: string, w: Where, d: Db, u: string, c: Cap)
    requires !w.ByKey? && w.id == GetUid(db, username) != 0 && Exec(db, Delete(UserCaps, w)) == Some(d)
    ensures SameLogin(db, d, u) && forall n :: IsOwner(d, u, n) <==> IsOwner(db, u, n)
    ensures HasCapability(d, u, c) <==> HasCapability(db, u, c) && !(u == username && (w.ById? || w.key == Text(KeyOfCap(c))))
  {
    ExecFrame(db, Delete(UserCaps, w));
    OnlyCapsChanged(db, d, u);
    OnlyCapsChanged(db, d, username);
    CapabilityIff(db, u, username, c);
    CapabilityIff(d, u, username, c);
    CapRowGone(db, d, w, GetUid(db, u), KeyOfCap(c));
  }

  // ----- owners

  lemma OwnerRowIff(db: Db, d: Db, xid: int, uid: int, x: int, v: int)
    requires Exec(db, Replace(Row(XidUidMap, xid, Int(uid), []))) == Some(d)
    ensures OwnerRow(d, x, v) <==> OwnerRow(db, x, v) || (x == xid && v == uid)
  {
    var row := Row(XidUidMap, xid, Int(uid), []);
    assert row in d;
    if OwnerRow(db, x, v) && !(x == xid && v == uid) {
      var r :| r in db && r.t == XidUidMap && r.id == x && r.key == Int(v);
      assert r in d;
    }
  }

  /** A change to the owner table alone decides nothing about logins, capabilities and names. */
  lemma OnlyOwnersChanged(db: Db, d: Db, u: string, n: string)
    requires forall r: Row :: r.t != XidUidMap ==> (r in d <==> r in db)
    ensures SameLogin(db, d, u) && GetXid(d, n) == GetXid(db, n)
    ensures forall c :: HasCapability(d, u, c) <==> HasCapability(db, u, c)
  {
    LoginSame(db, d, u);
    CapsSame(db, d, u);
    IdOfSame(db, d, XidNameMap, n);
  }

  lemma SameXidSameName(db: Db, m: string, n: string)
    requires GetXid(db, n) != 0
    ensures GetXid(db, m) == GetXid(db, n) <==> m == n
  {
    if GetXid(db, m) == GetXid(db, n) {
      IdOfInjective(db, XidNameMap, m, n);
    }
  }

  lemma SameUidSameUser(db: Db, u: string, v: string)
    requires GetUid(db, v) != 0
    ensures GetUid(db, u) == GetUid(db, v) <==> u == v
  {
    if GetUid(db, u) == GetUid(db, v) {
      IdOfInjective(db, User, u, v);
    }
  }

  /** vxdb.owner.add makes that user an owner of that context, and nobody an owner of anything else. */
  lemma OwnerAddEffect(db: Db, name: string, username: string, u: string, n: string)
    requires DoOwnerAdd(db, name, username).fault == NoFault
    ensures var d := DoOwnerAdd(db, name, username).db;
            && SameLogin(db, d, u)
            && (forall c :: HasCapability(d, u, c) <==> HasCapability(db, u, c))
            && (IsOwner(d, u, n) <==> IsOwner(db, u, n) || (u == username && n == name))
  {
    var uid, xid := GetUid(db, username), GetXid(db, name);
    var d := DoOwnerAdd(db, name, username).db;
    assert uid != 0 && xid != 0 && Exec(db, Replace(Row(XidUidMap, xid, Int(uid), []))) == Some(d);
    OwnerGranted(db, name, username, d, u, n);
  }

  lemma OwnerGranted(db: Db, name: string, username: string, d: Db, u: string, n: string)
    requires GetUid(db, username) != 0 && GetXid(db, name) != 0
    requires Exec(db, Replace(Row(XidUidMap, GetXid(db, name), Int(GetUid(db, username)), []))) == Some(d)
    ensures SameLogin(db, d, u) && forall c :: HasCapability(d, u, c) <==> HasCapability(db, u, c)
    ensures IsOwner(d, u, n) <==> IsOwner(db, u, n) || (u == username && n == name)
  {
    ExecFrame(db, Replace(Row(XidUidMap, GetXid(db, name), Int(GetUid(db, username)), [])));
    OnlyOwnersChanged(db, d, u, n);
    OwnerRowIff(db, d, GetXid(db, name), GetUid(db, username), GetXid(db, n), GetUid(db, u));
    SameUidSameUser(db, u, username);
    SameXidSameName(db, n, name);
  }

  lemma OwnerRowGone(db: Db, d: Db, w: Where, x: int, v: int)
    requires Exec(db, Delete(XidUidMap, w)) == Some(d) && !w.ByKey?
    ensures OwnerRow(d, x, v) <==> OwnerRow(db, x, v) && !(x == w.id && (w.ById? || w.key == Int(v)))
  {
    if OwnerRow(db, x, v) && !(x == w.id && (w.ById? || w.key == Int(v))) {
      var r :| r in db && r.t == XidUidMap && r.id == x && r.key == Int(v);
      assert r in d;
    }
  }

  /** vxdb.owner.remove takes that context from that user, or from everybody, administrators excepted. */
  lemma OwnerRemoveEffect(db: Db, name: string, username: string, u: string, n: string)
    requires DoOwnerRemove(db, name, username).fault == NoFault
    ensures var d := DoOwnerRemove(db, name, username).db;
            && SameLogin(db, d, u)
            && (forall c :: HasCapability(d, u, c) <==> HasCapability(db, u, c))
            && (IsOwner(d, u, n) <==>
                  IsOwner(db, u, n) && (IsAdmin(db, u) || !(n == name && (username == [] || u == username))))
  {
    var uid, xid := GetUid(db, username), GetXid(db, name);
    var d := DoOwnerRemove(db, name, username).db;
    var w := if username != [] then ByBoth(xid, Int(uid)) else ById(xid);
    assert xid != 0 && (username != [] ==> uid != 0) && Exec(db, Delete(XidUidMap, w)) == Some(d);
    OwnerRevoked(db, name, w, d, u, n);
    if username != [] {
      SameUidSameUser(db, u, username);
    }
  }

  lemma OwnerRevoked(db: Db, name: string, w: Where, d: Db, u: string, n: string)
    requires !w.ByKey? && w.id == GetXid(db, name) != 0 && Exec(db, Delete(XidUidMap, w)) == Some(d)
    ensures SameLogin(db, d, u) && forall c :: HasCapability(d, u, c) <==> HasCapability(db, u, c)
    ensures IsOwner(d, u, n) <==>
            IsOwner(db, u, n) && (IsAdmin(db, u) || !(n == name && (w.ById? || w.key == Int(GetUid(db, u)))))
  {
    ExecFrame(db, Delete(XidUidMap, w));
    OnlyOwnersChanged(db, d, u, n);
    OwnerRowGone(db, d, w, GetXid(db, n), GetUid(db, u));
    SameXidSameName(db, n, name);
  }

  // ----- group members

  predicate MemberRow(db: set<Row>, xid: int, gid: int) {
    exists r | r in db :: r.t == XidGidMap && r.id == xid && r.key == Int(gid)
  }

  predicate Member(db: Db, group: string, name: string) {
    GetGid(db, group) != 0 && GetXid(db, name) != 0 && MemberRow(db, GetXid(db, name), GetGid(db, group))
  }

  lemma SameGidSameGroup(db: Db, g: string, h: string)
    requires GetGid(db, h) != 0
    ensures GetGid(db, g) == GetGid(db, h) <==> g == h
  {
    if GetGid(db, g) == GetGid(db, h) {
      IdOfInjective(db, Groups, g, h);
    }
  }

  /** Inserting a membership row. */
  lemma MemberRowIff(db: Db, d: Db, xid: int, gid: int, x: int, i: int)
    requires Exec(db, Insert(Row(XidGidMap, xid, Int(gid), []))) == Some(d)
    ensures MemberRow(d, x, i) <==> MemberRow(db, x, i) || (x == xid && i == gid)
  {
    var row := Row(XidGidMap, xid, Int(gid), []);
    assert d == db + {row} && row in d;
  }

  lemma MemberLinked(db: Db, group: string, name: string, d: Db, g: string, n: string)
    requires GetGid(db, group) != 0 && GetXid(db, name) != 0
    requires Exec(db, Insert(Row(XidGidMap, GetXid(db, name), Int(GetGid(db, group)), []))) == Some(d)
    ensures Member(d, g, n) <==> Member(db, g, n) || (g == group && n == name)
  {
    ExecFrame(db, Insert(Row(XidGidMap, GetXid(db, name), Int(GetGid(db, group)), [])));
    MemberNames(db, group, name, d, g, n);
    MemberRowIff(db, d, GetXid(db, name), GetGid(db, group), GetXid(db, n), GetGid(db, g));
  }

  /** A change to the membership table alone decides nothing about groups and names. */
  lemma MemberNames(db: Db, group: string, name: string, d: Db, g: string, n: string)
    requires GetGid(db, group) != 0 && GetXid(db, name) != 0 && forall r: Row :: r.t != XidGidMap ==> (r in d <==> r in db)
    ensures GetGid(d, g) == GetGid(db, g) && GetXid(d, n) == GetXid(db, n)
    ensures GetGid(db, g) == GetGid(db, group) <==> g == group
    ensures GetXid(db, n) == GetXid(db, name) <==> n == name
  {
    IdOfSame(db, d, Groups, g);
    IdOfSame(db, d, XidNameMap, n);
    SameGidSameGroup(db, g, group);
    SameXidSameName(db, n, name);
  }

  lemma NewGroupFound(db: Db, group: string, row: Row, d: Db)
    requires Inv(db) && ValidGroup(group) && GetGid(db, group) == 0
    requires row == Row(Groups, MaxId(db, Groups) + 1, Text(group), []) && Exec(db, Insert(row)) == Some(d)
    ensures d == db + {row} && GetGid(d, group) == row.id != 0 && !Has(db, Groups, row.id)
  {
    MaxIdNonNegative(db, Groups);
    assert row in d;
    var q :| q in d && q.t == Groups && q.key == Text(group) && q.id == IdOf(d, Groups, group);
    SameKeySameRow(d, Groups, row, q);
  }

  /** A new group has no members yet, although gids are reused. */
  lemma NewGroupEmpty(db: Db, group: string, row: Row, d: Db, g: string, n: string)
    requires Inv(db) && row.t == Groups && row.key == Text(group) && d == db + {row} && GetGid(d, group) == row.id
    requires GetGid(db, group) == 0 && !Has(db, Groups, row.id)
    ensures GetXid(d, n) == GetXid(db, n)
    ensures Member(d, g, n) <==> Member(db, g, n)
  {
    IdOfSame(db, d, XidNameMap, n);
    if g == group {
      assert !MemberRow(db, GetXid(db, n), row.id);
    } else {
      IdOfSame(db, d, Groups, g);
    }
    assert MemberRow(d, GetXid(d, n), GetGid(d, g)) <==> MemberRow(db, GetXid(d, n), GetGid(d, g));
  }

  lemma KnownGroupEffect(db: Db, group: string, name: string, g: string, n: string)
    requires group != "all" && GetGid(db, group) != 0 && DoGroupAdd(db, group, name).fault == NoFault
    ensures Member(DoGroupAdd(db, group, name).db, g, n) <==> Member(db, g, n) || (g == group && n == name && name != [])
  {
    if name != [] {
      MemberLinked(db, group, name, DoGroupAdd(db, group, name).db, g, n);
    }
  }

  /** vg.add makes that context a member of that group, and nothing a member of anything else; the group is
      created where needed and starts empty. */
  lemma GroupAddEffect(db: Db, group: string, name: string, g: string, n: string)
    requires Inv(db) && DoGroupAdd(db, group, name).fault == NoFault
    ensures var d := DoGroupAdd(db, group, name).db;
            Member(d, g, n) <==> Member(db, g, n) || (g == group && n == name && group != "all" && name != [])
  {
    if group != "all" {
      if GetGid(db, group) != 0 {
        KnownGroupEffect(db, group, name, g, n);
      } else {
        NewGroupEffect(db, group, name, g, n);
      }
    }
  }

  lemma NewGroupEffect(db: Db, group: string, name: string, g: string, n: string)
    requires Inv(db) && ValidGroup(group) && group != "all" && GetGid(db, group) == 0
    requires DoGroupAdd(db, group, name).fault == NoFault
    ensures Member(DoGroupAdd(db, group, name).db, g, n) <==> Member(db, g, n) || (g == group && n == name && name != [])
  {
    var row := Row(Groups, MaxId(db, Groups) + 1, Text(group), []);
    var d := Exec(db, Insert(row)).value;
    NewGroupFound(db, group, row, d);
    NewGroupEmpty(db, group, row, d, g, n);
    if name != [] {
      MemberLinked(d, group, name, DoGroupAdd(db, group, name).db, g, n);
    }
  }

  lemma MemberRowGone(db: Db, d: Db, xid: int, gid: int, x: int, i: int)
    requires Exec(db, Delete(XidGidMap, ByBoth(xid, Int(gid)))) == Some(d)
    ensures MemberRow(d, x, i) <==> MemberRow(db, x, i) && !(x == xid && i == gid)
  {
    if MemberRow(db, x, i) && !(x == xid && i == gid) {
      var r :| r in db && r.t == XidGidMap && r.id == x && r.key == Int(i);
      assert r in d;
    }
  }

  lemma MemberUnlinked(db: Db, group: string, name: string, d: Db, g: string, n: string)
    requires GetGid(db, group) != 0 && GetXid(db, name) != 0
    requires Exec(db, Delete(XidGidMap, ByBoth(GetXid(db, name), Int(GetGid(db, group))))) == Some(d)
    ensures Member(d, g, n) <==> Member(db, g, n) && !(g == group && n == name)
  {
    ExecFrame(db, Delete(XidGidMap, ByBoth(GetXid(db, name), Int(GetGid(db, group)))));
    MemberNames(db, group, name, d, g, n);
    MemberRowGone(db, d, GetXid(db, name), GetGid(db, group), GetXid(db, n), GetGid(db, g));
  }

  lemma GroupDropped(db: Db, group: string, gid: int, d: Db, g: string, n: string)
    requires GetGid(db, group) == gid != 0
    requires forall r: Row :: r in d <==> r in db && !(r.t == Groups && r.id == gid) && !(r.t == XidGidMap && r.key == Int(gid))
    ensures Member(d, g, n) <==> Member(db, g, n) && g != group
  {
    var q :| q in db && q.t == Groups && q.key == Text(group) && q.id == gid;
    forall r | r in db && r.t == Groups ensures r.id == gid <==> r.key == Text(group) {
      SameKeySameRow(db, Groups, q, r);
    }
    IdOfSame(db, d, XidNameMap, n);
    if g != group {
      IdOfSame(db, d, Groups, g);
      SameGidSameGroup(db, g, group);
      var x, i := GetXid(db, n), GetGid(db, g);
      assert i != gid && (MemberRow(d, x, i) <==> MemberRow(db, x, i)) by {
        if r :| r in db && r.t == XidGidMap && r.id == x && r.key == Int(i) {
          assert r in d;
        }
      }
    }
  }

  /** vg.remove takes that context out of that group, or removes the group with all its memberships. */
  lemma GroupRemoveEffect(db: Db, group: string, name: string, g: string, n: string)
    requires DoGroupRemove(db, group, name).fault == NoFault
    ensures var d := DoGroupRemove(db, group, name).db;
            Member(d, g, n) <==> Member(db, g, n) && !(g == group && (name == [] || n == name))
  {
    var d, gid := DoGroupRemove(db, group, name).db, GetGid(db, group);
    if name == [] {
      GroupRemoveRows(db, gid);
      GroupDropped(db, group, gid, d, g, n);
    } else {
      MemberUnlinked(db, group, name, d, g, n);
    }
  }
}

/** The users the schema check creates (vxdb_create_user, src/vcd/vxdb.c:154-200), and what they may do:
    an administrator with every listed capability, and a helper with none of them. Nobody else's rights
    change. */
module Accounts {
  import opened Wrappers
  import opened Schema
  import opened Store
  import opened Validate
  import opened Lookup
  import opened Auth
  import opened Invariant
  import opened Requests
  import opened Reachable
  import opened Rights
  import opened Sanity

  /** The capabilities an administrator gets, by name. */
  const ADMIN_CAPS: set<string> := {
    "AUTH", "DLIM", "INIT", "MOUNT", "NET", "BCAP", "CCAP", "CFLAG", "RLIM", "SCHED", "UNAME", "CREATE", "EXEC", "INFO"}

  lemma ListedByName(key: string)
    ensures ValidCap(key) <==> key in ADMIN_CAPS
  {
    if key in ADMIN_CAPS {
      assert key == KeyOfCap(LISTED[0]) || key == KeyOfCap(LISTED[1]) || key == KeyOfCap(LISTED[2]) || key == KeyOfCap(LISTED[3])
             || key == KeyOfCap(LISTED[4]) || key == KeyOfCap(LISTED[5]) || key == KeyOfCap(LISTED[6]) || key == KeyOfCap(LISTED[7])
             || key == KeyOfCap(LISTED[8]) || key == KeyOfCap(LISTED[9]) || key == KeyOfCap(LISTED[10]) || key == KeyOfCap(LISTED[11])
             || key == KeyOfCap(LISTED[12]) || key == KeyOfCap(LISTED[13]);
    }
  }

  /** The rows of a new user with these capabilities. */
  ghost predicate OfUser(uid: int, name: string, admin: int, keys: set<string>, r: Row) {
    || r == Row(User, uid, Text(name), [Text("*"), Int(admin)])
    || (r.t == UserCaps && r.id == uid && r.data == [] && r.key.Text? && r.key.s in keys)
  }

  /** d is db and one more user, with an id above all others. */
  ghost predicate Joined(db: Db, d: Db, uid: int, name: string, admin: int, keys: set<string>) {
    && uid == NextUid(db) && !HasUser(db, name) && ValidUsername(name)
    && forall r :: r in d <==> r in db || OfUser(uid, name, admin, keys, r)
  }

  lemma AdminRowsAre(uid: int, r: Row)
    ensures r in AdminRows(uid) <==> OfUser(uid, "admin", 1, ADMIN_CAPS, r)
  {
    assert AdminRows(uid)[0] in AdminRows(uid);
    if r in AdminRows(uid) {
      var i :| 0 <= i < |AdminRows(uid)| && AdminRows(uid)[i] == r;
      if i > 0 {
        AdminRowAt(uid, i);
        ListedByName(KeyOfCap(LISTED[i - 1]));
      }
    }
    if OfUser(uid, "admin", 1, ADMIN_CAPS, r) && r.t == UserCaps {
      ListedByName(r.key.s);
      var i :| 0 <= i < |LISTED| && KeyOfCap(LISTED[i]) == r.key.s;
      AdminRowAt(uid, i + 1);
      assert AdminRows(uid)[i + 1] in AdminRows(uid);
    }
  }

  lemma AdminJoins(db: Db)
    requires !HasAdmin(db) && WithAdmin(db).Some?
    ensures Joined(db, WithAdmin(db).value, NextUid(db), "admin", 1, ADMIN_CAPS)
  {
    AdminCreatableIff(db);
    var uid, rows := NextUid(db), AdminRows(NextUid(db));
    RunInsertAll(db, rows);
    forall r ensures r in rows <==> OfUser(uid, "admin", 1, ADMIN_CAPS, r) {
      AdminRowsAre(uid, r);
    }
  }

  lemma HelperRowsAre(uid: int, r: Row)
    ensures r in HelperRows(uid) <==> OfUser(uid, "vshelper", 0, {"HELPER"}, r)
  {
    assert HelperRows(uid)[0] in HelperRows(uid) && HelperRows(uid)[1] in HelperRows(uid);
  }

  lemma HelperJoins(db: Db)
    requires !HasUser(db, "vshelper") && WithHelper(db).Some?
    ensures Joined(db, WithHelper(db).value, NextUid(db), "vshelper", 0, {"HELPER"})
  {
    var uid, rows := NextUid(db), HelperRows(NextUid(db));
    RunInsertAll(db, rows);
    forall r ensures r in rows <==> OfUser(uid, "vshelper", 0, {"HELPER"}, r) {
      HelperRowsAre(uid, r);
    }
  }

  /** The rights of everybody who was there, or is not there now, stay as they are. */
  lemma JoinedOthers(db: Db, d: Db, uid: int, name: string, admin: int, keys: set<string>, u: string)
    requires Joined(db, d, uid, name, admin, keys) && u != name
    ensures SameRights(db, d, u)
  {
    assert SameKeyed(db, d, User, Text(u));
    LoginSame(db, d, u);
    OtherCaps(db, d, uid, name, admin, keys, u);
    OwnersSame(db, d, u);
  }

  lemma OtherCaps(db: Db, d: Db, uid: int, name: string, admin: int, keys: set<string>, u: string)
    requires Joined(db, d, uid, name, admin, keys) && GetUid(d, u) == GetUid(db, u)
    ensures forall c :: HasCapability(d, u, c) <==> HasCapability(db, u, c)
  {
    if GetUid(db, u) != 0 {
      assert GetUid(db, u) < uid;
      assert SameOwned(db, d, UserCaps, GetUid(db, u));
    }
    CapsSame(db, d, u);
  }

  lemma JoinedUser(db: Db, d: Db, uid: int, name: string, admin: int, keys: set<string>)
    requires Joined(db, d, uid, name, admin, keys)
    ensures IsAdmin(d, name) <==> admin == 1
    ensures !IsAdmin(db, name)
    ensures GetUid(d, name) == uid
    ensures forall p, g :: AuthValid(d, name, p, g) <==> p != [] && g == "*"
  {
    var row := Row(User, uid, Text(name), [Text("*"), Int(admin)]);
    assert row in d;
    RowDecides(d, name, row);
    assert forall r | r in d && r.t == User && r.key == Text(name) :: r == row;
  }

  /** The new user holds what it was given, and whatever capability rows were left over for its id. */
  lemma JoinedCaps(db: Db, d: Db, uid: int, name: string, admin: int, keys: set<string>, c: Cap)
    requires Joined(db, d, uid, name, admin, keys) && uid != 0
    ensures HasCapability(d, name, c) <==> c in LISTED && (KeyOfCap(c) in keys || HasCapRow(db, uid, KeyOfCap(c)))
  {
    JoinedUser(db, d, uid, name, admin, keys);
    if KeyOfCap(c) in keys {
      assert Row(UserCaps, uid, Text(KeyOfCap(c)), []) in d;
    }
    if HasCapRow(db, uid, KeyOfCap(c)) {
      var r :| r in db && r.t == UserCaps && r.id == uid && r.key == Text(KeyOfCap(c));
      assert r in d;
    }
  }

  /** In a sound store nothing is left over for an id that nobody has. */
  lemma JoinedClean(db: Db, d: Db, uid: int, name: string, admin: int, keys: set<string>, c: Cap, n: string)
    requires Joined(db, d, uid, name, admin, keys) && Inv(db)
    ensures uid >= 1 && (HasCapability(d, name, c) <==> c in LISTED && KeyOfCap(c) in keys)
    ensures IsOwner(d, name, n) <==> admin == 1
  {
    NextUidPositive(db);
    assert !Has(db, User, uid);
    JoinedUser(db, d, uid, name, admin, keys);
    JoinedCaps(db, d, uid, name, admin, keys, c);
    assert !HasCapRow(db, uid, KeyOfCap(c)) && !OwnerRow(d, GetXid(d, n), uid);
  }

  // ----- what the check changes in rights

  /** After the user checks somebody is an administrator if and only if it was one before, or it is admin and
      there was none at all. Whoever is not created keeps all rights. */
  lemma StartRights(db: Db, d: Db, u: string)
    requires WithAdmin(db).Some? && WithHelper(WithAdmin(db).value) == Some(d)
    ensures IsAdmin(d, u) <==> IsAdmin(db, u) || (u == "admin" && !HasAdmin(db))
    ensures (u == "admin" ==> HasAdmin(db)) && (u == "vshelper" ==> HasUser(db, "vshelper")) ==> SameRights(db, d, u)
  {
    var e := WithAdmin(db).value;
    AdminStep(db, u);
    HelperStep(e, u);
    HelperSeen(db);
  }

  lemma AdminStep(db: Db, u: string)
    requires WithAdmin(db).Some?
    ensures var e := WithAdmin(db).value;
            && (IsAdmin(e, u) <==> IsAdmin(db, u) || (u == "admin" && !HasAdmin(db)))
            && ((u == "admin" ==> HasAdmin(db)) ==> SameRights(db, e, u))
  {
    if !HasAdmin(db) {
      AdminJoins(db);
      if u == "admin" {
        JoinedUser(db, WithAdmin(db).value, NextUid(db), "admin", 1, ADMIN_CAPS);
      } else {
        JoinedOthers(db, WithAdmin(db).value, NextUid(db), "admin", 1, ADMIN_CAPS, u);
      }
    }
  }

  lemma HelperStep(db: Db, u: string)
    requires WithHelper(db).Some?
    ensures var e := WithHelper(db).value;
            && (IsAdmin(e, u) <==> IsAdmin(db, u))
            && ((u == "vshelper" ==> HasUser(db, "vshelper")) ==> SameRights(db, e, u))
  {
    if !HasUser(db, "vshelper") {
      HelperJoins(db);
      if u == "vshelper" {
        JoinedUser(db, WithHelper(db).value, NextUid(db), "vshelper", 0, {"HELPER"});
      } else {
        JoinedOthers(db, WithHelper(db).value, NextUid(db), "vshelper", 0, {"HELPER"}, u);
      }
    }
  }

  /** Creating the administrator does not create the helper. */
  lemma HelperSeen(db: Db)
    requires WithAdmin(db).Some?
    ensures HasUser(WithAdmin(db).value, "vshelper") <==> HasUser(db, "vshelper")
  {
    if !HasAdmin(db) {
      AdminJoins(db);
      if r :| r in db && r.t == User && r.key == Text("vshelper") {
        assert r in WithAdmin(db).value;
      }
    }
  }

  lemma HelperHolds(db: Db, d: Db, mask: set<Cap>, n: string)
    requires Inv(db) && Joined(db, d, NextUid(db), "vshelper", 0, {"HELPER"})
    ensures Capable(d, "vshelper", mask) <==> forall c :: c in mask ==> c !in LISTED
    ensures !IsOwner(d, "vshelper", n) && NextUid(db) != 0
  {
    JoinedClean(db, d, NextUid(db), "vshelper", 0, {"HELPER"}, CapAuth, n);
    forall c ensures !HasCapability(d, "vshelper", c) {
      JoinedClean(db, d, NextUid(db), "vshelper", 0, {"HELPER"}, c, n);
      HelperUnlisted(c);
    }
  }

  /** A new helper is no administrator, owns nothing and passes exactly the masks without a listed bit; it logs
      in with no password that has another digest than the placeholder. */
  lemma NewHelper(db: Db, d: Db, mask: set<Cap>, n: string)
    requires Inv(db) && WithAdmin(db).Some? && WithHelper(WithAdmin(db).value) == Some(d) && !HasUser(db, "vshelper")
    ensures !IsAdmin(d, "vshelper") && !IsOwner(d, "vshelper", n) && GetUid(d, "vshelper") != 0
    ensures Capable(d, "vshelper", mask) <==> forall c :: c in mask ==> c !in LISTED
    ensures forall p, g :: AuthValid(d, "vshelper", p, g) <==> p != [] && g == "*"
  {
    var e := WithAdmin(db).value;
    UsersKeepInv(db);
    HelperSeen(db);
    HelperJoins(e);
    JoinedUser(e, d, NextUid(e), "vshelper", 0, {"HELPER"});
    HelperHolds(e, d, mask, n);
  }

  lemma HelperUnlisted(c: Cap)
    ensures c in LISTED ==> KeyOfCap(c) != "HELPER"
  {
  }

  lemma AdminHolds(db: Db, e: Db, c: Cap, n: string)
    requires Inv(db) && Joined(db, e, NextUid(db), "admin", 1, ADMIN_CAPS)
    ensures HasCapability(e, "admin", c) <==> c in LISTED
    ensures IsOwner(e, "admin", n)
  {
    JoinedClean(db, e, NextUid(db), "admin", 1, ADMIN_CAPS, c, n);
    if c in LISTED {
      var i :| 0 <= i < |LISTED| && LISTED[i] == c;
      ListedByName(KeyOfCap(c));
    }
  }

  /** A new administrator holds every listed capability and owns every context. */
  lemma NewAdmin(db: Db, d: Db, c: Cap, n: string)
    requires Inv(db) && WithAdmin(db).Some? && WithHelper(WithAdmin(db).value) == Some(d) && !HasAdmin(db)
    ensures IsAdmin(d, "admin") && IsOwner(d, "admin", n)
    ensures HasCapability(d, "admin", c) <==> c in LISTED
    ensures forall p, g :: AuthValid(d, "admin", p, g) <==> p != [] && g == "*"
  {
    var e := WithAdmin(db).value;
    AdminJoins(db);
    JoinedUser(db, e, NextUid(db), "admin", 1, ADMIN_CAPS);
    AdminHolds(db, e, c, n);
    assert "admin" != "vshelper";
    HelperStep(e, "admin");
  }

  lemma FreshSteps() returns (db: Db, e: Db, d: Db)
    ensures Repairable(EMPTY_FILE, TABLES) && d == Repaired(EMPTY_FILE, TABLES) && db == {ONBOOT}
    ensures Joined(db, e, 1, "admin", 1, ADMIN_CAPS) && Joined(e, d, 2, "vshelper", 0, {"HELPER"})
  {
    TablesListed();
    FreshStart(TABLES);
    db := RowSet(Completed(EMPTY_FILE, TABLES));
    e, d := FreshJoins(db);
  }

  lemma FreshJoins(db: Db) returns (e: Db, d: Db)
    requires WithAdmin(db).Some? && WithHelper(WithAdmin(db).value).Some? && forall r | r in db :: r.t == Groups
    ensures e == WithAdmin(db).value && WithHelper(e) == Some(d)
    ensures Joined(db, e, 1, "admin", 1, ADMIN_CAPS) && Joined(e, d, 2, "vshelper", 0, {"HELPER"})
  {
    e := WithAdmin(db).value;
    d := WithHelper(e).value;
    FreshUid(db);
    AdminJoins(db);
    SecondUid(db, e);
    HelperSeen(db);
    HelperJoins(e);
  }

  /** A new installation holds exactly the group onboot, the administrator with all listed capabilities, and
      the helper. */
  lemma FreshContents(r: Row)
    ensures Repairable(EMPTY_FILE, TABLES)
    ensures r in Repaired(EMPTY_FILE, TABLES) <==>
            r == Row(Groups, 1, Text("onboot"), []) || OfUser(1, "admin", 1, ADMIN_CAPS, r) || OfUser(2, "vshelper", 0, {"HELPER"}, r)
  {
    var db, e, d := FreshSteps();
  }

  lemma SecondUid(db: Db, e: Db)
    requires Joined(db, e, 1, "admin", 1, ADMIN_CAPS) && forall r | r in db :: r.t == Groups
    ensures NextUid(e) == 2
  {
    assert Row(User, 1, Text("admin"), [Text("*"), Int(1)]) in e;
    assert Ids(e, User) == {1};
  }
}

/** Who is let in: the capability each request asks for, stated on the rows of the store and by the names
    of the capabilities, and which fault a caller gets who is not let in (src/vcd/methods.c:199-261 and
    the method_init call of each method). */
module Admission {
  import opened Wrappers
  import opened Schema
  import opened Store
  import opened Validate
  import opened Lookup
  import opened Auth
  import opened Template
  import opened Invariant
  import opened Requests
  import opened Reachable
  import opened Outcomes

  /** The user has a row with this capability. */
  ghost predicate Granted(db: Db, user: string, cap: string) {
    exists u, c :: u in db && c in db && u.t == User && u.key == Text(user) && u.id != 0
                   && c.t == UserCaps && c.id == u.id && c.key == Text(cap)
  }

  /** The capability that protects the configuration in each table. */
  function Protection(t: Table): Option<string> {
    match t
    case DxLimit => Some("DLIM")
    case Init => Some("INIT")
    case Mount => Some("MOUNT")
    case NxAddr | NxBroadcast => Some("NET")
    case VxBcaps => Some("BCAP")
    case VxCcaps => Some("CCAP")
    case VxFlags => Some("CFLAG")
    case VxLimit => Some("RLIM")
    case VxSched | VxCpuset => Some("SCHED")
    case VxUname => Some("UNAME")
    case _ => None
  }

  lemma HoldsIffGranted(db: Db, user: string, cap: Cap)
    requires ValidUsername(user) && cap in LISTED
    ensures HasCapability(db, user, cap) <==> Granted(db, user, KeyOfCap(cap))
  {
    var uid := GetUid(db, user);
    if Granted(db, user, KeyOfCap(cap)) {
      var u, c :| u in db && c in db && u.t == User && u.key == Text(user) && u.id != 0
                  && c.t == UserCaps && c.id == u.id && c.key == Text(KeyOfCap(cap));
      var q :| q in db && q.t == User && q.key == Text(user) && q.id == uid;
      SameKeySameRow(db, User, u, q);
    }
  }

  lemma PassesIffGranted(db: Db, user: string, cap: Cap)
    requires ValidUsername(user) && cap in LISTED
    ensures Capable(db, user, {cap}) <==> Granted(db, user, KeyOfCap(cap))
  {
    HoldsIffGranted(db, user, cap);
    assert Capable(db, user, {cap}) <==> HasCapability(db, user, cap);
  }

  /** The name of the capability a request asks for: every request but those of the helper has one. */
  predicate Asks(c: Call, cap: string) {
    match c
    case Configure(_, setting) => Protection(TableOfSetting(setting)) == Some(cap)
    case Unconfigure(_, t, _) => Protection(t) == Some(cap)
    case Create(_, _, _, _, _) => cap == "CREATE"
    case Remove(_, _, _) => cap == "CREATE"
    case Rename(_, _, _) => cap == "CREATE"
    case HelperRestart(_) => false
    case HelperShutdown(_, _) => false
    case _ => cap == "AUTH"
  }

  predicate FromHelper(c: Call) {
    c.HelperRestart? || c.HelperShutdown?
  }

  lemma TableProtected(t: Table)
    requires Protection(t).Some?
    ensures CapOfTable(t) in LISTED && Protection(t) == Some(KeyOfCap(CapOfTable(t)))
  {
  }

  lemma AsksIs(c: Call, cap: string)
    requires Asks(c, cap)
    ensures CapOf(c) in LISTED && KeyOfCap(CapOf(c)) == cap && !FromHelper(c)
  {
    match c
    case Configure(_, setting) => TableProtected(TableOfSetting(setting));
    case Unconfigure(_, t, _) => TableProtected(t);
    case _ =>
  }

  /** The caller gets past login and capability if and only if it sent the right password and has been
      granted the capability by name; the helper's requests need no capability at all. */
  lemma CapableIff(db: Db, req: Request, cap: string)
    requires AuthValid(db, req.user, req.pass, req.digest) && (FromHelper(req.call) || Asks(req.call, cap))
    ensures Capable(db, req.user, {CapOf(req.call)}) <==> FromHelper(req.call) || Granted(db, req.user, cap)
  {
    if Asks(req.call, cap) {
      AsksIs(req.call, cap);
      PassesIffGranted(db, req.user, CapOf(req.call));
    }
  }

  /** The context a request is about, if method_check_flags looks at it: requests with M_OWNER ask for an
      owner, and they and vx.create for a valid name. */
  predicate AsksForOwner(c: Call) {
    match c
    case Configure(_, _) => true
    case Unconfigure(_, _, _) => true
    case Remove(_, _, _) => true
    case Rename(_, _, _) => true
    case _ => false
  }

  /** method_init answers, in this order: no login, no capability, an invalid name, no owner. */
  lemma AdmissionFault(db: Db, req: Request, cap: string)
    requires FromHelper(req.call) || Asks(req.call, cap)
    ensures var login := AuthValid(db, req.user, req.pass, req.digest);
            var capable := FromHelper(req.call) || Granted(db, req.user, cap);
            var named := AsksForOwner(req.call) || req.call.Create? ==> ValidName(req.call.name);
            var owner := AsksForOwner(req.call) ==> IsOwner(db, req.user, req.call.name);
            && (Admit(db, req) == Unauthorized <==> !login)
            && (Admit(db, req) == Denied <==> login && !capable)
            && (Admit(db, req) == Invalid <==> login && capable && !named)
            && (Admit(db, req) == NoVps <==> login && capable && named && !owner)
            && (Admit(db, req) == NoFault <==> login && capable && named && owner)
  {
    if AuthValid(db, req.user, req.pass, req.digest) {
      CapableIff(db, req, cap);
    }
  }

  // ----- what a change takes

  lemma SettingTable(setting: Setting, x: int)
    requires RowOf(setting, x).Some?
    ensures RowOf(setting, x).value.t == TableOfSetting(setting) && Protection(TableOfSetting(setting)).Some?
  {
  }

  /** The request is for the context and the table of this row. */
  predicate Reaches(db: Db, c: Call, r: Row) {
    match c
    case Configure(name, setting) => r.t == TableOfSetting(setting) && Protection(r.t).Some? && GetXid(db, name) == r.id != 0
    case Unconfigure(name, t, _) => r.t == t && Protection(r.t).Some? && GetXid(db, name) == r.id != 0
    case _ => false
  }

  lemma SettingChanges(db: Db, name: string, setting: Setting, r: Row)
    ensures (r in DoConfigure(db, name, setting).db <==> r in db) || Reaches(db, Configure(name, setting), r)
  {
    if DoConfigure(db, name, setting).fault == NoFault {
      ConfigureEffect(db, name, setting);
      SettingTable(setting, GetXid(db, name));
      RowOfTable(setting, GetXid(db, name));
    }
  }

  lemma RemovableProtected(t: Table)
    requires Removable(t)
    ensures Protection(t).Some?
  {
  }

  lemma UnsettingChanges(db: Db, name: string, t: Table, only: Option<Val>, r: Row)
    ensures (r in DoUnconfigure(db, name, t, only).db <==> r in db) || Reaches(db, Unconfigure(name, t, only), r)
  {
    if Removable(t) && GetXid(db, name) != 0 {
      RemovableProtected(t);
      ExecFrame(db, Delete(t, if only.Some? then ByBoth(GetXid(db, name), only.value) else ById(GetXid(db, name))));
    }
  }

  lemma CallChanges(db: Db, c: Call, r: Row)
    requires c.Configure? || c.Unconfigure?
    ensures (r in PerformContext(db, c).db <==> r in db) || Reaches(db, c, r)
  {
    match c
    case Configure(name, setting) => SettingChanges(db, name, setting, r);
    case Unconfigure(name, t, only) => UnsettingChanges(db, name, t, only, r);
  }

  lemma ContextCaps(c: Call)
    requires c.Configure? || c.Unconfigure?
    ensures CapOf(c) != CapAuth
  {
  }

  lemma HandledContext(db: Db, req: Request)
    requires CapOf(req.call) != CapAuth && !req.call.Create? && Admit(db, req) == NoFault
    ensures Handle(db, req) == PerformContext(db, req.call)
  {
    assert Handle(db, req) == Perform(db, req.user, req.call);
  }

  lemma Refused(db: Db, req: Request)
    requires Admit(db, req) != NoFault
    ensures Handle(db, req).db == db
  {
  }

  lemma RequestChanges(db: Db, req: Request, r: Row)
    requires (req.call.Configure? || req.call.Unconfigure?) && !(r in Handle(db, req).db <==> r in db)
    ensures Admit(db, req) == NoFault && Reaches(db, req.call, r)
  {
    if Admit(db, req) == NoFault {
      ContextCaps(req.call);
      HandledContext(db, req);
      CallChanges(db, req.call, r);
    } else {
      Refused(db, req);
    }
  }

  lemma AdmittedHas(db: Db, req: Request, cap: string)
    requires Admit(db, req) == NoFault && Asks(req.call, cap)
    ensures AuthValid(db, req.user, req.pass, req.digest) && Granted(db, req.user, cap)
    ensures AsksForOwner(req.call) ==> IsOwner(db, req.user, req.call.name)
  {
    AsksIs(req.call, cap);
    AdmissionFault(db, req, cap);
  }

  lemma ReachNeeds(db: Db, req: Request, r: Row)
    requires Admit(db, req) == NoFault && Reaches(db, req.call, r)
    requires req.call.Configure? || req.call.Unconfigure?
    ensures MayConfigure(db, req, r)
  {
    AdmittedHas(db, req, Protection(r.t).value);
  }

  /** The caller has logged in, holds the capability for the table of this row, and owns its context. */
  ghost predicate MayConfigure(db: Db, req: Request, r: Row)
    requires req.call.Configure? || req.call.Unconfigure?
  {
    && AuthValid(db, req.user, req.pass, req.digest)
    && Protection(r.t).Some? && Granted(db, req.user, Protection(r.t).value)
    && GetXid(db, req.call.name) == r.id != 0 && IsOwner(db, req.user, req.call.name)
  }

  /** Whoever changes a row by a configuring or removing request has logged in, holds the capability that
      protects the table of that row, and owns the context of that row. */
  lemma ConfigurationNeeds(db: Db, req: Request, r: Row)
    requires (req.call.Configure? || req.call.Unconfigure?) && !(r in Handle(db, req).db <==> r in db)
    ensures MayConfigure(db, req, r)
  {
    RequestChanges(db, req, r);
    ReachNeeds(db, req, r);
  }

  lemma ConfigurationPromise(db: Db, req: Request)
    ensures req.call.Configure? || req.call.Unconfigure? ==>
              forall r :: (r in Handle(db, req).db <==> r in db) || MayConfigure(db, req, r)
  {
    if req.call.Configure? || req.call.Unconfigure? {
      forall r ensures (r in Handle(db, req).db <==> r in db) || MayConfigure(db, req, r) {
        if !(r in Handle(db, req).db <==> r in db) {
          ConfigurationNeeds(db, req, r);
        }
      }
    }
  }

  /** Requests about contexts as a whole. */
  predicate AboutContexts(c: Call) {
    c.Create? || c.Remove? || c.Rename?
  }

  /** The other requests change something only for a caller with AUTH (users, groups, owners) or CREATE
      (contexts); the helper's change restart records alone, and serve everybody with a login. */
  lemma OtherChangesNeed(db: Db, req: Request)
    requires !req.call.Configure? && !req.call.Unconfigure? && Handle(db, req).db != db
    ensures AuthValid(db, req.user, req.pass, req.digest)
    ensures AboutContexts(req.call) ==> Granted(db, req.user, "CREATE")
    ensures !AboutContexts(req.call) && !FromHelper(req.call) ==> Granted(db, req.user, "AUTH")
    ensures req.call.Remove? || req.call.Rename? ==> IsOwner(db, req.user, req.call.name)
  {
    if Admit(db, req) != NoFault {
      Refused(db, req);
    } else {
      OtherAdmitted(db, req);
    }
  }

  lemma OtherAdmitted(db: Db, req: Request)
    requires !req.call.Configure? && !req.call.Unconfigure? && Admit(db, req) == NoFault
    ensures AuthValid(db, req.user, req.pass, req.digest)
    ensures AboutContexts(req.call) ==> Granted(db, req.user, "CREATE")
    ensures !AboutContexts(req.call) && !FromHelper(req.call) ==> Granted(db, req.user, "AUTH")
    ensures req.call.Remove? || req.call.Rename? ==> IsOwner(db, req.user, req.call.name)
  {
    if AboutContexts(req.call) {
      AdmittedHas(db, req, "CREATE");
    } else if !FromHelper(req.call) {
      AdmittedHas(db, req, "AUTH");
    }
  }
}

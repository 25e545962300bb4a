/** Users, capabilities and ownership (src/vcd/auth.c, src/vcd/auth.h, vcd_caps_list in src/vcd/lists.c).

A capability mask is modelled as the set of its bits.
*/
module Auth {
  import opened Wrappers
  import opened Schema
  import opened Store
  import opened Validate
  import opened Lookup

  datatype Cap =
    | CapAuth | CapDlim | CapInit | CapMount | CapNet | CapBcap | CapCcap | CapCflag
    | CapRlim | CapSched | CapUname | CapCreate | CapExec | CapInfo | CapHelper

  function KeyOfCap(c: Cap): string {
    match c
    case CapAuth => "AUTH"
    case CapDlim => "DLIM"
    case CapInit => "INIT"
    case CapMount => "MOUNT"
    case CapNet => "NET"
    case CapBcap => "BCAP"
    case CapCcap => "CCAP"
    case CapCflag => "CFLAG"
    case CapRlim => "RLIM"
    case CapSched => "SCHED"
    case CapUname => "UNAME"
    case CapCreate => "CREATE"
    case CapExec => "EXEC"
    case CapInfo => "INFO"
    case CapHelper => "HELPER"
  }

  /** vcd_caps_list: the entry for HELPER is commented out in the source. */
  const LISTED: seq<Cap> := [
    CapAuth, CapDlim, CapInit, CapMount, CapNet, CapBcap, CapCcap, CapCflag, CapRlim, CapSched,
    CapUname, CapCreate, CapExec, CapInfo]

  predicate ValidCap(cap: string) {
    exists i | 0 <= i < |LISTED| :: KeyOfCap(LISTED[i]) == cap
  }

  predicate HasCapRow(db: set<Row>, uid: int, key: string) {
    exists r | r in db :: r.t == UserCaps && r.id == uid && r.key == Text(key)
  }

  /** auth_hascapability: an unlisted bit has no key and is never held. */
  predicate HasCapability(db: Db, user: string, cap: Cap) {
    var uid := GetUid(db, user);
    uid != 0 && cap in LISTED && HasCapRow(db, uid, KeyOfCap(cap))
  }

  predicate Capable(db: Db, user: string, mask: set<Cap>) {
    forall c | c in LISTED && c in mask :: HasCapability(db, user, c)
  }

  /** auth_capable: scans the list and stops at the first missing capability. */
  method AuthCapable(db: Db, user: string, mask: set<Cap>) returns (ok: bool)
    ensures ok <==> Capable(db, user, mask)
  {
    for i := 0 to |LISTED|
      invariant forall k | 0 <= k < i && LISTED[k] in mask :: HasCapability(db, user, LISTED[k])
    {
      if LISTED[i] in mask {
        if !HasCapability(db, user, LISTED[i]) {
          assert LISTED[i] in LISTED;
          return false;
        }
      }
    }
    return true;
  }

  /** auth_isadmin: the second data column of `user` is the admin flag. */
  predicate IsAdmin(db: Db, user: string) {
    ValidUsername(user) && exists r | r in db :: r.t == User && r.key == Text(user) && AdminRow(r)
  }

  predicate AdminRow(r: Row) {
    |r.data| == 2 && r.data[1] == Int(1)
  }

  predicate OwnerRow(db: set<Row>, xid: int, uid: int) {
    exists r | r in db :: r.t == XidUidMap && r.id == xid && r.key == Int(uid)
  }

  /** auth_isowner: administrators own everything, even names that do not exist. */
  predicate IsOwner(db: Db, user: string, name: string) {
    var uid := GetUid(db, user);
    uid != 0 && (IsAdmin(db, user) || (GetXid(db, name) != 0 && OwnerRow(db, GetXid(db, name), uid)))
  }

  /** A user without capability rows passes exactly the masks that have no listed bit,
      HELPER alone included. */
  lemma CapableWithoutRows(db: Db, user: string, mask: set<Cap>)
    requires forall r :: r in db && r.t == UserCaps ==> r.id != GetUid(db, user)
    ensures Capable(db, user, mask) <==> forall c :: c in mask ==> c !in LISTED
    ensures Capable(db, user, {CapHelper})
  {
    if c :| c in mask && c in LISTED {
      assert !HasCapability(db, user, c);
    }
  }
}

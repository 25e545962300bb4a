/** Parameter checks (src/vcd/validate.c) and the name lists they consult (src/vcd/lists.c). */
module Validate {

  predicate IsAlnumChar(c: char) {
    'a' <= c <= 'z' || 'A' <= c <= 'Z' || '0' <= c <= '9'
  }

  predicate IsAlnum(s: string) {
    forall c | c in s :: IsAlnumChar(c)
  }

  predicate IsAscii(s: string) {
    forall c | c in s :: c <= '\U{7f}'
  }

  /** Letters, digits, '-' and '_'; between 3 and 32 of them. */
  predicate ValidName(name: string) {
    3 <= |name| <= 32 && forall c | c in name :: IsAlnumChar(c) || c == '-' || c == '_'
  }

  predicate ValidXid(xid: int) {
    1 < xid < 65535
  }

  predicate ValidPath(path: string) {
    path != [] && path[0] == '/'
  }

  predicate ValidUsername(user: string) {
    user != [] && IsAlnum(user)
  }

  predicate ValidPassword(pass: string) {
    |pass| >= 8
  }

  predicate ValidGroup(group: string) {
    group != [] && IsAlnum(group)
  }

  predicate ValidTokenBucket(fillrate: int, interval: int, fillrate2: int, interval2: int,
                             tokensmin: int, tokensmax: int)
  {
    !(
      || fillrate < 1 || interval < 1 || tokensmax < 1
      || (fillrate2 < 1 && interval2 > 0)
      || (interval2 < 1 && fillrate2 > 0)
      || interval < fillrate || interval2 < fillrate2
      || tokensmax < fillrate || tokensmax < fillrate2
      || tokensmin > tokensmax)
  }

  const BCAPS: seq<string> := [
    "CHOWN", "DAC_OVERRIDE", "DAC_READ_SEARCH", "FOWNER", "FSETID", "KILL", "SETGID", "SETUID",
    "SETPCAP", "LINUX_IMMUTABLE", "NET_BIND_SERVICE", "NET_BROADCAST", "NET_ADMIN", "NET_RAW",
    "IPC_LOCK", "IPC_OWNER", "SYS_MODULE", "SYS_RAWIO", "SYS_CHROOT", "SYS_PTRACE", "SYS_PACCT",
    "SYS_ADMIN", "SYS_BOOT", "SYS_NICE", "SYS_RESOURCE", "SYS_TIME", "SYS_TTY_CONFIG", "MKNOD",
    "LEASE", "AUDIT_WRITE", "AUDIT_CONTROL"]

  const CCAPS: seq<string> := [
    "SET_UTSNAME", "SET_RLIMIT", "RAW_ICMP", "SYSLOG", "SECURE_MOUNT", "SECURE_REMOUNT",
    "BINARY_MOUNT", "QUOTA_CTL", "ADMIN_MAPPER", "ADMIN_CLOOP"]

  const CFLAGS: seq<string> := [
    "INFO_PRIVATE", "INFO_INIT", "INFO_HIDE", "SCHED_HARD", "SCHED_PRIO", "SCHED_PAUSE",
    "VIRT_MEM", "VIRT_UPTIME", "VIRT_CPU", "VIRT_LOAD", "VIRT_TIME", "HIDE_MOUNT",
    "HIDE_NETIF", "HIDE_VINFO", "FORK_RSS"]

  const RLIMITS: seq<string> := [
    "CPU", "FSIZE", "DATA", "STACK", "CORE", "RSS", "NPROC", "NOFILE", "MEMLOCK", "AS", "LOCKS",
    "SIGPENDING", "MSGQUEUE", "NSOCK", "OPENFD", "ANON", "SHMEM", "SEMARY", "NSEMS", "DENTRY",
    "MAPPED"]

  /** A valid context name is one path component: as the name of a lock file or of a directory below vbasedir
      it stays where it is put. */
  lemma NameIsComponent(name: string)
    requires ValidName(name)
    ensures '/' !in name && '.' !in name && 3 <= |name| <= 32
  {
  }

  /** The accepted token buckets, in the positive: both rates are at most their intervals and the maximum, the
      minimum is at most the maximum, and the idle rate and interval are both given or both left out. */
  lemma TokenBucketIff(fillrate: int, interval: int, fillrate2: int, interval2: int, tokensmin: int, tokensmax: int)
    ensures ValidTokenBucket(fillrate, interval, fillrate2, interval2, tokensmin, tokensmax) <==>
            && 1 <= fillrate <= interval && fillrate <= tokensmax
            && fillrate2 <= interval2 && fillrate2 <= tokensmax && tokensmin <= tokensmax
            && (1 <= fillrate2 <==> 1 <= interval2)
  {
  }
}

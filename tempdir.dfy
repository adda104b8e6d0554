/** make_tempdir (tempdir.c): the per-user directory /tmp/cronutils-<user>,
    created if missing and, if it already exists, checked in a fixed order
    before it is trusted. The results of getpwuid, mkdir and stat are inputs. */
module Tempdir {
  import opened Posix
  import opened CLib

  const Template: string := "/tmp/cronutils-"

  /** S_IRWXU, the owner's read, write and execute bits (0700). */
  const S_IRWXU: bv32 := 0x1C0
  const S_IRUSR: bv32 := 0x100
  const S_IWUSR: bv32 := 0x80
  const S_IXUSR: bv32 := 0x40

  /** getpwuid(geteuid()): no entry, or the user's name. */
  datatype Passwd = NoEntry | Entry(name: CString)
  datatype MkdirResult = Created | MkdirFailed(errno: int)
  /** stat(dirname): failure, or whether it is a directory, its owner and mode. */
  datatype StatResult = StatFailed | StatOk(isDir: bool, uid: int, mode: bv32)

  datatype TempdirEnv = TempdirEnv(euid: int, user: Passwd, mkdir: MkdirResult, stat: StatResult)

  /** The directory name for a user. */
  function TempdirPath(user: CString): (path: CString)
    ensures |path| == |Template| + |user|
    ensures path[..|Template|] == Template && path[|Template|..] == user
  {
    Template + user
  }

  /** Different users get different directories. */
  lemma TempdirPathInjective(a: CString, b: CString)
    requires TempdirPath(a) == TempdirPath(b)
    ensures a == b
  {
    assert a == TempdirPath(a)[|Template|..];
  }

  /** The permission test: some owner bit is set. */
  predicate OwnerAccess(mode: bv32)
  {
    mode & S_IRWXU != 0
  }

  /** The test rejects only a mode whose three owner bits are all clear. */
  lemma OwnerAccessIffSomeOwnerBit(mode: bv32)
    ensures OwnerAccess(mode) <==>
      (mode & S_IRUSR != 0 || mode & S_IWUSR != 0 || mode & S_IXUSR != 0)
  {
  }

  /** Group and other bits never matter. */
  lemma OwnerAccessIgnoresGroupAndOther(m1: bv32, m2: bv32)
    requires m1 & S_IRWXU == m2 & S_IRWXU
    ensures OwnerAccess(m1) == OwnerAccess(m2)
  {
  }

  /** The checks of a directory that already exists, in order; the first
      that fails decides the exit code. */
  function CheckExisting(st: StatResult, euid: int): (r: Flow)
    ensures r == Continue <==> st.StatOk? && st.isDir && st.uid == euid && OwnerAccess(st.mode)
    ensures st.StatFailed? ==> r == Exit(EX_OSERR)
    ensures st.StatOk? && !st.isDir ==> r == Exit(EX_IOERR)
    ensures st.StatOk? && st.isDir && (st.uid != euid || !OwnerAccess(st.mode)) ==> r == Exit(EXIT_FAILURE)
  {
    match st
    case StatFailed => Exit(EX_OSERR)
    case StatOk(isDir, uid, mode) =>
      if !isDir then Exit(EX_IOERR)
      else if uid != euid then Exit(EXIT_FAILURE)
      else if !OwnerAccess(mode) then Exit(EXIT_FAILURE)
      else Continue
  }

  /** What make_tempdir yields: the directory path, or the code the process exits with. */
  function TempdirOutcome(env: TempdirEnv): (r: Checked<CString>)
    ensures env.user.NoEntry? ==> r == Abort(EX_OSERR)
    ensures r.Ok? ==> env.user.Entry? && r.value == TempdirPath(env.user.name)
    ensures env.user.Entry? && env.mkdir == Created ==> r == Ok(TempdirPath(env.user.name))
    ensures env.user.Entry? && env.mkdir.MkdirFailed? && env.mkdir.errno != EEXIST ==> r == Abort(EX_OSERR)
    ensures env.user.Entry? && env.mkdir == MkdirFailed(EEXIST) ==>
      (r.Ok? <==> CheckExisting(env.stat, env.euid) == Continue)
    ensures r.Abort? ==> r.code in {EX_OSERR, EX_IOERR, EXIT_FAILURE}
  {
    match env.user
    case NoEntry => Abort(EX_OSERR)
    case Entry(name) =>
      match env.mkdir
      case Created => Ok(TempdirPath(name))
      case MkdirFailed(e) =>
        if e != EEXIST then Abort(EX_OSERR)
        else match CheckExisting(env.stat, env.euid)
          case Continue => Ok(TempdirPath(name))
          case Exit(code) => Abort(code)
  }

  /** make_tempdir: each failed check ends the process at once. */
  method MakeTempdir(env: TempdirEnv) returns (r: Checked<CString>)
    ensures r == TempdirOutcome(env)
  {
    if env.user.NoEntry? {
      return Abort(EX_OSERR);
    }
    var dirname := TempdirPath(env.user.name);
    if env.mkdir.MkdirFailed? {
      if env.mkdir.errno == EEXIST {
        if env.stat.StatFailed? {
          return Abort(EX_OSERR);
        }
        if !env.stat.isDir {
          return Abort(EX_IOERR);
        }
        if env.stat.uid != env.euid {
          return Abort(EXIT_FAILURE);
        }
        if env.stat.mode & S_IRWXU == 0 {
          return Abort(EXIT_FAILURE);
        }
      } else {
        return Abort(EX_OSERR);
      }
    }
    r := Ok(dirname);
  }
}

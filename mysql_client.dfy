/**
 * The command line `DatabaseClient.runshell` builds to start the `mysql`
 * shell for a connection. Running it (`os.execvp` / `os.system`) is not part
 * of this model; the argument list is.
 */
module MySQLClient {

  /**
   * The connection's settings; `options` is `OPTIONS`. Python's `None` and
   * empty values are both `""`: every test on them is a truthiness test.
   */
  datatype Settings = Settings(options: map<string, string>, name: string, user: string,
                               password: string, host: string, port: string)

  /** The values the command line is built from, `""` where absent or empty. */
  datatype Effective = Effective(defaultsFile: string, user: string, passwd: string,
                                 host: string, port: string, db: string)

  const ExecutableName := "mysql"

  /** `settings_dict['OPTIONS'].get(key, fallback)`. */
  function FromOptions(s: Settings, key: string, fallback: string): (v: string)
    ensures key in s.options ==> v == s.options[key]
    ensures key !in s.options ==> v == fallback
  {
    if key in s.options then s.options[key] else fallback
  }

  /** Each value: the `OPTIONS` entry when there is one, otherwise the top-level setting. */
  function EffectiveOf(s: Settings): Effective {
    Effective(FromOptions(s, "read_default_file", ""), FromOptions(s, "user", s.user), FromOptions(s, "passwd", s.password),
              FromOptions(s, "host", s.host), FromOptions(s, "port", s.port), FromOptions(s, "db", s.name))
  }

  /** `[prefix + value]` when the value is truthy. */
  function Flag(prefix: string, value: string): seq<string> {
    if value == "" then [] else [prefix + value]
  }

  /** A host with a `/` is a Unix socket path. */
  function HostFlag(host: string): seq<string> {
    if host == "" then [] else if '/' in host then ["--socket=" + host] else ["--host=" + host]
  }

  /**
   * The command line: the executable, then defaults file, user, password,
   * host or socket and port, each only when set, and the database name last,
   * as a bare argument.
   */
  function ShellArgs(s: Settings): seq<string> {
    var e := EffectiveOf(s);
    [ExecutableName] + Flag("--defaults-file=", e.defaultsFile) + Flag("--user=", e.user)
    + Flag("--password=", e.passwd) + HostFlag(e.host) + Flag("--port=", e.port) + DbArg(e.db)
  }

  /** The arguments after the executable name, in the same order. */
  function OptionArgs(e: Effective): seq<string> {
    Flag("--defaults-file=", e.defaultsFile) + Flag("--user=", e.user)
    + Flag("--password=", e.passwd) + HostFlag(e.host) + Flag("--port=", e.port) + DbArg(e.db)
  }

  function DbArg(db: string): seq<string> {
    if db == "" then [] else [db]
  }

  /** `runshell` up to the exec: `args` grows by `+=` under each test, in the source's order. */
  method RunshellArgs(s: Settings) returns (args: seq<string>)
    ensures args == ShellArgs(s)
    ensures args[0] == ExecutableName
  {
    args := [ExecutableName];
    var db := FromOptions(s, "db", s.name);
    var user := FromOptions(s, "user", s.user);
    var passwd := FromOptions(s, "passwd", s.password);
    var host := FromOptions(s, "host", s.host);
    var port := FromOptions(s, "port", s.port);
    var defaultsFile := FromOptions(s, "read_default_file", "");
    ghost var e := EffectiveOf(s);
    assert e == Effective(defaultsFile, user, passwd, host, port, db);
    if defaultsFile != "" {
      args := args + ["--defaults-file=" + defaultsFile];
    }
    assert args == [ExecutableName] + Flag("--defaults-file=", defaultsFile);
    ghost var done := args;
    if user != "" {
      args := args + ["--user=" + user];
    }
    assert args == done + Flag("--user=", user);
    done := args;
    if passwd != "" {
      args := args + ["--password=" + passwd];
    }
    assert args == done + Flag("--password=", passwd);
    done := args;
    if host != "" {
      args := args + (if '/' in host then ["--socket=" + host] else ["--host=" + host]);
    }
    assert args == done + HostFlag(host);
    done := args;
    if port != "" {
      args := args + ["--port=" + port];
    }
    assert args == done + Flag("--port=", port);
    done := args;
    if db != "" {
      args := args + [db];
    }
    assert args == done + DbArg(db);
  }

  function Truth(v: string): nat {
    if v == "" then 0 else 1
  }

  /** One argument per set value, after the executable name. */
  lemma ShellArgsLength(s: Settings)
    ensures var e := EffectiveOf(s);
            |ShellArgs(s)| == 1 + Truth(e.defaultsFile) + Truth(e.user) + Truth(e.passwd)
                                + Truth(e.host) + Truth(e.port) + Truth(e.db)
  {
  }

  /** How the `mysql` client reads one argument back. */
  function ReadArg(e: Effective, a: string): Effective {
    if "--defaults-file=" <= a then e.(defaultsFile := a[16..])
    else if "--user=" <= a then e.(user := a[7..])
    else if "--password=" <= a then e.(passwd := a[11..])
    else if "--socket=" <= a then e.(host := a[9..])
    else if "--host=" <= a then e.(host := a[7..])
    else if "--port=" <= a then e.(port := a[7..])
    else e.(db := a)
  }

  /** Reading arguments from left to right. */
  function ReadArgs(e: Effective, args: seq<string>): Effective
    decreases |args|
  {
    if args == [] then e else ReadArgs(ReadArg(e, args[0]), args[1..])
  }

  lemma {:induction false} ReadArgsAppend(e: Effective, xs: seq<string>, ys: seq<string>)
    ensures ReadArgs(e, xs + ys) == ReadArgs(ReadArgs(e, xs), ys)
    decreases |xs|
  {
    if xs != [] {
      assert (xs + ys)[0] == xs[0] && (xs + ys)[1..] == xs[1..] + ys;
      ReadArgsAppend(ReadArg(e, xs[0]), xs[1..], ys);
    } else {
      assert xs + ys == ys;
    }
  }

  const Unset := Effective("", "", "", "", "", "")

  /**
   * The command line is unambiguous: reading the arguments after the
   * executable name back gives every effective setting, as long as the
   * database name does not itself look like an option.
   */
  lemma ShellArgsReadBack(s: Settings)
    requires !("-" <= EffectiveOf(s).db)
    ensures ReadArgs(Unset, ShellArgs(s)[1..]) == EffectiveOf(s)
  {
    var e := EffectiveOf(s);
    var a1 := [ExecutableName] + Flag("--defaults-file=", e.defaultsFile);
    var a2 := a1 + Flag("--user=", e.user);
    var a3 := a2 + Flag("--password=", e.passwd);
    var a4 := a3 + HostFlag(e.host);
    var a5 := a4 + Flag("--port=", e.port);
    DropFirst(a5, DbArg(e.db));
    DropFirst(a4, Flag("--port=", e.port));
    DropFirst(a3, HostFlag(e.host));
    DropFirst(a2, Flag("--password=", e.passwd));
    DropFirst(a1, Flag("--user=", e.user));
    OptionArgsReadBack(e);
  }

  lemma DropFirst(p: seq<string>, q: seq<string>)
    requires p != []
    ensures (p + q)[1..] == p[1..] + q
  {
  }

  lemma OptionArgsReadBack(e: Effective)
    requires !("-" <= e.db)
    ensures ReadArgs(Unset, OptionArgs(e)) == e
  {
    var a1 := Flag("--defaults-file=", e.defaultsFile);
    var a2 := Flag("--user=", e.user);
    var a3 := Flag("--password=", e.passwd);
    var a4 := HostFlag(e.host);
    var a5 := Flag("--port=", e.port);
    var a6 := DbArg(e.db);
    ReadArgsAppend(Unset, a1 + a2 + a3 + a4 + a5, a6);
    ReadArgsAppend(Unset, a1 + a2 + a3 + a4, a5);
    ReadArgsAppend(Unset, a1 + a2 + a3, a4);
    ReadArgsAppend(Unset, a1 + a2, a3);
    ReadArgsAppend(Unset, a1, a2);
    ReadDefaultsFile(Unset, e.defaultsFile);
    var e1 := Unset.(defaultsFile := e.defaultsFile);
    ReadUser(e1, e.user);
    var e2 := e1.(user := e.user);
    ReadPassword(e2, e.passwd);
    var e3 := e2.(passwd := e.passwd);
    ReadHost(e3, e.host);
    var e4 := e3.(host := e.host);
    ReadPort(e4, e.port);
    var e5 := e4.(port := e.port);
    ReadDb(e5, e.db);
  }

  lemma ReadDefaultsFile(e: Effective, v: string)
    requires e.defaultsFile == ""
    ensures ReadArgs(e, Flag("--defaults-file=", v)) == e.(defaultsFile := v)
  {
    if v != "" {
      assert ("--defaults-file=" + v)[16..] == v;
    }
  }

  lemma ReadUser(e: Effective, v: string)
    requires e.user == ""
    ensures ReadArgs(e, Flag("--user=", v)) == e.(user := v)
  {
    if v != "" {
      var a := "--user=" + v;
      assert a[2] == 'u';
      assert a[7..] == v;
    }
  }

  lemma ReadPassword(e: Effective, v: string)
    requires e.passwd == ""
    ensures ReadArgs(e, Flag("--password=", v)) == e.(passwd := v)
  {
    if v != "" {
      var a := "--password=" + v;
      assert a[2] == 'p' && a[3] == 'a';
      assert a[11..] == v;
    }
  }

  lemma ReadHost(e: Effective, v: string)
    requires e.host == ""
    ensures ReadArgs(e, HostFlag(v)) == e.(host := v)
  {
    if v != "" {
      if '/' in v {
        ReadSocketArg(e, v);
      } else {
        ReadHostArg(e, v);
      }
    }
  }

  lemma ReadSocketArg(e: Effective, v: string)
    ensures ReadArg(e, "--socket=" + v) == e.(host := v)
  {
    var a := "--socket=" + v;
    assert a[2] == 's';
    assert a[9..] == v;
  }

  lemma ReadHostArg(e: Effective, v: string)
    ensures ReadArg(e, "--host=" + v) == e.(host := v)
  {
    var a := "--host=" + v;
    assert a[2] == 'h';
    assert a[7..] == v;
  }

  lemma ReadPort(e: Effective, v: string)
    requires e.port == ""
    ensures ReadArgs(e, Flag("--port=", v)) == e.(port := v)
  {
    if v != "" {
      var a := "--port=" + v;
      assert a[2] == 'p' && a[3] == 'o';
      assert a[7..] == v;
    }
  }

  lemma ReadDb(e: Effective, v: string)
    requires e.db == "" && !("-" <= v)
    ensures ReadArgs(e, DbArg(v)) == e.(db := v)
  {
    if v != "" {
      assert v[0] != '-';
    }
  }
}

/**
 * The fail-fast configuration gate of the notification service: the startup
 * check of seven required environment variables, the module-level
 * `try/except` around it, and the three routes that read the configuration
 * (`ready`, `send_notification`, `config_info`). The environment is a map
 * from variable name to value; a variable is "falsy" when it is unset or
 * set to the empty string, which is what `not os.getenv(name)` tests.
 */
module ConfigGate {
  import opened Json

  /** The process environment, as `os.getenv` sees it. */
  type Env = map<string, string>

  /** `os.getenv(name)`. */
  function GetEnv(env: Env, name: string): Option<string>
  {
    if name in env then Some(env[name]) else None
  }

  /** `os.getenv(name, default)`: the default only when the variable is unset. */
  function GetEnvOr(env: Env, name: string, default: string): string
  {
    GetEnv(env, name).GetOr(default)
  }

  /** `not os.getenv(name)`: unset, or set to the empty string. */
  predicate Falsy(env: Env, name: string)
  {
    name !in env || env[name] == ""
  }

  // The required variables.
  const SmtpHost := "SMTP_HOST"
  const SmtpPort := "SMTP_PORT"
  const SmtpUser := "SMTP_USER"
  const SmtpPass := "SMTP_PASS"
  const PushApiKey := "PUSH_API_KEY"
  const RedisUrl := "REDIS_URL"
  const UserServiceUrl := "USER_SERVICE_URL"

  /**
   * Whether a required variable may be written to the log, and under which
   * label. The service keeps secrets out of the log by not writing a line for
   * them; here that choice is a tag on each variable.
   */
  datatype Secrecy = Logged(caption: string) | Secret

  datatype RequiredVar = RequiredVar(name: string, secrecy: Secrecy)

  /** The keys of `required_vars`, in declaration order. */
  const Required: seq<RequiredVar> := [
    RequiredVar(SmtpHost, Logged("SMTP Host")),
    RequiredVar(SmtpPort, Logged("SMTP Port")),
    RequiredVar(SmtpUser, Logged("SMTP User")),
    RequiredVar(SmtpPass, Secret),
    RequiredVar(PushApiKey, Secret),
    RequiredVar(RedisUrl, Logged("Redis URL")),
    RequiredVar(UserServiceUrl, Logged("User Service URL"))
  ]

  function Names(vars: seq<RequiredVar>): (ns: seq<string>)
    ensures |ns| == |vars| && forall i :: 0 <= i < |vars| ==> ns[i] == vars[i].name
  {
    seq(|vars|, i requires 0 <= i < |vars| => vars[i].name)
  }

  const RequiredNames: seq<string> := Names(Required)

  // ---------------------------------------------------------------------
  // The missing-variable list
  // ---------------------------------------------------------------------

  /** `[k for k, v in required_vars.items() if not v]` over the variables `vars`. */
  function Missing(vars: seq<RequiredVar>, env: Env): (m: seq<string>)
    ensures |m| <= |vars|
  {
    if vars == [] then []
    else (if Falsy(env, vars[0].name) then [vars[0].name] else []) + Missing(vars[1..], env)
  }

  /** A name is missing exactly when it is declared and unset or empty. */
  lemma {:induction false} MissingMembers(vars: seq<RequiredVar>, env: Env, n: string)
    ensures n in Missing(vars, env) <==> n in Names(vars) && Falsy(env, n)
  {
    if vars != [] {
      assert Names(vars) == [vars[0].name] + Names(vars[1..]);
      MissingMembers(vars[1..], env, n);
    }
  }

  /** The missing list of one variable: its name exactly when it is unset or empty. */
  lemma MissingOne(v: RequiredVar, env: Env)
    ensures Missing([v], env) == if Falsy(env, v.name) then [v.name] else []
  {
    assert [v][1..] == [];
  }

  /**
   * Declaration order: the names missing among earlier declarations come
   * before those missing among later ones. With MissingOne this determines
   * the list completely.
   */
  lemma {:induction false} MissingAppend(a: seq<RequiredVar>, b: seq<RequiredVar>, env: Env)
    ensures Missing(a + b, env) == Missing(a, env) + Missing(b, env)
  {
    if a == [] {
      assert a + b == b;
    } else {
      assert (a + b)[0] == a[0];
      assert (a + b)[1..] == a[1..] + b;
      MissingAppend(a[1..], b, env);
    }
  }

  /** Nothing is missing exactly when every declared variable is set and non-empty. */
  lemma {:induction false} NoneMissing(vars: seq<RequiredVar>, env: Env)
    ensures Missing(vars, env) == [] <==> forall n :: n in Names(vars) ==> !Falsy(env, n)
  {
    if vars != [] {
      assert Names(vars) == [vars[0].name] + Names(vars[1..]);
      NoneMissing(vars[1..], env);
    }
  }

  lemma RequiredNamesListed()
    ensures RequiredNames == [SmtpHost, SmtpPort, SmtpUser, SmtpPass,
                              PushApiKey, RedisUrl, UserServiceUrl]
  {
  }

  /** `[name]` when the variable is unset or empty, `[]` otherwise. */
  function IfMissing(env: Env, name: string): seq<string>
  {
    if Falsy(env, name) then [name] else []
  }

  /** The missing list from declaration `k` on: that one's part, then the rest. */
  lemma MissingStep(vars: seq<RequiredVar>, k: nat, env: Env)
    requires k < |vars|
    ensures Missing(vars[k..], env) == IfMissing(env, vars[k].name) + Missing(vars[k + 1..], env)
  {
    assert vars[k..][1..] == vars[k + 1..];
  }

  /**
   * The missing list of the startup check, written out: each required
   * variable that is unset or empty, in declaration order.
   */
  lemma MissingRequired(env: Env)
    ensures Missing(Required, env)
            == IfMissing(env, SmtpHost) + (IfMissing(env, SmtpPort) + (IfMissing(env, SmtpUser)
               + (IfMissing(env, SmtpPass) + (IfMissing(env, PushApiKey) + (IfMissing(env, RedisUrl)
               + IfMissing(env, UserServiceUrl))))))
  {
    var r := Required;
    var tail := IfMissing(env, UserServiceUrl);
    assert Missing(r[6..], env) == tail by {
      MissingStep(r, 6, env);
      assert r[7..] == [];
    }
    tail := IfMissing(env, RedisUrl) + tail;
    assert Missing(r[5..], env) == tail by { MissingStep(r, 5, env); }
    tail := IfMissing(env, PushApiKey) + tail;
    assert Missing(r[4..], env) == tail by { MissingStep(r, 4, env); }
    tail := IfMissing(env, SmtpPass) + tail;
    assert Missing(r[3..], env) == tail by { MissingStep(r, 3, env); }
    tail := IfMissing(env, SmtpUser) + tail;
    assert Missing(r[2..], env) == tail by { MissingStep(r, 2, env); }
    tail := IfMissing(env, SmtpPort) + tail;
    assert Missing(r[1..], env) == tail by { MissingStep(r, 1, env); }
    MissingStep(r, 0, env);
    assert r[0..] == r;
  }

  // ---------------------------------------------------------------------
  // Log lines
  // ---------------------------------------------------------------------

  /** The level a config-service line is logged at: `logger.info` or `logger.error`. */
  datatype LineLevel = Info | Error

  /** One call of `logger.info` or `logger.error`; the record format is not modelled. */
  datatype Line = Line(level: LineLevel, message: string)

  /** `repr` of a Python string without quote characters in it. */
  function Quoted(s: string): string
  {
    "'" + s + "'"
  }

  function JoinQuoted(xs: seq<string>): (j: string)
    ensures xs == [] <==> j == ""
    ensures xs != [] ==> |j| >= 2 && j[0] == '\'' && j[|j| - 1] == '\''
  {
    if |xs| == 0 then ""
    else if |xs| == 1 then Quoted(xs[0])
    else Quoted(xs[0]) + (", " + JoinQuoted(xs[1..]))
  }

  /** How an f-string writes a list of strings: `['A', 'B']`. */
  function PyListRepr(xs: seq<string>): (r: string)
    ensures |r| >= 2 && r[0] == '[' && r[|r| - 1] == ']'
    ensures xs == [] <==> r == "[]"
  {
    "[" + JoinQuoted(xs) + "]"
  }

  /** A single name is written as itself between quotes. */
  lemma JoinQuotedOne(x: string)
    ensures JoinQuoted([x]) == "'" + x + "'"
  {
  }

  /** Each further name is appended after a comma, so the names appear in list order. */
  lemma {:induction false} JoinQuotedSnoc(xs: seq<string>, x: string)
    requires xs != []
    ensures JoinQuoted(xs + [x]) == JoinQuoted(xs) + (", " + Quoted(x))
  {
    var ys := xs + [x];
    var tail := ", " + Quoted(x);
    assert ys[0] == xs[0];
    if |xs| > 1 {
      var j := JoinQuoted(xs[1..]);
      assert ys[1..] == xs[1..] + [x];
      JoinQuotedSnoc(xs[1..], x);
      ConcatAssoc(", ", j, tail);
      ConcatAssoc(Quoted(xs[0]), ", " + j, tail);
    } else {
      assert ys[1..] == [x];
    }
  }

  lemma ConcatAssoc<T>(a: seq<T>, b: seq<T>, c: seq<T>)
    ensures a + (b + c) == (a + b) + c
  {
  }

  predicate QuoteFree(s: string)
  {
    forall i :: 0 <= i < |s| ==> s[i] != '\''
  }

  /** The characters of `Quoted(x) + rest`: the name, then its closing quote. */
  lemma QuotedChars(x: string, rest: string)
    ensures forall i :: 0 <= i < |x| ==> (Quoted(x) + rest)[i + 1] == x[i]
    ensures (Quoted(x) + rest)[|x| + 1] == '\''
    ensures (Quoted(x) + rest)[1..|x| + 1] == x && (Quoted(x) + rest)[|x| + 2..] == rest
  {
  }

  /** Without quotes inside, the first closing quote tells where a quoted name ends. */
  lemma QuotedPrefix(x: string, y: string, a: string, b: string)
    requires QuoteFree(x) && QuoteFree(y)
    requires Quoted(x) + a == Quoted(y) + b
    ensures x == y && a == b
  {
    QuotedChars(x, a);
    QuotedChars(y, b);
    if |x| < |y| {
      assert false;
    } else if |y| < |x| {
      assert false;
    }
  }

  /** Equal renderings of non-empty lists agree on the first name and on what follows it. */
  lemma JoinQuotedHeads(xs: seq<string>, ys: seq<string>)
    requires xs != [] && ys != [] && QuoteFree(xs[0]) && QuoteFree(ys[0])
    requires JoinQuoted(xs) == JoinQuoted(ys)
    ensures xs[0] == ys[0] && (|xs| == 1 <==> |ys| == 1)
    ensures |xs| > 1 ==> JoinQuoted(xs[1..]) == JoinQuoted(ys[1..])
  {
    if |xs| == 1 && |ys| == 1 {
      QuotedPrefix(xs[0], ys[0], "", "");
    } else if |xs| == 1 {
      QuotedPrefix(xs[0], ys[0], "", ", " + JoinQuoted(ys[1..]));
      assert false;
    } else if |ys| == 1 {
      QuotedPrefix(xs[0], ys[0], ", " + JoinQuoted(xs[1..]), "");
      assert false;
    } else {
      var a, b := ", " + JoinQuoted(xs[1..]), ", " + JoinQuoted(ys[1..]);
      QuotedPrefix(xs[0], ys[0], a, b);
      assert a[2..] == JoinQuoted(xs[1..]) && b[2..] == JoinQuoted(ys[1..]);
    }
  }

  /** Names without quotes are recovered from their joined rendering. */
  lemma {:induction false} JoinQuotedInjective(xs: seq<string>, ys: seq<string>)
    requires forall i :: 0 <= i < |xs| ==> QuoteFree(xs[i])
    requires forall i :: 0 <= i < |ys| ==> QuoteFree(ys[i])
    requires JoinQuoted(xs) == JoinQuoted(ys)
    ensures xs == ys
  {
    if xs != [] && ys != [] {
      JoinQuotedHeads(xs, ys);
      if |xs| > 1 {
        JoinQuotedInjective(xs[1..], ys[1..]);
        assert xs == [xs[0]] + xs[1..] && ys == [ys[0]] + ys[1..];
      }
    }
  }

  /** Lists of quote-free names print alike only when they are the same list. */
  lemma PyListReprInjective(xs: seq<string>, ys: seq<string>)
    requires forall i :: 0 <= i < |xs| ==> QuoteFree(xs[i])
    requires forall i :: 0 <= i < |ys| ==> QuoteFree(ys[i])
    requires PyListRepr(xs) == PyListRepr(ys)
    ensures xs == ys
  {
    var r := PyListRepr(xs);
    assert r[1..|r| - 1] == JoinQuoted(xs);
    assert PyListRepr(ys)[1..|r| - 1] == JoinQuoted(ys);
    JoinQuotedInjective(xs, ys);
  }

  /** How an f-string writes `os.getenv(...)`: the value, or `None`. */
  function PyStr(o: Option<string>): string
  {
    o.GetOr("None")
  }

  const ValidatingLine := Line(Info, "Validating configuration...")
  const CannotStartLine := Line(Error, "Application cannot start without required configuration")
  const ValidatedLine := Line(Info, "\U{2705} Configuration validated successfully")

  function MissingLine(missing: seq<string>): Line
  {
    Line(Error, "\U{274C} Missing required configuration: " + PyListRepr(missing))
  }

  function ValueLine(caption: string, value: Option<string>): Line
  {
    Line(Info, "  " + caption + ": " + PyStr(value))
  }

  /** `logger.error(f"Configuration validation failed: {e}")` in the startup `except`. */
  function FailedLine(error: string): Line
  {
    Line(Error, "Configuration validation failed: " + error)
  }

  /** One line per variable tagged `Logged`, in declaration order; secrets get none. */
  function ValueLines(vars: seq<RequiredVar>, env: Env): seq<Line>
  {
    if vars == [] then []
    else
      (match vars[0].secrecy
       case Logged(caption) => [ValueLine(caption, GetEnv(env, vars[0].name))]
       case Secret => [])
      + ValueLines(vars[1..], env)
  }

  /** Tagged variables that agree in every logged value log the same lines. */
  lemma {:induction false} ValueLinesReadOnlyLogged(vars: seq<RequiredVar>, e1: Env, e2: Env)
    requires forall v :: v in vars && v.secrecy.Logged? ==> GetEnv(e1, v.name) == GetEnv(e2, v.name)
    ensures ValueLines(vars, e1) == ValueLines(vars, e2)
  {
    if vars != [] {
      assert vars[0] in vars;
      ValueLinesReadOnlyLogged(vars[1..], e1, e2);
    }
  }

  /** The secrecy tags reproduce the five lines the service writes on success. */
  lemma RequiredValueLines(env: Env)
    ensures ValueLines(Required, env) == [
              ValueLine("SMTP Host", GetEnv(env, SmtpHost)),
              ValueLine("SMTP Port", GetEnv(env, SmtpPort)),
              ValueLine("SMTP User", GetEnv(env, SmtpUser)),
              ValueLine("Redis URL", GetEnv(env, RedisUrl)),
              ValueLine("User Service URL", GetEnv(env, UserServiceUrl))]
  {
    var r := Required;
    var last := ValueLines(r[6..], env);
    assert last == [ValueLine("User Service URL", GetEnv(env, UserServiceUrl))] by {
      assert r[6..][1..] == [];
      assert ValueLines([], env) == [];
    }
    assert ValueLines(r[5..], env) == [ValueLine("Redis URL", GetEnv(env, RedisUrl))] + last by {
      assert r[5..][1..] == r[6..];
    }
    assert ValueLines(r[3..], env) == ValueLines(r[5..], env) by {
      assert r[4..][1..] == r[5..];
      assert r[3..][1..] == r[4..];
    }
    assert ValueLines(r[2..], env) == [ValueLine("SMTP User", GetEnv(env, SmtpUser))] + ValueLines(r[3..], env) by {
      assert r[2..][1..] == r[3..];
    }
    assert ValueLines(r[1..], env) == [ValueLine("SMTP Port", GetEnv(env, SmtpPort))] + ValueLines(r[2..], env) by {
      assert r[1..][1..] == r[2..];
    }
  }

  // ---------------------------------------------------------------------
  // validate_config
  // ---------------------------------------------------------------------

  /** How `validate_config` ends when nothing raises: it returns, or calls `sys.exit(code)`. */
  datatype Validation = Valid(config: map<string, string>) | Exit(code: int, missing: seq<string>)

  /**
   * An exception raised by the logging call with index `at` (0 for the
   * first line `validate_config` writes); that line is not written. No
   * fault is any `at` past the last line.
   */
  datatype Fault = Fault(at: nat, error: string)

  /** How a call of `validate_config` ends: as above, or by an exception. */
  datatype Attempt = Completed(validation: Validation) | Raised(error: string)

  /** `required_vars` once every value is known to be set: the same keys, the same values. */
  function ConfigOf(vars: seq<RequiredVar>, env: Env): (c: map<string, string>)
    ensures c.Keys == set n | n in Names(vars) && n in env
    ensures forall n :: n in c ==> c[n] == env[n]
  {
    map n | n in Names(vars) && n in env :: env[n]
  }

  /** The outcome of `validate_config` on `env` when no logging call raises. */
  function Validate(env: Env): (v: Validation)
    ensures v.Exit? <==> exists n :: n in RequiredNames && Falsy(env, n)
    ensures v.Exit? ==> v.code == 1 && v.missing == Missing(Required, env) && |v.missing| > 0
    ensures v.Valid? ==> && v.config.Keys == set n | n in RequiredNames
                         && forall n :: n in v.config ==> n in env && v.config[n] == env[n] && v.config[n] != ""
  {
    var missing := Missing(Required, env);
    NoneMissing(Required, env);
    if |missing| > 0 then
      Exit(1, missing)
    else
      Valid(ConfigOf(Required, env))
  }

  /** Every line `validate_config` writes on `env` when no logging call raises. */
  function ValidationLines(env: Env): (ls: seq<Line>)
    ensures |Missing(Required, env)| > 0 ==> |ls| == 3 && ls[2] == CannotStartLine
    ensures Missing(Required, env) == [] ==> |ls| == 7
    ensures ls[0] == ValidatingLine
    ensures ls[1] == ValidatedLine <==> Missing(Required, env) == []
  {
    var missing := Missing(Required, env);
    if |missing| > 0 then [ValidatingLine, MissingLine(missing), CannotStartLine]
    else
      RequiredValueLines(env);
      [ValidatingLine, ValidatedLine] + ValueLines(Required, env)
  }

  /** On success: the opening line, the confirmation and the five non-secret values. */
  lemma SuccessLines(env: Env)
    requires Missing(Required, env) == []
    ensures ValidationLines(env) == [ValidatingLine, ValidatedLine,
                                     ValueLine("SMTP Host", GetEnv(env, SmtpHost)),
                                     ValueLine("SMTP Port", GetEnv(env, SmtpPort)),
                                     ValueLine("SMTP User", GetEnv(env, SmtpUser)),
                                     ValueLine("Redis URL", GetEnv(env, RedisUrl)),
                                     ValueLine("User Service URL", GetEnv(env, UserServiceUrl))]
  {
    RequiredValueLines(env);
  }

  /** The fault fires when the call it names is actually made. */
  predicate Fires(env: Env, fault: Option<Fault>)
  {
    fault.Some? && fault.value.at < |ValidationLines(env)|
  }

  /** The lines written before the call ends. */
  function WrittenLines(env: Env, fault: Option<Fault>): (ls: seq<Line>)
    ensures Fires(env, fault) ==> |ls| == fault.value.at
  {
    var full := ValidationLines(env);
    if Fires(env, fault) then full[..fault.value.at] else full
  }

  function Attempted(env: Env, fault: Option<Fault>): Attempt
  {
    if Fires(env, fault) then Raised(fault.value.error) else Completed(Validate(env))
  }

  /**
   * `logger.info`/`logger.error`: append `line`, unless this call is the
   * faulty one. `full` is what the whole call writes when nothing raises;
   * `line` is its next line.
   */
  method Emit(lines: seq<Line>, line: Line, fault: Option<Fault>, ghost full: seq<Line>)
    returns (after: seq<Line>, raised: bool)
    requires |lines| < |full| && lines == full[..|lines|] && full[|lines|] == line
    requires NotYet(lines, fault)
    ensures raised <==> fault.Some? && fault.value.at == |lines|
    ensures after == if raised then lines else lines + [line]
    ensures !raised ==> after == full[..|lines| + 1] && NotYet(after, fault)
  {
    raised := fault.Some? && fault.value.at == |lines|;
    after := if raised then lines else lines + [line];
  }

  /** The faulty call came next after `lines`, a proper prefix of `full`. */
  predicate NotYet(lines: seq<Line>, fault: Option<Fault>)
  {
    fault.None? || fault.value.at >= |lines|
  }

  predicate StoppedAt(lines: seq<Line>, fault: Option<Fault>, full: seq<Line>)
  {
    fault.Some? && fault.value.at == |lines| && |lines| < |full| && lines == full[..|lines|]
  }

  /** The two error lines of the exit path (the `sys.exit(1)` follows in the caller). */
  method ReportMissing(lines: seq<Line>, missing: seq<string>, fault: Option<Fault>, ghost full: seq<Line>)
    returns (after: seq<Line>, raised: bool)
    requires full == [ValidatingLine, MissingLine(missing), CannotStartLine] && lines == full[..1]
    requires NotYet(lines, fault)
    ensures raised ==> StoppedAt(after, fault, full)
    ensures !raised ==> after == full && NotYet(after, fault)
  {
    after, raised := Emit(lines, MissingLine(missing), fault, full);
    if raised { return; }
    after, raised := Emit(after, CannotStartLine, fault, full);
  }

  /** The confirmation and the five non-secret values of the success path. */
  method ReportConfiguration(lines: seq<Line>, env: Env, fault: Option<Fault>, ghost full: seq<Line>)
    returns (after: seq<Line>, raised: bool)
    requires full == [ValidatingLine, ValidatedLine,
                      ValueLine("SMTP Host", GetEnv(env, SmtpHost)),
                      ValueLine("SMTP Port", GetEnv(env, SmtpPort)),
                      ValueLine("SMTP User", GetEnv(env, SmtpUser)),
                      ValueLine("Redis URL", GetEnv(env, RedisUrl)),
                      ValueLine("User Service URL", GetEnv(env, UserServiceUrl))]
    requires lines == full[..1] && NotYet(lines, fault)
    ensures raised ==> StoppedAt(after, fault, full)
    ensures !raised ==> after == full && NotYet(after, fault)
  {
    after, raised := Emit(lines, ValidatedLine, fault, full);
    if raised { return; }
    after, raised := Emit(after, ValueLine("SMTP Host", GetEnv(env, SmtpHost)), fault, full);
    if raised { return; }
    after, raised := Emit(after, ValueLine("SMTP Port", GetEnv(env, SmtpPort)), fault, full);
    if raised { return; }
    after, raised := Emit(after, ValueLine("SMTP User", GetEnv(env, SmtpUser)), fault, full);
    if raised { return; }
    after, raised := Emit(after, ValueLine("Redis URL", GetEnv(env, RedisUrl)), fault, full);
    if raised { return; }
    after, raised := Emit(after, ValueLine("User Service URL", GetEnv(env, UserServiceUrl)), fault, full);
  }

  /**
   * `validate_config`: the opening line, the missing list, then either the
   * two error lines and `sys.exit(1)`, or the confirmation and the five
   * non-secret values, returning the configuration.
   */
  method ValidateConfig(env: Env, fault: Option<Fault>) returns (attempt: Attempt, lines: seq<Line>)
    ensures attempt == Attempted(env, fault)
    ensures lines == WrittenLines(env, fault)
  {
    ghost var full := ValidationLines(env);
    var raised;
    lines, raised := Emit([], ValidatingLine, fault, full);
    if raised { RaisedAt(env, fault, lines); return Raised(fault.value.error), lines; }
    var missing := Missing(Required, env);
    if |missing| > 0 {
      lines, raised := ReportMissing(lines, missing, fault, full);
      if raised { RaisedAt(env, fault, lines); return Raised(fault.value.error), lines; }
      CompletedWith(env, fault, lines);
      return Completed(Exit(1, missing)), lines;
    }
    SuccessLines(env);
    lines, raised := ReportConfiguration(lines, env, fault, full);
    if raised { RaisedAt(env, fault, lines); return Raised(fault.value.error), lines; }
    CompletedWith(env, fault, lines);
    attempt := Completed(Valid(ConfigOf(Required, env)));
  }

  /** The faulty call is the next one: the lines so far are all that is written. */
  lemma RaisedAt(env: Env, fault: Option<Fault>, lines: seq<Line>)
    requires StoppedAt(lines, fault, ValidationLines(env))
    ensures Attempted(env, fault) == Raised(fault.value.error)
    ensures WrittenLines(env, fault) == lines
  {
  }

  /** Every line was written, so no fault fired. */
  lemma CompletedWith(env: Env, fault: Option<Fault>, lines: seq<Line>)
    requires lines == ValidationLines(env)
    requires NotYet(lines, fault)
    ensures Attempted(env, fault) == Completed(Validate(env))
    ensures WrittenLines(env, fault) == lines
  {
  }

  // ---------------------------------------------------------------------
  // Startup: `config = validate_config()` inside `try/except Exception`
  // ---------------------------------------------------------------------

  /** The process after startup: serving with a configuration, or gone with an exit status. */
  datatype Process = Serving(config: map<string, string>) | Exited(status: int)

  /**
   * The module-level startup. `sys.exit` raises SystemExit, which is not an
   * `Exception`, so the `except` does not see it and adds no line; any other
   * exception is logged and ends the process with status 1 as well.
   */
  method Startup(env: Env, fault: Option<Fault>) returns (process: Process, lines: seq<Line>)
    ensures lines == StartupLines(env, fault)
    ensures process.Exited? <==> Fires(env, fault) || |Missing(Required, env)| > 0
    ensures process.Exited? ==> process.status == 1
    ensures process.Serving? ==> process == Serving(Validate(env).config) && lines == ValidationLines(env)
    ensures Fires(env, fault) ==> lines == WrittenLines(env, fault) + [FailedLine(fault.value.error)]
    ensures !Fires(env, fault) && |Missing(Required, env)| > 0 ==>
              lines == [ValidatingLine, MissingLine(Missing(Required, env)), CannotStartLine]
  {
    var attempt;
    attempt, lines := ValidateConfig(env, fault);
    match attempt {
      case Raised(e) =>
        lines := lines + [FailedLine(e)];
        process := Exited(1);
      case Completed(Exit(code, _)) =>
        process := Exited(code);
      case Completed(Valid(config)) =>
        process := Serving(config);
    }
  }

  /** The lines of a startup, as a function of the environment and the fault. */
  function StartupLines(env: Env, fault: Option<Fault>): (ls: seq<Line>)
    ensures !Fires(env, fault) ==> ls == ValidationLines(env)
    ensures Fires(env, fault) ==>
              && |ls| == fault.value.at + 1
              && ls[..fault.value.at] == ValidationLines(env)[..fault.value.at]
              && ls[fault.value.at] == FailedLine(fault.value.error)
  {
    WrittenLines(env, fault) + (if Fires(env, fault) then [FailedLine(fault.value.error)] else [])
  }

  /**
   * On a missing variable nothing but the three fixed lines is written: no
   * confirmation and no configuration value, only the names that are missing.
   */
  lemma ExitLogsOnlyMissingNames(e1: Env, e2: Env)
    requires |Missing(Required, e1)| > 0 && |Missing(Required, e2)| > 0
    ensures ValidationLines(e1) == ValidationLines(e2) <==> Missing(Required, e1) == Missing(Required, e2)
    ensures ValidatedLine !in ValidationLines(e1)
  {
    var m1, m2 := Missing(Required, e1), Missing(Required, e2);
    if ValidationLines(e1) == ValidationLines(e2) {
      var prefix := "\U{274C} Missing required configuration: ";
      var msg := MissingLine(m1).message;
      assert msg == MissingLine(m2).message;
      assert msg[|prefix|..] == PyListRepr(m1) && msg[|prefix|..] == PyListRepr(m2);
      MissingQuoteFree(e1);
      MissingQuoteFree(e2);
      PyListReprInjective(m1, m2);
    }
  }

  /** The required names hold no quote, so neither does any missing-name list. */
  lemma MissingQuoteFree(env: Env)
    ensures forall i :: 0 <= i < |Missing(Required, env)| ==> QuoteFree(Missing(Required, env)[i])
  {
    var m := Missing(Required, env);
    RequiredNamesQuoteFree();
    forall i | 0 <= i < |m|
      ensures QuoteFree(m[i])
    {
      MissingMembers(Required, env, m[i]);
    }
  }

  lemma RequiredNamesQuoteFree()
    ensures forall n :: n in RequiredNames ==> QuoteFree(n)
  {
    RequiredNamesListed();
    assert QuoteFree(SmtpHost) && QuoteFree(SmtpPort) && QuoteFree(SmtpUser) && QuoteFree(SmtpPass);
    assert QuoteFree(PushApiKey) && QuoteFree(RedisUrl) && QuoteFree(UserServiceUrl);
  }

  /**
   * Secrets never reach the log: two environments that differ only in the
   * values of SMTP_PASS and PUSH_API_KEY (but not in whether they are set)
   * produce the same lines, whatever the fault.
   */
  lemma {:induction false} StartupHidesSecrets(e1: Env, e2: Env, fault: Option<Fault>)
    requires forall n :: n in RequiredNames ==> (Falsy(e1, n) <==> Falsy(e2, n))
    requires forall v :: v in Required && v.secrecy.Logged? ==> GetEnv(e1, v.name) == GetEnv(e2, v.name)
    ensures StartupLines(e1, fault) == StartupLines(e2, fault)
  {
    ValidationHidesSecrets(e1, e2);
  }

  /** The validation lines of environments that differ only in secret values. */
  lemma ValidationHidesSecrets(e1: Env, e2: Env)
    requires forall n :: n in RequiredNames ==> (Falsy(e1, n) <==> Falsy(e2, n))
    requires forall v :: v in Required && v.secrecy.Logged? ==> GetEnv(e1, v.name) == GetEnv(e2, v.name)
    ensures ValidationLines(e1) == ValidationLines(e2)
  {
    MissingSameFalsy(Required, e1, e2);
    ValueLinesReadOnlyLogged(Required, e1, e2);
  }

  lemma {:induction false} MissingSameFalsy(vars: seq<RequiredVar>, e1: Env, e2: Env)
    requires forall n :: n in Names(vars) ==> (Falsy(e1, n) <==> Falsy(e2, n))
    ensures Missing(vars, e1) == Missing(vars, e2)
  {
    if vars != [] {
      assert Names(vars) == [vars[0].name] + Names(vars[1..]);
      MissingSameFalsy(vars[1..], e1, e2);
    }
  }

  /** On success the returned configuration holds each variable's environment value. */
  lemma StartupConfig(env: Env)
    requires forall n :: n in RequiredNames ==> !Falsy(env, n)
    ensures Validate(env).Valid?
    ensures forall n :: n in RequiredNames ==> Validate(env).config[n] == env[n]
  {
  }

  /**
   * An example: SMTP_PASS unset and REDIS_URL empty. The process exits
   * with status 1 after naming both, in declaration order.
   */
  lemma MissingExample()
    ensures var env := map[SmtpHost := "mail", SmtpPort := "25", SmtpUser := "ops",
                           PushApiKey := "k", RedisUrl := "", UserServiceUrl := "http://u"];
            && Validate(env) == Exit(1, [SmtpPass, RedisUrl])
            && ValidationLines(env)[1] == MissingLine([SmtpPass, RedisUrl])
  {
    var env := map[SmtpHost := "mail", SmtpPort := "25", SmtpUser := "ops",
                   PushApiKey := "k", RedisUrl := "", UserServiceUrl := "http://u"];
    assert SmtpPass !in env;
    assert IfMissing(env, SmtpHost) == [] && IfMissing(env, SmtpPort) == [];
    assert IfMissing(env, SmtpUser) == [] && IfMissing(env, PushApiKey) == [];
    assert IfMissing(env, UserServiceUrl) == [];
    MissingRequired(env);
    assert Missing(Required, env) == [SmtpPass, RedisUrl];
  }

  /** The error line writes the list as Python prints it. */
  lemma MissingLineExample()
    ensures PyListRepr(["SMTP_PASS", "REDIS_URL"]) == "['SMTP_PASS', 'REDIS_URL']"
  {
    var missing := ["SMTP_PASS", "REDIS_URL"];
    assert missing[1..] == ["REDIS_URL"];
  }

  // ---------------------------------------------------------------------
  // Routes that read the configuration
  // ---------------------------------------------------------------------

  /**
   * `ready`: re-reads SMTP_HOST and REDIS_URL from the live environment,
   * not from the configuration cached at startup.
   */
  function Ready(env: Env): (r: Response)
    ensures r.status == 503 <==> Falsy(env, SmtpHost) || Falsy(env, RedisUrl)
    ensures r.status == 503 || r.status == 200
    ensures r.status == 503 ==> r.body == map["status" := Str("not ready"), "reason" := Str("Configuration missing")]
    ensures r.status == 200 ==> r.body == map["status" := Str("ready"), "config_loaded" := Bool(true)]
  {
    if Falsy(env, SmtpHost) || Falsy(env, RedisUrl) then
      Response(503, map["status" := Str("not ready"), "reason" := Str("Configuration missing")])
    else
      Response(200, map["status" := Str("ready"), "config_loaded" := Bool(true)])
  }

  /** A process that started on `env` is ready while `env` is unchanged. */
  lemma ReadyAfterStartup(env: Env)
    requires Validate(env).Valid?
    ensures Ready(env).status == 200
  {
    RequiredNamesListed();
  }

  /**
   * Readiness follows drift in the live environment: after a successful
   * startup, unsetting REDIS_URL turns the answer into 503 although the
   * cached configuration still holds a value for it.
   */
  lemma ReadyFollowsDrift(env: Env)
    requires Validate(env).Valid?
    ensures RedisUrl in Validate(env).config
    ensures Ready(env - {RedisUrl}).status == 503
  {
    RequiredNamesListed();
  }

  /** Only whether SMTP_HOST and REDIS_URL are set matters to `ready`. */
  lemma ReadyReadsTwoVariables(e1: Env, e2: Env)
    requires Falsy(e1, SmtpHost) == Falsy(e2, SmtpHost)
    requires Falsy(e1, RedisUrl) == Falsy(e2, RedisUrl)
    ensures Ready(e1) == Ready(e2)
  {
  }

  /** `send_notification`: one line naming the SMTP host, and the host echoed back. */
  function SendNotification(config: map<string, string>): (r: (Line, Response))
    requires SmtpHost in config
    ensures r.0 == Line(Info, "Sending notification via SMTP: " + config[SmtpHost])
    ensures r.1.status == 200 && "smtp_host" in r.1.body && r.1.body["smtp_host"] == Str(config[SmtpHost])
  {
    var host := config[SmtpHost];
    (Line(Info, "Sending notification via SMTP: " + host),
     Response(200, map["status" := Str("sent"), "smtp_host" := Str(host)]))
  }

  /** The host `send_notification` answers with is the one in the environment at startup. */
  lemma SendNotificationUsesStartupHost(env: Env)
    requires Validate(env).Valid?
    ensures SmtpHost in env
    ensures SendNotification(Validate(env).config).1.body["smtp_host"] == Str(env[SmtpHost])
  {
    assert SmtpHost in RequiredNames;
  }

  /** `config_info`: three presence flags and two variables with defaults. */
  function ConfigInfo(env: Env): (r: Response)
    ensures r.status == 200
    ensures r.body.Keys == {"smtp_configured", "redis_configured", "push_configured", "log_level", "environment"}
    ensures r.body["smtp_configured"] == Bool(!Falsy(env, SmtpHost))
    ensures r.body["redis_configured"] == Bool(!Falsy(env, RedisUrl))
    ensures r.body["push_configured"] == Bool(!Falsy(env, PushApiKey))
    ensures r.body["log_level"] == Str(if "LOG_LEVEL" in env then env["LOG_LEVEL"] else "INFO")
    ensures r.body["environment"] == Str(if "ENVIRONMENT" in env then env["ENVIRONMENT"] else "unknown")
  {
    Response(200, map[
      "smtp_configured" := Bool(GetEnv(env, SmtpHost).Some? && GetEnv(env, SmtpHost).value != ""),
      "redis_configured" := Bool(GetEnv(env, RedisUrl).Some? && GetEnv(env, RedisUrl).value != ""),
      "push_configured" := Bool(GetEnv(env, PushApiKey).Some? && GetEnv(env, PushApiKey).value != ""),
      "log_level" := Str(GetEnvOr(env, "LOG_LEVEL", "INFO")),
      "environment" := Str(GetEnvOr(env, "ENVIRONMENT", "unknown"))
    ])
  }

  /** `config_info` never carries a secret value: it reports only whether PUSH_API_KEY is set. */
  lemma ConfigInfoHidesSecrets(e1: Env, e2: Env)
    requires Falsy(e1, PushApiKey) == Falsy(e2, PushApiKey)
    requires forall n :: n != SmtpPass && n != PushApiKey ==> GetEnv(e1, n) == GetEnv(e2, n)
    ensures ConfigInfo(e1) == ConfigInfo(e2)
  {
    assert GetEnv(e1, SmtpHost) == GetEnv(e2, SmtpHost);
    assert GetEnv(e1, RedisUrl) == GetEnv(e2, RedisUrl);
    assert GetEnv(e1, "LOG_LEVEL") == GetEnv(e2, "LOG_LEVEL");
    assert GetEnv(e1, "ENVIRONMENT") == GetEnv(e2, "ENVIRONMENT");
  }
}

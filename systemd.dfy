/** The operation table, the query-option parser and the command-line
    builder of the `systemd` package. */
module Systemd {
  import opened Results
  import opened Strconv

  // ---------------------------------------------------------------------
  // Operations and their command templates
  // ---------------------------------------------------------------------

  const Systemctl: string := "systemctl"
  const Journalctl: string := "journalctl"
  const UserFlag: string := "--user"

  /** An operation is any string; only those in `OperationToCommand` run. */
  type Operation = string

  const List: Operation := "list"
  const Cat: Operation := "cat"
  const Start: Operation := "start"
  const Status: Operation := "status"
  const Stop: Operation := "stop"
  const Reload: Operation := "reload"
  const Restart: Operation := "restart"
  const Log: Operation := "log"

  /** The read-only table from operation to the command line it starts with. */
  const OperationToCommand: map<Operation, seq<string>> := map[
    List := [Systemctl, UserFlag, "list-units"],
    Cat := [Systemctl, UserFlag, "cat"],
    Start := [Systemctl, UserFlag, "start"],
    Status := [Systemctl, UserFlag, "status"],
    Stop := [Systemctl, UserFlag, "stop"],
    Reload := [Systemctl, UserFlag, "reload"],
    Restart := [Systemctl, UserFlag, "restart"],
    Log := [Journalctl, UserFlag]
  ]

  // ---------------------------------------------------------------------
  // Options
  // ---------------------------------------------------------------------

  /** A `time.Time`, kept abstract: an instant counted from its zero value
      (January 1 of year 1, UTC). Parsing and formatting RFC 3339 text are
      parameters of the operations that need them. */
  datatype Time = Time(seconds: int, nanos: nat)

  const ZeroTime: Time := Time(0, 0)

  /** `time.Time.IsZero`. */
  predicate IsZero(t: Time) { t.seconds == 0 && t.nanos == 0 }

  datatype Options = Options(
    tail: int,
    limitBytes: int,
    timestamps: bool,
    follow: bool,
    previous: bool,
    sinceSeconds: int,
    sinceTime: Time)

  /** `Options{}`: every option unset. */
  const ZeroOptions: Options := Options(0, 0, false, false, false, 0, ZeroTime)

  /** Decoded query parameters, `url.Values`: each key maps to its values. */
  type Query = map<string, seq<string>>

  /** `url.Values.Get`: the first value of `key`, or "" when there is none. */
  function Get(q: Query, key: string): string
  {
    if key in q && |q[key]| > 0 then q[key][0] else ""
  }

  /** The query keys `ParseOptions` recognises. */
  datatype Key = TailLines | Follow | LimitBytes | Previous | SinceSeconds | SinceTime | Timestamps {
    /** The spelling of the key in a query string. */
    function Name(): string {
      match this
      case TailLines => "tailLines"
      case Follow => "follow"
      case LimitBytes => "limitBytes"
      case Previous => "previous"
      case SinceSeconds => "sinceSeconds"
      case SinceTime => "sinceTime"
      case Timestamps => "timestamps"
    }
  }

  /** The recognised keys, in the order `ParseOptions` examines them. */
  const OptionKeys: seq<Key> :=
    [TailLines, Follow, LimitBytes, Previous, SinceSeconds, SinceTime, Timestamps]

  datatype Reason = NotAnInteger | NegativeTail | NotABoolean | NotATimestamp

  /** A rejected option: the key whose value was refused, and why. */
  datatype OptionError = OptionError(key: Key, reason: Reason)

  /** What is wrong with the value `v` of an integer key, if anything:
      it must be a Go `int`, and `tailLines` must not be negative. */
  function IntProblem(key: Key, v: string): Option<Reason>
  {
    match Atoi(v)
    case None => Some(NotAnInteger)
    case Some(n) => if key == TailLines && n < 0 then Some(NegativeTail) else None
  }

  /** What is wrong with the value `v` of a boolean key, if anything. */
  function BoolProblem(v: string): Option<Reason>
  {
    if ParseBool(v).None? then Some(NotABoolean) else None
  }

  /** What is wrong with the value `v` of a time key, if anything. */
  function TimeProblem(v: string, parseTime: string -> Option<Time>): Option<Reason>
  {
    if parseTime(v).None? then Some(NotATimestamp) else None
  }

  /** What is wrong with the value of `key` on its own, if anything. An
      absent or empty value is never wrong. */
  function Problem(q: Query, key: Key, parseTime: string -> Option<Time>): Option<Reason>
  {
    var v := Get(q, key.Name());
    if v == "" then None
    else
      match key
      case TailLines | LimitBytes | SinceSeconds => IntProblem(key, v)
      case Follow | Previous | Timestamps => BoolProblem(v)
      case SinceTime => TimeProblem(v, parseTime)
  }

  /** The position, from `i` on, of the first recognised key whose value
      is wrong; `|OptionKeys|` when there is none. */
  function FirstProblem(q: Query, parseTime: string -> Option<Time>, i: nat): (k: nat)
    requires i <= |OptionKeys|
    ensures i <= k <= |OptionKeys|
    ensures forall j :: i <= j < k ==> Problem(q, OptionKeys[j], parseTime).None?
    ensures k < |OptionKeys| ==> Problem(q, OptionKeys[k], parseTime).Some?
    decreases |OptionKeys| - i
  {
    if i == |OptionKeys| then i
    else if Problem(q, OptionKeys[i], parseTime).Some? then i
    else FirstProblem(q, parseTime, i + 1)
  }

  /** The integer value of `key`, or 0 when it is unset. */
  function IntOption(q: Query, key: Key): int
  {
    var v := Get(q, key.Name());
    if v == "" then 0 else Atoi(v).GetOr(0)
  }

  /** The boolean value of `key`, or false when it is unset. */
  function BoolOption(q: Query, key: Key): bool
  {
    var v := Get(q, key.Name());
    if v == "" then false else ParseBool(v).GetOr(false)
  }

  /** The time value of `key`, or the zero time when it is unset. */
  function TimeOption(q: Query, key: Key, parseTime: string -> Option<Time>): Time
  {
    var v := Get(q, key.Name());
    if v == "" then ZeroTime else parseTime(v).GetOr(ZeroTime)
  }

  /** The options a query denotes: the first wrong key in `OptionKeys`
      order is the error; otherwise each field is read from its own key. */
  function OptionsOf(q: Query, parseTime: string -> Option<Time>): Result<Options, OptionError>
  {
    var k := FirstProblem(q, parseTime, 0);
    if k < |OptionKeys| then
      Err(OptionError(OptionKeys[k], Problem(q, OptionKeys[k], parseTime).value))
    else
      Ok(Options(
        tail := IntOption(q, TailLines),
        limitBytes := IntOption(q, LimitBytes),
        timestamps := BoolOption(q, Timestamps),
        follow := BoolOption(q, Follow),
        previous := BoolOption(q, Previous),
        sinceSeconds := IntOption(q, SinceSeconds),
        sinceTime := TimeOption(q, SinceTime, parseTime)))
  }

  /** `ParseOptions`: fills in the options one key at a time, in
      `OptionKeys` order, returning at the first value that is wrong. */
  method ParseOptions(q: Query, parseTime: string -> Option<Time>) returns (r: Result<Options, OptionError>)
    ensures r == OptionsOf(q, parseTime)
  {
    OptionsOfByKey(q, parseTime);
    var o := ZeroOptions;

    var tail := ReadInt(q, TailLines, parseTime);
    if tail.Err? {
      return Err(tail.error);
    }
    o := o.(tail := tail.value);

    var follow := ReadBool(q, Follow, parseTime);
    if follow.Err? {
      return Err(follow.error);
    }
    o := o.(follow := follow.value);

    var limitBytes := ReadInt(q, LimitBytes, parseTime);
    if limitBytes.Err? {
      return Err(limitBytes.error);
    }
    o := o.(limitBytes := limitBytes.value);

    var previous := ReadBool(q, Previous, parseTime);
    if previous.Err? {
      return Err(previous.error);
    }
    o := o.(previous := previous.value);

    var sinceSeconds := ReadInt(q, SinceSeconds, parseTime);
    if sinceSeconds.Err? {
      return Err(sinceSeconds.error);
    }
    o := o.(sinceSeconds := sinceSeconds.value);

    var sinceTime := ReadTime(q, SinceTime, parseTime);
    if sinceTime.Err? {
      return Err(sinceTime.error);
    }
    o := o.(sinceTime := sinceTime.value);

    var timestamps := ReadBool(q, Timestamps, parseTime);
    if timestamps.Err? {
      return Err(timestamps.error);
    }
    o := o.(timestamps := timestamps.value);

    return Ok(o);
  }

  /** One integer block of `ParseOptions`: an unset key reads as 0, a set
      one must parse with `Atoi` (and, for `tailLines`, not be negative). */
  method ReadInt(q: Query, key: Key, parseTime: string -> Option<Time>) returns (r: Result<int, OptionError>)
    requires key == TailLines || key == LimitBytes || key == SinceSeconds
    ensures r.Err? <==> Problem(q, key, parseTime).Some?
    ensures r.Err? ==> r.error == OptionError(key, Problem(q, key, parseTime).value)
    ensures r.Ok? ==> r.value == IntOption(q, key)
  {
    var v := Get(q, key.Name());
    if v == "" {
      return Ok(0);
    }
    var n := Atoi(v);
    if n.None? {
      return Err(OptionError(key, NotAnInteger));
    }
    if key == TailLines && n.value < 0 {
      return Err(OptionError(key, NegativeTail));
    }
    return Ok(n.value);
  }

  /** One boolean block of `ParseOptions`: an unset key reads as false, a
      set one must parse with `ParseBool`. */
  method ReadBool(q: Query, key: Key, parseTime: string -> Option<Time>) returns (r: Result<bool, OptionError>)
    requires key == Follow || key == Previous || key == Timestamps
    ensures r.Err? <==> Problem(q, key, parseTime).Some?
    ensures r.Err? ==> r.error == OptionError(key, Problem(q, key, parseTime).value)
    ensures r.Ok? ==> r.value == BoolOption(q, key)
  {
    var v := Get(q, key.Name());
    if v == "" {
      return Ok(false);
    }
    var b := ParseBool(v);
    if b.None? {
      return Err(OptionError(key, NotABoolean));
    }
    return Ok(b.value);
  }

  /** The `sinceTime` block of `ParseOptions`: an unset key reads as the zero
      time, a set one must parse as an RFC 3339 timestamp. */
  method ReadTime(q: Query, key: Key, parseTime: string -> Option<Time>) returns (r: Result<Time, OptionError>)
    requires key == SinceTime
    ensures r.Err? <==> Problem(q, key, parseTime).Some?
    ensures r.Err? ==> r.error == OptionError(key, Problem(q, key, parseTime).value)
    ensures r.Ok? ==> r.value == TimeOption(q, key, parseTime)
  {
    var v := Get(q, key.Name());
    if v == "" {
      return Ok(ZeroTime);
    }
    var t := parseTime(v);
    if t.None? {
      return Err(OptionError(key, NotATimestamp));
    }
    return Ok(t.value);
  }

  /** `OptionsOf` case by case, in key order: the first key whose value is
      wrong gives the error; when none is, the options are read key by key. */
  lemma OptionsOfByKey(q: Query, parseTime: string -> Option<Time>)
    ensures (Problem(q, TailLines, parseTime).Some?)
      ==> OptionsOf(q, parseTime) == Err(OptionError(TailLines, Problem(q, TailLines, parseTime).value))
    ensures (Problem(q, TailLines, parseTime).None? && Problem(q, Follow, parseTime).Some?)
      ==> OptionsOf(q, parseTime) == Err(OptionError(Follow, Problem(q, Follow, parseTime).value))
    ensures (Problem(q, TailLines, parseTime).None? && Problem(q, Follow, parseTime).None? && Problem(q, LimitBytes, parseTime).Some?)
      ==> OptionsOf(q, parseTime) == Err(OptionError(LimitBytes, Problem(q, LimitBytes, parseTime).value))
    ensures (Problem(q, TailLines, parseTime).None? && Problem(q, Follow, parseTime).None? && Problem(q, LimitBytes, parseTime).None? && Problem(q, Previous, parseTime).Some?)
      ==> OptionsOf(q, parseTime) == Err(OptionError(Previous, Problem(q, Previous, parseTime).value))
    ensures (Problem(q, TailLines, parseTime).None? && Problem(q, Follow, parseTime).None? && Problem(q, LimitBytes, parseTime).None? && Problem(q, Previous, parseTime).None? && Problem(q, SinceSeconds, parseTime).Some?)
      ==> OptionsOf(q, parseTime) == Err(OptionError(SinceSeconds, Problem(q, SinceSeconds, parseTime).value))
    ensures (Problem(q, TailLines, parseTime).None? && Problem(q, Follow, parseTime).None? && Problem(q, LimitBytes, parseTime).None? && Problem(q, Previous, parseTime).None? && Problem(q, SinceSeconds, parseTime).None? && Problem(q, SinceTime, parseTime).Some?)
      ==> OptionsOf(q, parseTime) == Err(OptionError(SinceTime, Problem(q, SinceTime, parseTime).value))
    ensures (Problem(q, TailLines, parseTime).None? && Problem(q, Follow, parseTime).None? && Problem(q, LimitBytes, parseTime).None? && Problem(q, Previous, parseTime).None? && Problem(q, SinceSeconds, parseTime).None? && Problem(q, SinceTime, parseTime).None? && Problem(q, Timestamps, parseTime).Some?)
      ==> OptionsOf(q, parseTime) == Err(OptionError(Timestamps, Problem(q, Timestamps, parseTime).value))
    ensures (Problem(q, TailLines, parseTime).None? && Problem(q, Follow, parseTime).None? && Problem(q, LimitBytes, parseTime).None? && Problem(q, Previous, parseTime).None? && Problem(q, SinceSeconds, parseTime).None? && Problem(q, SinceTime, parseTime).None? && Problem(q, Timestamps, parseTime).None?)
      ==> OptionsOf(q, parseTime) == Ok(Options(
            tail := IntOption(q, TailLines),
            limitBytes := IntOption(q, LimitBytes),
            timestamps := BoolOption(q, Timestamps),
            follow := BoolOption(q, Follow),
            previous := BoolOption(q, Previous),
            sinceSeconds := IntOption(q, SinceSeconds),
            sinceTime := TimeOption(q, SinceTime, parseTime)))
  {
    assert FirstProblem(q, parseTime, 0) == if Problem(q, TailLines, parseTime).Some? then 0 else FirstProblem(q, parseTime, 1);
    assert FirstProblem(q, parseTime, 1) == if Problem(q, Follow, parseTime).Some? then 1 else FirstProblem(q, parseTime, 2);
    assert FirstProblem(q, parseTime, 2) == if Problem(q, LimitBytes, parseTime).Some? then 2 else FirstProblem(q, parseTime, 3);
    assert FirstProblem(q, parseTime, 3) == if Problem(q, Previous, parseTime).Some? then 3 else FirstProblem(q, parseTime, 4);
    assert FirstProblem(q, parseTime, 4) == if Problem(q, SinceSeconds, parseTime).Some? then 4 else FirstProblem(q, parseTime, 5);
    assert FirstProblem(q, parseTime, 5) == if Problem(q, SinceTime, parseTime).Some? then 5 else FirstProblem(q, parseTime, 6);
    assert FirstProblem(q, parseTime, 6) == if Problem(q, Timestamps, parseTime).Some? then 6 else FirstProblem(q, parseTime, 7);
  }

  // ---------------------------------------------------------------------
  // What option parsing guarantees
  // ---------------------------------------------------------------------

  /** A query in which no recognised key has a value gives the zero options. */
  lemma OptionsOfUnset(q: Query, parseTime: string -> Option<Time>)
    requires forall k: Key :: Get(q, k.Name()) == ""
    ensures OptionsOf(q, parseTime) == Ok(ZeroOptions)
  {
    OptionsOfByKey(q, parseTime);
    assert Get(q, TailLines.Name()) == "" && Get(q, Follow.Name()) == "" && Get(q, LimitBytes.Name()) == "";
    assert Get(q, Previous.Name()) == "" && Get(q, SinceSeconds.Name()) == "";
    assert Get(q, SinceTime.Name()) == "" && Get(q, Timestamps.Name()) == "";
  }

  /** Keys other than the recognised ones are ignored: two queries that agree
      on the recognised keys give the same result. */
  lemma OptionsOfIgnoresOtherKeys(q1: Query, q2: Query, parseTime: string -> Option<Time>)
    requires forall k: Key :: Get(q1, k.Name()) == Get(q2, k.Name())
    ensures OptionsOf(q1, parseTime) == OptionsOf(q2, parseTime)
  {
    FirstProblemAgrees(q1, q2, parseTime, 0);
    var k := FirstProblem(q1, parseTime, 0);
    if k < |OptionKeys| {
      ProblemAgrees(q1, q2, OptionKeys[k], parseTime);
    } else {
      assert Get(q1, TailLines.Name()) == Get(q2, TailLines.Name());
      assert Get(q1, LimitBytes.Name()) == Get(q2, LimitBytes.Name());
      assert Get(q1, Timestamps.Name()) == Get(q2, Timestamps.Name());
      assert Get(q1, Follow.Name()) == Get(q2, Follow.Name());
      assert Get(q1, Previous.Name()) == Get(q2, Previous.Name());
      assert Get(q1, SinceSeconds.Name()) == Get(q2, SinceSeconds.Name());
      assert Get(q1, SinceTime.Name()) == Get(q2, SinceTime.Name());
    }
  }

  lemma {:induction false} FirstProblemAgrees(q1: Query, q2: Query, parseTime: string -> Option<Time>, i: nat)
    requires i <= |OptionKeys|
    requires forall k: Key :: Get(q1, k.Name()) == Get(q2, k.Name())
    ensures FirstProblem(q1, parseTime, i) == FirstProblem(q2, parseTime, i)
    decreases |OptionKeys| - i
  {
    if i < |OptionKeys| {
      var key := OptionKeys[i];
      ProblemAgrees(q1, q2, key, parseTime);
      FirstProblemAgrees(q1, q2, parseTime, i + 1);
    }
  }

  lemma ProblemAgrees(q1: Query, q2: Query, key: Key, parseTime: string -> Option<Time>)
    requires Get(q1, key.Name()) == Get(q2, key.Name())
    ensures Problem(q1, key, parseTime) == Problem(q2, key, parseTime)
  {
  }

  /** Parsing succeeds exactly when no recognised key has a wrong value, and
      a failure names the first such key in `OptionKeys` order. */
  lemma OptionsOfFirstError(q: Query, parseTime: string -> Option<Time>)
    ensures OptionsOf(q, parseTime).Ok?
      <==> forall i :: 0 <= i < |OptionKeys| ==> Problem(q, OptionKeys[i], parseTime).None?
    ensures OptionsOf(q, parseTime).Err? ==>
      exists i :: 0 <= i < |OptionKeys| && OptionKeys[i] == OptionsOf(q, parseTime).error.key
        && Problem(q, OptionKeys[i], parseTime) == Some(OptionsOf(q, parseTime).error.reason)
        && forall j :: 0 <= j < i ==> Problem(q, OptionKeys[j], parseTime).None?
  {
  }

  /** A parsed tail is never negative: `tailLines` is refused when it is not
      an integer or when it is below zero. */
  lemma TailChecked(q: Query, parseTime: string -> Option<Time>)
    ensures OptionsOf(q, parseTime).Ok? ==> OptionsOf(q, parseTime).value.tail >= 0
    ensures (Get(q, "tailLines") != "" && Atoi(Get(q, "tailLines")).None?)
      ==> OptionsOf(q, parseTime) == Err(OptionError(TailLines, NotAnInteger))
    ensures (Atoi(Get(q, "tailLines")).Some? && Atoi(Get(q, "tailLines")).value < 0)
      ==> OptionsOf(q, parseTime) == Err(OptionError(TailLines, NegativeTail))
  {
    OptionsOfByKey(q, parseTime);
  }

  /** The integer keys other than `tailLines` take any `int`, and the boolean
      keys take exactly the spellings `ParseBool` accepts. */
  lemma ValueChecks(q: Query, key: Key, parseTime: string -> Option<Time>)
    ensures (key == LimitBytes || key == SinceSeconds)
      ==> (Problem(q, key, parseTime).None? <==> Get(q, key.Name()) == "" || Atoi(Get(q, key.Name())).Some?)
    ensures key == TailLines
      ==> (Problem(q, key, parseTime).None?
           <==> Get(q, key.Name()) == "" || (Atoi(Get(q, key.Name())).Some? && Atoi(Get(q, key.Name())).value >= 0))
    ensures (key == Follow || key == Previous || key == Timestamps)
      ==> (Problem(q, key, parseTime).None?
           <==> Get(q, key.Name()) in {"", "1", "t", "T", "TRUE", "true", "True", "0", "f", "F", "FALSE", "false", "False"})
  {
  }

  /** A negative `limitBytes` or `sinceSeconds` is accepted and read as
      written: only `tailLines` carries a sign check. */
  lemma NegativeCountAccepted(q: Query, key: Key, parseTime: string -> Option<Time>, n: nat)
    requires key == LimitBytes || key == SinceSeconds
    requires n <= MaxInt
    requires Get(q, key.Name()) == "-" + Decimal(n)
    ensures Problem(q, key, parseTime).None?
    ensures IntOption(q, key) == -(n as int)
  {
    AtoiDecimal(n);
  }

  /** A negative `tailLines` is the error reported, whatever the later keys
      hold. */
  lemma NegativeTailRejected(q: Query, parseTime: string -> Option<Time>, n: nat)
    requires 0 < n <= MaxInt
    requires Get(q, "tailLines") == "-" + Decimal(n)
    ensures OptionsOf(q, parseTime) == Err(OptionError(TailLines, NegativeTail))
  {
    AtoiDecimal(n);
    OptionsOfByKey(q, parseTime);
  }

  // ---------------------------------------------------------------------
  // Command lines
  // ---------------------------------------------------------------------

  /** An `exec.Cmd` as far as this package shapes it: the program to run and
      its argument vector, whose first element is the program name again. */
  datatype Cmd = Cmd(path: string, args: seq<string>)

  /** The only way `Command` fails: the operation has no template. */
  datatype CommandError = NoCommand(op: Operation)

  /** The template of a known operation. Every command runs as the calling
      user, and only `log` runs `journalctl`; the rest run `systemctl`. */
  function Template(op: Operation): (t: seq<string>)
    requires op in OperationToCommand
    ensures |t| >= 2 && t[1] == UserFlag
    ensures t[0] == (if op == Log then Journalctl else Systemctl)
    ensures op == Log <==> |t| == 2
  {
    OperationToCommand[op]
  }

  /** `-n N`: how many journal lines to show, when a positive count is set. */
  function TailArgs(opts: Options): seq<string>
  {
    if opts.tail > 0 then ["-n", Decimal(opts.tail)] else []
  }

  /** `-f`: keep following the journal. */
  function FollowArgs(opts: Options): seq<string>
  {
    if opts.follow then ["-f"] else []
  }

  /** `-o FORMAT`: always present; `short-full` when timestamps are asked
      for, the bare message text (`cat`) otherwise. */
  function FormatArgs(opts: Options): seq<string>
  {
    ["-o", if opts.timestamps then "short-full" else "cat"]
  }

  /** `-S -Ns`: start N seconds ago, when a positive N is set. */
  function SinceSecondsArgs(opts: Options): seq<string>
  {
    if opts.sinceSeconds > 0 then ["-S", "-" + Decimal(opts.sinceSeconds) + "s"] else []
  }

  /** `-S TIME`: start at an absolute instant, when one is set. */
  function SinceTimeArgs(opts: Options, formatTime: Time -> string): seq<string>
  {
    if !IsZero(opts.sinceTime) then ["-S", formatTime(opts.sinceTime)] else []
  }

  /** The arguments naming the unit: `-u` before it for `journalctl`, the
      bare name for `systemctl`, nothing when no service is given. */
  function ServiceArgs(op: Operation, service: string): seq<string>
  {
    if service == "" then []
    else (if op == Log then ["-u"] else []) + [service]
  }

  /** The command `Command` builds: the operation's template followed by the
      arguments of each option and then those naming the service. */
  function CommandOf(op: Operation, opts: Options, service: string, formatTime: Time -> string): Result<Cmd, CommandError>
  {
    if op !in OperationToCommand then Err(NoCommand(op))
    else
      var t := Template(op);
      Ok(Cmd(t[0], t + TailArgs(opts) + FollowArgs(opts) + FormatArgs(opts)
                     + SinceSecondsArgs(opts) + SinceTimeArgs(opts, formatTime)
                     + ServiceArgs(op, service)))
  }

  /** `Command`: copies the operation's template, appends the option
      arguments and then the service arguments. */
  method Command(op: Operation, opts: Options, service: string, formatTime: Time -> string)
    returns (r: Result<Cmd, CommandError>)
    ensures r.Err? <==> op !in OperationToCommand
    ensures r.Err? ==> r.error == NoCommand(op)
    ensures r.Ok? ==> r == CommandOf(op, opts, service, formatTime)
  {
    if op !in OperationToCommand {
      return Err(NoCommand(op));
    }
    var cmdline := Template(op);
    // exec.Command(cmdline[0], cmdline[1:]...) keeps the name as Args[0]
    var args := AppendOptionArgs(cmdline, opts, formatTime);

    ghost var beforeService := args;
    if service != "" {
      if op == Log {
        args := args + ["-u"];
      }
      args := args + [service];
    }
    assert args == beforeService + ServiceArgs(op, service);

    return Ok(Cmd(cmdline[0], args));
  }

  /** The option blocks of `Command`: each appends its arguments to the
      argument vector when its option is set. */
  method AppendOptionArgs(cmdline: seq<string>, opts: Options, formatTime: Time -> string)
    returns (args: seq<string>)
    ensures args == cmdline + TailArgs(opts) + FollowArgs(opts) + FormatArgs(opts)
                    + SinceSecondsArgs(opts) + SinceTimeArgs(opts, formatTime)
  {
    args := cmdline;
    if opts.tail > 0 {
      args := args + ["-n"];
      args := args + [Decimal(opts.tail)];
    }
    assert args == cmdline + TailArgs(opts);
    if opts.follow {
      args := args + ["-f"];
    }
    assert args == cmdline + TailArgs(opts) + FollowArgs(opts);
    if !opts.timestamps {
      args := args + ["-o"];
      args := args + ["cat"];
    } else {
      args := args + ["-o"];
      args := args + ["short-full"];
    }
    assert args == cmdline + TailArgs(opts) + FollowArgs(opts) + FormatArgs(opts);
    if opts.sinceSeconds > 0 {
      args := args + ["-S"];
      args := args + ["-" + Decimal(opts.sinceSeconds) + "s"];
    }
    assert args == cmdline + TailArgs(opts) + FollowArgs(opts) + FormatArgs(opts) + SinceSecondsArgs(opts);
    if !IsZero(opts.sinceTime) {
      args := args + ["-S"];
      args := args + [formatTime(opts.sinceTime)];
    }
  }

  // ---------------------------------------------------------------------
  // What command building guarantees
  // ---------------------------------------------------------------------

  /** A known operation always gives a command. Its argument vector begins
      with the operation's template, as the table holds it, and its program
      is the template's first word, which is also the first argument. */
  lemma CommandStartsWithTemplate(op: Operation, opts: Options, service: string, formatTime: Time -> string)
    requires op in OperationToCommand
    ensures CommandOf(op, opts, service, formatTime).Ok?
    ensures Template(op) <= CommandOf(op, opts, service, formatTime).value.args
    ensures CommandOf(op, opts, service, formatTime).value.path == Template(op)[0]
         == CommandOf(op, opts, service, formatTime).value.args[0]
  {
  }

  /** Right after the template comes `-n N` when a positive tail is set,
      and `N` reads back as the tail; with no tail there is no `-n` there. */
  lemma CommandTailFlag(op: Operation, opts: Options, service: string, formatTime: Time -> string)
    requires op in OperationToCommand
    ensures var t := Template(op); var args := CommandOf(op, opts, service, formatTime).value.args;
      0 < opts.tail <= MaxInt ==> args[|t|] == "-n" && Atoi(args[|t| + 1]) == Some(opts.tail)
    ensures var t := Template(op); var args := CommandOf(op, opts, service, formatTime).value.args;
      opts.tail <= 0 ==> args[|t|] == (if opts.follow then "-f" else "-o")
  {
    if 0 < opts.tail <= MaxInt {
      AtoiDecimal(opts.tail);
    }
  }

  /** The output format is always chosen: `-o` follows the tail and follow
      flags, with `short-full` when timestamps are asked for and `cat`
      otherwise. */
  lemma CommandFormatFlag(op: Operation, opts: Options, service: string, formatTime: Time -> string)
    requires op in OperationToCommand
    ensures var n := |Template(op)| + |TailArgs(opts)| + |FollowArgs(opts)|;
      var args := CommandOf(op, opts, service, formatTime).value.args;
      args[n] == "-o" && args[n + 1] == (if opts.timestamps then "short-full" else "cat")
  {
  }

  /** A positive `sinceSeconds` becomes `-S -Ns` after the format, and the
      value without its `s` unit reads back as minus the seconds. */
  lemma CommandSinceSecondsFlag(op: Operation, opts: Options, service: string, formatTime: Time -> string)
    requires op in OperationToCommand
    requires 0 < opts.sinceSeconds <= MaxInt
    ensures var n := |Template(op)| + |TailArgs(opts)| + |FollowArgs(opts)| + 2;
      var args := CommandOf(op, opts, service, formatTime).value.args;
      args[n] == "-S" && |args[n + 1]| >= 2 && args[n + 1][|args[n + 1]| - 1] == 's'
      && Atoi(args[n + 1][..|args[n + 1]| - 1]) == Some(-opts.sinceSeconds)
  {
    var v := "-" + Decimal(opts.sinceSeconds) + "s";
    assert v[..|v| - 1] == "-" + Decimal(opts.sinceSeconds);
    AtoiDecimal(opts.sinceSeconds);
  }

  /** A service goes last: `journalctl` gets `-u SERVICE`, `systemctl` the
      bare name, and everything before it is the command without a service. */
  lemma CommandServiceLast(op: Operation, opts: Options, service: string, formatTime: Time -> string)
    requires op in OperationToCommand
    requires service != ""
    ensures CommandOf(op, opts, service, formatTime).value.args
         == CommandOf(op, opts, "", formatTime).value.args + (if op == Log then ["-u", service] else [service])
  {
  }

  /** `previous` and `limitBytes` never reach the command line. */
  lemma CommandIgnoresPreviousAndLimit(op: Operation, opts: Options, service: string, formatTime: Time -> string,
                                       previous: bool, limitBytes: int)
    ensures CommandOf(op, opts.(previous := previous, limitBytes := limitBytes), service, formatTime)
         == CommandOf(op, opts, service, formatTime)
  {
  }

  /** `list` with no options still gets the output format. */
  lemma CommandListExample(formatTime: Time -> string)
    ensures CommandOf(List, ZeroOptions, "", formatTime)
         == Ok(Cmd("systemctl", ["systemctl", "--user", "list-units", "-o", "cat"]))
  {
    assert OperationToCommand[List] == ["systemctl", "--user", "list-units"];
    assert TailArgs(ZeroOptions) == [] && FollowArgs(ZeroOptions) == [] && FormatArgs(ZeroOptions) == ["-o", "cat"];
    assert SinceSecondsArgs(ZeroOptions) == [] && SinceTimeArgs(ZeroOptions, formatTime) == [];
    assert ServiceArgs(List, "") == [];
    var t := Template(List);
    assert t + [] + [] + ["-o", "cat"] + [] + [] + [] == ["systemctl", "--user", "list-units", "-o", "cat"];
  }

  /** The last 50 lines of one unit's journal. */
  lemma CommandLogExample(formatTime: Time -> string)
    ensures CommandOf(Log, ZeroOptions.(tail := 50), "foo.service", formatTime)
         == Ok(Cmd("journalctl", ["journalctl", "--user", "-n", "50", "-o", "cat", "-u", "foo.service"]))
  {
    assert Decimal(50) == "50";
    assert OperationToCommand[Log] == ["journalctl", "--user"];
    var opts := ZeroOptions.(tail := 50);
    assert TailArgs(opts) == ["-n", "50"] && FollowArgs(opts) == [] && FormatArgs(opts) == ["-o", "cat"];
    assert SinceSecondsArgs(opts) == [] && SinceTimeArgs(opts, formatTime) == [];
    assert ServiceArgs(Log, "foo.service") == ["-u", "foo.service"];
    var t := Template(Log);
    assert t + ["-n", "50"] + [] + ["-o", "cat"] + [] + [] + ["-u", "foo.service"]
        == ["journalctl", "--user", "-n", "50", "-o", "cat", "-u", "foo.service"];
  }

  /** Starting a unit: its name follows the default output format. */
  lemma CommandStartExample(service: string, formatTime: Time -> string)
    requires service != ""
    ensures CommandOf(Start, ZeroOptions, service, formatTime)
         == Ok(Cmd(Systemctl, [Systemctl, UserFlag, "start", "-o", "cat", service]))
  {
    var t := Template(Start);
    assert t == [Systemctl, UserFlag, "start"];
    assert TailArgs(ZeroOptions) == [] && FollowArgs(ZeroOptions) == [] && FormatArgs(ZeroOptions) == ["-o", "cat"];
    assert SinceSecondsArgs(ZeroOptions) == [] && SinceTimeArgs(ZeroOptions, formatTime) == [];
    assert ServiceArgs(Start, service) == [service];
    assert t + [] + [] + ["-o", "cat"] + [] + [] + [service]
        == [Systemctl, UserFlag, "start", "-o", "cat", service];
  }
}

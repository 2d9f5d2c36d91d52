/** The request router of the `ssdd` daemon: it turns a cleaned request
    path and its query into the command to run and the way to run it, or
    into the first reason to refuse the request. */
module Handler {
  import opened Results
  import opened Strings
  import opened Systemd

  /** How the command's output reaches the client: collected and sent in
      one piece (`Run`), or streamed through a pipe while it runs (`RunPipe`). */
  datatype Mode = Captured | Streaming

  /** A request that passed every check: the command and how to run it. */
  datatype Dispatch = Dispatch(cmd: Cmd, mode: Mode)

  /** Why a request is refused, in the order the checks are made. */
  datatype RouteError =
    | TooShort(path: string)
    | TrailingSegments(path: string)
    | NotUnderS(path: string)
    | BadOption(optionError: OptionError)
    | UnknownOperation(commandError: CommandError)
    | ServiceRequired(op: Operation)

  /** The segments of a path that starts with `/`: what follows each `/`. */
  function Segments(p: string): seq<string>
  {
    Split(p, '/')[1..]
  }

  /** The path `/seg1/seg2/...` made of the given segments. */
  function PathOf(segs: seq<string>): string
  {
    Join([""] + segs, '/')
  }

  /** Segments without a `/` in them are read back from the path they make. */
  lemma SegmentsOfPath(segs: seq<string>)
    requires forall i :: 0 <= i < |segs| ==> '/' !in segs[i]
    ensures Segments(PathOf(segs)) == segs
  {
    var parts := [""] + segs;
    forall i | 0 <= i < |parts| ensures '/' !in parts[i] {
      if i > 0 {
        assert parts[i] == segs[i - 1];
      }
    }
    SplitJoin(parts, '/');
  }

  /** Whether an operation may run without naming a service. */
  predicate ServiceOptional(op: Operation)
  {
    op == Log || op == List
  }

  /** The body of `handler` up to the choice of `Run` or `RunPipe`: checks
      the path's shape, reads the operation and the optional service,
      parses the options, builds the command and enforces that every
      operation but `log` and `list` names a service. */
  function Route(p: string, q: Query, parseTime: string -> Option<Time>, formatTime: Time -> string)
    : (r: Result<Dispatch, RouteError>)
    ensures r.Ok? ==> |Segments(p)| in {2, 3} && Segments(p)[0] == "s"
    ensures r.Ok? ==> OptionsOf(q, parseTime).Ok?
    ensures r.Ok? ==> Segments(p)[1] in OperationToCommand
  {
    var pcs := Split(p, '/');
    if |pcs| == 0 then Err(TooShort(p))
    else
      var segs := pcs[1..];
      if |segs| < 2 then Err(TooShort(p))
      else if |segs| > 3 then Err(TrailingSegments(p))
      else if segs[0] != "s" then Err(NotUnderS(p))
      else
        var operation := segs[1];
        var service := if |segs| == 3 then segs[2] else "";
        match OptionsOf(q, parseTime)
        case Err(e) => Err(BadOption(e))
        case Ok(opts) =>
          match CommandOf(operation, opts, service, formatTime)
          case Err(e) => Err(UnknownOperation(e))
          case Ok(cmd) =>
            if !ServiceOptional(operation) && service == "" then Err(ServiceRequired(operation))
            else Ok(Dispatch(cmd, if opts.follow then Streaming else Captured))
  }

  /** The shape checks come first, in this order: at least two segments, at
      most three, and the first one `s`. */
  lemma RouteShape(p: string, q: Query, parseTime: string -> Option<Time>, formatTime: Time -> string)
    ensures |Segments(p)| < 2 ==> Route(p, q, parseTime, formatTime) == Err(TooShort(p))
    ensures |Segments(p)| > 3 ==> Route(p, q, parseTime, formatTime) == Err(TrailingSegments(p))
    ensures (2 <= |Segments(p)| <= 3 && Segments(p)[0] != "s")
      ==> Route(p, q, parseTime, formatTime) == Err(NotUnderS(p))
  {
  }

  /** On a well-shaped path the remaining checks come in this order: the
      options, then the operation, then the service. An unknown operation
      without a service is refused as unknown. */
  lemma RouteErrorOrder(segs: seq<string>, q: Query, parseTime: string -> Option<Time>, formatTime: Time -> string)
    requires forall i :: 0 <= i < |segs| ==> '/' !in segs[i]
    requires 2 <= |segs| <= 3 && segs[0] == "s"
    ensures OptionsOf(q, parseTime).Err?
      ==> Route(PathOf(segs), q, parseTime, formatTime) == Err(BadOption(OptionsOf(q, parseTime).error))
    ensures (OptionsOf(q, parseTime).Ok? && segs[1] !in OperationToCommand)
      ==> Route(PathOf(segs), q, parseTime, formatTime) == Err(UnknownOperation(NoCommand(segs[1])))
    ensures (OptionsOf(q, parseTime).Ok? && segs[1] in OperationToCommand && !ServiceOptional(segs[1]) && |segs| == 2)
      ==> Route(PathOf(segs), q, parseTime, formatTime) == Err(ServiceRequired(segs[1]))
  {
    SegmentsOfPath(segs);
  }

  /** The operation is the second segment and the service the third, if
      any; a request is accepted exactly when the options parse, the
      operation is known, and it names a non-empty service unless it is
      `log` or `list`. The command is the one built from them, and it is
      streamed exactly when `follow` is set. */
  lemma RouteAccepts(segs: seq<string>, q: Query, parseTime: string -> Option<Time>, formatTime: Time -> string)
    requires forall i :: 0 <= i < |segs| ==> '/' !in segs[i]
    requires 2 <= |segs| <= 3 && segs[0] == "s"
    ensures var service := if |segs| == 3 then segs[2] else "";
      Route(PathOf(segs), q, parseTime, formatTime).Ok?
      <==> OptionsOf(q, parseTime).Ok? && segs[1] in OperationToCommand
           && (ServiceOptional(segs[1]) || service != "")
    ensures var service := if |segs| == 3 then segs[2] else "";
      Route(PathOf(segs), q, parseTime, formatTime).Ok?
      ==> Route(PathOf(segs), q, parseTime, formatTime).value
          == Dispatch(CommandOf(segs[1], OptionsOf(q, parseTime).value, service, formatTime).value,
                      if OptionsOf(q, parseTime).value.follow then Streaming else Captured)
  {
    SegmentsOfPath(segs);
  }

  lemma PathOfTwo(a: string, b: string)
    ensures PathOf([a, b]) == "/" + a + "/" + b
  {
    assert [""] + [a, b] == ["", a, b];
    assert Join([b], '/') == b;
    assert Join([a, b], '/') == a + "/" + b by {
      assert [a, b][1..] == [b];
    }
    assert Join(["", a, b], '/') == "" + "/" + (a + "/" + b) by {
      assert ["", a, b][1..] == [a, b];
    }
  }

  lemma PathOfThree(a: string, b: string, c: string)
    ensures PathOf([a, b, c]) == "/" + a + "/" + b + "/" + c
  {
    assert [""] + [a, b, c] == ["", a, b, c];
    assert Join([c], '/') == c;
    assert Join([b, c], '/') == b + "/" + c by {
      assert [b, c][1..] == [c];
    }
    assert Join([a, b, c], '/') == a + "/" + (b + "/" + c) by {
      assert [a, b, c][1..] == [b, c];
    }
    assert Join(["", a, b, c], '/') == "" + "/" + (a + "/" + (b + "/" + c)) by {
      assert ["", a, b, c][1..] == [a, b, c];
    }
  }

  /** `GET /s/list` lists the units with the default output format. */
  lemma RouteListExample(parseTime: string -> Option<Time>, formatTime: Time -> string)
    ensures Route("/s/list", map[], parseTime, formatTime)
         == Ok(Dispatch(Cmd("systemctl", ["systemctl", "--user", "list-units", "-o", "cat"]), Captured))
  {
    OptionsOfUnset(map[], parseTime);
    CommandListExample(formatTime);
    PathOfTwo("s", "list");
    assert "/" + "s" + "/" + "list" == "/s/list";
    assert "list" in OperationToCommand && ServiceOptional("list");
    RouteAccepts(["s", "list"], map[], parseTime, formatTime);
  }

  /** `GET /s/start` is refused for want of a service. */
  lemma RouteStartWithoutService(parseTime: string -> Option<Time>, formatTime: Time -> string)
    ensures Route("/s/start", map[], parseTime, formatTime) == Err(ServiceRequired("start"))
  {
    OptionsOfUnset(map[], parseTime);
    PathOfTwo("s", "start");
    assert "/" + "s" + "/" + "start" == "/s/start";
    assert "start" in OperationToCommand && !ServiceOptional("start");
    RouteErrorOrder(["s", "start"], map[], parseTime, formatTime);
  }

  /** `GET /s/start/SERVICE` starts that unit: the service is the last
      argument, after the default output format. */
  lemma RouteStartExample(service: string, parseTime: string -> Option<Time>, formatTime: Time -> string)
    requires service != "" && '/' !in service
    ensures Route(PathOf(["s", "start", service]), map[], parseTime, formatTime)
         == Ok(Dispatch(Cmd(Systemctl, [Systemctl, UserFlag, "start", "-o", "cat", service]), Captured))
  {
    OptionsOfUnset(map[], parseTime);
    assert "start" in OperationToCommand;
    RouteAccepts(["s", "start", service], map[], parseTime, formatTime);
    CommandStartExample(service, formatTime);
  }
}

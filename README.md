# ssd: request routing and command building, in Dafny

`ssdd` is a small HTTP daemon. It lets an allow-listed user run a fixed
set of `systemctl --user` and `journalctl --user` commands through URLs of
the form `/s/<operation>[/<service>]?<options>`. This project models the
daemon's decision logic and proves properties of it:

- **`Systemd`** (`systemd.dfy`) covers `pkg/systemd/operation.go`:
  - the operation names;
  - the read-only table from operation to command template;
  - the `Options` record;
  - `ParseOptions`, which reads seven query keys in a fixed order and stops at the first bad value;
  - `Command`, which copies the template and appends arguments in a fixed order.

  Both operations are methods that fill in their result step by step, as the Go code does. Each is proved equal to a specification function: `OptionsOf` for `ParseOptions`, and `CommandOf` for `Command`. The lemmas beside them state what the daemon relies on.
- **`Handler`** (`handler.dfy`) covers the body of `handler` in `cmd/ssdd/hander.go` up to the point where the command is started. `Route` is a pure function that returns either the command with its mode (captured or streamed) or the first reason to refuse the request. It does the following, in order:
  1. splits the path into segments;
  2. checks the path's shape;
  3. takes the operation and the optional service;
  4. parses the options;
  5. builds the command;
  6. enforces the service-required rule.
- **`Authz`** (`authz.dfy`) covers `IsAllowed` in `pkg/authz/authz.go`. It is a method that scans the lines of the user file with an early exit. The file is given as what opening and scanning it produced.
- **`Strconv`** and **`Strings`** (`strconv.dfy`, `strings.dfy`) stand in for the Go library functions the core calls:
  - from `strconv`: `Atoi`, `ParseBool` and `%d` formatting;
  - from `strings`: `Split` and `Join`;
  - from `bufio`: the `ScanLines` line splitting.

  `Results` (`results.dfy`) holds the `Option` and `Result` types.

Three modelling choices:

- Go's `int` is taken to be 64 bits wide. `Atoi` refuses values outside `[-2^63, 2^63-1]`.
- `time.Parse` and `Time.Format` with the RFC 3339 layout are parameters (`parseTime`, `formatTime`). `Time` is a value whose zero is `time.Time{}`.
- An error value names what went wrong as data, rather than Go's message text. For example, an option error carries the key and the reason.

## Model

| member | source | states |
|---|---|---|
| `Strconv.Decimal` | pkg/systemd/operation.go:126 | `%d` of a non-negative int is a non-empty run of digits without a leading zero (except for 0 itself) |
| `Strconv.Atoi` | pkg/systemd/operation.go:63 | `strconv.Atoi` succeeds only on non-empty text, and only with a value that fits a 64-bit int |
| `Strconv.DecimalValue` | pkg/systemd/operation.go:126 | the digits `%d` writes read back as the number |
| `Strconv.AtoiDecimal` | pkg/systemd/operation.go:140 | `Atoi` inverts `%d` on every int from 0 to 2^63-1 and on its negation (`-N`) |
| `Strings.Split` | cmd/ssdd/hander.go:16 | `strings.Split` gives at least one piece, and no piece contains the separator |
| `Strings.JoinSplit` | cmd/ssdd/hander.go:16 | joining the pieces of a split gives back the original string |
| `Strings.SplitJoin` | cmd/ssdd/hander.go:16 | splitting a join of separator-free pieces gives back those pieces |
| `Strings.ScanLines` | pkg/authz/authz.go:17-18 | no line the scanner yields contains a newline |
| `Strings.ScanTerminatedLines` | pkg/authz/authz_test.go:10 | a file of newline-terminated lines scans back into exactly those lines |
| `Systemd.Template` | pkg/systemd/operation.go:21-30 | every template runs as the user (`--user` second); only `log` runs `journalctl`, every other operation `systemctl` with a subcommand |
| `Systemd.FirstProblem` | pkg/systemd/operation.go:62-106 | the position of the first recognised key, in checking order, whose value is wrong: all keys before it pass |
| `Systemd.ParseOptions` | pkg/systemd/operation.go:57-109 | filling the options key by key with early returns gives exactly `OptionsOf`: the first wrong key's error, or every field read from its key |
| `Systemd.ReadInt` | pkg/systemd/operation.go:62-94 | an integer key fails exactly when its value is set and wrong; unset reads as 0, otherwise the `Atoi` value |
| `Systemd.ReadBool` | pkg/systemd/operation.go:71-106 | a boolean key fails exactly when its value is set and not a `ParseBool` spelling; unset reads as false |
| `Systemd.ReadTime` | pkg/systemd/operation.go:95-100 | `sinceTime` fails exactly when it is set and does not parse; unset reads as the zero time |
| `Systemd.OptionsOfByKey` | pkg/systemd/operation.go:62-108 | case by case in key order: the first wrong key decides the error; with none wrong, each field comes from its own key |
| `Systemd.OptionsOfUnset` | pkg/systemd/operation.go:57-109 | a query with no recognised key set (or all set to "") yields the zero `Options` and no error |
| `Systemd.OptionsOfIgnoresOtherKeys` | pkg/systemd/operation.go:57-109 | queries that agree on the seven recognised keys give the same result: other keys are ignored |
| `Systemd.OptionsOfFirstError` | pkg/systemd/operation.go:62-106 | parsing succeeds iff no recognised key is wrong; a failure names a wrong key with every earlier key passing |
| `Systemd.TailChecked` | pkg/systemd/operation.go:62-70 | a parsed tail is never negative; a non-integer or negative `tailLines` is the error, before any other key |
| `Systemd.ValueChecks` | pkg/systemd/operation.go:62-106 | per key, what is accepted: `limitBytes`/`sinceSeconds` any int, `tailLines` ints from 0 up, booleans exactly the twelve `ParseBool` spellings |
| `Systemd.NegativeCountAccepted` | pkg/systemd/operation.go:77-94 | a negative `limitBytes` or `sinceSeconds` passes and is read as written |
| `Systemd.NegativeTailRejected` | pkg/systemd/operation.go:67-69 | a negative `tailLines` gives the negative-tail error whatever the other keys hold |
| `Systemd.Command` | pkg/systemd/operation.go:111-155 | an operation missing from the table is an error with no command; otherwise the argv is the template, then the option arguments, then the service arguments (`CommandOf`) |
| `Systemd.AppendOptionArgs` | pkg/systemd/operation.go:124-145 | the option blocks append `-n N`, `-f`, `-o FORMAT`, `-S -Ns`, `-S TIME` in this order, each only under its condition |
| `Systemd.CommandStartsWithTemplate` | pkg/systemd/operation.go:113-122 | a known operation always gives a command whose argv starts with the unchanged template and whose program is the template's first word |
| `Systemd.CommandTailFlag` | pkg/systemd/operation.go:124-127 | a positive tail puts `-n N` right after the template with `N` reading back as the tail; otherwise `-f` or `-o` comes there |
| `Systemd.CommandFormatFlag` | pkg/systemd/operation.go:131-137 | `-o` is always present, after the tail and follow flags, with `short-full` iff timestamps are asked for and `cat` otherwise |
| `Systemd.CommandSinceSecondsFlag` | pkg/systemd/operation.go:138-141 | a positive `sinceSeconds` gives `-S -Ns` after the format, whose number reads back as minus the seconds |
| `Systemd.CommandServiceLast` | pkg/systemd/operation.go:147-152 | a non-empty service goes last: `-u SERVICE` for `log`, the bare name otherwise, after the argv built without a service |
| `Systemd.CommandIgnoresPreviousAndLimit` | pkg/systemd/operation.go:124-152 | `previous` and `limitBytes` never affect the command |
| `Systemd.CommandListExample` | pkg/systemd/operation.go:111-155 | `list` with zero options gives `systemctl --user list-units -o cat` |
| `Systemd.CommandLogExample` | pkg/systemd/operation.go:111-155 | `log` with tail 50 and `foo.service` gives `journalctl --user -n 50 -o cat -u foo.service` |
| `Systemd.CommandStartExample` | pkg/systemd/operation.go:111-155 | `start` with zero options and a service gives `systemctl --user start -o cat SERVICE` |
| `Handler.SegmentsOfPath` | cmd/ssdd/hander.go:16-21 | the segments read from `/a/b/...` are `a, b, ...` when none contains `/` |
| `Handler.Route` | cmd/ssdd/hander.go:15-65 | an accepted request has 2 or 3 segments starting with `s`, options that parse, and an operation from the table |
| `Handler.RouteShape` | cmd/ssdd/hander.go:20-31 | the shape errors come first, in order: fewer than 2 segments, more than 3, first segment not `s` |
| `Handler.RouteErrorOrder` | cmd/ssdd/hander.go:38-56 | on a well-shaped path: a bad option is reported before an unknown operation, which comes before a missing service |
| `Handler.RouteAccepts` | cmd/ssdd/hander.go:32-65 | a request is accepted iff the options parse, the operation is known and a service is named unless the operation is `log` or `list`; the command is built from the 2nd and 3rd segments and streamed iff `follow` is set |
| `Handler.RouteListExample` | cmd/ssdd/hander.go:15-61 | `/s/list` without options runs `systemctl --user list-units -o cat`, captured |
| `Handler.RouteStartWithoutService` | cmd/ssdd/hander.go:47-56 | `/s/start` is refused because `start` needs a service |
| `Handler.RouteStartExample` | cmd/ssdd/hander.go:32-61 | `/s/start/SERVICE` runs `systemctl --user start -o cat SERVICE`, captured |
| `Authz.IsAllowed` | pkg/authz/authz.go:10-24 | an open failure gives `(false, err)`; otherwise allowed iff some whole line equals the user, with no error; the scan stops at the first match; with no match the scanner's error (or none) is returned |
| `Authz.TwoUserFileLines` | pkg/authz/authz_test.go:10 | the test's file contents `aaa\nbbb\n` scan into the lines `aaa`, `bbb` |
| `Authz.TwoUserFileAllows` | pkg/authz/authz_test.go:9-30 | with that file `aaa` is allowed and `ccc` is not, and neither is `aa` nor `aaab` |

## Left out

- `Run` and `RunPipe` (pkg/systemd/operation.go:159-193): they start the child process, collect or pipe its output and kill it. This is operating-system process I/O. `Route` stops at choosing between them (`Mode`).
- cmd/ssdd/hander.go lines 65-88: the streaming goroutine, its channels and the request-context cancellation are concurrency. Line 57 is only logging.
- `path.Clean` (cmd/ssdd/hander.go:15): `Route` takes the already-cleaned path.
- `fmt.Printf` debugging output (pkg/systemd/operation.go:58, 112) is not modelled.
- `time.Parse` and `Time.Format` with the RFC 3339 layout are parameters, not re-implemented. `Time` is an abstract value with `IsZero`.
- `exec.Command` looks the program up on `PATH`. The model keeps the name as given.
- `AppendOptionArgs`: in Go the option appends sit inline in `Command`. Here they are a method of their own, which `Command` calls, so that each proof stays small. The appends themselves are the same, one word at a time.
- `ParseOptions`: on an error Go also returns the partly filled `Options`. The model returns only the error, because the only caller discards the partial value.
- `Atoi`: Go's syntax and range errors are one failure here. Error message text is not modelled anywhere; errors carry the key and the reason instead.
- `IsAllowed`: the user file is given as the outcome of opening it and the lines the scanner produced before it stopped. The following are not modelled:
  - `bufio.Scanner`'s 64 KiB line limit, which would end the scan with an error;
  - the reading of the file itself.

  `examined` is a ghost count of the lines looked at.
- pkg/systemd/journalctl.go, pkg/systemd/log.go, pkg/systemd/wait.go and cmd/ssdd/main.go are not part of this model. They cover process plumbing, an HTTP handler in another package, a wall-clock retry loop, and server setup with authentication.

# EchoEcho start-up logic in Dafny

EchoEcho is a small echo service. It reads a JSON configuration listing
`{port, protocol}` pairs. For each valid pair it opens a TCP listener or a
UDP socket, and each of those echoes back whatever bytes a peer sends. This
project models the part of the program that decides what to open at start-up:

- `load_config` (module `Config`, file `config.dfy`) takes the decoded JSON
  document, or the way reading it failed. It keeps the document only when it
  is a dict whose `"ports"` value is a list. Every other outcome yields no
  configuration, together with the diagnostic the program prints.
- `start_servers` (module `Servers`, file `servers.dfy`) is a method with the
  program's loop. It walks the `"ports"` list in order. It skips and warns on
  entries without an int `port` or without a `TCP`/`UDP` protocol (matched in
  any case). It makes one bind attempt per valid entry and reports each
  refused bind without stopping. Binding is done by the operating system
  through the Twisted reactor, so the model takes it as a parameter: a
  `Binder` says whether a bind request is refused, given the listeners this
  process has already opened.
- The module `Dispatch` (file `dispatch.dfy`) gives the meaning of the loop.
  `Classify` judges one entry. `Run` gives the trace the loop leaves after
  any prefix of the list: attempts, started listeners, printed events, and
  whether an entry raised. Reference definitions (`Requests`, `Rejected`,
  `Granted`, `Reports`, `FirstCrash`, `Kept`) give the intended outcome independently,
  and lemmas connect the two.
- `Json` (file `json.dfy`) is the decoded document: Python's `json` module
  output, with objects as maps. `Wrappers` (file `wrappers.dfy`) holds the
  `Option` type.

Behaviour of the code that a reader of its messages might not expect, as the model keeps it:

- There is no port-range check. Any int is attempted. A negative port or
  one above 65535 makes the bind raise `OverflowError`, which the `except`
  at echoecho.py:89 reports as a failed start. Port 0 is not refused: the
  operating system binds it to a free port of its own choosing, so a port-0
  entry is reported as started, and so is a second one. The binder
  hypothesis `RefusesInUse` therefore exempts port 0.
- Python's `isinstance(port, int)` accepts booleans. `true` is attempted as
  port 1 and `false` as port 0.
- An entry that is not a dict, or whose `"protocol"` is present but not a
  string, raises `AttributeError` at echoecho.py:75-76. That line is before
  the `try`, so the exception leaves `start_servers`. The model reports this
  as `crashed`, and no later entry is processed. So a malformed entry is not
  always a non-fatal skip. This holds even when the same entry's `port` is
  also invalid.
- A document that is a list or a string still goes through the
  `'ports' in config` test. For a list, that test looks for an element equal
  to `"ports"`. For a string, it looks for a substring. When the test
  passes, `config['ports']` raises `TypeError`, and the catch-all branch
  reports it. Numbers, booleans and null make the `in` test itself raise.
  All of these yield no configuration, but the diagnostic differs.

## Model

| member | source | states |
|---|---|---|
| Config.LoadConfig | echoecho.py:51-67 | a configuration is returned exactly when the decoded document is a dict whose `ports` is a list, and it is that dict unchanged (and non-empty, so `not config` is false); a missing file, invalid JSON and any other read error each give no configuration with their own diagnostic, and a dict without a list `ports` gives the "ports missing" one; a list document gives the catch-all diagnostic exactly when it has the element `"ports"` (else "ports missing"), a string document exactly when it contains `ports` (else "ports missing"), and a number, boolean or null always the catch-all one |
| Config.SubstringTest | echoecho.py:55 | the `in` test on a string document holds exactly when `ports` occurs at some position of the string |
| Dispatch.ProtocolIgnoresCase | echoecho.py:76-77 | the protocol is TCP exactly for the eight case variants of `tcp` and UDP exactly for those of `udp`; every other string, including the default `''`, is rejected |
| Dispatch.AcceptedEntries | echoecho.py:75-79 | an entry is bound to `(protocol, port)` exactly when it is a dict holding an int (or bool) `port` and a string `protocol` naming TCP or UDP in any case; a missing `port` or `protocol` means the entry is not bound: it is skipped, unless its `protocol` is present and not a string, in which case it raises (see `Dispatch.CrashingEntries`) |
| Dispatch.CrashingEntries | echoecho.py:75-76 | the loop raises on an entry exactly when the entry is not a dict, or its `protocol` is present and not a string |
| Dispatch.CrashIsFinal | echoecho.py:74-79 | once an entry has raised, the later entries change nothing |
| Dispatch.RunCrashes | echoecho.py:74-79 | the loop raises exactly when some entry of the list makes it raise |
| Dispatch.RunAttempts | echoecho.py:74-88 | the bind attempts are exactly the valid entries before the first raising entry, in list order, one per entry, each of its own protocol and port |
| Dispatch.RunWarnings | echoecho.py:77-79 | the warnings name exactly the skipped entries before the first raising entry, in list order |
| Dispatch.RunBindsInOrder | echoecho.py:80-91 | every bind attempt gets exactly one report naming its listener, in attempt order (which label it gets is stated by `RunReports`); the started listeners are exactly the attempts the binder grants when asked one after the other |
| Dispatch.RunReports | echoecho.py:80-91 | each attempt is reported as started exactly when the binder grants it, given the listeners granted before it, and as failed otherwise, in attempt order; the Started events name exactly the started listeners |
| Dispatch.ReportAt | echoecho.py:80-91 | the report of the i-th attempt is a failure exactly when the binder refuses that attempt given what the earlier attempts were granted, and a start otherwise |
| Dispatch.AttemptsIgnoreBindFailures | echoecho.py:80-91 | a refused bind never changes what else is attempted: the attempts, the warnings and whether the loop raises are the same for every binder |
| Dispatch.SkippedEntriesAreInert | echoecho.py:77-79 | skipping does not abort: removing every skipped entry from the list leaves the attempts, the started listeners and the crash unchanged |
| Dispatch.GrantedDistinct | echoecho.py:80-88 | when the system refuses a listener that is already open (on a port other than 0), no listener on a fixed port is started twice |
| Dispatch.DuplicateEntry | echoecho.py:74-88 | there is no de-duplication: an entry listed twice gives two bind attempts; with an address-in-use refusal on a port other than 0 the second is reported as failed, and when the binder grants both (as for port 0) both are reported as started |
| Dispatch.BindSkipBind | echoecho.py:74-91 | for a valid entry, a skipped one and another valid one, whatever the binder answers: both valid entries are attempted in order, the middle one is warned about, and the second is started exactly when its own bind is granted, even if the first bind was refused |
| Dispatch.PartialValidity | echoecho.py:74-91 | for the list TCP 9000 (lower case), a string port, UDP 9001: the middle entry is warned about and skipped, both others are attempted, and a refused TCP 9000 still lets UDP 9001 start |
| Servers.StartServers | echoecho.py:69-91 | with no configuration nothing is attempted or started and only the loader's diagnostic is printed; otherwise the loop's results equal the trace `Run` of the `ports` list, so the attempts, warnings, started listeners and crash are those stated by the lemmas above, and each attempt is reported as started when granted and as failed when refused |

## Left out

- Logging set-up with its fallback to console-only output (echoecho.py:8-23): library configuration and I/O.
- The `TCPEcho` and `UDPEcho` handlers (echoecho.py:25-49): they only pass bytes from the transport back to the transport. Connection and datagram handling belongs to Twisted and is outside the model.
- Opening the file and decoding JSON (echoecho.py:53-54): I/O and the standard library's parser. Their result is the input `Read`. The file name `config.json` is not modelled.
- `reactor.listenTCP` and `reactor.listenUDP` (echoecho.py:84, 87): operating-system binds. They appear as the `Binder` parameter, which may depend on the listeners already opened. The server factory and the `UDPEcho` instance they receive are not modelled. The binder answers from the request and the listeners this process has opened, and nothing else, so a port that another process frees or takes during start-up cannot be represented: a request refused once is refused again while the same listeners are open.
- `reactor.run()` and the `__main__` block (echoecho.py:93-97): the event loop and its concurrency. After a crash, the traceback and the end of the process are summarised by the `crashed` flag.
- The text of printed messages and exception strings: modelled as tagged events (`ConfigFailed`, `Invalid`, `Started`, `BindFailed`).
- A failing `print` after a successful bind: it would send the loop into the `except` branch. Output is assumed to succeed.
- Dispatch.Upper: models `str.upper()` for ASCII letters only. Python's full Unicode mapping (for example `ß` to `SS`) is not modelled. The few non-ASCII characters that upper-case to ASCII letters (`ı`, `ſ` and some ligatures) cannot spell `TCP` or `UDP`.
- JSON numbers that Python decodes as `float` (including `NaN` and `Infinity`) are all treated alike, since none passes `isinstance(port, int)`. The real payload does not represent `NaN` or the infinities.

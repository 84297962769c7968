/** What `start_servers` in echoecho.py does with each entry of the "ports"
    list, stated as functions over the list: how one entry is judged, the
    trace the loop leaves behind, and the properties of that trace. */
module Dispatch {
  import opened Wrappers
  import opened Json
  import opened Config

  datatype Protocol = TCP | UDP

  /** One bind request: `reactor.listenTCP(port, ...)` or `reactor.listenUDP(port, ...)`. */
  datatype Listener = Listener(protocol: Protocol, port: int)

  /** What the loop does with one entry: raise out of the loop (the lookups
      before the `try` fail), skip it with a warning, or try to bind. */
  datatype Verdict = Crash | Skip | Bind(listener: Listener)

  /** A line printed by `start_servers`, as a tagged event. */
  datatype Event =
    | ConfigFailed(error: ConfigError)   // printed by load_config
    | Invalid(entry: Json)               // "[WARNING] Invalid port config: ... Skipping."
    | Started(listener: Listener)        // "Started TCP/UDP server on port ..."
    | BindFailed(listener: Listener)     // "Failed to start TCP/UDP server on port ...: ..."

  /** The operating system's answer to a bind request, given the listeners
      this process has already opened: true when the bind is refused. */
  type Binder = (Listener, seq<Listener>) -> bool

  /** A binder that refuses a listener which is already open (address in
      use). Port 0 is exempt: the operating system binds it to a free port
      of its own choosing, so a second port-0 listener is granted too. */
  ghost predicate RefusesInUse(refuses: Binder) {
    forall l: Listener, held :: l.port != 0 && l in held ==> refuses(l, held)
  }

  /** `str.upper()` on one character, for the ASCII letters. */
  function UpperChar(c: char): char {
    if 'a' <= c <= 'z' then (c as int - 32) as char else c
  }

  function Upper(s: string): (u: string)
    ensures |u| == |s|
    ensures forall i :: 0 <= i < |s| ==> u[i] == UpperChar(s[i])
  {
    if s == [] then [] else [UpperChar(s[0])] + Upper(s[1..])
  }

  /** `protocol_type in ('TCP', 'UDP')` after `.upper()`. */
  function ProtocolOf(name: string): Option<Protocol> {
    var u := Upper(name);
    if u == "TCP" then Some(TCP) else if u == "UDP" then Some(UDP) else None
  }

  /** `isinstance(port, int)`: Python's bool is an int, True being 1. */
  function PortOf(v: Json): Option<int> {
    match v
    case Int(n) => Some(n)
    case Bool(b) => Some(if b then 1 else 0)
    case _ => None
  }

  /** `dict.get(key, default)`. */
  function Get(fields: map<string, Json>, key: string, default: Json): Json {
    if key in fields then fields[key] else default
  }

  /** Lines 75-79 for one entry: `.get` on a non-dict and `.upper()` on a
      non-string raise; a non-int port or an unknown protocol is skipped. */
  function Classify(entry: Json): Verdict {
    match entry
    case Object(fields) =>
      var port := Get(fields, "port", Null);
      var protocol := Get(fields, "protocol", Str(""));
      if !protocol.Str? then Crash
      else
        var n := PortOf(port);
        var p := ProtocolOf(protocol.s);
        if n.None? || p.None? then Skip else Bind(Listener(p.value, n.value))
    case _ => Crash
  }

  /** What the loop has done after some prefix of the entries. */
  datatype Trace = Trace(attempts: seq<Listener>, started: seq<Listener>, events: seq<Event>, crashed: bool)

  /** One iteration of the loop. Once an entry has raised, nothing more happens. */
  function Step(t: Trace, entry: Json, refuses: Binder): Trace {
    if t.crashed then t
    else match Classify(entry)
      case Crash => t.(crashed := true)
      case Skip => t.(events := t.events + [Invalid(entry)])
      case Bind(l) =>
        if refuses(l, t.started) then
          t.(attempts := t.attempts + [l], events := t.events + [BindFailed(l)])
        else
          t.(attempts := t.attempts + [l], started := t.started + [l], events := t.events + [Started(l)])
  }

  /** The loop over the entries, in list order. */
  function Run(entries: seq<Json>, refuses: Binder): Trace
    decreases |entries|
  {
    if entries == [] then Trace([], [], [], false)
    else Step(Run(entries[..|entries| - 1], refuses), entries[|entries| - 1], refuses)
  }

  // ---------------------------------------------------------------------
  // Reference definitions the trace is compared with.

  /** The position of the first entry that raises, or the length if none does. */
  function FirstCrash(entries: seq<Json>): (k: nat)
    ensures k <= |entries|
    ensures forall j :: 0 <= j < k ==> !Classify(entries[j]).Crash?
    ensures k < |entries| ==> Classify(entries[k]).Crash?
    decreases |entries|
  {
    if entries == [] then 0
    else
      var k := FirstCrash(entries[..|entries| - 1]);
      if k < |entries| - 1 then k
      else if Classify(entries[|entries| - 1]).Crash? then |entries| - 1
      else |entries|
  }

  /** The valid entries' bind requests, in list order, one per entry. */
  function Requests(entries: seq<Json>): seq<Listener>
    decreases |entries|
  {
    if entries == [] then []
    else
      Requests(entries[..|entries| - 1]) +
      match Classify(entries[|entries| - 1]) case Bind(l) => [l] case _ => []
  }

  /** The entries that are skipped, in list order. */
  function Rejected(entries: seq<Json>): seq<Json>
    decreases |entries|
  {
    if entries == [] then []
    else
      Rejected(entries[..|entries| - 1]) +
      if Classify(entries[|entries| - 1]).Skip? then [entries[|entries| - 1]] else []
  }

  /** The entries with every skipped one removed. */
  function Kept(entries: seq<Json>): seq<Json>
    decreases |entries|
  {
    if entries == [] then []
    else
      Kept(entries[..|entries| - 1]) +
      if Classify(entries[|entries| - 1]).Skip? then [] else [entries[|entries| - 1]]
  }

  /** The requests the binder grants when they are made one after the other. */
  function Granted(requests: seq<Listener>, refuses: Binder): (g: seq<Listener>)
    ensures |g| <= |requests|
    ensures forall l :: l in g ==> l in requests
    decreases |requests|
  {
    if requests == [] then []
    else
      var held := Granted(requests[..|requests| - 1], refuses);
      var l := requests[|requests| - 1];
      if refuses(l, held) then held else held + [l]
  }

  /** The listeners named by the Started and BindFailed events, in order. */
  function Outcomes(events: seq<Event>): seq<Listener>
    decreases |events|
  {
    if events == [] then []
    else
      Outcomes(events[..|events| - 1]) +
      match events[|events| - 1]
      case Started(l) => [l]
      case BindFailed(l) => [l]
      case _ => []
  }

  /** The Started and BindFailed events, in order, with every other event dropped. */
  function BindReports(events: seq<Event>): seq<Event>
    decreases |events|
  {
    if events == [] then []
    else
      BindReports(events[..|events| - 1]) +
      if events[|events| - 1].Started? || events[|events| - 1].BindFailed? then [events[|events| - 1]] else []
  }

  /** The listeners named by the Started events, in order. */
  function Starts(events: seq<Event>): seq<Listener>
    decreases |events|
  {
    if events == [] then []
    else
      Starts(events[..|events| - 1]) +
      match events[|events| - 1] case Started(l) => [l] case _ => []
  }

  /** How each request should be reported when the requests are made one
      after the other: started when the binder grants it given what was
      granted before it, failed otherwise. */
  function Reports(requests: seq<Listener>, refuses: Binder): (r: seq<Event>)
    ensures |r| == |requests|
    decreases |requests|
  {
    if requests == [] then []
    else
      var l := requests[|requests| - 1];
      Reports(requests[..|requests| - 1], refuses) +
      if refuses(l, Granted(requests[..|requests| - 1], refuses)) then [BindFailed(l)] else [Started(l)]
  }

  /** The entries named by the Invalid warnings, in order. */
  function Warnings(events: seq<Event>): seq<Json>
    decreases |events|
  {
    if events == [] then []
    else
      Warnings(events[..|events| - 1]) +
      match events[|events| - 1] case Invalid(e) => [e] case _ => []
  }

  // ---------------------------------------------------------------------
  // Entry judgement.

  /** Only `TCP` and `UDP`, in any mix of upper and lower case, are accepted. */
  lemma ProtocolIgnoresCase(name: string)
    ensures ProtocolOf(name) == Some(TCP) <==>
              |name| == 3 && name[0] in "tT" && name[1] in "cC" && name[2] in "pP"
    ensures ProtocolOf(name) == Some(UDP) <==>
              |name| == 3 && name[0] in "uU" && name[1] in "dD" && name[2] in "pP"
  {
    var u := Upper(name);
    if |name| == 3 {
      assert u == [UpperChar(name[0]), UpperChar(name[1]), UpperChar(name[2])];
    }
  }

  /** An entry is bound exactly when it is a dict with an int "port" and a
      string "protocol" naming TCP or UDP; a missing "protocol" defaults to
      the empty string and is never accepted. */
  lemma AcceptedEntries(entry: Json, l: Listener)
    ensures Classify(entry) == Bind(l) <==>
              entry.Object? && "port" in entry.fields && "protocol" in entry.fields &&
              PortOf(entry.fields["port"]) == Some(l.port) &&
              entry.fields["protocol"].Str? &&
              ProtocolOf(entry.fields["protocol"].s) == Some(l.protocol)
  {
    if entry.Object? && "protocol" !in entry.fields {
      assert Upper("") == "";
    }
  }

  /** The loop raises on an entry exactly when it is not a dict, or its
      "protocol" is present but not a string, whatever its "port" is. */
  lemma CrashingEntries(entry: Json)
    ensures Classify(entry).Crash? <==>
              !entry.Object? || ("protocol" in entry.fields && !entry.fields["protocol"].Str?)
  {
  }

  // ---------------------------------------------------------------------
  // The trace.

  lemma {:induction false} CrashIsFinal(entries: seq<Json>, k: nat, refuses: Binder)
    requires k <= |entries|
    requires Run(entries[..k], refuses).crashed
    ensures Run(entries, refuses) == Run(entries[..k], refuses)
    decreases |entries|
  {
    if k < |entries| {
      var p := entries[..|entries| - 1];
      assert p[..k] == entries[..k];
      CrashIsFinal(p, k, refuses);
    } else {
      assert entries[..k] == entries;
    }
  }

  // One more entry, one more event, one more request: each definition
  // unfolded once at the end of its sequence.

  lemma RunSnoc(p: seq<Json>, e: Json, refuses: Binder)
    ensures Run(p + [e], refuses) == Step(Run(p, refuses), e, refuses)
  {
    assert (p + [e])[..|p|] == p;
  }

  lemma FirstCrashSnoc(p: seq<Json>, e: Json)
    ensures FirstCrash(p + [e]) ==
              if FirstCrash(p) < |p| then FirstCrash(p)
              else if Classify(e).Crash? then |p| else |p| + 1
  {
    assert (p + [e])[..|p|] == p;
  }

  lemma RequestsSnoc(p: seq<Json>, e: Json)
    ensures Requests(p + [e]) == Requests(p) + match Classify(e) case Bind(l) => [l] case _ => []
  {
    assert (p + [e])[..|p|] == p;
  }

  lemma RejectedSnoc(p: seq<Json>, e: Json)
    ensures Rejected(p + [e]) == Rejected(p) + if Classify(e).Skip? then [e] else []
  {
    assert (p + [e])[..|p|] == p;
  }

  lemma OutcomesSnoc(events: seq<Event>, x: Event)
    ensures Outcomes(events + [x]) ==
              Outcomes(events) + match x case Started(l) => [l] case BindFailed(l) => [l] case _ => []
  {
    assert (events + [x])[..|events|] == events;
  }

  lemma WarningsSnoc(events: seq<Event>, x: Event)
    ensures Warnings(events + [x]) == Warnings(events) + match x case Invalid(e) => [e] case _ => []
  {
    assert (events + [x])[..|events|] == events;
  }

  lemma BindReportsSnoc(events: seq<Event>, x: Event)
    ensures BindReports(events + [x]) ==
              BindReports(events) + if x.Started? || x.BindFailed? then [x] else []
  {
    assert (events + [x])[..|events|] == events;
  }

  lemma StartsSnoc(events: seq<Event>, x: Event)
    ensures Starts(events + [x]) == Starts(events) + match x case Started(l) => [l] case _ => []
  {
    assert (events + [x])[..|events|] == events;
  }

  lemma ReportsSnoc(requests: seq<Listener>, l: Listener, refuses: Binder)
    ensures Reports(requests + [l], refuses) ==
              Reports(requests, refuses) +
              if refuses(l, Granted(requests, refuses)) then [BindFailed(l)] else [Started(l)]
  {
    assert (requests + [l])[..|requests|] == requests;
  }

  lemma GrantedSnoc(requests: seq<Listener>, l: Listener, refuses: Binder)
    ensures Granted(requests + [l], refuses) ==
              var held := Granted(requests, refuses);
              if refuses(l, held) then held else held + [l]
  {
    assert (requests + [l])[..|requests|] == requests;
  }

  /** The loop raises exactly when some entry does. */
  lemma {:induction false} RunCrashes(entries: seq<Json>, refuses: Binder)
    ensures Run(entries, refuses).crashed <==> FirstCrash(entries) < |entries|
    decreases |entries|
  {
    if entries != [] {
      var p, e := entries[..|entries| - 1], entries[|entries| - 1];
      assert entries == p + [e];
      RunCrashes(p, refuses);
      RunSnoc(p, e, refuses);
      FirstCrashSnoc(p, e);
      var t := Run(p, refuses);
      if !t.crashed {
        assert FirstCrash(entries) == if Classify(e).Crash? then |p| else |p| + 1;
        assert Step(t, e, refuses).crashed == Classify(e).Crash?;
      }
    }
  }

  /** The bind attempts are the valid entries up to the first one that
      raises, in list order, one per entry. */
  lemma {:induction false} RunAttempts(entries: seq<Json>, refuses: Binder)
    ensures Run(entries, refuses).attempts == Requests(entries[..FirstCrash(entries)])
    decreases |entries|
  {
    if entries != [] {
      var p, e := entries[..|entries| - 1], entries[|entries| - 1];
      assert entries == p + [e];
      RunAttempts(p, refuses);
      RunCrashes(p, refuses);
      RunSnoc(p, e, refuses);
      FirstCrashSnoc(p, e);
      var k := FirstCrash(p);
      if k < |p| {
        assert entries[..k] == p[..k];
      } else {
        assert p[..k] == p;
        if Classify(e).Crash? {
          assert entries[..|p|] == p;
        } else {
          assert entries[..|p| + 1] == p + [e];
          RequestsSnoc(p, e);
        }
      }
    }
  }

  /** The warnings name the skipped entries up to the first one that
      raises, in list order. */
  lemma {:induction false} RunWarnings(entries: seq<Json>, refuses: Binder)
    ensures Warnings(Run(entries, refuses).events) == Rejected(entries[..FirstCrash(entries)])
    decreases |entries|
  {
    if entries != [] {
      var p, e := entries[..|entries| - 1], entries[|entries| - 1];
      assert entries == p + [e];
      RunWarnings(p, refuses);
      RunCrashes(p, refuses);
      RunSnoc(p, e, refuses);
      FirstCrashSnoc(p, e);
      var t := Run(p, refuses);
      var k := FirstCrash(p);
      if k < |p| {
        assert Run(entries, refuses) == t;
        assert entries[..k] == p[..k];
      } else {
        assert p[..k] == p;
        WarningsStep(t, e, refuses);
        if Classify(e).Crash? {
          assert entries[..|p|] == p;
        } else {
          assert entries[..|p| + 1] == p + [e];
          RejectedSnoc(p, e);
        }
      }
    }
  }

  lemma WarningsStep(t: Trace, e: Json, refuses: Binder)
    requires !t.crashed
    ensures Warnings(Step(t, e, refuses).events) ==
              Warnings(t.events) + if Classify(e).Skip? then [e] else []
  {
    match Classify(e)
    case Crash =>
    case Skip =>
      WarningsSnoc(t.events, Invalid(e));
    case Bind(l) =>
      WarningsSnoc(t.events, BindFailed(l));
      WarningsSnoc(t.events, Started(l));
  }

  /** Every bind attempt is reported exactly once, in order, as Started or
      BindFailed; the started servers are the attempts the binder grants. */
  lemma {:induction false} RunBindsInOrder(entries: seq<Json>, refuses: Binder)
    ensures Outcomes(Run(entries, refuses).events) == Run(entries, refuses).attempts
    ensures Run(entries, refuses).started == Granted(Run(entries, refuses).attempts, refuses)
    decreases |entries|
  {
    if entries != [] {
      var p, e := entries[..|entries| - 1], entries[|entries| - 1];
      assert entries == p + [e];
      RunBindsInOrder(p, refuses);
      RunSnoc(p, e, refuses);
      var t := Run(p, refuses);
      if !t.crashed {
        match Classify(e)
        case Crash =>
        case Skip =>
          OutcomesSnoc(t.events, Invalid(e));
        case Bind(l) =>
          OutcomesSnoc(t.events, BindFailed(l));
          OutcomesSnoc(t.events, Started(l));
          GrantedSnoc(t.attempts, l, refuses);
      }
    }
  }

  /** Each attempt is reported as started exactly when the binder grants it,
      and as failed otherwise; the Started events name the started servers. */
  lemma {:induction false} RunReports(entries: seq<Json>, refuses: Binder)
    ensures BindReports(Run(entries, refuses).events) == Reports(Run(entries, refuses).attempts, refuses)
    ensures Starts(Run(entries, refuses).events) == Run(entries, refuses).started
    decreases |entries|
  {
    if entries != [] {
      var p, e := entries[..|entries| - 1], entries[|entries| - 1];
      assert entries == p + [e];
      RunReports(p, refuses);
      RunBindsInOrder(p, refuses);
      RunSnoc(p, e, refuses);
      var t := Run(p, refuses);
      if !t.crashed {
        match Classify(e)
        case Crash =>
        case Skip =>
          BindReportsSnoc(t.events, Invalid(e));
          StartsSnoc(t.events, Invalid(e));
        case Bind(l) =>
          ReportsSnoc(t.attempts, l, refuses);
          if refuses(l, t.started) {
            BindReportsSnoc(t.events, BindFailed(l));
            StartsSnoc(t.events, BindFailed(l));
          } else {
            BindReportsSnoc(t.events, Started(l));
            StartsSnoc(t.events, Started(l));
          }
      }
    }
  }

  /** The report of the i-th request, read off at its position. */
  lemma {:induction false} ReportAt(requests: seq<Listener>, refuses: Binder, i: nat)
    requires i < |requests|
    ensures Reports(requests, refuses)[i] ==
              if refuses(requests[i], Granted(requests[..i], refuses))
              then BindFailed(requests[i]) else Started(requests[i])
    decreases |requests|
  {
    var p := requests[..|requests| - 1];
    if i < |p| {
      ReportAt(p, refuses, i);
      assert p[..i] == requests[..i];
    }
  }

  /** A failed bind never changes what is attempted: the attempts, the
      warnings and whether the loop raises do not depend on the binder. */
  lemma AttemptsIgnoreBindFailures(entries: seq<Json>, r1: Binder, r2: Binder)
    ensures Run(entries, r1).attempts == Run(entries, r2).attempts
    ensures Run(entries, r1).crashed == Run(entries, r2).crashed
    ensures Warnings(Run(entries, r1).events) == Warnings(Run(entries, r2).events)
  {
    RunCrashes(entries, r1);
    RunCrashes(entries, r2);
    RunAttempts(entries, r1);
    RunAttempts(entries, r2);
    RunWarnings(entries, r1);
    RunWarnings(entries, r2);
  }

  /** What one iteration attempts and starts does not depend on what was printed. */
  lemma StepIgnoresEvents(t1: Trace, t2: Trace, entry: Json, refuses: Binder)
    requires t1.attempts == t2.attempts && t1.started == t2.started && t1.crashed == t2.crashed
    ensures Step(t1, entry, refuses).attempts == Step(t2, entry, refuses).attempts
    ensures Step(t1, entry, refuses).started == Step(t2, entry, refuses).started
    ensures Step(t1, entry, refuses).crashed == Step(t2, entry, refuses).crashed
  {
  }

  /** Skipping does not abort: removing the skipped entries from the list
      leaves the attempts, the started servers and the crash unchanged. */
  lemma {:induction false} SkippedEntriesAreInert(entries: seq<Json>, refuses: Binder)
    ensures Run(Kept(entries), refuses).attempts == Run(entries, refuses).attempts
    ensures Run(Kept(entries), refuses).started == Run(entries, refuses).started
    ensures Run(Kept(entries), refuses).crashed == Run(entries, refuses).crashed
    decreases |entries|
  {
    if entries != [] {
      var n := |entries|;
      var p := entries[..n - 1];
      var e := entries[n - 1];
      SkippedEntriesAreInert(p, refuses);
      if !Classify(e).Skip? {
        var kept := Kept(p) + [e];
        assert Kept(entries) == kept;
        assert kept[..|kept| - 1] == Kept(p);
        assert Run(kept, refuses) == Step(Run(Kept(p), refuses), e, refuses);
        StepIgnoresEvents(Run(Kept(p), refuses), Run(p, refuses), e, refuses);
      } else {
        assert Kept(entries) == Kept(p);
        assert Run(entries, refuses) == Step(Run(p, refuses), e, refuses);
      }
    }
  }

  /** When the binder refuses a listener that is already open, no server
      on a fixed port is started twice. */
  lemma {:induction false} GrantedDistinct(requests: seq<Listener>, refuses: Binder)
    requires RefusesInUse(refuses)
    ensures forall i, j :: 0 <= i < j < |Granted(requests, refuses)| && Granted(requests, refuses)[i].port != 0 ==>
              Granted(requests, refuses)[i] != Granted(requests, refuses)[j]
    decreases |requests|
  {
    if requests != [] {
      GrantedDistinct(requests[..|requests| - 1], refuses);
    }
  }

  /** No de-duplication: an entry listed twice is attempted twice; when the
      first bind succeeds and the binder refuses an open listener on a fixed
      port, the second is reported as a failure, and when the binder grants
      both (port 0), both are started. */
  lemma DuplicateEntry(e: Json, l: Listener, refuses: Binder)
    requires Classify(e) == Bind(l)
    ensures Run([e, e], refuses).attempts == [l, l]
    ensures RefusesInUse(refuses) && l.port != 0 && !refuses(l, []) ==>
              Run([e, e], refuses).started == [l] &&
              Run([e, e], refuses).events == [Started(l), BindFailed(l)]
    ensures !refuses(l, []) && !refuses(l, [l]) ==>
              Run([e, e], refuses).started == [l, l] &&
              Run([e, e], refuses).events == [Started(l), Started(l)]
  {
    assert [e, e][..1] == [e];
    assert Run([e], refuses) == Step(Run([], refuses), e, refuses);
    assert Run([e, e], refuses) == Step(Run([e], refuses), e, refuses);
    if !refuses(l, []) {
      assert Run([e], refuses).started == [l];
    }
  }
  // ---------------------------------------------------------------------
  // A worked configuration.

  /** A bound entry, a skipped one and another bound one, for any binder. */
  lemma BindSkipBind(a: Json, b: Json, c: Json, la: Listener, lc: Listener, refuses: Binder)
    requires Classify(a) == Bind(la) && Classify(b) == Skip && Classify(c) == Bind(lc)
    ensures var t := Run([a, b, c], refuses);
            var first := if refuses(la, []) then [] else [la];
            && !t.crashed
            && t.attempts == [la, lc]
            && |t.events| == 3 && t.events[1] == Invalid(b)
            && t.started == if refuses(lc, first) then first else first + [lc]
  {
    RunSnoc([], a, refuses);
    RunSnoc([a], b, refuses);
    RunSnoc([a, b], c, refuses);
    assert [a, b, c] == [a, b] + [c];
    assert [a, b] == [a] + [b];
    assert [a] == [] + [a];
    var first := if refuses(la, []) then [] else [la];
    var t1 := Run([a], refuses);
    assert t1.started == first && t1.attempts == [la] && |t1.events| == 1;
    var t2 := Run([a, b], refuses);
    assert t2.started == first && t2.attempts == [la] && t2.events == t1.events + [Invalid(b)];
  }

  /** The partially valid list: TCP 9000 in lower case, a string port, and
      UDP 9001. The middle entry is skipped with a warning and the other two
      are attempted; a refused TCP 9000 does not keep UDP 9001 from starting. */
  lemma PartialValidity(refuses: Binder)
    ensures var tcp := Object(map["port" := Int(9000), "protocol" := Str("tcp")]);
            var bad := Object(map["port" := Str("bad"), "protocol" := Str("TCP")]);
            var udp := Object(map["port" := Int(9001), "protocol" := Str("UDP")]);
            var t := Run([tcp, bad, udp], refuses);
            && !t.crashed
            && t.attempts == [Listener(TCP, 9000), Listener(UDP, 9001)]
            && |t.events| == 3 && t.events[1] == Invalid(bad)
            && (!refuses(Listener(TCP, 9000), []) && !refuses(Listener(UDP, 9001), [Listener(TCP, 9000)]) ==>
                  t.started == [Listener(TCP, 9000), Listener(UDP, 9001)])
            && (refuses(Listener(TCP, 9000), []) && !refuses(Listener(UDP, 9001), []) ==>
                  t.started == [Listener(UDP, 9001)])
  {
    var tcp := Object(map["port" := Int(9000), "protocol" := Str("tcp")]);
    var bad := Object(map["port" := Str("bad"), "protocol" := Str("TCP")]);
    var udp := Object(map["port" := Int(9001), "protocol" := Str("UDP")]);
    LowerTcpEntry();
    StringPortEntry();
    UdpEntry();
    BindSkipBind(tcp, bad, udp, Listener(TCP, 9000), Listener(UDP, 9001), refuses);
  }

  // How the three entries of that list are judged.

  lemma LowerTcpEntry()
    ensures Classify(Object(map["port" := Int(9000), "protocol" := Str("tcp")])) == Bind(Listener(TCP, 9000))
  {
    assert Upper("tcp") == "TCP";
  }

  lemma StringPortEntry()
    ensures Classify(Object(map["port" := Str("bad"), "protocol" := Str("TCP")])) == Skip
  {
  }

  lemma UdpEntry()
    ensures Classify(Object(map["port" := Int(9001), "protocol" := Str("UDP")])) == Bind(Listener(UDP, 9001))
  {
    assert Upper("UDP") == "UDP";
  }
}

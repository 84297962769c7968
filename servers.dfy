/** The server orchestrator: `start_servers` in echoecho.py, as the loop it
    is. The reactor's `listenTCP`/`listenUDP` are reached through a `Binder`;
    what they register and what the loop prints are returned in order. */
module Servers {
  import opened Json
  import opened Config
  import opened Dispatch

  /** `start_servers`: load the configuration and, if there is one, walk its
      "ports" list in order; `attempts` are the bind requests made,
      `started` the listeners the reactor accepted, `events` the printed
      lines, and `crashed` tells that an entry raised out of the loop. */
  method StartServers(read: Read, refuses: Binder)
    returns (attempts: seq<Listener>, started: seq<Listener>, events: seq<Event>, crashed: bool)
    ensures LoadConfig(read).NoConfig? ==>
              attempts == [] && started == [] && !crashed &&
              events == [ConfigFailed(LoadConfig(read).error)]
    ensures LoadConfig(read).Loaded? ==>
              var entries := Ports(LoadConfig(read));
              && Trace(attempts, started, events, crashed) == Run(entries, refuses)
              && (crashed <==> FirstCrash(entries) < |entries|)
              && attempts == Requests(entries[..FirstCrash(entries)])
              && Warnings(events) == Rejected(entries[..FirstCrash(entries)])
              && Outcomes(events) == attempts
              && started == Granted(attempts, refuses)
              && BindReports(events) == Reports(attempts, refuses)
              && Starts(events) == started
  {
    attempts, started, events, crashed := [], [], [], false;
    var loaded := LoadConfig(read);
    // A loaded dict holds "ports", so `not config` is false exactly when it loaded.
    if loaded.NoConfig? {
      events := [ConfigFailed(loaded.error)];
      return;
    }
    var entries := Ports(loaded);
    var i := 0;
    while i < |entries| && !crashed
      invariant 0 <= i <= |entries|
      invariant Trace(attempts, started, events, crashed) == Run(entries[..i], refuses)
    {
      var entry := entries[i];
      assert entries[..i + 1] == entries[..i] + [entry];
      RunSnoc(entries[..i], entry, refuses);
      if !entry.Object? {
        // `port_config.get` on a non-dict raises outside the `try`.
        assert Classify(entry) == Crash;
        crashed := true;
      } else {
        var port := Get(entry.fields, "port", Null);
        var protocol := Get(entry.fields, "protocol", Str(""));
        if !protocol.Str? {
          // `.upper()` on a non-string raises outside the `try`.
          assert Classify(entry) == Crash;
          crashed := true;
        } else {
          var protocolType := Upper(protocol.s);
          var n := PortOf(port);
          if n.None? || (protocolType != "TCP" && protocolType != "UDP") {
            assert Classify(entry) == Skip;
            events := events + [Invalid(entry)];
          } else {
            var l := Listener(if protocolType == "TCP" then TCP else UDP, n.value);
            assert Classify(entry) == Bind(l);
            attempts := attempts + [l];
            if refuses(l, started) {
              events := events + [BindFailed(l)];
            } else {
              started := started + [l];
              events := events + [Started(l)];
            }
          }
        }
      }
      i := i + 1;
    }
    if crashed {
      CrashIsFinal(entries, i, refuses);
    } else {
      assert entries[..i] == entries;
    }
    RunCrashes(entries, refuses);
    RunAttempts(entries, refuses);
    RunWarnings(entries, refuses);
    RunBindsInOrder(entries, refuses);
    RunReports(entries, refuses);
  }
}

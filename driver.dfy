/**
 * The parts of the JPPF driver's start-up and shutdown that are decided by the driver
 * itself: its uuid, the filtering of configured ports, the message printed when a server
 * starts, and the rule that only the first shutdown or restart request is scheduled.
 */
module Driver {
  import opened Text

  datatype Option<T> = None | Some(value: T)
  datatype Result<T> = Ok(value: T) | IllegalArgument(message: string)

  /** The heading of each port line of the start-up message (the plain one has two spaces after the dash). */
  const PlainHeading: string := "\n-  accepting plain connections on port"
  const SecureHeading: string := "\n- accepting secure connections on port"

  /** The driver's uuid: the configured "jppf.driver.uuid" when there is one, else a freshly generated uuid. */
  function DriverUuid(configured: Option<string>, generated: string): (u: string)
    ensures configured.Some? ==> u == configured.value
    ensures configured.None? ==> u == generated
  {
    if configured.Some? then configured.value else generated
  }

  /** The non-negative ports, in their order. */
  function ValidPorts(ports: seq<int>): (r: seq<int>)
    ensures |r| <= |ports|
    ensures forall i :: 0 <= i < |r| ==> r[i] >= 0
  {
    if ports == [] then []
    else ValidPorts(ports[..|ports| - 1]) + (if ports[|ports| - 1] >= 0 then [ports[|ports| - 1]] else [])
  }

  /** A port is kept exactly when it is listed and non-negative. */
  lemma {:induction false} ValidPortsMembers(ports: seq<int>)
    ensures forall p :: p in ValidPorts(ports) <==> p in ports && p >= 0
  {
    if ports != [] {
      var front := ports[..|ports| - 1];
      ValidPortsMembers(front);
      assert ports == front + [ports[|ports| - 1]];
    }
  }

  /** Filtering keeps the input order: the ports of two lists, one after the other, are filtered list by list. */
  lemma {:induction false} ValidPortsConcat(a: seq<int>, b: seq<int>)
    ensures ValidPorts(a + b) == ValidPorts(a) + ValidPorts(b)
  {
    if b != [] {
      var front := b[..|b| - 1];
      ValidPortsConcat(a, front);
      assert (a + b)[..|a + b| - 1] == a + front;
    } else {
      assert a + b == a;
    }
  }

  /** A list of valid ports is kept whole, so filtering twice changes nothing. */
  lemma {:induction false} ValidPortsKeepsValid(ports: seq<int>)
    requires forall i :: 0 <= i < |ports| ==> ports[i] >= 0
    ensures ValidPorts(ports) == ports
    ensures ValidPorts(ValidPorts(ports)) == ValidPorts(ports)
  {
    if ports != [] {
      var front := ports[..|ports| - 1];
      ValidPortsKeepsValid(front);
      assert ports == front + [ports[|ports| - 1]];
    }
  }

  /** `extractValidPorts`: a null or empty array is returned as it is; otherwise a new array of the non-negative ports. */
  method ExtractValidPorts(ports: Option<seq<int>>) returns (r: Option<seq<int>>)
    ensures ports.None? || ports.value == [] ==> r == ports
    ensures ports.Some? && ports.value != [] ==> r == Some(ValidPorts(ports.value))
  {
    if ports.None? || ports.value == [] {
      return ports;
    }
    var ps := ports.value;
    var list: seq<int> := [];
    var i := 0;
    while i < |ps|
      invariant 0 <= i <= |ps|
      invariant list == ValidPorts(ps[..i])
    {
      assert ps[..i + 1][..i] == ps[..i];
      if ps[i] >= 0 {
        list := list + [ps[i]];
      }
      i := i + 1;
    }
    assert ps[..i] == ps;
    var result := new int[|list|];
    var k := 0;
    while k < result.Length
      invariant 0 <= k <= result.Length
      invariant result[..k] == list[..k]
    {
      result[k] := list[k];
      k := k + 1;
    }
    assert result[..] == list;
    r := Some(result[..]);
  }

  /** A port as the message shows it: a space, then the number. */
  function PortText(n: int): (t: string)
    ensures |t| > 1 && t[0] == ' ' && t[1..] == IntStr(n)
  {
    " " + IntStr(n)
  }

  /** Each port, preceded by a space. */
  function PortsText(ports: seq<int>): (t: string)
    ensures t == [] <==> ports == []
  {
    if ports == [] then "" else PortsText(ports[..|ports| - 1]) + PortText(ports[|ports| - 1])
  }

  /** One port line: nothing for a null or empty array, else the heading, "s" for several ports, then the ports. */
  function PortsLine(heading: string, ports: Option<seq<int>>): string
  {
    if ports.None? || ports.value == [] then ""
    else heading + (if |ports.value| > 1 then "s" else "") + PortsText(ports.value)
  }

  /** The first part of the message: the server's name followed by " initialized", when it has a name. */
  function NamePart(name: Option<string>): string
  {
    if name.Some? then name.value + " initialized" else ""
  }

  /** The message printed once a server is initialized. */
  function InitializedMessage(ports: Option<seq<int>>, sslPorts: Option<seq<int>>, name: Option<string>): string
  {
    NamePart(name) + PortsLine(PlainHeading, ports) + PortsLine(SecureHeading, sslPorts)
  }

  /** The number of spaces in a text. */
  function Spaces(s: string): (n: nat)
    ensures n <= |s|
  {
    if s == [] then 0 else Spaces(s[..|s| - 1]) + (if s[|s| - 1] == ' ' then 1 else 0)
  }

  /** A printed number has no space in it. */
  lemma NoSpaceInNumber(n: int)
    ensures forall k :: 0 <= k < |IntStr(n)| ==> IntStr(n)[k] != ' '
  {
    if n < 0 {
      assert forall k :: 1 <= k < |IntStr(n)| ==> IntStr(n)[k] == NatStr(-n)[k - 1];
    }
  }

  /** Spaces of a concatenation add up. */
  lemma {:induction false} SpacesConcat(a: string, b: string)
    ensures Spaces(a + b) == Spaces(a) + Spaces(b)
  {
    if b != [] {
      SpacesConcat(a, b[..|b| - 1]);
      assert (a + b)[..|a + b| - 1] == a + b[..|b| - 1];
    } else {
      assert a + b == a;
    }
  }

  /** A text without spaces counts none. */
  lemma {:induction false} SpacesNone(s: string)
    requires forall k :: 0 <= k < |s| ==> s[k] != ' '
    ensures Spaces(s) == 0
  {
    if s != [] {
      SpacesNone(s[..|s| - 1]);
    }
  }

  /** The port list holds exactly one space per port: each port is preceded by one, and numbers hold none. */
  lemma {:induction false} PortsTextSpaces(ports: seq<int>)
    ensures Spaces(PortsText(ports)) == |ports|
  {
    if ports != [] {
      var front := ports[..|ports| - 1];
      var n := ports[|ports| - 1];
      PortsTextSpaces(front);
      NoSpaceInNumber(n);
      SpacesNone(IntStr(n));
      SpacesConcat(PortsText(front), PortText(n));
      SpacesConcat(" ", IntStr(n));
      assert Spaces(" ") == 1 by {
        assert " "[..0] == "";
      }
    }
  }

  /** In a text ending in a space and a space-free word, that space is the last one. */
  lemma LastSpace(p: string, a: string)
    requires forall k :: 0 <= k < |a| ==> a[k] != ' '
    ensures var s := p + " " + a; s[|p|] == ' ' && forall k :: |p| < k < |s| ==> s[k] != ' '
  {
    var s := p + " " + a;
    assert forall k :: |p| < k < |s| ==> s[k] == a[k - |p| - 1];
  }

  /** Two texts ending in a space and a space-free word are equal only when the words, and what precedes them, are. */
  lemma LastWord(p: string, a: string, q: string, b: string)
    requires forall k :: 0 <= k < |a| ==> a[k] != ' '
    requires forall k :: 0 <= k < |b| ==> b[k] != ' '
    requires p + " " + a == q + " " + b
    ensures a == b && p == q
  {
    var s := p + " " + a;
    LastSpace(p, a);
    LastSpace(q, b);
    assert |p| == |q|;
    assert a == s[|p| + 1..] == b;
    assert p == s[..|p|] == q;
  }

  /** Two texts that end with a port end with the same port after the same text. */
  lemma LastPort(p: string, x: int, q: string, y: int)
    requires p + PortText(x) == q + PortText(y)
    ensures p == q && x == y
  {
    NoSpaceInNumber(x);
    NoSpaceInNumber(y);
    assert p + PortText(x) == p + " " + IntStr(x);
    assert q + PortText(y) == q + " " + IntStr(y);
    LastWord(p, IntStr(x), q, IntStr(y));
    IntStrInjective(x, y);
  }

  /** Equal port texts end with the same port, after equal texts. */
  lemma PortsTextLast(a: seq<int>, b: seq<int>)
    requires a != [] && b != [] && PortsText(a) == PortsText(b)
    ensures a[|a| - 1] == b[|b| - 1] && PortsText(a[..|a| - 1]) == PortsText(b[..|b| - 1])
  {
    LastPort(PortsText(a[..|a| - 1]), a[|a| - 1], PortsText(b[..|b| - 1]), b[|b| - 1]);
  }

  /** Distinct port lists print differently, so the message loses no port. */
  lemma {:induction false} PortsTextInjective(a: seq<int>, b: seq<int>)
    requires PortsText(a) == PortsText(b)
    ensures a == b
  {
    if a != [] && b != [] {
      PortsTextLast(a, b);
      PortsTextInjective(a[..|a| - 1], b[..|b| - 1]);
      SplitLast(a);
      SplitLast(b);
    }
  }

  lemma SplitLast(a: seq<int>)
    requires a != []
    ensures a == a[..|a| - 1] + [a[|a| - 1]]
  {
  }

  /** A port line says "ports" exactly when more than one port is listed. */
  lemma PluralPorts(heading: string, ports: seq<int>)
    requires ports != []
    ensures var line := PortsLine(heading, Some(ports));
      |line| > |heading| && line[..|heading|] == heading
      && (line[|heading|] == 's' <==> |ports| > 1)
  {
    if |ports| == 1 {
      var line := PortsLine(heading, Some(ports));
      assert PortsText(ports) == PortText(ports[0]);
      assert line[|heading|] == ' ';
    }
  }

  /** One more port adds its text at the end of what precedes the list. */
  lemma PortsTextStep(start: string, ports: seq<int>, i: nat)
    requires i < |ports|
    ensures start + PortsText(ports[..i + 1]) == (start + PortsText(ports[..i])) + PortText(ports[i])
  {
    assert ports[..i + 1][..i] == ports[..i];
  }

  /** `printInitializedMessage`: the name line, then the plain and the secure port lines, built up piece by piece. */
  method PrintInitializedMessage(ports: Option<seq<int>>, sslPorts: Option<seq<int>>, name: Option<string>) returns (sb: string)
    ensures sb == InitializedMessage(ports, sslPorts, name)
  {
    sb := "";
    if name.Some? {
      sb := sb + name.value;
      sb := sb + " initialized";
    }
    assert sb == NamePart(name);
    ghost var head := sb;
    if ports.Some? && |ports.value| > 0 {
      sb := AppendPorts(sb, PlainHeading, ports.value);
    }
    ghost var middle := sb;
    if sslPorts.Some? && |sslPorts.value| > 0 {
      sb := AppendPorts(sb, SecureHeading, sslPorts.value);
    }
    MessageParts(ports, sslPorts, name, head, middle, sb);
  }

  /** The message is its name part followed by its two port lines. */
  lemma MessageParts(ports: Option<seq<int>>, sslPorts: Option<seq<int>>, name: Option<string>, head: string, middle: string, sb: string)
    requires head == NamePart(name)
    requires middle == head + PortsLine(PlainHeading, ports)
    requires sb == middle + PortsLine(SecureHeading, sslPorts)
    ensures sb == InitializedMessage(ports, sslPorts, name)
  {
  }

  /** A port line follows the heading and its plural mark. */
  lemma LineParts(sb: string, heading: string, plural: string, ports: seq<int>)
    requires ports != [] && plural == (if |ports| > 1 then "s" else "")
    ensures sb + PortsLine(heading, Some(ports)) == (sb + heading + plural) + PortsText(ports)
  {
    Regroup(sb, heading, plural, PortsText(ports));
  }

  /** Appending three texts at once or one after the other gives the same text. */
  lemma Regroup(a: string, b: string, c: string, d: string)
    ensures a + (b + c + d) == (a + b + c) + d
  {
  }

  /** One port line of `printInitializedMessage`: the heading, the plural "s", then each port after a space. */
  method AppendPorts(sb: string, heading: string, ports: seq<int>) returns (out: string)
    requires ports != []
    ensures out == sb + PortsLine(heading, Some(ports))
  {
    var plural: string := if |ports| > 1 then "s" else "";
    out := sb + heading + plural;
    ghost var start := out;
    var i := 0;
    while i < |ports|
      invariant 0 <= i <= |ports|
      invariant out == start + PortsText(ports[..i])
    {
      PortsTextStep(start, ports, i);
      out := out + PortText(ports[i]);
      i := i + 1;
    }
    assert ports[..i] == ports;
    LineParts(sb, heading, plural, ports);
  }

  /** The servers started by the driver: their ports and name. */
  datatype NioServer = NioServer(ports: Option<seq<int>>, sslPorts: Option<seq<int>>, name: Option<string>)

  /** A shutdown scheduled on the driver's timer: its delay, and whether and when the driver restarts. */
  datatype ShutdownRestartTask = ShutdownRestartTask(delay: nat, restart: bool, restartDelay: int)

  /** The timer delay of a shutdown: a delay of 0 or less means at once. */
  function TimerDelay(shutdownDelay: int): (d: nat)
    ensures shutdownDelay <= 0 ==> d == 0
    ensures shutdownDelay > 0 ==> d == shutdownDelay
  {
    if shutdownDelay <= 0 then 0 else shutdownDelay
  }

  /** `startServer`: a null server is rejected; otherwise the server is started and its initialization message printed. */
  method StartServer(server: Option<NioServer>) returns (r: Result<NioServer>, printed: Option<string>)
    ensures server.None? ==> r.IllegalArgument? && printed.None?
    ensures server.Some? ==>
      (r == Ok(server.value)
       && printed == Some(InitializedMessage(server.value.ports, server.value.sslPorts, server.value.name)))
  {
    if server.None? {
      return IllegalArgument("nioServer is null"), None;
    }
    var s := server.value;
    var line := PrintInitializedMessage(s.ports, s.sslPorts, s.name);
    return Ok(s), Some(line);
  }

  class JPPFDriver {
    const uuid: string
    /** Whether a shutdown or restart has already been scheduled. */
    var shutdownScheduled: bool
    /** The shutdown tasks handed to a timer, in order. */
    var scheduled: seq<ShutdownRestartTask>

    /** A shutdown task has been scheduled exactly when the flag is set, and at most one ever is. */
    predicate Valid()
      reads this
    {
      |scheduled| <= 1 && (shutdownScheduled <==> scheduled != [])
    }

    constructor(configuredUuid: Option<string>, generatedUuid: string)
      ensures uuid == DriverUuid(configuredUuid, generatedUuid)
      ensures Valid() && !shutdownScheduled && scheduled == []
    {
      uuid := if configuredUuid.Some? then configuredUuid.value else generatedUuid;
      shutdownScheduled := false;
      scheduled := [];
    }

    /**
     * `initiateShutdownRestart`: the first request is scheduled, with a non-positive
     * delay meaning at once; every later request is ignored.
     */
    method InitiateShutdownRestart(shutdownDelay: int, restart: bool, restartDelay: int)
      requires Valid()
      modifies this
      ensures Valid() && shutdownScheduled
      ensures old(shutdownScheduled) ==> scheduled == old(scheduled)
      ensures !old(shutdownScheduled) ==> scheduled == [ShutdownRestartTask(TimerDelay(shutdownDelay), restart, restartDelay)]
    {
      if !shutdownScheduled {
        shutdownScheduled := true;
        var task := ShutdownRestartTask(if shutdownDelay <= 0 then 0 else shutdownDelay, restart, restartDelay);
        scheduled := scheduled + [task];
      }
    }
  }
}

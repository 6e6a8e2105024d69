/**
  The per-host collection of the multi-server monitoring dashboard: how the
  answer to one remote command is turned into the text that is stored, how
  one host's record is filled in probe by probe with a liveness
  short-circuit, and the tests the dashboard applies when it draws a record.

  The remote shell is an oracle: what each command meets on the network
  (output streams, or an exception) is an `Outcome` handed to the monitor,
  and `ServerMonitor.issued` records every command sent, in order.
*/
module Monitor {
  import opened Wrappers
  import opened Text

  /** One entry of the server list. */
  datatype ServerConfig = ServerConfig(name: string, host: string, port: int,
                                       username: string, keyFile: Option<string>)

  /** What happens when one command is sent over a fresh SSH session. */
  datatype Outcome =
    | Returned(stdout: string, stderr: string)
      // the command ran; both streams were read and decoded
    | Raised(message: string)
      // connecting, running or reading raised; `message` is the exception's text
    | RaisedUnprintable(fault: string)
      // as `Raised`, but turning the exception into text raised again, with `fault`

  /** What `ssh_execute` gives back to its caller. */
  datatype Reply =
    | Output(text: string)
    | Fault(message: string)   // an exception that leaves `ssh_execute`

  const CommandNotFound := "command not found"
  const ConnectionError := "Connection Error"
  const ConnectionErrorPrefix := ConnectionError + ": "

  /** A non-empty error stream that is not a "command not found" report, in any letter case. */
  predicate IsGenuineError(stderr: string)
  {
    stderr != [] && !Contains(Lower(stderr), CommandNotFound)
  }

  /** The result classification of `ssh_execute`. */
  function Classify(o: Outcome): (r: Reply)
    ensures r.Fault? <==> o.RaisedUnprintable?
    ensures o.RaisedUnprintable? ==> r == Fault(o.fault)
    ensures o.Returned? && IsGenuineError(o.stderr) ==> r.text == "Error: " + o.stderr
    ensures o.Returned? && !IsGenuineError(o.stderr) ==> r.text == o.stdout
    ensures o.Raised? ==> r.text == ConnectionErrorPrefix + o.message
    ensures o.Raised? ==> Contains(r.text, ConnectionError) && !StartsWith(r.text, "Error: ")
  {
    match o
    case Returned(stdout, stderr) =>
      if IsGenuineError(stderr) then Output("Error: " + stderr) else Output(stdout)
    case Raised(message) =>
      assert StartsWith(ConnectionErrorPrefix + message, ConnectionError);
      assert (ConnectionErrorPrefix + message)[0] != "Error: "[0];
      Output(ConnectionErrorPrefix + message)
    case RaisedUnprintable(fault) => Fault(fault)
  }

  /** A stderr that mentions a missing command, in whatever letter case, lets stdout through. */
  lemma MissingCommandKeepsStdout(stdout: string, stderr: string, mention: string)
    requires Lower(mention) == CommandNotFound && Contains(stderr, mention)
    ensures Classify(Returned(stdout, stderr)) == Output(stdout)
  {
    ContainsLower(stderr, mention);
  }

  /**
    A stderr is a genuine error exactly when it is non-empty and no slice of
    it reads "command not found" once lower-cased.
  */
  lemma GenuineErrorAnyCase(stderr: string)
    ensures IsGenuineError(stderr) <==>
      stderr != [] && !exists i, j :: 0 <= i <= j <= |stderr| && Lower(stderr[i..j]) == CommandNotFound
  {
    if exists i, j :: 0 <= i <= j <= |stderr| && Lower(stderr[i..j]) == CommandNotFound {
      var i, j :| 0 <= i <= j <= |stderr| && Lower(stderr[i..j]) == CommandNotFound;
      ContainsSlice(stderr, i, j);
      ContainsLower(stderr, stderr[i..j]);
    }
    if Contains(Lower(stderr), CommandNotFound) {
      LowerOccurrence(stderr, CommandNotFound);
    }
  }

  /** The six diagnostics, in the order `collect_all_data` runs them. */
  datatype Probe = Uptime | Cpu | Disk | Memory | Nvidia | Docker

  const Battery: seq<Probe> := [Uptime, Cpu, Disk, Memory, Nvidia, Docker]

  /** The shell command behind each diagnostic (the `get_*` wrappers). */
  function Command(p: Probe): string
  {
    match p
    case Uptime => "uptime"
    case Cpu => "top -bn1 | grep 'Cpu(s)' | head -1"
    case Disk => "df -h"
    case Memory => "free -h"
    case Nvidia => "nvidia-smi"
    case Docker => "docker ps"
  }

  /** The per-server record, the `data` dictionary of `collect_all_data`. */
  datatype HostData = HostData(server: string, host: string, status: string,
                               uptime: string, cpu: string, disk: string, memory: string,
                               nvidia: string, docker: string, lastUpdated: string)

  const Unknown := "Unknown"
  const Offline := "🔴 Offline"
  const Online := "🟢 Online"
  const ErrorPrefix := "🔴 Error: "

  /** The text stored for one diagnostic. */
  function Field(d: HostData, p: Probe): string
  {
    match p
    case Uptime => d.uptime
    case Cpu => d.cpu
    case Disk => d.disk
    case Memory => d.memory
    case Nvidia => d.nvidia
    case Docker => d.docker
  }

  /** `data[key] = text` for the key of diagnostic `p`. */
  function Store(d: HostData, p: Probe, text: string): (r: HostData)
    ensures Field(r, p) == text
    ensures p != Uptime ==> r.uptime == d.uptime
    ensures p != Cpu ==> r.cpu == d.cpu
    ensures p != Disk ==> r.disk == d.disk
    ensures p != Memory ==> r.memory == d.memory
    ensures p != Nvidia ==> r.nvidia == d.nvidia
    ensures p != Docker ==> r.docker == d.docker
    ensures r.server == d.server && r.host == d.host && r.status == d.status && r.lastUpdated == d.lastUpdated
  {
    match p
    case Uptime => d.(uptime := text)
    case Cpu => d.(cpu := text)
    case Disk => d.(disk := text)
    case Memory => d.(memory := text)
    case Nvidia => d.(nvidia := text)
    case Docker => d.(docker := text)
  }

  /** The record before any command has been sent; `now` is the formatted clock reading. */
  function Initial(server: ServerConfig, now: string): HostData
  {
    HostData(server.name, server.host, Unknown, "", "", "", "", "", "", now)
  }

  /**
    The diagnostics after liveness, from position `k` of the battery on:
    each reply is stored under its key until one of them is a fault, which
    turns the status into an error and ends the collection. The number
    returned is how many commands were sent.
  */
  function Continue(d: HostData, replies: seq<Reply>, k: nat): (r: (HostData, nat))
    requires 1 <= k <= |Battery| == |replies|
    ensures r.1 <= |Battery| - k
    ensures r.0.server == d.server && r.0.host == d.host && r.0.lastUpdated == d.lastUpdated
    ensures r.0.status == d.status || StartsWith(r.0.status, ErrorPrefix)
    ensures forall j :: 0 <= j < k ==> Field(r.0, Battery[j]) == Field(d, Battery[j])
    decreases |Battery| - k
  {
    if k == |Battery| then (d, 0)
    else match replies[k]
      case Fault(message) => (d.(status := ErrorPrefix + message), 1)
      case Output(text) =>
        var (d', n) := Continue(Store(d, Battery[k], text), replies, k + 1);
        (d', n + 1)
  }

  /**
    The reference for `collect_all_data`: the record, and how many commands
    were sent, when the six diagnostics would answer `replies`.
  */
  function Collected(server: ServerConfig, now: string, replies: seq<Reply>): (r: (HostData, nat))
    requires |replies| == |Battery|
    ensures 1 <= r.1 <= |Battery|
    ensures r.0.server == server.name && r.0.host == server.host && r.0.lastUpdated == now
    ensures r.0.status != Unknown
    ensures replies[0].Output? && Contains(replies[0].text, ConnectionError) ==>
              r == (Initial(server, now).(status := Offline, uptime := replies[0].text), 1)
    ensures replies[0].Fault? ==>
              r == (Initial(server, now).(status := ErrorPrefix + replies[0].message), 1)
  {
    var d := Initial(server, now);
    match replies[0]
    case Fault(message) => (d.(status := ErrorPrefix + message), 1)
    case Output(uptime) =>
      if Contains(uptime, ConnectionError) then (d.(status := Offline, uptime := uptime), 1)
      else
        var (d', n) := Continue(d.(status := Online, uptime := Strip(uptime)), replies, 1);
        assert !StartsWith(Unknown, ErrorPrefix);
        (d', n + 1)
  }

  /** No fault among the replies from position `k` on. */
  predicate NoFaultFrom(replies: seq<Reply>, k: nat)
  {
    forall j :: k <= j < |replies| ==> replies[j].Output?
  }

  /** With no fault ahead, every remaining reply is stored verbatim and the status is untouched. */
  lemma {:induction false} ContinueStoresAll(d: HostData, replies: seq<Reply>, k: nat)
    requires 1 <= k <= |Battery| == |replies|
    requires NoFaultFrom(replies, k)
    ensures Continue(d, replies, k).1 == |Battery| - k
    ensures Continue(d, replies, k).0.status == d.status
    ensures forall j :: k <= j < |Battery| ==> Field(Continue(d, replies, k).0, Battery[j]) == replies[j].text
    decreases |Battery| - k
  {
    if k < |Battery| {
      ContinueStoresAll(Store(d, Battery[k], replies[k].text), replies, k + 1);
    }
  }

  /**
    The first fault at position `f` ends the collection there: the status
    carries its message, the replies before it are stored, nothing after it.
  */
  lemma {:induction false} ContinueStopsAtFault(d: HostData, replies: seq<Reply>, k: nat, f: nat)
    requires 1 <= k <= f < |Battery| == |replies|
    requires replies[f].Fault? && forall j :: k <= j < f ==> replies[j].Output?
    ensures Continue(d, replies, k).1 == f - k + 1
    ensures Continue(d, replies, k).0.status == ErrorPrefix + replies[f].message
    ensures forall j :: k <= j < f ==> Field(Continue(d, replies, k).0, Battery[j]) == replies[j].text
    ensures forall j :: f <= j < |Battery| ==> Field(Continue(d, replies, k).0, Battery[j]) == Field(d, Battery[j])
    decreases f - k
  {
    if k < f {
      ContinueStopsAtFault(Store(d, Battery[k], replies[k].text), replies, k + 1, f);
    }
  }

  /**
    A live host: Online, the trimmed uptime, and the five other answers
    stored verbatim, whatever they say, after six commands.
  */
  lemma OnlineStoresVerbatim(server: ServerConfig, now: string, replies: seq<Reply>)
    requires |replies| == |Battery| && NoFaultFrom(replies, 0)
    requires !Contains(replies[0].text, ConnectionError)
    ensures Collected(server, now, replies).1 == 6
    ensures Collected(server, now, replies).0.status == Online
    ensures Collected(server, now, replies).0.uptime == Strip(replies[0].text)
    ensures forall j :: 1 <= j < |Battery| ==> Field(Collected(server, now, replies).0, Battery[j]) == replies[j].text
  {
    var d := Initial(server, now).(status := Online, uptime := Strip(replies[0].text));
    ContinueStoresAll(d, replies, 1);
  }

  /** Without faults the status depends on the uptime answer alone. */
  lemma StatusFromUptimeAlone(server: ServerConfig, now: string, replies1: seq<Reply>, replies2: seq<Reply>)
    requires |replies1| == |replies2| == |Battery|
    requires NoFaultFrom(replies1, 0) && NoFaultFrom(replies2, 0)
    requires replies1[0] == replies2[0]
    ensures Collected(server, now, replies1).0.status == Collected(server, now, replies2).0.status
  {
    if !Contains(replies1[0].text, ConnectionError) {
      OnlineStoresVerbatim(server, now, replies1);
      OnlineStoresVerbatim(server, now, replies2);
    }
  }

  /**
    A fault after a live uptime answer: the status becomes an error naming
    it, and the commands after the faulting one are never sent.
  */
  lemma FaultEndsCollection(server: ServerConfig, now: string, replies: seq<Reply>, f: nat)
    requires |replies| == |Battery| && 1 <= f < |Battery|
    requires replies[f].Fault? && forall j :: 0 <= j < f ==> replies[j].Output?
    requires !Contains(replies[0].text, ConnectionError)
    ensures Collected(server, now, replies).1 == f + 1
    ensures Collected(server, now, replies).0.status == ErrorPrefix + replies[f].message
    ensures Collected(server, now, replies).0.uptime == Strip(replies[0].text)
    ensures forall j :: f <= j < |Battery| ==> Field(Collected(server, now, replies).0, Battery[j]) == ""
  {
    var d := Initial(server, now).(status := Online, uptime := Strip(replies[0].text));
    ContinueStopsAtFault(d, replies, 1, f);
  }

  /** One command sent: the server it went to and the command line. */
  datatype Call = Call(server: ServerConfig, command: string)

  /** The first `n` commands of the battery, all sent to `server`. */
  function Calls(server: ServerConfig, n: nat): seq<Call>
    requires n <= |Battery|
  {
    seq(n, j requires 0 <= j < n => Call(server, Command(Battery[j])))
  }

  /** A shorter run of the battery is a prefix of a longer one. */
  lemma CallsPrefix(server: ServerConfig, m: nat, n: nat)
    requires m <= n <= |Battery|
    ensures Calls(server, m) == Calls(server, n)[..m]
  {
  }

  /** Sending the next command of the battery extends the log by one call. */
  lemma CallsExtend(log: seq<Call>, server: ServerConfig, n: nat)
    requires n < |Battery|
    ensures log + Calls(server, n) + [Call(server, Command(Battery[n]))] == log + Calls(server, n + 1)
  {
    assert Calls(server, n) + [Call(server, Command(Battery[n]))] == Calls(server, n + 1);
  }

  /**
    Proof bookkeeping for `CollectAllData`: after `k` commands, with `data`
    the record so far, finishing the battery from `k` gives `goal`.
  */
  ghost predicate OnTrack(goal: (HostData, nat), data: HostData, replies: seq<Reply>, k: nat)
  {
    1 <= k <= |Battery| == |replies| && goal == (Continue(data, replies, k).0, Continue(data, replies, k).1 + k)
  }

  lemma Advance(goal: (HostData, nat), data: HostData, replies: seq<Reply>, k: nat, p: Probe, text: string)
    requires OnTrack(goal, data, replies, k) && k < |Battery| && Battery[k] == p && replies[k] == Output(text)
    ensures OnTrack(goal, Store(data, p, text), replies, k + 1)
  {
  }

  lemma StopAtFault(goal: (HostData, nat), data: HostData, replies: seq<Reply>, k: nat, message: string)
    requires OnTrack(goal, data, replies, k) && k < |Battery| && replies[k] == Fault(message)
    ensures goal == (data.(status := ErrorPrefix + message), k + 1)
  {
  }

  lemma Finished(goal: (HostData, nat), data: HostData, replies: seq<Reply>)
    requires OnTrack(goal, data, replies, |Battery|)
    ensures goal == (data, |Battery|)
  {
  }

  /** The classified reply to each outcome, in order. */
  function ClassifyAll(outcomes: seq<Outcome>): seq<Reply>
  {
    seq(|outcomes|, j requires 0 <= j < |outcomes| => Classify(outcomes[j]))
  }

  /**
    An uptime call that raises is a connection error, so the host is
    Offline with that text as its uptime and nothing else is sent.
  */
  lemma RaisingUptimeMeansOffline(server: ServerConfig, now: string, outcomes: seq<Outcome>)
    requires |outcomes| == |Battery| && outcomes[0].Raised?
    ensures Collected(server, now, ClassifyAll(outcomes)) ==
      (Initial(server, now).(status := Offline, uptime := ConnectionErrorPrefix + outcomes[0].message), 1)
  {
  }

  class ServerMonitor {
    /** The configured servers, loaded once. */
    const servers: seq<ServerConfig>
    /** Every command sent so far, in order. */
    var issued: seq<Call>

    constructor (servers: seq<ServerConfig>)
      ensures this.servers == servers && issued == []
    {
      this.servers := servers;
      issued := [];
    }

    /**
      `ssh_execute`: one session, one command, its classified result.
      `outcome` is what connecting, running and reading met on the network.
    */
    method SshExecute(server: ServerConfig, command: string, outcome: Outcome) returns (result: Reply)
      modifies this
      ensures issued == old(issued) + [Call(server, command)]
      ensures result == Classify(outcome)
    {
      issued := issued + [Call(server, command)];
      result := Classify(outcome);
    }

    /**
      The `get_*` wrappers: each sends the fixed command line of one probe
      and hands back what `ssh_execute` made of it.
    */
    method GetProbe(server: ServerConfig, p: Probe, outcome: Outcome) returns (result: Reply)
      modifies this
      ensures issued == old(issued) + [Call(server, Command(p))]
      ensures result == Classify(outcome)
    {
      result := SshExecute(server, Command(p), outcome);
    }

    /**
      One statement of the `try` block of `collect_all_data` after the uptime
      check, with the handler around it: the `k`-th probe's output goes into
      its field, or an escaping exception sets the error status and stops
      the collection (`stop`).
    */
    method CollectProbe(server: ServerConfig, k: nat, outcome: Outcome, data: HostData,
                        ghost start: seq<Call>, ghost goal: (HostData, nat), ghost replies: seq<Reply>)
      returns (next: HostData, stop: bool)
      requires OnTrack(goal, data, replies, k) && k < |Battery| && replies[k] == Classify(outcome)
      requires issued == start + Calls(server, k)
      modifies this
      ensures issued == start + Calls(server, k + 1)
      ensures stop ==> goal == (next, k + 1)
      ensures !stop ==> OnTrack(goal, next, replies, k + 1)
    {
      var reply := GetProbe(server, Battery[k], outcome);
      CallsExtend(start, server, k);
      if reply.Fault? {
        StopAtFault(goal, data, replies, k, reply.message);
        next, stop := data.(status := ErrorPrefix + reply.message), true;
      } else {
        Advance(goal, data, replies, k, Battery[k], reply.text);
        next, stop := Store(data, Battery[k], reply.text), false;
      }
    }

    /**
      `collect_all_data`: uptime first; a connection error there marks the
      host offline and sends nothing more; otherwise the other five
      diagnostics run in battery order. An exception escaping a probe turns
      the status into an error and stops the collection. `outcomes[k]` is
      what the k-th command of the battery meets if it is sent; `now` is the
      formatted clock reading; `sent` counts the commands sent.
    */
    method CollectAllData(server: ServerConfig, now: string, outcomes: seq<Outcome>) returns (data: HostData, ghost sent: nat)
      requires |outcomes| == |Battery|
      modifies this
      ensures 1 <= sent <= |Battery|
      ensures issued == old(issued) + Calls(server, sent)
      ensures (data, sent) == Collected(server, now, ClassifyAll(outcomes))
    {
      ghost var replies := ClassifyAll(outcomes);
      ghost var goal := Collected(server, now, replies);
      data := Initial(server, now);

      var uptime := GetProbe(server, Uptime, outcomes[0]);
      CallsExtend(old(issued), server, 0);
      sent := 1;
      if uptime.Fault? {
        data := data.(status := ErrorPrefix + uptime.message);
        return;
      }
      if Contains(uptime.text, ConnectionError) {
        data := data.(status := Offline, uptime := uptime.text);
        return;
      }
      data := data.(status := Online, uptime := Strip(uptime.text));
      assert OnTrack(goal, data, replies, 1);

      var stop;
      data, stop := CollectProbe(server, 1, outcomes[1], data, old(issued), goal, replies);
      sent := 2;
      if stop { return; }
      data, stop := CollectProbe(server, 2, outcomes[2], data, old(issued), goal, replies);
      sent := 3;
      if stop { return; }
      data, stop := CollectProbe(server, 3, outcomes[3], data, old(issued), goal, replies);
      sent := 4;
      if stop { return; }
      data, stop := CollectProbe(server, 4, outcomes[4], data, old(issued), goal, replies);
      sent := 5;
      if stop { return; }
      data, stop := CollectProbe(server, 5, outcomes[5], data, old(issued), goal, replies);
      sent := 6;
      if stop { return; }
      Finished(goal, data, replies);
    }
  }

  // The tests `main` applies when it draws a record.

  const GreenDot := '🟢'
  const RedDot := '🔴'
  const DockerDown := "Cannot connect"

  /**
    The border of a host's overview card. Both dots are single code points,
    so the substring test on them is a membership test.
  */
  function BorderColor(d: HostData): string
  {
    if GreenDot in d.status then "green" else "red"
  }

  /** Whether the detail tabs are drawn; a red status gets an error banner instead. */
  predicate ShowsDetails(d: HostData)
  {
    RedDot !in d.status
  }

  /** Whether the GPU tab shows the stored `nvidia-smi` text rather than a notice. */
  predicate ShowsGpu(nvidia: string)
  {
    nvidia != [] && !Contains(nvidia, CommandNotFound)
  }

  /** Whether the Docker tab shows the stored `docker ps` text rather than a notice. */
  predicate ShowsDocker(docker: string)
  {
    docker != [] && !Contains(docker, DockerDown)
  }

  /** Every collected record is Offline, Online or an error. */
  lemma CollectedStatus(server: ServerConfig, now: string, replies: seq<Reply>)
    requires |replies| == |Battery|
    ensures var status := Collected(server, now, replies).0.status;
      status == Offline || status == Online || StartsWith(status, ErrorPrefix)
  {
    if replies[0].Output? && !Contains(replies[0].text, ConnectionError) {
      var start := Initial(server, now).(status := Online, uptime := Strip(replies[0].text));
      assert Collected(server, now, replies).0 == Continue(start, replies, 1).0;
    }
  }

  /**
    For those three kinds of status, only an Online host gets its details
    drawn, and the card is green exactly for an Online host or for an error
    whose message carries a green dot.
  */
  lemma StatusDisplay(d: HostData)
    requires d.status == Offline || d.status == Online || StartsWith(d.status, ErrorPrefix)
    ensures ShowsDetails(d) <==> d.status == Online
    ensures BorderColor(d) == "green" <==>
      d.status == Online || (StartsWith(d.status, ErrorPrefix) && GreenDot in d.status[|ErrorPrefix|..])
  {
    if d.status == Offline {
      assert d.status[0] == RedDot && GreenDot !in d.status;
    } else if d.status == Online {
      assert d.status[0] == GreenDot && RedDot !in d.status;
    } else {
      assert d.status == ErrorPrefix + d.status[|ErrorPrefix|..];
      assert d.status[0] == RedDot;
    }
  }

  /** The display of a collected record, by the two lemmas above. */
  lemma CollectedDisplay(server: ServerConfig, now: string, replies: seq<Reply>)
    requires |replies| == |Battery|
    ensures var d := Collected(server, now, replies).0;
      (ShowsDetails(d) <==> d.status == Online) &&
      (BorderColor(d) == "green" <==>
         d.status == Online || (StartsWith(d.status, ErrorPrefix) && GreenDot in d.status[|ErrorPrefix|..]))
  {
    CollectedStatus(server, now, replies);
    StatusDisplay(Collected(server, now, replies).0);
  }

  /**
    The GPU tab for a `nvidia-smi` run that returned: a genuine error is
    always shown (as "Error: ..."); otherwise the output is shown when it is
    non-empty and does not itself report a missing command.
  */
  lemma GpuTab(stdout: string, stderr: string)
    ensures ShowsGpu(Classify(Returned(stdout, stderr)).text) <==>
      IsGenuineError(stderr) || (stdout != [] && !Contains(stdout, CommandNotFound))
  {
    if IsGenuineError(stderr) {
      assert Lower(CommandNotFound) == CommandNotFound;
      if Contains(stderr, CommandNotFound) {
        ContainsLower(stderr, CommandNotFound);
      }
      if Contains("Error: " + stderr, CommandNotFound) {
        ContainsAcrossPrefix("Error: ", stderr, CommandNotFound);
      }
    }
  }

  /**
    The Docker tab for a `docker ps` run that returned: a genuine error is
    hidden exactly when it mentions the unreachable daemon; otherwise the
    output is shown when it is non-empty and does not mention it.
  */
  lemma DockerTab(stdout: string, stderr: string)
    ensures ShowsDocker(Classify(Returned(stdout, stderr)).text) <==>
      if IsGenuineError(stderr) then !Contains(stderr, DockerDown)
      else stdout != [] && !Contains(stdout, DockerDown)
  {
    if IsGenuineError(stderr) {
      if Contains(stderr, DockerDown) {
        ContainsAfterPrefix("Error: ", stderr, DockerDown);
      }
      if Contains("Error: " + stderr, DockerDown) {
        ContainsAcrossPrefix("Error: ", stderr, DockerDown);
      }
    }
  }
}

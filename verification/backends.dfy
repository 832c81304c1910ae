/**
  The two backends a client can be made for (database/datastore_backend.go):
  an emulated datastore on a local port, and the production datastore.

  Starting the emulator process and dialing over gRPC are not modelled as
  such: the outcome of starting the process and the client that dialing
  would give are parameters.
 */
module Backends {
  import opened Records
  import opened Decimal
  import opened Datastore

  /**
    A backend. `dial` is the client that connecting to it would produce
    (or the error that connecting would report).
   */
  datatype Backend =
    | LocalDatastore(addr: string, cmd: seq<string>, dial: Result<Client>)
    | ProdDatastore(dial: Result<Client>)

  /**
    Acquire a client. A local backend without an address fails without
    dialing; otherwise the outcome is whatever connecting gives.
   */
  function NewClient(b: Backend): (r: Result<Client>)
    ensures b.LocalDatastore? && b.addr == "" ==> r == Failure(EmptyAddr)
    ensures r.Success? ==> r == b.dial
    ensures b.ProdDatastore? || b.addr != "" ==> r == b.dial
  {
    match b
    case LocalDatastore(addr, _, dial) => if addr == "" then Failure(EmptyAddr) else dial
    case ProdDatastore(dial) => dial
  }

  /** The production backend needs no configuration: no address, so no address check. */
  function NewProdDatastore(dial: Result<Client>): (b: Backend)
    ensures b.ProdDatastore? && NewClient(b) == dial
  {
    ProdDatastore(dial)
  }

  /******** Port assignment for local backends ********/

  /** The port handed to the first local backend of a process. */
  const FirstPort: nat := 9001

  /** The process-wide port counter: the port the next local backend gets. */
  datatype PortCounter = PortCounter(nextPort: nat)

  const InitialPorts: PortCounter := PortCounter(FirstPort)

  /** Hand out the current port, as decimal text, and advance the counter by one. */
  function PortString(c: PortCounter): (r: (string, PortCounter))
    ensures IsDecimal(r.0) && Atoi(r.0) == c.nextPort
    ensures r.0[0] != '0' || c.nextPort == 0
    ensures r.1.nextPort == c.nextPort + 1
  {
    AtoiItoa(c.nextPort);
    (Itoa(c.nextPort), PortCounter(c.nextPort + 1))
  }

  /** n successive calls of PortString: the strings handed out, and the final counter. */
  function PortStrings(c: PortCounter, n: nat): (r: (seq<string>, PortCounter))
    ensures |r.0| == n
    ensures r.1.nextPort == c.nextPort + n
    ensures forall i :: 0 <= i < n ==> IsDecimal(r.0[i]) && Atoi(r.0[i]) == c.nextPort + i
    decreases n
  {
    if n == 0 then ([], c)
    else
      var (ps, c') := PortString(c);
      var (rest, c'') := PortStrings(c', n - 1);
      ([ps] + rest, c'')
  }

  /** The first port a process hands out is 9001. */
  lemma FirstPortString()
    ensures PortString(InitialPorts).0 == "9001"
    ensures PortString(InitialPorts).1.nextPort == 9002
  {
  }

  /** Successive calls hand out strictly increasing, hence pairwise distinct, ports. */
  lemma {:induction false} PortsDistinct(c: PortCounter, n: nat)
    ensures forall i, j :: 0 <= i < j < n ==>
              && Atoi(PortStrings(c, n).0[i]) < Atoi(PortStrings(c, n).0[j])
              && PortStrings(c, n).0[i] != PortStrings(c, n).0[j]
  {
  }

  /******** LocalDatastore ********/

  /** The shutdown action handed back with a local backend. */
  datatype Shutdown = NoShutdown | KillEmulator

  /** What starting a local backend gives: the backend, its shutdown, an error, the advanced counter. */
  datatype LocalStart = LocalStart(db: Backend, shutdown: Shutdown, err: Option<Error>, ports: PortCounter)

  const LocalHost: string := "localhost:"

  /** The command line that runs the emulator on port ps. */
  function EmulatorCommand(ps: string): (cmd: seq<string>)
    ensures |cmd| == 9 && cmd[6] == "-p" && cmd[7] == ps
  {
    ["java", "-cp", "./testing/gcd/CloudDatastore.jar",
     "com.google.cloud.datastore.emulator.CloudDatastore",
     "[datastore.go]", "start", "-p", ps, "--testing"]
  }

  /**
    NewLocalDatastore as written: it takes the next port, addresses the
    backend at localhost on that port, and tells the emulator to listen
    there. When the emulator fails to start (`startErr`), the error is not
    reported: the result carries no error and a shutdown that does nothing.
   */
  function NewLocalDatastore(ports: PortCounter, startErr: Option<Error>, dial: Result<Client>): (r: LocalStart)
    ensures r.db.LocalDatastore? && r.db.dial == dial
    ensures |r.db.addr| > |LocalHost| && r.db.addr[..|LocalHost|] == LocalHost
    ensures IsDecimal(r.db.addr[|LocalHost|..]) && Atoi(r.db.addr[|LocalHost|..]) == ports.nextPort
    ensures r.db.addr[|LocalHost|] != '0' || ports.nextPort == 0
    ensures r.db.addr == LocalHost + PortString(ports).0
    ensures |r.db.cmd| == 9 && r.db.cmd[7] == r.db.addr[|LocalHost|..]
    ensures r.ports.nextPort == ports.nextPort + 1
    ensures r.err == None
    ensures r.shutdown == KillEmulator <==> startErr.None?
  {
    var (ps, ports') := PortString(ports);
    var db := LocalDatastore(LocalHost + ps, EmulatorCommand(ps), dial);
    assert db.addr[|LocalHost|..] == ps;
    if startErr.Some? then LocalStart(db, NoShutdown, None, ports')
    else LocalStart(db, KillEmulator, None, ports')
  }

  /**
    The defect of NewLocalDatastore: an emulator that failed to start is
    reported as a success, and the backend handed back still looks usable,
    since its client is dialed rather than refused.
   */
  lemma SwallowedStartError(ports: PortCounter, e: Error, dial: Result<Client>)
    ensures NewLocalDatastore(ports, Some(e), dial).err == None
    ensures NewLocalDatastore(ports, Some(e), dial).shutdown == NoShutdown
    ensures NewClient(NewLocalDatastore(ports, Some(e), dial).db) == dial
  {
  }

  /**
    NewLocalDatastore with the start error reported: the same backend and
    counter, but an emulator that failed to start is an error.
   */
  function NewLocalDatastoreChecked(ports: PortCounter, startErr: Option<Error>, dial: Result<Client>): (r: LocalStart)
    ensures r.db == NewLocalDatastore(ports, startErr, dial).db
    ensures r.ports.nextPort == ports.nextPort + 1
    ensures r.err == startErr
    ensures r.shutdown == KillEmulator <==> r.err.None?
  {
    var r := NewLocalDatastore(ports, startErr, dial);
    r.(err := startErr)
  }

  /** Two local backends started one after the other get different addresses. */
  lemma LocalAddressesDistinct(ports: PortCounter, start1: Option<Error>, dial1: Result<Client>,
                               start2: Option<Error>, dial2: Result<Client>)
    ensures var first := NewLocalDatastore(ports, start1, dial1);
            var second := NewLocalDatastore(first.ports, start2, dial2);
            first.db.addr != second.db.addr
  {
  }

  /** A local backend made by NewLocalDatastore is never refused for lacking an address. */
  lemma LocalBackendHasAddress(ports: PortCounter, startErr: Option<Error>, dial: Result<Client>)
    ensures NewClient(NewLocalDatastore(ports, startErr, dial).db) == dial
  {
  }
}

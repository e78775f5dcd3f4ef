/**
 * The socket transport layer of the Sierra Wireless HL7800 driver.
 *
 * The client sockets and the modem are classes whose methods update their
 * fields as the driver does. Beside each state-changing method stands a pure
 * function, its outcome, that gives the method's result and the new state of
 * the link and of the sockets as a function of the old state. The abstract
 * state is a `World`: the unread input script, the output log, and the flags
 * and receive queue of every client socket, keyed by the client object (one
 * object may sit in two slots of the table, so slots are not keys).
 */
module Hl7800 {
  import opened AtStream

  /** `TINY_GSM_MUX_COUNT`: the size of the socket table. */
  const MuxCount: int := 6

  /** The end-of-payload sentinel that frames a send. */
  const Sentinel: string := "--EOF--Pattern--"

  /** What the transport layer keeps of one client socket. */
  datatype Sock = Sock(mux: uint8, connected: bool, gotData: bool, available: int, rx: seq<byte>)

  /** The socket table: the slot of mux `m` is `m % MuxCount`. */
  type Table = t: seq<Client?> | |t| == MuxCount witness [null, null, null, null, null, null]

  datatype World = World(input: seq<Event>, output: string, socks: map<Client, Sock>)

  /** A value computed by an operation and the world it leaves. */
  datatype Out<T> = Out(value: T, world: World)

  /** What the URC classifier returns: whether it claimed the line, the new line buffer, the world. */
  datatype Classified = Classified(handled: bool, data: seq<Event>, world: World)

  /** What opening a socket returns: success, the mux the module granted, the world. */
  datatype Opened = Opened(ok: bool, mux: uint8, world: World)

  /** What a client's connect returns: its result, the world and the socket table. */
  datatype Session = Session(ok: bool, world: World, table: Table)

  /** Two socket maps with the same sockets, muxes and receive queues. */
  ghost predicate SameQueues(a: map<Client, Sock>, b: map<Client, Sock>)
  {
    a.Keys == b.Keys && forall c :: c in a ==> b[c].mux == a[c].mux && b[c].rx == a[c].rx
  }

  function Write(w: World, text: string): (r: World)
  {
    w.(output := w.output + text)
  }

  function SetConnected(w: World, c: Client?, v: bool): (r: World)
    ensures r.input == w.input && r.output == w.output && r.socks.Keys == w.socks.Keys
  {
    if c != null && c in w.socks then w.(socks := w.socks[c := w.socks[c].(connected := v)]) else w
  }

  function SetAvailable(w: World, c: Client?, n: int): (r: World)
    ensures r.input == w.input && r.output == w.output && r.socks.Keys == w.socks.Keys
  {
    if c != null && c in w.socks then w.(socks := w.socks[c := w.socks[c].(available := n)]) else w
  }

  function SetGotData(w: World, c: Client?, v: bool): (r: World)
    ensures r.input == w.input && r.output == w.output && r.socks.Keys == w.socks.Keys
  {
    if c != null && c in w.socks then w.(socks := w.socks[c := w.socks[c].(gotData := v)]) else w
  }

  function AppendRx(w: World, c: Client?, p: seq<byte>): (r: World)
    ensures r.input == w.input && r.output == w.output && r.socks.Keys == w.socks.Keys
  {
    if c != null && c in w.socks then w.(socks := w.socks[c := w.socks[c].(rx := w.socks[c].rx + p)]) else w
  }

  function SetMux(w: World, c: Client?, m: uint8): (r: World)
    ensures r.input == w.input && r.output == w.output && r.socks.Keys == w.socks.Keys
  {
    if c != null && c in w.socks then w.(socks := w.socks[c := w.socks[c].(mux := m)]) else w
  }

  function EmptyRx(w: World, c: Client?): (r: World)
    ensures r.input == w.input && r.output == w.output && r.socks.Keys == w.socks.Keys
  {
    if c != null && c in w.socks then w.(socks := w.socks[c := w.socks[c].(rx := [])]) else w
  }

  /** The command texts of the socket layer. */
  function CfgCommand(host: string, port: uint16): (s: string)
  {
    Command("+KTCPCFG=1,0,\"" + host + "\"," + Decimal(port))
  }

  function CnxCommand(mux: uint8): (s: string)
  {
    Command("+KTCPCNX=" + Decimal(mux))
  }

  function SndCommand(mux: uint8, len: nat): (s: string)
  {
    Command("+KTCPSND=" + Decimal(mux) + "," + Decimal(Uint16(len)))
  }

  function RcvCommand(mux: uint8, size: nat): (s: string)
  {
    Command("+KTCPRCV=" + Decimal(mux) + "," + Decimal(Uint16(size)))
  }

  function StatCommand(mux: uint8): (s: string)
  {
    Command("+KTCPSTAT=" + Decimal(mux))
  }

  function CloseCommand(mux: uint8): (s: string)
  {
    Command("+KTCPCLOSE=" + Decimal(mux) + ",1")
  }

  function DelCommand(mux: uint8): (s: string)
  {
    Command("+KTCPDEL=" + Decimal(mux))
  }

  /** Whether the line buffer ends with the text of `t` (`data.endsWith`). */
  predicate EndsWith(data: seq<Event>, t: Token)
  {
    |data| > 0 && data[|data| - 1] == Line(t)
  }

  /**
   * `handleURCs`: a "data available" notification marks the socket of its
   * mux as having data and records the announced length; a "peer closed"
   * notification clears its connected flag. Either is claimed (and the line
   * buffer emptied) whether or not its mux names an occupied slot.
   */
  function UrcOutcome(w: World, table: Table, data: seq<Event>): (r: Classified)
    ensures |r.world.input| <= |w.input|
    ensures r.world.output == w.output
  {
    if EndsWith(data, KtcpData) then
      var m := GetIntBefore(w.input);
      var n := GetIntBefore(m.rest);
      var mux := Int8(m.value);
      var w1 := w.(input := n.rest);
      Classified(true, [],
        if 0 <= mux < MuxCount && table[mux % MuxCount] != null then
          SetAvailable(SetGotData(w1, table[mux % MuxCount], true), table[mux % MuxCount], n.value)
        else w1)
    else if EndsWith(data, TcpClose) then
      var m := GetIntBefore(w.input);
      var mux := Int8(m.value);
      var w1 := w.(input := SkipUntil(m.rest));
      Classified(true, [],
        if 0 <= mux < MuxCount && table[mux % MuxCount] != null then
          SetConnected(w1, table[mux % MuxCount], false)
        else w1)
    else Classified(false, data, w)
  }

  /**
   * `waitResponse(r1, r2)`: reads the script until a line equal to `r1`
   * (result 1) or `r2` (result 2) arrives, or until nothing arrives (result
   * 0). Every other line is first offered to the URC classifier.
   */
  function WaitOutcome(w: World, table: Table, r1: Option<Token>, r2: Option<Token>, data: seq<Event>): (r: Out<int>)
    ensures 0 <= r.value <= 2
    ensures r.world.output == w.output
    ensures |r.world.input| <= |w.input|
    ensures |w.input| > 0 ==> |r.world.input| < |w.input|
    decreases |w.input|
  {
    if w.input == [] then Out(0, w)
    else
      var e := w.input[0];
      var w1 := w.(input := w.input[1..]);
      if e.Silence? then Out(0, w1)
      else if r1.Some? && e == Line(r1.value) then Out(1, w1)
      else if r2.Some? && e == Line(r2.value) then Out(2, w1)
      else
        var h := UrcOutcome(w1, table, data + [e]);
        WaitOutcome(h.world, table, r1, r2, h.data)
  }

  /** `waitResponse()` with its default replies. */
  function WaitOk(w: World, table: Table): (r: Out<int>)
  {
    WaitOutcome(w, table, Some(Ok), Some(Error), [])
  }

  /** `waitResponse(r)`: `r` first, then the default error reply. */
  function WaitFor(w: World, table: Table, t: Token): (r: Out<int>)
  {
    WaitOutcome(w, table, Some(t), Some(Error), [])
  }

  /**
   * `modemConnect`: creates a socket, learns the mux the module granted,
   * connects it and waits for the connect notification.
   */
  function ConnectOutcome(w: World, table: Table, host: string, port: uint16, mux: uint8): (r: Opened)
  {
    var a := WaitFor(Write(w, CfgCommand(host, port)), table, KtcpCfg);
    if a.value != 1 then Opened(false, mux, a.world)
    else
      var m := GetIntBefore(a.world.input);
      var granted := Uint8(m.value);
      var b := WaitOk(a.world.(input := m.rest), table);
      var c := WaitOk(Write(b.world, CnxCommand(granted)), table);
      var d := WaitFor(c.world, table, KtcpInd);
      Opened(d.value == 1, granted, d.world)
  }

  /**
   * `modemSend`: refuses a socket that is not connected, then sends the
   * request, waits for the handshake, writes the payload and the sentinel and
   * waits for OK; the trailing data notification is optional.
   */
  function SendOutcome(w: World, table: Table, data: seq<byte>, mux: uint8): (r: Out<int>)
    requires table[mux % MuxCount] != null
  {
    var c := table[mux % MuxCount];
    if c !in w.socks || !w.socks[c].connected then Out(0, w)
    else
      var a := WaitFor(Write(w, SndCommand(mux, |data|)), table, Connect);
      if a.value != 1 then Out(0, a.world)
      else
        var b := WaitOk(Write(Write(a.world, Chars(data)), Sentinel), table);
        if b.value != 1 then Out(0, b.world)
        else
          var d := WaitFor(b.world, table, KtcpData);
          Out(Int16(|data|), d.world)
  }

  /**
   * `modemGetAvailable`: queries the socket status; the received-data count
   * is the result, and a zero count sets the connected flag to whether the
   * notification code is -1 (0 when no status line arrives).
   */
  function AvailableOutcome(w: World, table: Table, mux: uint8): (r: Out<int>)
    requires table[mux % MuxCount] != null
  {
    var a := WaitFor(Write(w, StatCommand(mux)), table, KtcpStat);
    if a.value == 1 then
      var n := GetIntBefore(SkipUntil(a.world.input));
      var v := GetIntBefore(SkipUntil(n.rest));
      var b := WaitOk(a.world.(input := v.rest), table);
      Out(v.value, if v.value == 0 then SetConnected(b.world, table[mux % MuxCount], Int8(n.value) == -1) else b.world)
    else
      Out(0, SetConnected(a.world, table[mux % MuxCount], false))
  }

  /** `modemGetConnected`: whether a status line arrives with notification code -1. */
  function ConnectedOutcome(w: World, table: Table, mux: uint8): (r: Out<bool>)
  {
    var a := WaitFor(Write(w, StatCommand(mux)), table, KtcpStat);
    if a.value != 1 then Out(false, a.world)
    else
      var status := GetIntBefore(a.world.input);
      var n := GetIntBefore(status.rest);
      var b := WaitOk(a.world.(input := n.rest), table);
      Out(Int8(n.value) == -1, b.world)
  }

  /**
   * `modemRead`: on an occupied slot, requests `size` bytes, waits for the
   * handshake, moves `size` raw reads into the socket's queue, waits for the
   * sentinel and OK, and refreshes the available count.
   */
  function ReadOutcome(w: World, table: Table, size: nat, mux: uint8): (r: Out<nat>)
  {
    var c := table[mux % MuxCount];
    if c == null then Out(0, w)
    else
      var a := WaitFor(Write(w, RcvCommand(mux, size)), table, Connect);
      if a.value != 1 then Out(0, a.world)
      else
        var got := ReadBytes(a.world.input, size);
        Out(size, ReadTailOutcome(AppendRx(a.world.(input := got.rest), c, got.value), table, mux))
  }

  /** The end of `modemRead`: waits for the sentinel and OK, then refreshes the available count. */
  function ReadTailOutcome(w: World, table: Table, mux: uint8): (r: World)
    requires table[mux % MuxCount] != null
  {
    var b := WaitFor(w, table, EofPattern);
    var d := WaitOk(b.world, table);
    var e := AvailableOutcome(d.world, table, mux);
    SetAvailable(e.world, table[mux % MuxCount], e.value)
  }

  /** `moveCharFromStreamToFifo`: one raw read into the queue of the socket in the slot of `mux`. */
  function MoveCharOutcome(w: World, table: Table, mux: uint8): (r: World)
  {
    var c := table[mux % MuxCount];
    if c == null then w
    else
      var b := ReadByte(w.input);
      AppendRx(w.(input := b.rest), c, [b.value])
  }

  lemma AppendRxEmpty(w: World, c: Client?)
    ensures AppendRx(w, c, []) == w
  {
    if c != null && c in w.socks {
      assert w.socks[c].rx + [] == w.socks[c].rx;
      assert w.socks[c := w.socks[c].(rx := w.socks[c].rx)] == w.socks;
    }
  }

  /** `i + 1` raw reads into a queue are `i` raw reads followed by one more. */
  lemma MoveCharStep(w: World, table: Table, mux: uint8, i: nat)
    requires table[mux % MuxCount] != null
    ensures var c, got, next := table[mux % MuxCount], ReadBytes(w.input, i), ReadBytes(w.input, i + 1);
      MoveCharOutcome(AppendRx(w.(input := got.rest), c, got.value), table, mux)
        == AppendRx(w.(input := next.rest), c, next.value)
  {
    var c, got := table[mux % MuxCount], ReadBytes(w.input, i);
    var b := ReadByte(got.rest);
    if c in w.socks {
      assert w.socks[c].rx + got.value + [b.value] == w.socks[c].rx + (got.value + [b.value]);
    }
  }

  /** One turn of the polling loop of `maintainImpl`, for mux `mux` in 1..6. */
  function PollOutcome(w: World, table: Table, mux: int): (r: World)
    requires 1 <= mux <= MuxCount
  {
    var c := table[mux % MuxCount];
    if c != null && c in w.socks && w.socks[c].gotData then
      var a := AvailableOutcome(SetGotData(w, c, false), table, mux);
      SetAvailable(a.world, c, a.value)
    else w
  }

  /** The polling loop of `maintainImpl` from mux `mux` up to 6. */
  function PollsFrom(w: World, table: Table, mux: int): (r: World)
    requires 1 <= mux <= MuxCount + 1
    decreases MuxCount + 1 - mux
  {
    if mux > MuxCount then w else PollsFrom(PollOutcome(w, table, mux), table, mux + 1)
  }

  /** The drain loop of `maintainImpl`: waits without an expected reply while input is available. */
  function DrainOutcome(w: World, table: Table): (r: World)
    ensures r.output == w.output
    decreases |w.input|
  {
    if Available(w.input) then DrainOutcome(WaitOutcome(w, table, None, None, []).world, table) else w
  }

  /** `maintainImpl`: polls the sockets flagged with data, then drains the notifications. */
  function MaintainOutcome(w: World, table: Table): (r: World)
  {
    DrainOutcome(PollsFrom(w, table, 1), table)
  }

  /** The mux `init` stores: kept when in 1..6, otherwise folded into 1..6. */
  function NormalMux(m: uint8): (r: uint8)
  {
    if 1 <= m <= MuxCount then m else m % MuxCount + 1
  }

  /**
   * The table update of `connect` after the module granted a mux: the slot
   * of the old mux is released when the mux changed, and the slot of the new
   * mux is claimed.
   */
  function Migrate(table: Table, oldMux: uint8, newMux: uint8, c: Client): (t: Table)
  {
    var t0 := if newMux != oldMux then table[oldMux % MuxCount := null] else table;
    t0[newMux % MuxCount := c]
  }

  /**
   * The same update as the source writes it: it releases entry `oldMux`
   * itself, which lies outside the table when `oldMux` is 6. `None` stands
   * for that write out of bounds.
   */
  function MigrateAsWritten(table: Table, oldMux: uint8, newMux: uint8, c: Client): (t: Option<Table>)
  {
    if newMux != oldMux && !(0 <= oldMux < MuxCount) then None
    else
      var t0: Table := if newMux != oldMux then table[oldMux := null] else table;
      var t1: Table := t0[newMux % MuxCount := c];
      Some(t1)
  }

  /**
   * The part of `GsmClientHL7800::connect` before `maintain`: empties the
   * receive queue, opens the socket, stores the granted mux and the result,
   * and moves the registration.
   */
  function ClientOpenOutcome(w: World, table: Table, c: Client, host: string, port: uint16): (r: Session)
    requires c in w.socks
  {
    var s := w.socks[c];
    var o := ConnectOutcome(EmptyRx(w, c), table, host, port, s.mux);
    Session(o.ok, SetConnected(SetMux(o.world, c, o.mux), c, o.ok), Migrate(table, s.mux, o.mux, c))
  }

  /**
   * `GsmClientHL7800::connect`: opens the socket, runs `maintain` and returns
   * the connected flag as `maintain` leaves it.
   */
  function ClientConnectOutcome(w: World, table: Table, c: Client, host: string, port: uint16): (r: Session)
    requires c in w.socks
  {
    var s := ClientOpenOutcome(w, table, c, host, port);
    var w2 := MaintainOutcome(s.world, s.table);
    Session(c in w2.socks && w2.socks[c].connected, w2, s.table)
  }

  /**
   * `GsmClientHL7800::stop`: closes and deletes the module's socket, waiting
   * for each reply, clears the connected flag after the first and the receive
   * queue after the second.
   */
  function StopOutcome(w: World, table: Table, c: Client): (r: World)
    requires c in w.socks
  {
    var mux := w.socks[c].mux;
    var a := WaitOk(Write(w, CloseCommand(mux)), table);
    var b := WaitOk(Write(SetConnected(a.world, c, false), DelCommand(mux)), table);
    EmptyRx(b.world, c)
  }

  /** The URC classifier, the waits and the socket operations never add or drop a socket nor touch a mux or a queue. */
  lemma UrcKeepsQueues(w: World, table: Table, data: seq<Event>)
    ensures SameQueues(w.socks, UrcOutcome(w, table, data).world.socks)
  {
  }

  lemma {:induction false} WaitKeepsQueues(w: World, table: Table, r1: Option<Token>, r2: Option<Token>, data: seq<Event>)
    ensures SameQueues(w.socks, WaitOutcome(w, table, r1, r2, data).world.socks)
    decreases |w.input|
  {
    if w.input != [] {
      var e := w.input[0];
      var w1 := w.(input := w.input[1..]);
      if !e.Silence? && !(r1.Some? && e == Line(r1.value)) && !(r2.Some? && e == Line(r2.value)) {
        var h := UrcOutcome(w1, table, data + [e]);
        UrcKeepsQueues(w1, table, data + [e]);
        WaitKeepsQueues(h.world, table, r1, r2, h.data);
      }
    }
  }

  lemma ConnectKeepsQueues(w: World, table: Table, host: string, port: uint16, mux: uint8)
    ensures SameQueues(w.socks, ConnectOutcome(w, table, host, port, mux).world.socks)
  {
    var w0 := Write(w, CfgCommand(host, port));
    WaitKeepsQueues(w0, table, Some(KtcpCfg), Some(Error), []);
    var a := WaitFor(w0, table, KtcpCfg);
    if a.value == 1 {
      var m := GetIntBefore(a.world.input);
      var wb := a.world.(input := m.rest);
      WaitKeepsQueues(wb, table, Some(Ok), Some(Error), []);
      var b := WaitOk(wb, table);
      var wc := Write(b.world, CnxCommand(Uint8(m.value)));
      WaitKeepsQueues(wc, table, Some(Ok), Some(Error), []);
      var c := WaitOk(wc, table);
      WaitKeepsQueues(c.world, table, Some(KtcpInd), Some(Error), []);
    }
  }

  lemma AvailableKeepsQueues(w: World, table: Table, mux: uint8)
    requires table[mux % MuxCount] != null
    ensures SameQueues(w.socks, AvailableOutcome(w, table, mux).world.socks)
  {
    var w0 := Write(w, StatCommand(mux));
    WaitKeepsQueues(w0, table, Some(KtcpStat), Some(Error), []);
    var a := WaitFor(w0, table, KtcpStat);
    if a.value == 1 {
      var n := GetIntBefore(SkipUntil(a.world.input));
      var v := GetIntBefore(SkipUntil(n.rest));
      WaitKeepsQueues(a.world.(input := v.rest), table, Some(Ok), Some(Error), []);
    }
  }

  lemma {:induction false} PollsKeepQueues(w: World, table: Table, mux: int)
    requires 1 <= mux <= MuxCount + 1
    ensures SameQueues(w.socks, PollsFrom(w, table, mux).socks)
    decreases MuxCount + 1 - mux
  {
    if mux <= MuxCount {
      var c := table[mux % MuxCount];
      if c != null && c in w.socks && w.socks[c].gotData {
        AvailableKeepsQueues(SetGotData(w, c, false), table, mux);
      }
      PollsKeepQueues(PollOutcome(w, table, mux), table, mux + 1);
    }
  }

  lemma {:induction false} DrainKeepsQueues(w: World, table: Table)
    ensures SameQueues(w.socks, DrainOutcome(w, table).socks)
    decreases |w.input|
  {
    if Available(w.input) {
      WaitKeepsQueues(w, table, None, None, []);
      DrainKeepsQueues(WaitOutcome(w, table, None, None, []).world, table);
    }
  }

  lemma MaintainKeepsQueues(w: World, table: Table)
    ensures SameQueues(w.socks, MaintainOutcome(w, table).socks)
  {
    PollsKeepQueues(w, table, 1);
    DrainKeepsQueues(PollsFrom(w, table, 1), table);
  }

  /** A client socket (`GsmClientHL7800`) and the fields the transport layer keeps for it. */
  class Client {
    var at: Modem
    var mux: uint8
    var sockConnected: bool
    var gotData: bool
    var sockAvailable: int
    var rx: seq<byte>

    function View(): Sock
      reads this
    {
      Sock(mux, sockConnected, gotData, sockAvailable, rx)
    }

    ghost predicate Valid()
      reads `at, at`sockets, at`Known, at.sockets
    {
      at.Valid() && this in at.Known
    }

    /** `GsmClientHL7800(modem, mux)`: a client with an empty queue, registered by `init`. */
    constructor (modem: Modem, m: uint8 := 1)
      requires modem.Valid()
      modifies modem`Known, modem.sockets
      ensures Valid() && at == modem
      ensures View() == Sock(NormalMux(m), false, false, 0, [])
      ensures modem.sockets[..] == old(modem.sockets[..])[NormalMux(m) % MuxCount := this]
      ensures modem.Known == old(modem.Known) + {this}
    {
      at, gotData, sockAvailable, rx := modem, false, 0, [];
      new;
      var ok := Init(modem, m);
    }

    /**
     * `init`: binds the client to the modem, clears its connected flag,
     * stores a mux in 1..6 and registers the client in that mux's slot.
     */
    method Init(modem: Modem, m: uint8 := 1) returns (ok: bool)
      requires modem.Valid()
      modifies this`at, this`mux, this`sockConnected, modem`Known, modem.sockets
      ensures ok && Valid() && at == modem
      ensures !sockConnected && mux == NormalMux(m)
      ensures modem.sockets[..] == old(modem.sockets[..])[NormalMux(m) % MuxCount := this]
      ensures modem.Known == old(modem.Known) + {this}
    {
      at := modem;
      sockConnected := false;
      if 1 <= m <= MuxCount {
        mux := m;
      } else {
        mux := m % MuxCount + 1;
      }
      at.sockets[mux % MuxCount] := this;
      at.Known := at.Known + {this};
      ok := true;
    }

    /** The part of `connect` before `maintain`: every effect is that of `ClientOpenOutcome`. */
    method Open(host: string, port: uint16)
      requires Valid()
      modifies this`mux, at`input, at`output, at.sockets
      modifies at.Known`sockConnected, at.Known`gotData, at.Known`sockAvailable, at.Known`rx
      ensures Valid()
      ensures var s := ClientOpenOutcome(old(at.Now()), old(at.Table()), this, host, port);
        at.Now() == s.world && at.Table() == s.table
    {
      at.ClearRx(this);
      var oldMux := mux;
      var linked, granted := at.ModemConnect(host, port, mux);
      at.PutMux(this, granted);
      at.PutConnected(this, linked);
      at.Rebind(this, oldMux, mux);
    }

    /** `connect`: the result and every effect are those of `ClientConnectOutcome`. */
    method Connect(host: string, port: uint16) returns (ok: bool)
      requires Valid()
      modifies this`mux, at`input, at`output, at.sockets
      modifies at.Known`sockConnected, at.Known`gotData, at.Known`sockAvailable, at.Known`rx
      ensures Valid()
      ensures var s := ClientConnectOutcome(old(at.Now()), old(at.Table()), this, host, port);
        ok == s.ok && at.Now() == s.world && at.Table() == s.table
    {
      ghost var w, t := at.Now(), at.Table();
      Open(host, port);
      ghost var s := ClientOpenOutcome(w, t, this, host, port);
      assert at.Now() == s.world && at.Table() == s.table;
      at.MaintainImpl();
      ok := sockConnected;
    }

    /** `stop`: every effect is that of `StopOutcome`. */
    method Stop()
      requires Valid()
      modifies at`input, at`output
      modifies at.Known`sockConnected, at.Known`gotData, at.Known`sockAvailable, at.Known`rx
      ensures Valid()
      ensures at.Now() == StopOutcome(old(at.Now()), old(at.Table()), this)
    {
      ghost var w := at.Now();
      assert w.socks[this].mux == mux;
      var r := at.SendAndWait("+KTCPCLOSE=" + Decimal(mux) + ",1");
      at.PutConnected(this, false);
      r := at.SendAndWait("+KTCPDEL=" + Decimal(mux));
      at.ClearRx(this);
    }
  }

  /** The driver (`TinyGsmHL7800`): the serial link and the socket table. */
  class Modem {
    var sockets: array<Client?>
    var input: seq<Event>
    var output: string
    /** Every client that has registered with this modem. */
    ghost var Known: set<Client>

    ghost predicate Valid()
      reads `sockets, `Known, sockets
    {
      sockets.Length == MuxCount &&
      forall i :: 0 <= i < MuxCount && sockets[i] != null ==> sockets[i] in Known
    }

    ghost function Table(): (t: Table)
      reads `sockets, `Known, sockets
      requires Valid()
    {
      sockets[..]
    }

    ghost function Now(): (w: World)
      reads this, Known
    {
      World(input, output, map c | c in Known :: Sock(c.mux, c.sockConnected, c.gotData, c.sockAvailable, c.rx))
    }

    /** The constructor: the link is the given script and every slot is empty. */
    constructor (script: seq<Event>)
      ensures Valid() && fresh(sockets)
      ensures input == script && output == "" && Known == {}
      ensures forall i :: 0 <= i < MuxCount ==> sockets[i] == null
    {
      sockets := new Client?[MuxCount](_ => null);
      input, output, Known := script, "", {};
    }

    /** `sendAT`: writes "AT", the command body and CR LF. */
    method SendAT(body: string)
      modifies `output
      ensures output == old(output) + Command(body)
      ensures Now() == Write(old(Now()), Command(body))
    {
      output := output + Command(body);
    }

    /** `sendAT` followed by `waitResponse()`: every effect is that of `WaitOk` over the command. */
    method SendAndWait(body: string) returns (index: int)
      requires Valid()
      modifies `input, `output, Known`sockConnected, Known`gotData, Known`sockAvailable
      ensures Valid()
      ensures Out(index, Now()) == WaitOk(Write(old(Now()), Command(body)), old(Table()))
    {
      SendAT(body);
      index := WaitResponse(Some(Ok), Some(Error));
    }

    /** `stream.write`. */
    method StreamWrite(text: string)
      modifies `output
      ensures output == old(output) + text
      ensures Now() == Write(old(Now()), text)
    {
      output := output + text;
    }

    /** `streamGetIntBefore`. */
    method StreamGetIntBefore() returns (v: int)
      modifies `input
      ensures GetIntBefore(old(input)) == Read(v, input)
      ensures Now() == old(Now()).(input := input)
    {
      var r := GetIntBefore(input);
      v, input := r.value, r.rest;
    }

    /** `streamSkipUntil`. */
    method StreamSkipUntil()
      modifies `input
      ensures input == SkipUntil(old(input))
      ensures Now() == old(Now()).(input := input)
    {
      input := SkipUntil(input);
    }

    /** `stream.read`, after the byte wait of `moveCharFromStreamToFifo`. */
    method StreamRead() returns (b: byte)
      modifies `input
      ensures ReadByte(old(input)) == Read(b, input)
      ensures Now() == old(Now()).(input := input)
    {
      var r := ReadByte(input);
      b, input := r.value, r.rest;
    }

    /** The field writes `sockets[mux]->...`, each seen as an update of the world. */
    method PutGotData(c: Client, v: bool)
      requires c in Known
      modifies c`gotData
      ensures Now() == SetGotData(old(Now()), c, v)
    {
      c.gotData := v;
    }

    method PutAvailable(c: Client, n: int)
      requires c in Known
      modifies c`sockAvailable
      ensures Now() == SetAvailable(old(Now()), c, n)
    {
      c.sockAvailable := n;
    }

    method PutConnected(c: Client, v: bool)
      requires c in Known
      modifies c`sockConnected
      ensures Now() == SetConnected(old(Now()), c, v)
    {
      c.sockConnected := v;
    }

    method PutMux(c: Client, m: uint8)
      requires c in Known
      modifies c`mux
      ensures Now() == SetMux(old(Now()), c, m)
    {
      c.mux := m;
    }

    method ClearRx(c: Client)
      requires c in Known
      modifies c`rx
      ensures Now() == EmptyRx(old(Now()), c)
    {
      c.rx := [];
    }

    method PushRx(c: Client, b: byte)
      requires c in Known
      modifies c`rx
      ensures Now() == AppendRx(old(Now()), c, [b])
    {
      c.rx := c.rx + [b];
    }

    /** The table writes of `connect`: release the slot of the old mux if it changed, claim the new one. */
    method Rebind(c: Client, oldMux: uint8, newMux: uint8)
      requires Valid() && c in Known
      modifies sockets
      ensures Valid() && Table() == Migrate(old(Table()), oldMux, newMux, c)
    {
      if newMux != oldMux {
        sockets[oldMux % MuxCount] := null;
      }
      sockets[newMux % MuxCount] := c;
    }

    /** `handleURCs`: every effect is that of `UrcOutcome`. */
    method HandleUrcs(data: seq<Event>) returns (handled: bool, remaining: seq<Event>)
      requires Valid()
      modifies `input, Known`sockConnected, Known`gotData, Known`sockAvailable
      ensures Classified(handled, remaining, Now()) == UrcOutcome(old(Now()), old(Table()), data)
    {
      ghost var w := Now();
      if EndsWith(data, KtcpData) {
        var m := StreamGetIntBefore();
        var len := StreamGetIntBefore();
        var mux := Int8(m);
        ghost var w1 := w.(input := input);
        assert Now() == w1;
        if 0 <= mux < MuxCount && sockets[mux % MuxCount] != null {
          PutGotData(sockets[mux % MuxCount], true);
          PutAvailable(sockets[mux % MuxCount], len);
        }
        return true, [];
      } else if EndsWith(data, TcpClose) {
        var m := StreamGetIntBefore();
        StreamSkipUntil();
        var mux := Int8(m);
        ghost var w1 := w.(input := input);
        assert Now() == w1;
        if 0 <= mux < MuxCount && sockets[mux % MuxCount] != null {
          PutConnected(sockets[mux % MuxCount], false);
        }
        return true, [];
      }
      return false, data;
    }

    /** `waitResponse(r1, r2)`: every effect is that of `WaitOutcome`. */
    method WaitResponse(r1: Option<Token>, r2: Option<Token>) returns (index: int)
      requires Valid()
      modifies `input, Known`sockConnected, Known`gotData, Known`sockAvailable
      ensures Out(index, Now()) == WaitOutcome(old(Now()), old(Table()), r1, r2, [])
    {
      var data: seq<Event> := [];
      while true
        invariant WaitOutcome(old(Now()), old(Table()), r1, r2, []) == WaitOutcome(Now(), Table(), r1, r2, data)
        decreases |input|
      {
        ghost var w := Now();
        if input == [] {
          return 0;
        }
        var e := input[0];
        input := input[1..];
        assert Now() == w.(input := w.input[1..]);
        if e.Silence? {
          return 0;
        }
        data := data + [e];
        if r1.Some? && e == Line(r1.value) {
          return 1;
        }
        if r2.Some? && e == Line(r2.value) {
          return 2;
        }
        var handled;
        handled, data := HandleUrcs(data);
      }
    }

    /** `modemConnect`: every effect is that of `ConnectOutcome`. */
    method ModemConnect(host: string, port: uint16, mux: uint8) returns (ok: bool, granted: uint8)
      requires Valid()
      modifies `input, `output, Known`sockConnected, Known`gotData, Known`sockAvailable
      ensures Opened(ok, granted, Now()) == ConnectOutcome(old(Now()), old(Table()), host, port, mux)
    {
      granted := mux;
      SendAT("+KTCPCFG=1,0,\"" + host + "\"," + Decimal(port));
      var r := WaitResponse(Some(KtcpCfg), Some(Error));
      if r != 1 {
        return false, granted;
      }
      var m := StreamGetIntBefore();
      granted := Uint8(m);
      r := WaitResponse(Some(Ok), Some(Error));
      SendAT("+KTCPCNX=" + Decimal(granted));
      r := WaitResponse(Some(Ok), Some(Error));
      var rsp := WaitResponse(Some(KtcpInd), Some(Error));
      ok := rsp == 1;
    }

    /** `modemSend`: every effect is that of `SendOutcome`. */
    method ModemSend(data: seq<byte>, mux: uint8) returns (sent: int)
      requires Valid() && sockets[mux % MuxCount] != null
      modifies `input, `output, Known`sockConnected, Known`gotData, Known`sockAvailable
      ensures Out(sent, Now()) == SendOutcome(old(Now()), old(Table()), data, mux)
    {
      ghost var w := Now();
      assert sockets[mux % MuxCount] in w.socks;
      if !sockets[mux % MuxCount].sockConnected {
        assert SendOutcome(w, Table(), data, mux) == Out(0, w);
        return 0;
      }
      SendAT("+KTCPSND=" + Decimal(mux) + "," + Decimal(Uint16(|data|)));
      var r := WaitResponse(Some(Connect), Some(Error));
      ghost var a := Now();
      assert Out(r, a) == WaitFor(Write(w, SndCommand(mux, |data|)), Table(), Connect);
      if r != 1 {
        assert SendOutcome(w, Table(), data, mux) == Out(0, a);
        return 0;
      }
      StreamWrite(Chars(data));
      StreamWrite(Sentinel);
      r := WaitResponse(Some(Ok), Some(Error));
      ghost var b := Now();
      assert Out(r, b) == WaitOk(Write(Write(a, Chars(data)), Sentinel), Table());
      if r != 1 {
        assert SendOutcome(w, Table(), data, mux) == Out(0, b);
        return 0;
      }
      // the trailing data notification is awaited, but its absence is not an error
      r := WaitResponse(Some(KtcpData), Some(Error));
      sent := Int16(|data|);
      assert SendOutcome(w, Table(), data, mux) == Out(sent, Now());
    }

    /** `moveCharFromStreamToFifo`: every effect is that of `MoveCharOutcome`. */
    method MoveCharFromStreamToFifo(mux: uint8)
      requires Valid()
      modifies `input, Known`rx
      ensures Now() == MoveCharOutcome(old(Now()), old(Table()), mux)
    {
      if sockets[mux % MuxCount] == null {
        return;
      }
      var b := StreamRead();
      PushRx(sockets[mux % MuxCount], b);
    }

    /** `modemRead`: every effect is that of `ReadOutcome`. */
    method ModemRead(size: nat, mux: uint8) returns (n: nat)
      requires Valid()
      modifies `input, `output, Known`sockConnected, Known`gotData, Known`sockAvailable, Known`rx
      ensures Out(n, Now()) == ReadOutcome(old(Now()), old(Table()), size, mux)
    {
      ghost var w, t := Now(), Table();
      var sock := sockets[mux % MuxCount];
      if sock == null {
        assert ReadOutcome(w, t, size, mux) == Out(0, w);
        return 0;
      }
      SendAT("+KTCPRCV=" + Decimal(mux) + "," + Decimal(Uint16(size)));
      var r := WaitResponse(Some(Connect), Some(Error));
      ghost var a := Now();
      assert Out(r, a) == WaitFor(Write(w, RcvCommand(mux, size)), t, Connect);
      if r != 1 {
        assert ReadOutcome(w, t, size, mux) == Out(0, a);
        return 0;
      }
      MoveChars(size, mux);
      ghost var got := ReadBytes(a.input, size);
      assert ReadOutcome(w, t, size, mux) == Out(size, ReadTailOutcome(Now(), t, mux));
      FinishRead(mux);
      n := size;
    }

    /** The copy loop of `modemRead`: `size` raw reads in a row into the queue of the socket in the slot of `mux`. */
    method MoveChars(size: nat, mux: uint8)
      requires Valid() && sockets[mux % MuxCount] != null
      modifies `input, Known`rx
      ensures Valid() && Table() == old(Table())
      ensures var got := ReadBytes(old(input), size);
        Now() == AppendRx(old(Now()).(input := got.rest), old(sockets[mux % MuxCount]), got.value)
    {
      ghost var a, t := Now(), Table();
      ghost var sock := sockets[mux % MuxCount];
      AppendRxEmpty(a, sock);
      var i := 0;
      while i < size
        invariant 0 <= i <= size
        invariant Valid() && Table() == t
        invariant Now() == AppendRx(a.(input := ReadBytes(a.input, i).rest), sock, ReadBytes(a.input, i).value)
      {
        MoveCharFromStreamToFifo(mux);
        MoveCharStep(a, t, mux, i);
        i := i + 1;
      }
    }

    /** The end of `modemRead`: every effect is that of `ReadTailOutcome`. */
    method FinishRead(mux: uint8)
      requires Valid() && sockets[mux % MuxCount] != null
      modifies `input, `output, Known`sockConnected, Known`gotData, Known`sockAvailable
      ensures Now() == ReadTailOutcome(old(Now()), old(Table()), mux)
    {
      var r := WaitResponse(Some(EofPattern), Some(Error));
      r := WaitResponse(Some(Ok), Some(Error));
      ghost var d := Now();
      var available := ModemGetAvailable(mux);
      ghost var e := Out(available, Now());
      assert e == AvailableOutcome(d, old(Table()), mux);
      PutAvailable(sockets[mux % MuxCount], available);
    }

    /** `modemGetAvailable`: every effect is that of `AvailableOutcome`. */
    method ModemGetAvailable(mux: uint8) returns (result: int)
      requires Valid() && sockets[mux % MuxCount] != null
      modifies `input, `output, Known`sockConnected, Known`gotData, Known`sockAvailable
      ensures Out(result, Now()) == AvailableOutcome(old(Now()), old(Table()), mux)
    {
      SendAT("+KTCPSTAT=" + Decimal(mux));
      result := 0;
      var notif := 0;
      var r := WaitResponse(Some(KtcpStat), Some(Error));
      if r == 1 {
        StreamSkipUntil();
        var n := StreamGetIntBefore();
        notif := Int8(n);
        StreamSkipUntil();
        result := StreamGetIntBefore();
        r := WaitResponse(Some(Ok), Some(Error));
      }
      if result == 0 {
        PutConnected(sockets[mux % MuxCount], notif == -1);
      }
    }

    /** `modemGetConnected`: every effect is that of `ConnectedOutcome`. */
    method ModemGetConnected(mux: uint8) returns (up: bool)
      requires Valid()
      modifies `input, `output, Known`sockConnected, Known`gotData, Known`sockAvailable
      ensures Out(up, Now()) == ConnectedOutcome(old(Now()), old(Table()), mux)
    {
      SendAT("+KTCPSTAT=" + Decimal(mux));
      var r := WaitResponse(Some(KtcpStat), Some(Error));
      if r != 1 {
        return false;
      }
      var status := StreamGetIntBefore();
      var n := StreamGetIntBefore();
      var notif := Int8(n);
      r := WaitResponse(Some(Ok), Some(Error));
      up := notif == -1;
    }

    /** One turn of the polling loop of `maintainImpl`: every effect is that of `PollOutcome`. */
    method Poll(mux: int)
      requires Valid() && 1 <= mux <= MuxCount
      modifies `input, `output, Known`sockConnected, Known`gotData, Known`sockAvailable
      ensures Now() == PollOutcome(old(Now()), old(Table()), mux)
    {
      var sock := sockets[mux % MuxCount];
      if sock != null && sock.gotData {
        PutGotData(sock, false);
        var available := ModemGetAvailable(mux);
        PutAvailable(sock, available);
      }
    }

    /** `maintainImpl`: every effect is that of `MaintainOutcome`. */
    method MaintainImpl()
      requires Valid()
      modifies `input, `output, Known`sockConnected, Known`gotData, Known`sockAvailable
      ensures Valid() && Table() == old(Table())
      ensures Now() == MaintainOutcome(old(Now()), old(Table()))
    {
      ghost var t := Table();
      var mux := 1;
      while mux <= MuxCount
        invariant 1 <= mux <= MuxCount + 1
        invariant Valid() && Table() == t
        invariant PollsFrom(old(Now()), t, 1) == PollsFrom(Now(), t, mux)
      {
        Poll(mux);
        mux := mux + 1;
      }
      while Available(input)
        invariant Valid() && Table() == t
        invariant MaintainOutcome(old(Now()), t) == DrainOutcome(Now(), t)
        decreases |input|
      {
        var r := WaitResponse(None, None);
      }
    }
  }
}

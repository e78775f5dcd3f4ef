/**
 * What the socket layer of the HL7800 driver promises, proved about the
 * outcome functions that the driver's methods are verified against.
 */
module Hl7800Properties {
  import opened AtStream
  import opened Hl7800

  /** `a` is what remains of the script `b` after some events were read from its front. */
  predicate Suffix(a: seq<Event>, b: seq<Event>)
  {
    |a| <= |b| && a == b[|b| - |a|..]
  }

  lemma SuffixTrans(a: seq<Event>, b: seq<Event>, c: seq<Event>)
    requires Suffix(a, b) && Suffix(b, c)
    ensures Suffix(a, c)
    ensures forall k :: 0 <= k < |b| - |a| ==> b[k] == c[|c| - |b| + k]
  {
    assert c[|c| - |b|..][|b| - |a|..] == c[|c| - |a|..];
  }

  lemma SuffixIn(x: Event, a: seq<Event>, b: seq<Event>)
    requires Suffix(a, b) && x in a
    ensures x in b
  {
    var k :| 0 <= k < |a| && a[k] == x;
    assert b[|b| - |a| + k] == x;
  }

  lemma GetIntSuffix(s: seq<Event>)
    ensures Suffix(GetIntBefore(s).rest, s)
  {
  }

  lemma SkipSuffix(s: seq<Event>)
    ensures Suffix(SkipUntil(s), s)
  {
  }

  lemma SuffixTail(s: seq<Event>)
    requires s != []
    ensures Suffix(s[1..], s)
  {
  }

  /** An integer read over a field takes exactly that field. */
  lemma ReadField(v: int, s: seq<Event>)
    ensures GetIntBefore([Field(v)] + s) == Read(Int16(v), s)
  {
    assert ([Field(v)] + s)[1..] == s;
  }

  /** A skip over a field takes exactly that field. */
  lemma SkipField(v: int, s: seq<Event>)
    ensures SkipUntil([Field(v)] + s) == s
  {
    assert ([Field(v)] + s)[1..] == s;
  }

  /** The URC classifier reads its fields from the front of the script. */
  lemma UrcSuffix(w: World, table: Table, data: seq<Event>)
    ensures Suffix(UrcOutcome(w, table, data).world.input, w.input)
  {
    var m := GetIntBefore(w.input);
    GetIntSuffix(w.input);
    if EndsWith(data, KtcpData) {
      var n := GetIntBefore(m.rest);
      assert UrcOutcome(w, table, data).world.input == n.rest;
      GetIntSuffix(m.rest);
      SuffixTrans(n.rest, m.rest, w.input);
    } else if EndsWith(data, TcpClose) {
      assert UrcOutcome(w, table, data).world.input == SkipUntil(m.rest);
      SkipSuffix(m.rest);
      SuffixTrans(SkipUntil(m.rest), m.rest, w.input);
    }
  }

  /**
   * What a wait with result `r` read from `input`: a front part of it, whose
   * last event is the first awaited reply (result 1), the second one (result
   * 2), or a timeout unless the script ran out (result 0).
   */
  ghost predicate Consumes(input: seq<Event>, r: Out<int>, r1: Option<Token>, r2: Option<Token>)
  {
    var n := |input| - |r.world.input|;
    Suffix(r.world.input, input) &&
    (r.value == 1 ==> r1.Some? && n > 0 && input[n - 1] == Line(r1.value)) &&
    (r.value == 2 ==> r2.Some? && n > 0 && input[n - 1] == Line(r2.value)) &&
    (r.value == 0 ==> r.world.input == [] || (n > 0 && input[n - 1] == Silence))
  }

  /** Reading more from the front first does not change which event a wait read last. */
  lemma ConsumesLonger(a: seq<Event>, b: seq<Event>, r: Out<int>, r1: Option<Token>, r2: Option<Token>)
    requires Suffix(b, a) && Consumes(b, r, r1, r2)
    ensures Consumes(a, r, r1, r2)
  {
    SuffixTrans(r.world.input, b, a);
    var n, k := |a| - |r.world.input|, |b| - |r.world.input|;
    if k > 0 {
      assert b[k - 1] == a[|a| - |b| + (k - 1)];
    }
  }

  /** A wait only ever reads the script from its front, and its result names the last event it read. */
  lemma {:induction false} WaitConsumes(w: World, table: Table, r1: Option<Token>, r2: Option<Token>, data: seq<Event>)
    ensures Consumes(w.input, WaitOutcome(w, table, r1, r2, data), r1, r2)
    decreases |w.input|
  {
    if w.input != [] {
      var e := w.input[0];
      var w1 := w.(input := w.input[1..]);
      if !e.Silence? && !(r1.Some? && e == Line(r1.value)) && !(r2.Some? && e == Line(r2.value)) {
        var h := UrcOutcome(w1, table, data + [e]);
        UrcSuffix(w1, table, data + [e]);
        SuffixTail(w.input);
        SuffixTrans(h.world.input, w1.input, w.input);
        WaitConsumes(h.world, table, r1, r2, h.data);
        ConsumesLonger(w.input, h.world.input, WaitOutcome(h.world, table, r1, r2, h.data), r1, r2);
      } else {
        SuffixTail(w.input);
      }
    }
  }

  /** An awaited reply that a wait reports was in the script. */
  lemma WaitIn(w: World, table: Table, r1: Option<Token>, r2: Option<Token>, data: seq<Event>)
    ensures var r := WaitOutcome(w, table, r1, r2, data);
      Suffix(r.world.input, w.input) &&
      (r.value == 1 ==> r1.Some? && Line(r1.value) in w.input) &&
      (r.value == 2 ==> r2.Some? && Line(r2.value) in w.input)
  {
    WaitConsumes(w, table, r1, r2, data);
    var r := WaitOutcome(w, table, r1, r2, data);
    var n := |w.input| - |r.world.input|;
    if r.value == 1 || r.value == 2 {
      assert w.input[n - 1] in w.input;
    }
  }

  /**
   * The line buffer of a wait never decides anything: each line is classified
   * by itself, so the wait's result and world do not depend on what the buffer
   * held before.
   */
  lemma {:induction false} WaitIgnoresBuffer(w: World, table: Table, r1: Option<Token>, r2: Option<Token>, d1: seq<Event>, d2: seq<Event>)
    ensures WaitOutcome(w, table, r1, r2, d1) == WaitOutcome(w, table, r1, r2, d2)
    decreases |w.input|
  {
    if w.input != [] {
      var e := w.input[0];
      var w1 := w.(input := w.input[1..]);
      if !e.Silence? && !(r1.Some? && e == Line(r1.value)) && !(r2.Some? && e == Line(r2.value)) {
        assert EndsWith(d1 + [e], KtcpData) == EndsWith(d2 + [e], KtcpData);
        assert EndsWith(d1 + [e], TcpClose) == EndsWith(d2 + [e], TcpClose);
        var h1 := UrcOutcome(w1, table, d1 + [e]);
        var h2 := UrcOutcome(w1, table, d2 + [e]);
        WaitIgnoresBuffer(h1.world, table, r1, r2, h1.data, h2.data);
      }
    }
  }

  /** A wait that meets the first awaited reply at the front of the script returns 1. */
  lemma WaitHit(w: World, table: Table, t: Token, r2: Option<Token>, s: seq<Event>)
    requires w.input == [Line(t)] + s
    ensures WaitOutcome(w, table, Some(t), r2, []) == Out(1, w.(input := s))
  {
    assert w.input[1..] == s;
  }

  /** A wait that meets a timeout at the front of the script returns 0. */
  lemma WaitTimeout(w: World, table: Table, r1: Option<Token>, r2: Option<Token>, s: seq<Event>)
    requires w.input == [Silence] + s
    ensures WaitOutcome(w, table, r1, r2, []) == Out(0, w.(input := s))
  {
    assert w.input[1..] == s;
  }

  /**
   * A notification line that arrives during a wait is handed to the URC
   * classifier and is never taken as the awaited reply: the wait goes on over
   * the world the classifier leaves.
   */
  lemma WaitPassesUrc(w: World, table: Table, r1: Option<Token>, r2: Option<Token>, u: Token, s: seq<Event>)
    requires u == KtcpData || u == TcpClose
    requires r1 != Some(u) && r2 != Some(u)
    requires w.input == [Line(u)] + s
    ensures WaitOutcome(w, table, r1, r2, []) ==
      WaitOutcome(UrcOutcome(w.(input := s), table, [Line(u)]).world, table, r1, r2, [])
  {
    assert w.input[1..] == s;
    assert [] + [Line(u)] == [Line(u)];
  }

  /**
   * A "data available" notification ahead of the awaited reply: the wait
   * still returns 1, and the socket of the announced mux is flagged with the
   * announced length on the way.
   */
  lemma WaitAfterDataUrc(w: World, table: Table, t: Token, m: int, len: int, s: seq<Event>)
    requires t != KtcpData
    requires 0 <= m < MuxCount && -0x8000 <= len < 0x8000
    requires table[m] != null && table[m] in w.socks
    requires w.input == [Line(KtcpData), Field(m), Field(len), Line(t)] + s
    ensures var c := table[m];
      WaitOutcome(w, table, Some(t), Some(Error), []) ==
      Out(1, World(s, w.output, w.socks[c := w.socks[c].(gotData := true, available := len)]))
  {
    var rest := [Field(m), Field(len)] + ([Line(t)] + s);
    assert w.input == [Line(KtcpData)] + rest;
    WaitPassesUrc(w, table, Some(t), Some(Error), KtcpData, rest);
    UrcDataAvailable(w.(input := rest), table, [Line(KtcpData)], m, len, [Line(t)] + s);
    var c := table[m];
    WaitHit(World([Line(t)] + s, w.output, w.socks[c := w.socks[c].(gotData := true, available := len)]), table, t, Some(Error), s);
  }

  /** A wait never sets a connected flag: at most a "peer closed" notification clears one. */
  lemma {:induction false} WaitKeepsClosed(w: World, table: Table, r1: Option<Token>, r2: Option<Token>, data: seq<Event>, c: Client)
    requires c in w.socks && !w.socks[c].connected
    ensures var r := WaitOutcome(w, table, r1, r2, data);
      c in r.world.socks && !r.world.socks[c].connected
    decreases |w.input|
  {
    if w.input != [] {
      var e := w.input[0];
      var w1 := w.(input := w.input[1..]);
      if !e.Silence? && !(r1.Some? && e == Line(r1.value)) && !(r2.Some? && e == Line(r2.value)) {
        var h := UrcOutcome(w1, table, data + [e]);
        WaitKeepsClosed(h.world, table, r1, r2, h.data, c);
      }
    }
  }

  /**
   * `handleURCs` on "data available" for mux `m` of an occupied slot: the
   * line is claimed, the buffer emptied, the two fields read, and that socket
   * is flagged with the announced length.
   */
  lemma UrcDataAvailable(w: World, table: Table, data: seq<Event>, m: int, len: int, s: seq<Event>)
    requires EndsWith(data, KtcpData)
    requires 0 <= m < MuxCount && -0x8000 <= len < 0x8000
    requires table[m] != null && table[m] in w.socks
    requires w.input == [Field(m), Field(len)] + s
    ensures var c := table[m];
      UrcOutcome(w, table, data) ==
      Classified(true, [], World(s, w.output, w.socks[c := w.socks[c].(gotData := true, available := len)]))
  {
    assert w.input == [Field(m)] + ([Field(len)] + s);
    ReadField(m, [Field(len)] + s);
    ReadField(len, s);
    assert m % MuxCount == m;
  }

  /** `handleURCs` on "peer closed" for mux `m` of an occupied slot clears that socket's connected flag. */
  lemma UrcPeerClosed(w: World, table: Table, data: seq<Event>, m: int, reason: int, s: seq<Event>)
    requires EndsWith(data, TcpClose)
    requires 0 <= m < MuxCount
    requires table[m] != null && table[m] in w.socks
    requires w.input == [Field(m), Field(reason)] + s
    ensures var c := table[m];
      UrcOutcome(w, table, data) ==
      Classified(true, [], World(s, w.output, w.socks[c := w.socks[c].(connected := false)]))
  {
    assert w.input == [Field(m)] + ([Field(reason)] + s);
    ReadField(m, [Field(reason)] + s);
    SkipField(reason, s);
    assert m % MuxCount == m;
  }

  /**
   * A recognised notification whose mux is outside 0..5 (mux 6 included,
   * although mux 6 lives in slot 0) or names an empty slot is still claimed,
   * but changes no socket.
   */
  lemma UrcOutsideTable(w: World, table: Table, data: seq<Event>)
    requires EndsWith(data, KtcpData) || EndsWith(data, TcpClose)
    requires var mux := Int8(GetIntBefore(w.input).value);
      !(0 <= mux < MuxCount && table[mux % MuxCount] != null)
    ensures var r := UrcOutcome(w, table, data);
      r.handled && r.data == [] && r.world.socks == w.socks && r.world.output == w.output
  {
  }

  /** Any other line is left to the wait: not claimed, the buffer and the world untouched. */
  lemma UrcOtherLine(w: World, table: Table, data: seq<Event>)
    requires !EndsWith(data, KtcpData) && !EndsWith(data, TcpClose)
    ensures UrcOutcome(w, table, data) == Classified(false, data, w)
  {
  }

  /** `init` stores a mux in 1..6: an in-range mux is kept, and mux 6 lives in slot 0. */
  lemma NormalMuxInRange(m: uint8)
    ensures 1 <= NormalMux(m) <= MuxCount
    ensures 1 <= m <= MuxCount ==> NormalMux(m) == m
    ensures !(1 <= m <= MuxCount) ==> NormalMux(m) == m % MuxCount + 1
    ensures NormalMux(NormalMux(m)) == NormalMux(m)
    ensures NormalMux(m) % MuxCount == if NormalMux(m) == MuxCount then 0 else NormalMux(m)
  {
  }

  /**
   * The table update of `connect`: the new mux's slot holds the client, the
   * old mux's slot is released when the mux changed (and is not the same
   * slot), and every other slot is unchanged.
   */
  lemma MigrateClaims(table: Table, oldMux: uint8, newMux: uint8, c: Client)
    ensures var t := Migrate(table, oldMux, newMux, c);
      t[newMux % MuxCount] == c &&
      (newMux != oldMux && oldMux % MuxCount != newMux % MuxCount ==> t[oldMux % MuxCount] == null) &&
      (forall i :: 0 <= i < MuxCount && i != newMux % MuxCount && (newMux == oldMux || i != oldMux % MuxCount) ==>
        t[i] == table[i])
  {
  }

  /** The update as written releases an entry outside the 6-entry table whenever an old mux of 6 or more is replaced. */
  lemma MigrateAsWrittenOutOfBounds(table: Table, oldMux: uint8, newMux: uint8, c: Client)
    requires oldMux >= MuxCount && newMux != oldMux
    ensures MigrateAsWritten(table, oldMux, newMux, c) == None
  {
  }

  /** Where the update as written stays inside the table, it is the corrected update. */
  lemma MigrateAsWrittenAgrees(table: Table, oldMux: uint8, newMux: uint8, c: Client)
    requires oldMux < MuxCount || oldMux == newMux
    ensures MigrateAsWritten(table, oldMux, newMux, c) == Some(Migrate(table, oldMux, newMux, c))
  {
  }

  /**
   * `modemConnect` succeeds only when both the creation reply and the connect
   * notification arrived; without the creation reply it fails and hands back
   * the mux it was given.
   */
  lemma ConnectNeedsReplies(w: World, table: Table, host: string, port: uint16, mux: uint8)
    ensures var r := ConnectOutcome(w, table, host, port, mux);
      (r.ok ==> Line(KtcpCfg) in w.input && Line(KtcpInd) in w.input) &&
      (Line(KtcpCfg) !in w.input ==> !r.ok && r.mux == mux)
  {
    var w0 := Write(w, CfgCommand(host, port));
    WaitIn(w0, table, Some(KtcpCfg), Some(Error), []);
    var a := WaitFor(w0, table, KtcpCfg);
    if a.value == 1 {
      ConnectTailNeedsInd(a.world, table);
      if ConnectOutcome(w, table, host, port, mux).ok {
        SuffixIn(Line(KtcpInd), a.world.input, w0.input);
      }
    }
  }

  /** The steps of `modemConnect` after the creation reply succeed only over a connect notification. */
  lemma ConnectTailNeedsInd(x: World, table: Table)
    ensures var m := GetIntBefore(x.input);
      var b := WaitOk(x.(input := m.rest), table);
      var c := WaitOk(Write(b.world, CnxCommand(Uint8(m.value))), table);
      WaitFor(c.world, table, KtcpInd).value == 1 ==> Line(KtcpInd) in x.input
  {
    var m := GetIntBefore(x.input);
    var wb := x.(input := m.rest);
    GetIntSuffix(x.input);
    WaitIn(wb, table, Some(Ok), Some(Error), []);
    var b := WaitOk(wb, table);
    var wc := Write(b.world, CnxCommand(Uint8(m.value)));
    WaitIn(wc, table, Some(Ok), Some(Error), []);
    var c := WaitOk(wc, table);
    WaitIn(c.world, table, Some(KtcpInd), Some(Error), []);
    if WaitFor(c.world, table, KtcpInd).value == 1 {
      SuffixIn(Line(KtcpInd), c.world.input, wc.input);
      SuffixIn(Line(KtcpInd), wc.input, wb.input);
      SuffixIn(Line(KtcpInd), wb.input, x.input);
    }
  }

  /**
   * `modemConnect` over the replies of a successful connect: it writes the
   * creation and connect commands, adopts the granted mux and succeeds.
   */
  lemma ConnectScripted(w: World, table: Table, host: string, port: uint16, mux: uint8, g: uint8, s: seq<Event>)
    requires w.input == [Line(KtcpCfg), Field(g), Line(Ok), Line(Ok), Line(KtcpInd)] + s
    ensures ConnectOutcome(w, table, host, port, mux) ==
      Opened(true, g, World(s, w.output + CfgCommand(host, port) + CnxCommand(g), w.socks))
  {
    var w0 := Write(w, CfgCommand(host, port));
    var s1 := [Field(g), Line(Ok), Line(Ok), Line(KtcpInd)] + s;
    assert w0.input == [Line(KtcpCfg)] + s1;
    WaitHit(w0, table, KtcpCfg, Some(Error), s1);
    ConnectTailScripted(w0.(input := s1), table, g, s);
  }

  /**
   * A socket-creation reply whose mux field times out grants mux 241, the
   * `uint8_t` of the reader's -9999, whatever follows: a client can hold a mux
   * of 7 or more.
   */
  lemma ConnectFieldTimeout(w: World, table: Table, host: string, port: uint16, mux: uint8, s: seq<Event>)
    requires w.input == [Line(KtcpCfg), Silence] + s
    ensures ConnectOutcome(w, table, host, port, mux).mux == 241
  {
    var w0 := Write(w, CfgCommand(host, port));
    assert w0.input == [Line(KtcpCfg)] + ([Silence] + s);
    WaitHit(w0, table, KtcpCfg, Some(Error), [Silence] + s);
    assert ([Silence] + s)[1..] == s;
  }

  /** The steps of `modemConnect` after the creation reply, over the replies of a successful connect. */
  lemma ConnectTailScripted(x: World, table: Table, g: uint8, s: seq<Event>)
    requires x.input == [Field(g), Line(Ok), Line(Ok), Line(KtcpInd)] + s
    ensures var m := GetIntBefore(x.input);
      var b := WaitOk(x.(input := m.rest), table);
      var c := WaitOk(Write(b.world, CnxCommand(Uint8(m.value))), table);
      Uint8(m.value) == g &&
      WaitFor(c.world, table, KtcpInd) == Out(1, World(s, x.output + CnxCommand(g), x.socks))
  {
    var s2 := [Line(Ok), Line(Ok), Line(KtcpInd)] + s;
    assert x.input == [Field(g)] + s2;
    ReadField(g, s2);
    var s3 := [Line(Ok), Line(KtcpInd)] + s;
    assert s2 == [Line(Ok)] + s3;
    WaitHit(x.(input := s2), table, Ok, Some(Error), s3);
    var wc := Write(x.(input := s3), CnxCommand(g));
    var s4 := [Line(KtcpInd)] + s;
    assert s3 == [Line(Ok)] + s4;
    WaitHit(wc, table, Ok, Some(Error), s4);
    WaitHit(wc.(input := s4), table, KtcpInd, Some(Error), s);
  }

  /** `modemSend` on a socket that is not connected returns 0 and writes nothing. */
  lemma SendNotConnected(w: World, table: Table, data: seq<byte>, mux: uint8)
    requires table[mux % MuxCount] != null
    requires table[mux % MuxCount] in w.socks && !w.socks[table[mux % MuxCount]].connected
    ensures SendOutcome(w, table, data, mux) == Out(0, w)
  {
  }

  /**
   * Whatever the replies, `modemSend` returns 0 or the payload length; a
   * nonzero result means the handshake and the OK arrived and the link carries
   * the request, the payload and the sentinel, in that order.
   */
  lemma SendFraming(w: World, table: Table, data: seq<byte>, mux: uint8)
    requires table[mux % MuxCount] != null
    ensures var r := SendOutcome(w, table, data, mux);
      (r.value == 0 || r.value == Int16(|data|)) &&
      (r.value != 0 ==>
        r.world.output == w.output + SndCommand(mux, |data|) + Chars(data) + Sentinel &&
        Line(Connect) in w.input && Line(Ok) in w.input)
  {
    var c := table[mux % MuxCount];
    if c in w.socks && w.socks[c].connected {
      var w0 := Write(w, SndCommand(mux, |data|));
      WaitIn(w0, table, Some(Connect), Some(Error), []);
      var a := WaitFor(w0, table, Connect);
      if a.value == 1 {
        var wb := Write(Write(a.world, Chars(data)), Sentinel);
        WaitIn(wb, table, Some(Ok), Some(Error), []);
        var b := WaitOk(wb, table);
        if b.value == 1 {
          SuffixIn(Line(Ok), wb.input, w0.input);
        }
      }
    }
  }

  /**
   * `modemSend` on a connected socket whose handshake and OK arrive returns
   * the length, whether or not the trailing data notification follows.
   */
  lemma SendScripted(w: World, table: Table, data: seq<byte>, mux: uint8, s: seq<Event>)
    requires table[mux % MuxCount] != null
    requires table[mux % MuxCount] in w.socks && w.socks[table[mux % MuxCount]].connected
    requires w.input == [Line(Connect), Line(Ok)] + s
    ensures var r := SendOutcome(w, table, data, mux);
      r.value == Int16(|data|) &&
      r.world.output == w.output + SndCommand(mux, |data|) + Chars(data) + Sentinel
  {
    var w0 := Write(w, SndCommand(mux, |data|));
    assert w0.input == [Line(Connect)] + ([Line(Ok)] + s);
    WaitHit(w0, table, Connect, Some(Error), [Line(Ok)] + s);
    var wb := Write(Write(w0.(input := [Line(Ok)] + s), Chars(data)), Sentinel);
    WaitHit(wb, table, Ok, Some(Error), s);
  }

  /**
   * `modemSend` on a connected socket over a script without the handshake
   * returns 0 after writing the request only, and keeps every queue.
   */
  lemma SendNoHandshake(w: World, table: Table, data: seq<byte>, mux: uint8)
    requires table[mux % MuxCount] != null
    requires table[mux % MuxCount] in w.socks && w.socks[table[mux % MuxCount]].connected
    requires Line(Connect) !in w.input
    ensures var r := SendOutcome(w, table, data, mux);
      r.value == 0 && r.world.output == w.output + SndCommand(mux, |data|) && SameQueues(w.socks, r.world.socks)
  {
    var w0 := Write(w, SndCommand(mux, |data|));
    WaitIn(w0, table, Some(Connect), Some(Error), []);
    WaitKeepsQueues(w0, table, Some(Connect), Some(Error), []);
  }

  /** `modemSend` whose handshake wait times out at once: the exact world it leaves. */
  lemma SendHandshakeTimeout(w: World, table: Table, data: seq<byte>, mux: uint8, s: seq<Event>)
    requires table[mux % MuxCount] != null
    requires table[mux % MuxCount] in w.socks && w.socks[table[mux % MuxCount]].connected
    requires w.input == [Silence] + s
    ensures SendOutcome(w, table, data, mux) == Out(0, World(s, w.output + SndCommand(mux, |data|), w.socks))
  {
    WaitTimeout(Write(w, SndCommand(mux, |data|)), table, Some(Connect), Some(Error), s);
  }

  /** `modemRead` on an empty slot returns 0 and neither reads nor writes. */
  lemma ReadEmptySlot(w: World, table: Table, size: nat, mux: uint8)
    requires table[mux % MuxCount] == null
    ensures ReadOutcome(w, table, size, mux) == Out(0, w)
  {
  }

  /**
   * `modemRead` on an occupied slot over a script without the handshake
   * returns 0 after writing the request only, and keeps every queue.
   */
  lemma ReadNoHandshake(w: World, table: Table, size: nat, mux: uint8)
    requires table[mux % MuxCount] != null
    requires Line(Connect) !in w.input
    ensures var r := ReadOutcome(w, table, size, mux);
      r.value == 0 && r.world.output == w.output + RcvCommand(mux, size) && SameQueues(w.socks, r.world.socks)
  {
    var w0 := Write(w, RcvCommand(mux, size));
    WaitIn(w0, table, Some(Connect), Some(Error), []);
    WaitKeepsQueues(w0, table, Some(Connect), Some(Error), []);
  }

  /** `modemRead` whose handshake wait times out at once: the exact world it leaves. */
  lemma ReadHandshakeTimeout(w: World, table: Table, size: nat, mux: uint8, s: seq<Event>)
    requires table[mux % MuxCount] != null
    requires w.input == [Silence] + s
    ensures ReadOutcome(w, table, size, mux) == Out(0, World(s, w.output + RcvCommand(mux, size), w.socks))
  {
    WaitTimeout(Write(w, RcvCommand(mux, size)), table, Some(Connect), Some(Error), s);
  }

  /** The waits and the status poll that end `modemRead` keep its socket's queue. */
  lemma ReadTailKeepsQueue(w: World, table: Table, mux: uint8, c: Client)
    requires table[mux % MuxCount] == c && c in w.socks
    ensures var r := ReadTailOutcome(w, table, mux);
      c in r.socks && r.socks[c].rx == w.socks[c].rx
  {
    var b := WaitFor(w, table, EofPattern);
    WaitKeepsQueues(w, table, Some(EofPattern), Some(Error), []);
    var d := WaitOk(b.world, table);
    WaitKeepsQueues(b.world, table, Some(Ok), Some(Error), []);
    AvailableKeepsQueues(d.world, table, mux);
  }

  /**
   * Whatever the replies, `modemRead` on an occupied slot returns 0 or
   * `size`, and the socket's queue only grows at its end, by exactly the
   * number of bytes the result reports.
   */
  lemma ReadGrowsQueue(w: World, table: Table, size: nat, mux: uint8)
    requires table[mux % MuxCount] != null && table[mux % MuxCount] in w.socks
    ensures var c, r := table[mux % MuxCount], ReadOutcome(w, table, size, mux);
      (r.value == 0 || r.value == size) &&
      (r.value != 0 ==> Line(Connect) in w.input) &&
      c in r.world.socks &&
      |r.world.socks[c].rx| == |w.socks[c].rx| + r.value &&
      r.world.socks[c].rx[..|w.socks[c].rx|] == w.socks[c].rx
  {
    var c := table[mux % MuxCount];
    var w0 := Write(w, RcvCommand(mux, size));
    var a := WaitFor(w0, table, Connect);
    WaitKeepsQueues(w0, table, Some(Connect), Some(Error), []);
    WaitIn(w0, table, Some(Connect), Some(Error), []);
    if a.value == 1 {
      var got := ReadBytes(a.world.input, size);
      var wa := AppendRx(a.world.(input := got.rest), c, got.value);
      ReadTailKeepsQueue(wa, table, mux, c);
      assert (w.socks[c].rx + got.value)[..|w.socks[c].rx|] == w.socks[c].rx;
    } else {
      assert w.socks[c].rx[..|w.socks[c].rx|] == w.socks[c].rx;
    }
  }

  /** `modemRead` over a delivered payload of `size` bytes appends exactly that payload, in order. */
  lemma ReadPayload(w: World, table: Table, mux: uint8, p: seq<byte>, s: seq<Event>)
    requires table[mux % MuxCount] != null && table[mux % MuxCount] in w.socks
    requires w.input == [Line(Connect)] + Payload(p) + s
    ensures var c, r := table[mux % MuxCount], ReadOutcome(w, table, |p|, mux);
      r.value == |p| && c in r.world.socks && r.world.socks[c].rx == w.socks[c].rx + p
  {
    var c := table[mux % MuxCount];
    var w0 := Write(w, RcvCommand(mux, |p|));
    assert w0.input == [Line(Connect)] + (Payload(p) + s);
    WaitHit(w0, table, Connect, Some(Error), Payload(p) + s);
    ReadBytesInOrder(p, s);
    var wa := AppendRx(w0.(input := s), c, p);
    ReadTailKeepsQueue(wa, table, mux, c);
  }

  /** A byte is queued for every read even when nothing arrives: each timeout queues `NoByte`. */
  lemma ReadTimeouts(w: World, table: Table, size: nat, mux: uint8, s: seq<Event>)
    requires table[mux % MuxCount] != null && table[mux % MuxCount] in w.socks
    requires w.input == [Line(Connect)] + Silences(size) + s
    ensures var c, r := table[mux % MuxCount], ReadOutcome(w, table, size, mux);
      var old_rx := w.socks[c].rx;
      r.value == size && c in r.world.socks &&
      |r.world.socks[c].rx| == |old_rx| + size &&
      r.world.socks[c].rx[..|old_rx|] == old_rx &&
      forall i :: |old_rx| <= i < |old_rx| + size ==> r.world.socks[c].rx[i] == NoByte
  {
    var c := table[mux % MuxCount];
    var w0 := Write(w, RcvCommand(mux, size));
    assert w0.input == [Line(Connect)] + (Silences(size) + s);
    WaitHit(w0, table, Connect, Some(Error), Silences(size) + s);
    ReadBytesOnSilence(size, s);
    var got := ReadBytes(Silences(size) + s, size);
    var wa := AppendRx(w0.(input := s), c, got.value);
    ReadTailKeepsQueue(wa, table, mux, c);
    var rx := w.socks[c].rx + got.value;
    assert rx[..|w.socks[c].rx|] == w.socks[c].rx;
    assert forall i :: |w.socks[c].rx| <= i < |rx| ==> rx[i] == got.value[i - |w.socks[c].rx|];
  }

  /** The write of the status poll is the only output of `modemGetAvailable`. */
  lemma AvailableOutput(w: World, table: Table, mux: uint8)
    requires table[mux % MuxCount] != null
    ensures AvailableOutcome(w, table, mux).world.output == w.output + StatCommand(mux)
  {
    var a := WaitFor(Write(w, StatCommand(mux)), table, KtcpStat);
    if a.value == 1 {
      var n := GetIntBefore(SkipUntil(a.world.input));
      var v := GetIntBefore(SkipUntil(n.rest));
      var b := WaitOk(a.world.(input := v.rest), table);
      assert b.world.output == w.output + StatCommand(mux);
    }
  }

  /**
   * `modemGetAvailable` without a status reply returns 0 and, because the
   * notification code keeps its initial 0, leaves the socket disconnected.
   */
  lemma AvailableNoReply(w: World, table: Table, mux: uint8)
    requires table[mux % MuxCount] != null && table[mux % MuxCount] in w.socks
    requires Line(KtcpStat) !in w.input
    ensures var c, r := table[mux % MuxCount], AvailableOutcome(w, table, mux);
      r.value == 0 && c in r.world.socks && !r.world.socks[c].connected
  {
    var w0 := Write(w, StatCommand(mux));
    WaitIn(w0, table, Some(KtcpStat), Some(Error), []);
    WaitKeepsQueues(w0, table, Some(KtcpStat), Some(Error), []);
  }

  /**
   * `modemGetAvailable` over a status reply: the result is the received-data
   * count; a zero count sets the connected flag to whether the notification
   * code is -1, and a nonzero count leaves every socket as it was.
   */
  lemma AvailableScripted(w: World, table: Table, mux: uint8, status: int, notif: int, rem: int, count: int, s: seq<Event>)
    requires table[mux % MuxCount] != null && table[mux % MuxCount] in w.socks
    requires -0x80 <= notif < 0x80 && -0x8000 <= count < 0x8000
    requires w.input == [Line(KtcpStat), Field(status), Field(notif), Field(rem), Field(count), Line(Ok)] + s
    ensures var c, r := table[mux % MuxCount], AvailableOutcome(w, table, mux);
      r.value == count && r.world.input == s && r.world.output == w.output + StatCommand(mux) &&
      r.world.socks == if count == 0 then w.socks[c := w.socks[c].(connected := notif == -1)] else w.socks
  {
    var w0 := Write(w, StatCommand(mux));
    var s1 := [Field(status), Field(notif), Field(rem), Field(count), Line(Ok)] + s;
    assert w0.input == [Line(KtcpStat)] + s1;
    WaitHit(w0, table, KtcpStat, Some(Error), s1);
    StatusFields(status, notif, rem, count, s);
    WaitHit(w0.(input := [Line(Ok)] + s), table, Ok, Some(Error), s);
  }

  /** The field reads of `modemGetAvailable` over the fields of a status reply. */
  lemma StatusFields(status: int, notif: int, rem: int, count: int, s: seq<Event>)
    requires -0x80 <= notif < 0x80 && -0x8000 <= count < 0x8000
    ensures var s1 := [Field(status), Field(notif), Field(rem), Field(count), Line(Ok)] + s;
      var n := GetIntBefore(SkipUntil(s1));
      var v := GetIntBefore(SkipUntil(n.rest));
      n.value == notif && v == Read(count, [Line(Ok)] + s)
  {
    var s4 := [Field(count)] + ([Line(Ok)] + s);
    var s3 := [Field(rem)] + s4;
    var s2 := [Field(notif)] + s3;
    assert [Field(status), Field(notif), Field(rem), Field(count), Line(Ok)] + s == [Field(status)] + s2;
    SkipField(status, s2);
    ReadField(notif, s3);
    SkipField(rem, s4);
    ReadField(count, [Line(Ok)] + s);
  }

  /** `modemGetConnected` reports a connection only when a status reply arrived. */
  lemma ConnectedNeedsReply(w: World, table: Table, mux: uint8)
    ensures ConnectedOutcome(w, table, mux).value ==> Line(KtcpStat) in w.input
  {
    WaitIn(Write(w, StatCommand(mux)), table, Some(KtcpStat), Some(Error), []);
  }

  /** `modemGetConnected` over a status reply: connected exactly when the notification code is -1. */
  lemma ConnectedScripted(w: World, table: Table, mux: uint8, status: int, notif: int, s: seq<Event>)
    requires -0x80 <= notif < 0x80
    requires w.input == [Line(KtcpStat), Field(status), Field(notif), Line(Ok)] + s
    ensures ConnectedOutcome(w, table, mux) == Out(notif == -1, World(s, w.output + StatCommand(mux), w.socks))
  {
    var w0 := Write(w, StatCommand(mux));
    var s1 := [Field(status), Field(notif), Line(Ok)] + s;
    assert w0.input == [Line(KtcpStat)] + s1;
    WaitHit(w0, table, KtcpStat, Some(Error), s1);
    ConnectedFields(status, notif, s);
    WaitHit(w0.(input := [Line(Ok)] + s), table, Ok, Some(Error), s);
  }

  /** The field reads of `modemGetConnected` over the fields of a status reply. */
  lemma ConnectedFields(status: int, notif: int, s: seq<Event>)
    requires -0x80 <= notif < 0x80
    ensures var s1 := [Field(status), Field(notif), Line(Ok)] + s;
      GetIntBefore(GetIntBefore(s1).rest) == Read(notif, [Line(Ok)] + s)
  {
    var s2 := [Field(notif)] + ([Line(Ok)] + s);
    assert [Field(status), Field(notif), Line(Ok)] + s == [Field(status)] + s2;
    ReadField(status, s2);
    ReadField(notif, [Line(Ok)] + s);
  }

  /** No socket flagged with data leaves the polling loop of `maintainImpl` nothing to do. */
  lemma {:induction false} PollsIdle(w: World, table: Table, mux: int)
    requires 1 <= mux <= MuxCount + 1
    requires forall i :: 0 <= i < MuxCount && table[i] != null && table[i] in w.socks ==> !w.socks[table[i]].gotData
    ensures PollsFrom(w, table, mux) == w
    decreases MuxCount + 1 - mux
  {
    if mux <= MuxCount {
      assert PollOutcome(w, table, mux) == w by {
        var i := mux % MuxCount;
        assert 0 <= i < MuxCount;
      }
      PollsIdle(w, table, mux + 1);
    }
  }

  /**
   * One turn of the polling loop: a socket flagged with data is queried by
   * the status command of the loop's mux (so mux 6 queries the socket in
   * slot 0), and any other socket is skipped without a command.
   */
  lemma PollQueriesFlagged(w: World, table: Table, mux: int)
    requires 1 <= mux <= MuxCount
    ensures var c, r := table[mux % MuxCount], PollOutcome(w, table, mux);
      (c != null && c in w.socks && w.socks[c].gotData ==> r.output == w.output + StatCommand(mux)) &&
      (!(c != null && c in w.socks && w.socks[c].gotData) ==> r == w)
  {
    var c := table[mux % MuxCount];
    if c != null && c in w.socks && w.socks[c].gotData {
      AvailableOutput(SetGotData(w, c, false), table, mux);
    }
  }

  /**
   * One turn of the polling loop over an answered status query: the socket
   * flagged with data ends unflagged, holding the count of the reply as its
   * available bytes (and, for a zero count, the connected flag the reply
   * gives), and the status command is all that was written.
   */
  lemma PollAnswered(w: World, table: Table, mux: int, status: int, notif: int, rem: int, count: int, s: seq<Event>)
    requires 1 <= mux <= MuxCount
    requires table[mux % MuxCount] != null && table[mux % MuxCount] in w.socks && w.socks[table[mux % MuxCount]].gotData
    requires -0x80 <= notif < 0x80 && -0x8000 <= count < 0x8000
    requires w.input == [Line(KtcpStat), Field(status), Field(notif), Field(rem), Field(count), Line(Ok)] + s
    ensures var c, r := table[mux % MuxCount], PollOutcome(w, table, mux);
      c in r.socks && !r.socks[c].gotData && r.socks[c].available == count &&
      (count == 0 ==> r.socks[c].connected == (notif == -1)) &&
      r.input == s && r.output == w.output + StatCommand(mux)
  {
    var c := table[mux % MuxCount];
    AvailableScripted(SetGotData(w, c, false), table, mux, status, notif, rem, count, s);
  }

  /** Two socket maps with the same sockets and the same data flags. */
  ghost predicate SameFlags(a: map<Client, Sock>, b: map<Client, Sock>)
  {
    a.Keys == b.Keys && forall c :: c in a ==> b[c].gotData == a[c].gotData
  }

  /** A line that is not in a script is not in what a field read or skip leaves of it. */
  lemma NotAfterReads(x: Event, s: seq<Event>)
    requires x !in s
    ensures x !in GetIntBefore(s).rest && x !in SkipUntil(s)
  {
    if |s| > 0 {
      assert forall e :: e in s[1..] ==> e in s;
    }
  }

  /** Only a "data available" line lets the URC classifier change a data flag. */
  lemma UrcKeepsFlags(w: World, table: Table, data: seq<Event>)
    requires !EndsWith(data, KtcpData)
    ensures SameFlags(w.socks, UrcOutcome(w, table, data).world.socks)
    ensures Line(KtcpData) !in w.input ==> Line(KtcpData) !in UrcOutcome(w, table, data).world.input
  {
    if Line(KtcpData) !in w.input && EndsWith(data, TcpClose) {
      NotAfterReads(Line(KtcpData), w.input);
      NotAfterReads(Line(KtcpData), GetIntBefore(w.input).rest);
    }
  }

  /** Without a "data available" notification in the script, a wait changes no data flag and leaves none. */
  lemma {:induction false} WaitKeepsFlags(w: World, table: Table, r1: Option<Token>, r2: Option<Token>, data: seq<Event>)
    requires Line(KtcpData) !in w.input
    ensures var r := WaitOutcome(w, table, r1, r2, data).world;
      SameFlags(w.socks, r.socks) && Line(KtcpData) !in r.input
    decreases |w.input|
  {
    if w.input != [] {
      var e := w.input[0];
      var w1 := w.(input := w.input[1..]);
      assert Line(KtcpData) !in w1.input by {
        assert forall x :: x in w.input[1..] ==> x in w.input;
      }
      if !e.Silence? && !(r1.Some? && e == Line(r1.value)) && !(r2.Some? && e == Line(r2.value)) {
        var h := UrcOutcome(w1, table, data + [e]);
        assert !EndsWith(data + [e], KtcpData);
        UrcKeepsFlags(w1, table, data + [e]);
        WaitKeepsFlags(h.world, table, r1, r2, h.data);
      }
    }
  }

  /** The part of `modemGetAvailable` after the status reply changes no data flag and leaves no data notification. */
  lemma AvailableTailKeepsFlags(a: World, table: Table)
    requires Line(KtcpData) !in a.input
    ensures var n := GetIntBefore(SkipUntil(a.input));
      var v := GetIntBefore(SkipUntil(n.rest));
      var r := WaitOk(a.(input := v.rest), table).world;
      SameFlags(a.socks, r.socks) && Line(KtcpData) !in r.input
  {
    var x := Line(KtcpData);
    var s1 := SkipUntil(a.input);
    NotAfterReads(x, a.input);
    var n := GetIntBefore(s1);
    NotAfterReads(x, s1);
    var s2 := SkipUntil(n.rest);
    NotAfterReads(x, n.rest);
    NotAfterReads(x, s2);
    WaitKeepsFlags(a.(input := GetIntBefore(s2).rest), table, Some(Ok), Some(Error), []);
  }

  /** Without a "data available" notification, `modemGetAvailable` changes no data flag and leaves none. */
  lemma AvailableKeepsFlags(w: World, table: Table, mux: uint8)
    requires table[mux % MuxCount] != null
    requires Line(KtcpData) !in w.input
    ensures var r := AvailableOutcome(w, table, mux).world;
      SameFlags(w.socks, r.socks) && Line(KtcpData) !in r.input
  {
    var w0 := Write(w, StatCommand(mux));
    WaitKeepsFlags(w0, table, Some(KtcpStat), Some(Error), []);
    var a := WaitFor(w0, table, KtcpStat);
    if a.value == 1 {
      AvailableTailKeepsFlags(a.world, table);
    }
  }

  /** No client sits in two slots of the table. */
  predicate Distinct(table: Table)
  {
    forall i, j :: 0 <= i < MuxCount && 0 <= j < MuxCount && i != j && table[i] != null ==> table[i] != table[j]
  }

  /**
   * The status commands that a pass of the polling loop from mux `mux` sends
   * when no flag changes on the way: one for each flagged socket, in
   * ascending mux order.
   */
  function FlaggedCommands(w: World, table: Table, mux: int): (s: string)
    requires 1 <= mux <= MuxCount + 1
    decreases MuxCount + 1 - mux
  {
    if mux > MuxCount then ""
    else
      var c := table[mux % MuxCount];
      (if c != null && c in w.socks && w.socks[c].gotData then StatCommand(mux) else "") + FlaggedCommands(w, table, mux + 1)
  }

  /** The commands of the slots after the polled one do not depend on the polled socket's flag. */
  lemma {:induction false} FlaggedAgree(w1: World, w2: World, table: Table, polled: int, mux: int)
    requires 1 <= polled < mux <= MuxCount + 1
    requires Distinct(table) && table[polled % MuxCount] != null
    requires w1.socks.Keys == w2.socks.Keys
    requires forall c :: c in w1.socks && c != table[polled % MuxCount] ==> w2.socks[c].gotData == w1.socks[c].gotData
    ensures FlaggedCommands(w1, table, mux) == FlaggedCommands(w2, table, mux)
    decreases MuxCount + 1 - mux
  {
    if mux <= MuxCount {
      var i, k := mux % MuxCount, polled % MuxCount;
      assert i != k;
      FlaggedAgree(w1, w2, table, polled, mux + 1);
    }
  }

  /**
   * Without a "data available" notification in the script, one turn of the
   * polling loop on a flagged socket writes its status command and changes
   * the data flag of no other socket.
   */
  lemma PollFlaggedStep(w: World, table: Table, mux: int)
    requires 1 <= mux <= MuxCount && Line(KtcpData) !in w.input
    requires table[mux % MuxCount] != null && table[mux % MuxCount] in w.socks && w.socks[table[mux % MuxCount]].gotData
    ensures var c, r := table[mux % MuxCount], PollOutcome(w, table, mux);
      r.output == w.output + StatCommand(mux) && Line(KtcpData) !in r.input &&
      r.socks.Keys == w.socks.Keys &&
      forall d :: d in w.socks && d != c ==> r.socks[d].gotData == w.socks[d].gotData
  {
    var c := table[mux % MuxCount];
    var w0 := SetGotData(w, c, false);
    AvailableOutput(w0, table, mux);
    AvailableKeepsFlags(w0, table, mux);
  }

  lemma ConcatAssoc(a: string, b: string, c: string)
    ensures (a + b) + c == a + (b + c)
  {
  }

  /** One turn of the polling loop, seen through what the pass needs of it: its output and the flags after it. */
  lemma PollTurn(w: World, table: Table, mux: int) returns (w1: World)
    requires 1 <= mux <= MuxCount
    requires Distinct(table) && Line(KtcpData) !in w.input
    ensures PollsFrom(w, table, mux) == PollsFrom(w1, table, mux + 1)
    ensures Line(KtcpData) !in w1.input
    ensures w1.output + FlaggedCommands(w1, table, mux + 1) == w.output + FlaggedCommands(w, table, mux)
  {
    w1 := PollOutcome(w, table, mux);
    var c := table[mux % MuxCount];
    var rest := FlaggedCommands(w, table, mux + 1);
    if c != null && c in w.socks && w.socks[c].gotData {
      PollFlaggedStep(w, table, mux);
      FlaggedAgree(w, w1, table, mux, mux + 1);
      assert FlaggedCommands(w, table, mux) == StatCommand(mux) + rest;
      ConcatAssoc(w.output, StatCommand(mux), rest);
    } else {
      assert w1 == w;
      assert FlaggedCommands(w, table, mux) == "" + rest;
      assert "" + rest == rest;
    }
  }

  /**
   * Without a "data available" notification in the script, a pass of the
   * polling loop writes the status command of every socket flagged with data,
   * in ascending mux order, and nothing else.
   */
  lemma {:induction false} PollsInOrder(w: World, table: Table, mux: int)
    requires 1 <= mux <= MuxCount + 1
    requires Distinct(table) && Line(KtcpData) !in w.input
    ensures PollsFrom(w, table, mux).output == w.output + FlaggedCommands(w, table, mux)
    decreases MuxCount + 1 - mux
  {
    if mux <= MuxCount {
      var w1 := PollTurn(w, table, mux);
      PollsInOrder(w1, table, mux + 1);
    }
  }

  /** The drain loop of `maintainImpl` stops only when nothing is left to read. */
  lemma {:induction false} DrainEmpties(w: World, table: Table)
    ensures !Available(DrainOutcome(w, table).input)
    decreases |w.input|
  {
    if Available(w.input) {
      DrainEmpties(WaitOutcome(w, table, None, None, []).world, table);
    }
  }

  /** After `maintainImpl` no input is pending, and every socket keeps its mux and queue. */
  lemma MaintainQuiet(w: World, table: Table)
    ensures var r := MaintainOutcome(w, table);
      !Available(r.input) && SameQueues(w.socks, r.socks)
  {
    DrainEmpties(PollsFrom(w, table, 1), table);
    MaintainKeepsQueues(w, table);
  }

  /**
   * `stop` writes the close and then the delete command for the client's
   * mux, and whatever the replies it leaves the client disconnected with an
   * empty queue and the same mux.
   */
  lemma StopCloses(w: World, table: Table, c: Client)
    requires c in w.socks
    ensures var r, mux := StopOutcome(w, table, c), w.socks[c].mux;
      r.output == w.output + CloseCommand(mux) + DelCommand(mux) &&
      c in r.socks && !r.socks[c].connected && r.socks[c].rx == [] && r.socks[c].mux == mux
  {
    var mux := w.socks[c].mux;
    var w0 := Write(w, CloseCommand(mux));
    var a := WaitOk(w0, table);
    WaitKeepsQueues(w0, table, Some(Ok), Some(Error), []);
    var w1 := Write(SetConnected(a.world, c, false), DelCommand(mux));
    WaitKeepsClosed(w1, table, Some(Ok), Some(Error), [], c);
    WaitKeepsQueues(w1, table, Some(Ok), Some(Error), []);
  }

  /** A second `stop` writes the same two commands again and leaves the client as the first did. */
  lemma StopTwice(w: World, table: Table, c: Client)
    requires c in w.socks
    ensures var r1 := StopOutcome(w, table, c);
      c in r1.socks &&
      var r2 := StopOutcome(r1, table, c);
      var mux := w.socks[c].mux;
      r2.output == r1.output + CloseCommand(mux) + DelCommand(mux) &&
      c in r2.socks && r2.socks[c].connected == r1.socks[c].connected &&
      r2.socks[c].rx == r1.socks[c].rx && r2.socks[c].mux == r1.socks[c].mux
  {
    StopCloses(w, table, c);
    StopCloses(StopOutcome(w, table, c), table, c);
  }

  /**
   * The part of `connect` before `maintain`: the queue is empty, the connected
   * flag is the result of opening, the client sits in the slot of its (possibly
   * new) mux, and without a creation reply it fails and keeps its mux.
   */
  lemma OpenRegisters(w: World, table: Table, c: Client, host: string, port: uint16)
    requires c in w.socks
    ensures var s := ClientOpenOutcome(w, table, c, host, port);
      c in s.world.socks && s.world.socks[c].rx == [] && s.world.socks[c].connected == s.ok &&
      s.table[s.world.socks[c].mux % MuxCount] == c &&
      (Line(KtcpCfg) !in w.input ==> !s.ok && s.world.socks[c].mux == w.socks[c].mux)
  {
    var w0 := EmptyRx(w, c);
    ConnectKeepsQueues(w0, table, host, port, w.socks[c].mux);
    ConnectNeedsReplies(w0, table, host, port, w.socks[c].mux);
    var o := ConnectOutcome(w0, table, host, port, w.socks[c].mux);
    MigrateClaims(table, w.socks[c].mux, o.mux, c);
  }

  /**
   * `connect` as a whole: the result is the connected flag that `maintain`
   * leaves, the queue is empty, and the client sits in the slot of its mux.
   */
  lemma ConnectRegisters(w: World, table: Table, c: Client, host: string, port: uint16)
    requires c in w.socks
    ensures var s := ClientConnectOutcome(w, table, c, host, port);
      c in s.world.socks && s.ok == s.world.socks[c].connected && s.world.socks[c].rx == [] &&
      s.table[s.world.socks[c].mux % MuxCount] == c && !Available(s.world.input)
  {
    var o := ClientOpenOutcome(w, table, c, host, port);
    OpenRegisters(w, table, c, host, port);
    MaintainQuiet(o.world, o.table);
  }
}

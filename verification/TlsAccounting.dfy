/** Byte accounting of the TLS layer: the receive window of the inner connection and the bytes
    reported as sent. mbedTLS, TCP and the application are nondeterministic oracles, bound only by what
    is stated at each of them. */
module TlsAccounting {
  import opened Options

  const U16_MAX := 0xFFFF
  const INT_MAX := 0x7FFF_FFFF
  const POOL_BUFSIZE := 1516

  datatype Err = ErrOk | ErrMem | ErrAbort | ErrOther

  /** What the application does inside one of its callbacks. */
  datatype Act = Acknowledge(n: nat) | Send(n: nat)

  /** How the application takes a receive call: it may acknowledge and write while the call is under
      way, and then accepts, refuses or aborts. If it accepts, it may have closed the connection. */
  datatype Reception = Reception(acts: seq<Act>, outcome: Err, closes: bool)

  /** What the inner connection answers to the portions of one send, in order. */
  type Answers = nat -> Err

  /** What mbedTLS does with its connection: it asks for bytes, or sends some. */
  datatype Work = Ask(n: nat) | Give(size: nat, answers: Answers)

  /** One turn of the loop that decrypts: whether there is a buffer, what mbedTLS does to its connection,
      how many bytes it yields, how many more of the record it holds, and if it then asks to reconnect. */
  datatype Round = Round(hasBuffer: bool, work: seq<Work>, count: int, available: nat, reconnect: bool)

  type Rounds = nat -> Round

  /** How a handshake step ends. */
  datatype Handshake = WantsMore | Fails | Completes

  predicate Fits(acts: seq<Act>) {
    forall i :: 0 <= i < |acts| ==> acts[i].n <= U16_MAX
  }

  /** The bytes acknowledged. */
  function Acknowledged(acts: seq<Act>): nat {
    if acts == [] then 0
    else Acknowledged(acts[..|acts| - 1]) + (if acts[|acts| - 1].Acknowledge? then acts[|acts| - 1].n else 0)
  }

  /** How often mbedTLS asks for at least one byte. */
  function Asks(work: seq<Work>): nat {
    if work == [] then 0
    else Asks(work[..|work| - 1]) + (if work[|work| - 1].Ask? && 0 < work[|work| - 1].n then 1 else 0)
  }

  /** The bytes mbedTLS sends. */
  function Given(work: seq<Work>): nat {
    if work == [] then 0
    else Given(work[..|work| - 1]) + (if work[|work| - 1].Give? then work[|work| - 1].size else 0)
  }

  ghost predicate AllAccepted(answers: Answers) {
    forall k: nat :: answers(k) == ErrOk
  }

  /** A value of type int, compared as unsigned. */
  function Unsigned(x: int): nat {
    x % 0x1_0000_0000
  }

  function Sum(xs: seq<nat>): nat {
    if xs == [] then 0 else Sum(xs[..|xs| - 1]) + xs[|xs| - 1]
  }

  class Conn {
    // the counters of the connection state
    var bioBytesRead: int
    var bioBytesAppl: int
    var rxPassedUnrecved: int
    var overheadBytesAdjust: int
    var handshakeDone: bool
    /** Lengths of the received pbufs not yet pulled by mbedTLS. */
    var rx: seq<nat>
    /** Decrypted bytes waiting for the application; absent if there is no pbuf. */
    var rxApp: nat
    const hasRecv: bool
    /** The connection state is still there: the application has neither closed nor aborted. */
    var isOpen: bool
    // flags
    var upperCalled: bool
    var closeQueued: bool
    var rxClosed: bool

    // what happened so far
    ghost var received: int   // bytes that have arrived from the inner connection
    ghost var yielded: seq<int> // what mbedTLS answered to requests for decrypted bytes
    ghost var refusals: nat   // receive calls that the application did not accept
    ghost var pulled: int     // bytes mbedTLS pulled out of received pbufs
    ghost var returned: int   // bytes given back to the inner connection's window
    var pushed: int           // encrypted bytes accepted by the inner connection
    var acked: int            // of these, acknowledged by the peer
    ghost var written: int    // application bytes written successfully
    ghost var reported: int   // of these, reported to the application as sent

    /** Every byte received is in a pbuf or pulled, and every byte pulled is either back in the inner
        window or in exactly one of the places where it waits to get there. */
    ghost predicate Conserved()
      reads this`received, this`rx, this`pulled, this`returned
      reads this`bioBytesRead, this`bioBytesAppl, this`rxApp, this`rxPassedUnrecved
    {
      && received == pulled + Sum(rx)
      && pulled == returned + (bioBytesRead - bioBytesAppl) + rxApp + rxPassedUnrecved
    }

    ghost predicate ReceiveOk()
      reads this`received, this`rx, this`pulled, this`returned, this`handshakeDone
      reads this`bioBytesRead, this`bioBytesAppl, this`rxApp, this`rxPassedUnrecved
    {
      && Conserved() && 0 <= rxPassedUnrecved && 0 <= bioBytesAppl <= bioBytesRead
      && (!handshakeDone ==> bioBytesAppl == 0 && rxApp == 0 && rxPassedUnrecved == 0)
    }

    /** The overhead counter is what is un-ACKed beyond what is unreported, and never negative. */
    ghost predicate SentOk()
      reads this`overheadBytesAdjust, this`pushed, this`acked, this`written, this`reported
    {
      && overheadBytesAdjust == (pushed - acked) - (written - reported)
      && 0 <= overheadBytesAdjust && 0 <= written - reported && 0 <= acked && 0 <= pushed - acked <= INT_MAX
    }

    constructor (hasRecv: bool)
      ensures ReceiveOk() && SentOk() && pulled == returned == pushed == acked == written == reported == 0
      ensures this.hasRecv == hasRecv && !handshakeDone && isOpen
    {
      this.hasRecv := hasRecv;
      bioBytesRead, bioBytesAppl, rxPassedUnrecved, overheadBytesAdjust := 0, 0, 0, 0;
      handshakeDone, rx, rxApp := false, [], 0;
      isOpen, upperCalled, closeQueued, rxClosed := true, false, false, false;
      received, pulled, returned, pushed, acked, written, reported := 0, 0, 0, 0, 0, 0, 0;
      yielded, refusals := [], 0;
    }

    // -------------------------------------------------------------- receiving

    /** `altcp_mbedtls_lower_recved`: give the window back in 16-bit portions. */
    method LowerRecved(count: int) returns (portions: seq<nat>)
      modifies this`returned
      ensures Sum(portions) == (if 0 < count then count else 0)
      ensures forall i :: 0 <= i < |portions| ==> 0 < portions[i] <= U16_MAX
      ensures returned == old(returned) + Sum(portions)
    {
      var left := count;
      portions := [];
      while left > 0
        invariant if 0 < count then 0 <= left && Sum(portions) == count - left else left == count && portions == []
        invariant forall i :: 0 <= i < |portions| ==> 0 < portions[i] <= U16_MAX
        invariant returned == old(returned) + Sum(portions)
      {
        var part := if left < U16_MAX then left else U16_MAX;
        returned := returned + part;
        assert (portions + [part])[..|portions|] == portions;
        portions := portions + [part];
        left := left - part;
      }
    }

    /** `altcp_mbedtls_bio_recv`: mbedTLS gets up to n bytes of the first pbuf, and no others. Without
        bytes it is told to wait, or that the connection is over. */
    method BioRecv(n: nat) returns (count: nat, wait: bool)
      modifies this`rx, this`bioBytesRead, this`pulled
      ensures bioBytesRead == old(bioBytesRead) + count && pulled == old(pulled) + count
      ensures Sum(rx) + count == Sum(old(rx))
      ensures var nothing := old(rx) == [] || old(rx) == [0];
              && count == (if nothing then 0 else if n < old(rx)[0] then n else old(rx)[0])
              && (wait <==> nothing && (!closeQueued || rxClosed))
              && rx == if nothing then []
                       else if count == old(rx)[0] then old(rx)[1..] else [old(rx)[0] - count] + old(rx)[1..]
    {
      if rx == [] || (rx[0] == 0 && |rx| == 1) {
        SumHead(rx);
        rx := [];
        return 0, !closeQueued || rxClosed;
      }
      count, wait := if n < rx[0] then n else rx[0], false;
      SumHead(rx);
      ghost var before := rx;
      if rx[0] == count {
        rx := rx[1..];
      } else {
        rx := rx[0 := rx[0] - count];
        SumHead(rx);
        assert rx[1..] == before[1..];
      }
      bioBytesRead := bioBytesRead + count;
      pulled := pulled + count;
    }

    /** mbedTLS at work. If it asks often enough, it gets everything there is. */
    method Pull(work: seq<Work>)
      requires SentOk()
      modifies this`rx, this`bioBytesRead, this`pulled, this`overheadBytesAdjust, this`pushed
      ensures SentOk() && pulled - old(pulled) == bioBytesRead - old(bioBytesRead) >= 0
      ensures Sum(rx) + bioBytesRead == old(Sum(rx) + bioBytesRead)
      ensures Sum(old(rx)) + |old(rx)| <= Asks(work) ==> rx == [] && pulled - old(pulled) == Sum(old(rx))
    {
      for i := 0 to |work|
        invariant SentOk() && pulled - old(pulled) == bioBytesRead - old(bioBytesRead) >= 0
        invariant Sum(rx) + bioBytesRead == old(Sum(rx) + bioBytesRead)
        invariant rx == [] || Asks(work[..i]) + Sum(rx) + |rx| <= Sum(old(rx)) + |old(rx)|
      {
        assert work[..i + 1][..i] == work[..i];
        ghost var before := rx;
        match work[i] {
          case Ask(n) =>
            var _, _ := BioRecv(n);
          case Give(size, answers) =>
            var _ := BioSend(size, answers);
        }
      }
      assert work[..|work|] == work;
    }

    /** `altcp_mbedtls_recved`: the application acknowledges bytes it was passed. */
    method Recved(n: nat)
      requires n <= U16_MAX
      modifies this`rxPassedUnrecved, this`returned
      ensures rxPassedUnrecved + returned == old(rxPassedUnrecved + returned)
      ensures isOpen && handshakeDone && 0 <= old(rxPassedUnrecved) ==>
        rxPassedUnrecved == if n <= old(rxPassedUnrecved) then old(rxPassedUnrecved) - n else 0
      ensures !isOpen || !handshakeDone ==> rxPassedUnrecved == old(rxPassedUnrecved)
    {
      if !isOpen { return; }
      if !handshakeDone { return; }
      var lower := n;
      if lower > rxPassedUnrecved { lower := rxPassedUnrecved % 0x1_0000; }
      rxPassedUnrecved := rxPassedUnrecved - lower;
      returned := returned + lower;
    }

    /** Inside a callback of the application. */
    method Perform(acts: seq<Act>)
      requires SentOk() && Fits(acts) && isOpen && handshakeDone && 0 <= rxPassedUnrecved
      modifies this`rxPassedUnrecved, this`returned, this`overheadBytesAdjust, this`pushed, this`written
      ensures SentOk() && rxPassedUnrecved + returned == old(rxPassedUnrecved + returned)
      ensures rxPassedUnrecved ==
        if Acknowledged(acts) <= old(rxPassedUnrecved) then old(rxPassedUnrecved) - Acknowledged(acts) else 0
    {
      for i := 0 to |acts|
        invariant SentOk() && rxPassedUnrecved + returned == old(rxPassedUnrecved + returned)
        invariant rxPassedUnrecved == if Acknowledged(acts[..i]) <= old(rxPassedUnrecved)
                                      then old(rxPassedUnrecved) - Acknowledged(acts[..i]) else 0
      {
        assert acts[..i + 1][..i] == acts[..i];
        match acts[i] {
          case Acknowledge(n) => Recved(n);
          case Send(n) =>
            var work: seq<Work>, taken: bool := *, *;
            var _ := Write(n, work, taken);
        }
      }
      assert acts[..|acts|] == acts;
    }

    /** The receive callback is offered the waiting bytes. They stay accounted for exactly when a refused
        buffer was not acknowledged while it was offered. */
    method OfferBuffer(r: Reception)
      requires ReceiveOk() && SentOk() && handshakeDone && isOpen && Fits(r.acts) && rxApp != 0
      modifies this`rxApp, this`rxPassedUnrecved, this`returned, this`overheadBytesAdjust, this`pushed, this`written
      modifies this`isOpen, this`upperCalled
      ensures SentOk() && (Conserved() ==> ReceiveOk()) && upperCalled
      ensures Conserved() <==> r.outcome in {ErrOk, ErrAbort} || Acknowledged(r.acts) <= old(rxPassedUnrecved)
      ensures isOpen <==> r.outcome != ErrAbort && !(r.outcome == ErrOk && r.closes)
      ensures rxApp == if r.outcome in {ErrOk, ErrAbort} then 0 else old(rxApp)
      ensures r.outcome == ErrOk ==>
        rxPassedUnrecved == var all := old(rxPassedUnrecved + rxApp);
                            if Acknowledged(r.acts) <= all then all - Acknowledged(r.acts) else 0
    {
      hide Acknowledged, Sum, SentOk;
      var length := rxApp;
      rxApp := 0;
      rxPassedUnrecved := rxPassedUnrecved + length;
      upperCalled := true;
      Perform(r.acts);
      if r.outcome != ErrOk {
        if r.outcome == ErrAbort {
          isOpen := false;
          return;
        }
        rxApp := length;
        rxPassedUnrecved := rxPassedUnrecved - length;
        if rxPassedUnrecved < 0 { rxPassedUnrecved := 0; }
        return;
      }
      isOpen := !r.closes;
    }

    method NotifyEnd(r: Reception)
      requires ReceiveOk() && SentOk() && Fits(r.acts) && isOpen && handshakeDone
      modifies this`rxPassedUnrecved, this`returned, this`overheadBytesAdjust, this`pushed, this`written, this`isOpen
      ensures ReceiveOk() && SentOk()
    {
      Notify(r);
    }

    /** A callback without bytes: the connection is established, or no more bytes will come. */
    method Notify(r: Reception)
      requires SentOk() && Fits(r.acts) && isOpen && handshakeDone && 0 <= rxPassedUnrecved
      modifies this`rxPassedUnrecved, this`returned, this`overheadBytesAdjust, this`pushed, this`written, this`isOpen
      ensures SentOk() && rxPassedUnrecved + returned == old(rxPassedUnrecved + returned) && 0 <= rxPassedUnrecved
      ensures rxPassedUnrecved == if Acknowledged(r.acts) <= old(rxPassedUnrecved)
                                  then old(rxPassedUnrecved) - Acknowledged(r.acts) else 0
      ensures isOpen <==> r.outcome != ErrAbort && !r.closes
    {
      Perform(r.acts);
      isOpen := r.outcome != ErrAbort && !r.closes;
    }

    /** `altcp_mbedtls_pass_rx_data`. The bytes stay accounted for exactly when there is a receive
        callback, and a refused buffer was not acknowledged while it was offered. The end of the
        connection is passed on once, and not while bytes are waiting. */
    method PassRxData(r: Reception) returns (err: Err)
      requires ReceiveOk() && SentOk() && handshakeDone && isOpen && Fits(r.acts)
      modifies this`rxApp, this`rxPassedUnrecved, this`returned, this`overheadBytesAdjust, this`pushed, this`written
      modifies this`isOpen, this`upperCalled, this`rxClosed, this`refusals
      ensures SentOk() && (Conserved() ==> ReceiveOk())
      ensures refusals == old(refusals) + 1 || (refusals == old(refusals) && (err == ErrOk || !isOpen))
      ensures Conserved() <==>
        old(rxApp) == 0
        || (hasRecv && (r.outcome in {ErrOk, ErrAbort} || Acknowledged(r.acts) <= old(rxPassedUnrecved)))
      ensures err == ErrOk && old(rxApp) != 0 ==> isOpen
      ensures (err == ErrOk ==> rxApp == 0) && (old(rxApp) != 0 && hasRecv ==> upperCalled)
      ensures rxClosed <==> old(rxClosed) || (old(rxApp) == 0 && closeQueued)
    {
      if rxApp != 0 {
        if hasRecv {
          OfferBuffer(r);
          if r.outcome != ErrOk {
            refusals := refusals + 1;
            return r.outcome;
          }
        } else {
          rxApp := 0;
        }
      } else if closeQueued && !rxClosed {
        rxClosed := true;
        if hasRecv {
          Notify(r);
          if r.outcome != ErrOk { refusals := refusals + 1; }
          return r.outcome;
        }
      }
      return if isOpen then ErrOk else ErrOther;
    }

    /** mbedTLS yields decrypted bytes, no more of them than it has pulled and not yet accounted for. */
    method SslRead(round: Round) returns (count: int)
      requires ReceiveOk() && SentOk()
      modifies this`rx, this`bioBytesRead, this`pulled, this`overheadBytesAdjust, this`pushed, this`yielded
      ensures ReceiveOk() && SentOk()
      ensures count == if round.count <= POOL_BUFSIZE && round.count <= bioBytesRead - bioBytesAppl then round.count
                       else -1
      ensures Sum(rx) + bioBytesRead == old(Sum(rx) + bioBytesRead) && yielded == old(yielded) + [count]
      ensures Sum(old(rx)) + |old(rx)| <= Asks(round.work) ==> rx == []
    {
      Pull(round.work);
      count := round.count;
      if count > POOL_BUFSIZE || count > bioBytesRead - bioBytesAppl { count := -1; }
      yielded := yielded + [count];
    }

    /** The application: acknowledges, writes and answers as it likes, but does not refuse a buffer of
        which it has acknowledged a part. */
    method Application() returns (r: Reception)
      ensures Fits(r.acts)
      ensures r.outcome in {ErrOk, ErrAbort} || Acknowledged(r.acts) <= rxPassedUnrecved
    {
      var times: nat := *;
      var acts: seq<Act> := [];
      while times > 0
        invariant Fits(acts)
      {
        var act: Act := *;
        if act.n <= U16_MAX { acts := acts + [act]; }
        times := times - 1;
      }
      var outcome: Err, closes: bool := *, *;
      if Acknowledged(acts) > rxPassedUnrecved && outcome !in {ErrOk, ErrAbort} { outcome := ErrOk; }
      r := Reception(acts, outcome, closes);
    }

    /** Decrypted bytes join those waiting for the application; at the end of a record its protocol
        bytes go back to the window at once. */
    method Decrypted(count: nat, available: nat)
      requires ReceiveOk() && handshakeDone && count <= bioBytesRead - bioBytesAppl
      modifies this`rxApp, this`bioBytesRead, this`bioBytesAppl, this`returned
      ensures ReceiveOk() && rxApp == old(rxApp) + count
      ensures bioBytesRead - bioBytesAppl <= old(bioBytesRead - bioBytesAppl) - count
      ensures available == 0 ==>
        bioBytesRead == bioBytesAppl == 0 && returned - old(returned) == old(bioBytesRead - bioBytesAppl) - count
      ensures available != 0 ==> returned == old(returned) && bioBytesRead == old(bioBytesRead)
    {
      bioBytesAppl := bioBytesAppl + count;
      if available == 0 {
        var overhead := bioBytesRead - bioBytesAppl;
        var _ := LowerRecved(overhead);
        bioBytesRead, bioBytesAppl := 0, 0;
      }
      rxApp := rxApp + count;
    }

    /** `altcp_mbedtls_pass_rx_data` with the application at the other side. */
    method PassOn() returns (err: Err)
      requires ReceiveOk() && SentOk() && handshakeDone && isOpen && hasRecv
      modifies this`rxApp, this`rxPassedUnrecved, this`returned, this`overheadBytesAdjust, this`pushed, this`written
      modifies this`isOpen, this`upperCalled, this`rxClosed, this`refusals
      ensures ReceiveOk() && SentOk() && (err == ErrOk && old(rxApp) != 0 ==> isOpen)
      ensures (err == ErrOk ==> rxApp == 0) && (old(rxApp) != 0 ==> upperCalled)
      ensures old(refusals) < refusals || (refusals == old(refusals) && (err == ErrOk || !isOpen))
    {
      var r := Application();
      err := PassRxData(r);
    }

    /** The bytes received but not yet decrypted. */
    ghost function Encrypted(): int
      reads this`rx, this`bioBytesRead, this`bioBytesAppl
    {
      Sum(rx) + bioBytesRead - bioBytesAppl
    }

    /** The loop has read the new answers, all of them bytes but perhaps the last, and passed them on, and
        has a reason to stop: there is no buffer, no more to read, or the application does not take it. */
    twostate predicate ReadOn(rounds: Rounds)
      reads this
    {
      var n := |yielded| - |old(yielded)|;
      && 0 <= n && yielded[..|old(yielded)|] == old(yielded)
      && (forall i :: |old(yielded)| <= i < |yielded| - 1 ==> 0 < yielded[i])
      && (1 < n && refusals == old(refusals) && isOpen ==> rxApp == 0)
      && (!rounds(n).hasBuffer || (0 < n && yielded[|yielded| - 1] <= 0) || old(refusals) < refusals || !isOpen)
    }

    /** One turn of the loop: at most one buffer is decrypted and offered to the application. */
    method ReadRound(round: Round) returns (more: bool, err: Err)
      requires ReceiveOk() && SentOk() && handshakeDone && hasRecv && isOpen
      modifies this
      ensures ReceiveOk() && SentOk() && handshakeDone && received == old(received)
      ensures exists count :: yielded == old(yielded) + [count]
                              && (more ==> 0 < count && isOpen && rxApp == 0 && Encrypted() < old(Encrypted()))
                              && (!more ==> count <= 0 || old(refusals) < refusals || !isOpen)
      ensures Encrypted() <= old(Encrypted()) && old(refusals) <= refusals
      ensures refusals == old(refusals) && isOpen ==> rxApp in {0, old(rxApp)}
      ensures closeQueued == old(closeQueued)
    {
      hide Conserved, SentOk;
      var count := SslRead(round);
      assert yielded == old(yielded) + [count];
      if count < 0 {
        if !round.reconnect { return false, ErrOk; }
        isOpen := false;
        return false, ErrAbort;
      }
      if count > 0 { Decrypted(count, round.available); }
      err := PassOn();
      if err == ErrAbort { return false, ErrAbort; }
      if err != ErrOk { return false, ErrOk; }
      more := count > 0;
    }

    /** `altcp_mbedtls_handle_rx_appldata`. The loop ends because every round but the last decrypts some
        of the finitely many bytes received, and it does not end without a reason. */
    method HandleRxAppldata(rounds: Rounds) returns (err: Err)
      requires ReceiveOk() && SentOk() && hasRecv && isOpen
      modifies this
      ensures ReceiveOk() && SentOk() && handshakeDone == old(handshakeDone) && Encrypted() <= old(Encrypted())
      ensures received == old(received) && (old(handshakeDone) ==> ReadOn(rounds)) && closeQueued == old(closeQueued)
    {
      hide Conserved, SentOk;
      if !handshakeDone { return ErrOther; }
      var n: nat := 0;
      while true
        invariant ReceiveOk() && SentOk() && handshakeDone && isOpen && Encrypted() <= old(Encrypted())
        invariant received == old(received) && old(refusals) <= refusals && closeQueued == old(closeQueued)
        invariant n == |yielded| - |old(yielded)| && yielded[..|old(yielded)|] == old(yielded)
        invariant forall i :: |old(yielded)| <= i < |yielded| ==> 0 < yielded[i]
        invariant 0 < n ==> rxApp == 0
        decreases Encrypted()
      {
        if !rounds(n).hasBuffer { return ErrOk; }
        var more;
        more, err := ReadRound(rounds(n));
        n := n + 1;
        if !more { return; }
      }
    }

    /** The connected callback. If it accepts, it has not closed the connection, since the connection
        state is used after it. */
    method PassConnected() returns (err: Err)
      requires ReceiveOk() && SentOk() && handshakeDone && isOpen
      modifies this`rxPassedUnrecved, this`returned, this`overheadBytesAdjust, this`pushed, this`written, this`isOpen
      ensures ReceiveOk() && SentOk() && (err == ErrOk ==> isOpen)
    {
      var r := Application();
      if r.outcome == ErrOk { r := r.(closes := false); }
      Notify(r);
      err := r.outcome;
    }

    /** The handshake part: every byte pulled is given back. */
    method Shake(work: seq<Work>)
      requires ReceiveOk() && SentOk() && !handshakeDone
      modifies this`rx, this`bioBytesRead, this`pulled, this`overheadBytesAdjust, this`pushed, this`returned
      ensures ReceiveOk() && SentOk() && bioBytesRead == 0 && pulled == returned
      ensures Sum(old(rx)) + |old(rx)| <= Asks(work) ==> rx == []
    {
      Pull(work);
      if bioBytesRead != 0 {
        var _ := LowerRecved(bioBytesRead);
        bioBytesRead := 0;
      }
    }

    /** `altcp_mbedtls_lower_recv_process`: during the handshake every byte read is given back; once it is
        complete, received bytes are decrypted. */
    method LowerRecvProcess(work: seq<Work>, result: Handshake, hasConnected: bool, rounds: Rounds) returns (err: Err)
      requires ReceiveOk() && SentOk() && hasRecv && isOpen
      modifies this
      ensures ReceiveOk() && SentOk() && received == old(received)
      ensures handshakeDone <==> old(handshakeDone) || result.Completes?
      ensures !handshakeDone ==> bioBytesRead == 0 && pulled == returned && (isOpen <==> result.WantsMore?)
      ensures !handshakeDone && Sum(old(rx)) + |old(rx)| <= Asks(work) ==> rx == []
      ensures old(handshakeDone) ==> ReadOn(rounds)
    {
      if !handshakeDone {
        Shake(work);
        if !result.Completes? {
          isOpen := result.WantsMore?;
          return ErrOk;
        }
        handshakeDone := true;
        if hasConnected {
          err := PassConnected();
          if err != ErrOk { return; }
        }
        if rx == [] { return ErrOk; }
      }
      err := HandleRxAppldata(rounds);
    }

    /** A pbuf is queued. */
    method Queue(p: nat)
      requires ReceiveOk() && SentOk()
      modifies this`rx, this`received
      ensures ReceiveOk() && SentOk() && rx == old(rx) + [p] && received == old(received) + p
    {
      rx := rx + [p];
      received := received + p;
      assert rx[..|rx| - 1] == old(rx);
    }

    /** The end of the connection: held back while received bytes wait. */
    method LowerClosed(rounds: Rounds) returns (err: Err)
      requires ReceiveOk() && SentOk() && hasRecv && isOpen
      modifies this
      ensures ReceiveOk() && SentOk() && received == old(received) && handshakeDone == old(handshakeDone)
      ensures !handshakeDone || !old(upperCalled) ==> !isOpen
      ensures handshakeDone && old(upperCalled) ==>
        if old(rx) != [] || old(rxApp) != 0 then closeQueued && ReadOn(rounds) else rxClosed
    {
      hide Conserved, SentOk;
      if handshakeDone && upperCalled {
        if rx != [] || rxApp != 0 {
          closeQueued := true;
          var _ := HandleRxAppldata(rounds);
          return ErrOk;
        }
        rxClosed := true;
        var r := Application();
        NotifyEnd(r);
        return r.outcome;
      }
      isOpen := false;
      return ErrOk;
    }

    /** `altcp_mbedtls_lower_recv`: a pbuf arrives, or the end of the connection. */
    method LowerRecv(p: Option<nat>, work: seq<Work>, result: Handshake, hasConnected: bool, rounds: Rounds)
      returns (err: Err)
      requires ReceiveOk() && SentOk() && hasRecv && isOpen
      modifies this
      ensures ReceiveOk() && SentOk() && (old(handshakeDone) ==> handshakeDone)
      ensures received == old(received) + (if p.Some? then p.value else 0)
      ensures p.Some? ==> (handshakeDone <==> old(handshakeDone) || result.Completes?)
      ensures p.Some? && old(handshakeDone) ==> ReadOn(rounds)
      ensures p.None? && (!handshakeDone || !old(upperCalled)) ==> !isOpen
      ensures p.None? && handshakeDone && old(upperCalled) ==>
        if old(rx) != [] || old(rxApp) != 0 then closeQueued && ReadOn(rounds) else rxClosed
    {
      hide Conserved, SentOk, ReceiveOk;
      if p.Some? {
        Queue(p.value);
        err := LowerRecvProcess(work, result, hasConnected, rounds);
      } else {
        err := LowerClosed(rounds);
      }
    }

    /** `altcp_mbedtls_lower_connected`: the overhead counter is set to 0. That fits exactly if it was 0,
        as it is before the inner connection has accepted any byte. */
    method LowerConnected(work: seq<Work>, result: Handshake, hasConnected: bool, rounds: Rounds) returns (err: Err)
      requires ReceiveOk() && SentOk() && hasRecv && isOpen && pushed == 0
      modifies this
      ensures ReceiveOk() && SentOk() && received == old(received)
      ensures handshakeDone <==> old(handshakeDone) || result.Completes?
    {
      assert overheadBytesAdjust == 0;
      overheadBytesAdjust := 0;
      err := LowerRecvProcess(work, result, hasConnected, rounds);
    }

    // -------------------------------------------------------------- sending

    /** `altcp_mbedtls_bio_send`: encrypted bytes go to the inner connection in 16-bit portions, as long
        as it has room: its send buffer never holds more than an int counts. It stops at the first
        portion that is not accepted. */
    method BioSend(size: nat, answers: Answers) returns (count: int)
      requires SentOk()
      modifies this`overheadBytesAdjust, this`pushed
      ensures SentOk() && overheadBytesAdjust - old(overheadBytesAdjust) == pushed - old(pushed) >= 0
      ensures 0 <= count ==> pushed - old(pushed) == count <= size
      ensures count != size ==> exists k: nat :: Stopped(size, answers, old(pushed), k, count)
    {
      count := 0;
      var left := size;
      ghost var k := 0;
      while left > 0
        invariant count + left == size && 0 <= count && 0 <= left && SentOk()
        invariant overheadBytesAdjust - old(overheadBytesAdjust) == pushed - old(pushed) == count
        invariant (forall j: nat :: j < k ==> answers(j) == ErrOk) && (0 < left ==> count == k * U16_MAX)
        decreases left
      {
        var part := if left < U16_MAX then left else U16_MAX;
        var err := answers(count / U16_MAX);
        if pushed - acked + part > INT_MAX { err := ErrMem; }
        if err == ErrOk {
          count, left := count + part, left - part;
          overheadBytesAdjust := overheadBytesAdjust + part;
          pushed := pushed + part;
          k := k + 1;
        } else if err == ErrMem {
          assert Stopped(size, answers, old(pushed), k, count);
          return;
        } else {
          assert Stopped(size, answers, old(pushed), k, -1);
          return -1;
        }
      }
    }

    /** The inner connection has accepted k full portions and not the next one. */
    ghost predicate Stopped(size: nat, answers: Answers, before: int, k: nat, count: int)
      reads this
    {
      && k * U16_MAX < size && pushed - before == k * U16_MAX
      && (forall j: nat :: j < k ==> answers(j) == ErrOk)
      && var part := if size - k * U16_MAX < U16_MAX then size - k * U16_MAX else U16_MAX;
      if pushed - acked + part > INT_MAX || answers(k) == ErrMem then count == k * U16_MAX
      else answers(k) != ErrOk && count == -1
    }

    /** `altcp_mbedtls_write`. mbedTLS sends what it makes of the n bytes, and reports whether it has taken
        them: only all of them, and only if it has pushed at least n bytes in this call. */
    method Write(n: nat, work: seq<Work>, taken: bool) returns (err: Err)
      requires SentOk() && n <= U16_MAX
      modifies this`overheadBytesAdjust, this`pushed, this`written
      ensures SentOk() && written == old(written) + (if err == ErrOk then n else 0)
      ensures err == ErrOk <==> isOpen && handshakeDone && taken && n <= pushed - old(pushed)
      ensures !isOpen || !handshakeDone ==> pushed == old(pushed)
      ensures isOpen && handshakeDone && old(pushed) - acked + Given(work) <= INT_MAX
              && (forall i :: 0 <= i < |work| && work[i].Give? ==> AllAccepted(work[i].answers))
              ==> pushed - old(pushed) == Given(work)
    {
      if !isOpen { return ErrOther; }
      if !handshakeDone { return ErrOther; }
      var start := pushed;
      for i := 0 to |work|
        invariant SentOk() && written == old(written) && 0 <= pushed - start
        invariant overheadBytesAdjust - old(overheadBytesAdjust) == pushed - start
        invariant start - acked + Given(work) <= INT_MAX
                  && (forall i :: 0 <= i < |work| && work[i].Give? ==> AllAccepted(work[i].answers))
                  ==> pushed - start == Given(work[..i])
      {
        assert work[..i + 1][..i] == work[..i];
        GivenGrows(work, i + 1);
        if work[i].Give? {
          var _ := BioSend(work[i].size, work[i].answers);
        }
      }
      assert work[..|work|] == work;
      if taken && n <= pushed - start {
        overheadBytesAdjust := overheadBytesAdjust - n;
        written := written + n;
        return ErrOk;
      }
      return ErrMem;
    }

    /** `altcp_mbedtls_lower_sent`: the peer acknowledges n of the pushed bytes. What exceeds the
        overhead is reported to the application: never more than it wrote, and all of it once nothing
        is left to acknowledge. */
    method LowerSent(n: nat) returns (reportedNow: nat)
      requires SentOk() && n <= U16_MAX && n <= pushed - acked
      modifies this`overheadBytesAdjust, this`acked, this`reported
      ensures SentOk() && acked == old(acked) + n && reported == old(reported) + reportedNow
      ensures reportedNow == if n <= old(overheadBytesAdjust) then 0 else n - old(overheadBytesAdjust)
      ensures pushed == acked ==> written == reported
    {
      var overhead := overheadBytesAdjust;
      if Unsigned(overhead) > n { overhead := n; }
      overheadBytesAdjust := overheadBytesAdjust - n;
      acked := acked + n;
      reportedNow := n - overhead;
      if reportedNow != 0 {
        overheadBytesAdjust := overheadBytesAdjust + reportedNow;
        reported := reported + reportedNow;
      }
    }

    // -------------------------------------------------------------- runs

    /** Callbacks in any order, any number of times, until the connection is closed. */
    method Run(callbacks: nat)
      requires ReceiveOk() && SentOk() && hasRecv
      modifies this
      ensures ReceiveOk() && SentOk()
    {
      for i := 0 to callbacks
        invariant ReceiveOk() && SentOk()
      {
        if !isOpen { return; }
        var n: nat, p: Option<nat>, taken: bool, hasConnected: bool := *, *, *, *;
        var work: seq<Work>, result: Handshake, rounds: Rounds := *, *, *;
        if
        case true => var _ := LowerRecv(p, work, result, hasConnected, rounds);
        case true => var _ := HandleRxAppldata(rounds);
        case pushed == 0 => var _ := LowerConnected(work, result, hasConnected, rounds);
        case n <= U16_MAX => Recved(n);
        case n <= U16_MAX => var _ := Write(n, work, taken);
        case n <= U16_MAX && n <= pushed - acked => var _ := LowerSent(n);
      }
    }
  }

  lemma {:induction false} SumHead(xs: seq<nat>)
    ensures Sum(xs) == if xs == [] then 0 else xs[0] + Sum(xs[1..])
  {
    if 1 < |xs| {
      SumHead(xs[..|xs| - 1]);
      assert xs[..|xs| - 1][1..] == xs[1..][..|xs| - 2];
    }
  }

  lemma {:induction false} GivenGrows(work: seq<Work>, i: nat)
    requires i <= |work|
    ensures Given(work[..i]) <= Given(work)
    decreases |work| - i
  {
    if i == |work| {
      assert work[..i] == work;
    } else {
      assert work[..i + 1][..i] == work[..i];
      GivenGrows(work, i + 1);
    }
  }
}

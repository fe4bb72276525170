/** The logger's trade file: a header, then whole lines, however the writes are cut into pieces. */
module Loggers {
  import opened TradeLog

  /** Bytes that the loop of writes gets into the file when the k-th call with n bytes left returns write(k, n). */
  function Accepted(write: (nat, nat) -> int, call: nat, left: nat): nat
    requires forall k: nat, n: nat :: write(k, n) <= n
    decreases left
  {
    if left == 0 || write(call, left) <= 0 then 0
    else write(call, left) + Accepted(write, call + 1, left - write(call, left))
  }

  /** Short writes lose nothing: less than everything is written only if a call fails. */
  lemma {:induction false} AcceptedAll(write: (nat, nat) -> int, call: nat, left: nat)
    requires forall k: nat, n: nat :: write(k, n) <= n
    ensures Accepted(write, call, left) <= left
    ensures (forall k: nat, n: nat :: n > 0 ==> write(k, n) > 0) ==> Accepted(write, call, left) == left
    decreases left
  {
    if left > 0 && write(call, left) > 0 {
      AcceptedAll(write, call + 1, left - write(call, left));
    }
  }

  function Header(time: string): string {
    "=== SentinelTrade Log Started: " + (time + " ===")
  }

  /** The trade file after a header and the lines of some trades. */
  ghost function FileText(start: string, logged: seq<Logged>): string
    requires forall l :: l in logged ==> Printable(l)
  {
    if logged == [] then Header(start) + "\n"
    else
      var n := |logged| - 1;
      FileText(start, logged[..n]) + Line(logged[n].time, Message(logged[n])) + "\n"
  }

  class Logger {
    var isOpen: bool
    var tradeFile: string

    constructor ()
      ensures !isOpen
    {
      isOpen, tradeFile := false, "";
    }

    /** Opens the trade file truncated; the header is written once the system log is open too. */
    method Init(tradeFails: bool, systemFails: bool, time: string, write: (nat, nat) -> int) returns (ok: bool)
      requires forall k: nat, n: nat :: write(k, n) <= n
      modifies this
      ensures isOpen == !tradeFails && ok == (!tradeFails && !systemFails)
      ensures tradeFails ==> tradeFile == old(tradeFile)
      ensures !tradeFails && !ok ==> tradeFile == ""
      ensures ok ==> tradeFile <= FileText(time, [])
      ensures ok && (forall k: nat, n: nat :: n > 0 ==> write(k, n) > 0) ==>
                tradeFile == FileText(time, []) == "=== SentinelTrade Log Started: " + (time + " ===") + "\n"
    {
      isOpen := !tradeFails;
      if isOpen {
        tradeFile := "";
      }
      if tradeFails || systemFails {
        return false;
      }
      ok := true;
      WriteToFd(Header(time) + "\n", write);
      AcceptedAll(write, 0, |Header(time) + "\n"|);
    }

    /** Appends a prefix of the message: as much as the calls accept. */
    method WriteToFd(msg: string, write: (nat, nat) -> int)
      requires forall k: nat, n: nat :: write(k, n) <= n
      modifies `tradeFile
      ensures Accepted(write, 0, |msg|) <= |msg|
      ensures tradeFile == if isOpen then old(tradeFile) + msg[..Accepted(write, 0, |msg|)] else old(tradeFile)
    {
      AcceptedAll(write, 0, |msg|);
      if !isOpen {
        return;
      }
      var remaining, written := |msg|, 0;
      var calls := 0;
      while remaining > 0
        invariant remaining + written == |msg| && written >= 0 && remaining >= 0
        invariant tradeFile == old(tradeFile) + msg[..written]
        invariant written + Accepted(write, calls, remaining) == Accepted(write, 0, |msg|)
      {
        var n := write(calls, remaining);
        if n <= 0 {
          break;
        }
        tradeFile := tradeFile + msg[written..written + n];
        assert msg[..written] + msg[written..written + n] == msg[..written + n];
        written, remaining, calls := written + n, remaining - n, calls + 1;
      }
    }

    /** One line under the logger's mutex. */
    method LogTrade(time: string, message: string, write: (nat, nat) -> int)
      requires forall k: nat, n: nat :: write(k, n) <= n
      modifies `tradeFile
      ensures !isOpen ==> tradeFile == old(tradeFile)
      ensures old(tradeFile) <= tradeFile <= old(tradeFile) + Line(time, message) + "\n"
      ensures isOpen && (forall k: nat, n: nat :: n > 0 ==> write(k, n) > 0)
              ==> tradeFile == old(tradeFile) + Line(time, message) + "\n"
    {
      var line := Line(time, message) + "\n";
      AcceptedAll(write, 0, |line|);
      WriteToFd(line, write);
      assert old(tradeFile) + line == old(tradeFile) + Line(time, message) + "\n";
    }
  }

  /**
   * Log a trade: the file of the trades before becomes the file with this one, or with as much of its line as the
   * calls accepted.
   */
  method LogMatch(logger: Logger, l: Logged, write: (nat, nat) -> int, ghost start: string, ghost logged: seq<Logged>)
    requires forall k: nat, n: nat :: write(k, n) <= n
    requires Printable(l) && forall m :: m in logged ==> Printable(m)
    requires logger.isOpen && logger.tradeFile == FileText(start, logged)
    modifies logger`tradeFile
    ensures FileText(start, logged) <= logger.tradeFile <= FileText(start, logged + [l])
    ensures (forall k: nat, n: nat :: n > 0 ==> write(k, n) > 0) ==> logger.tradeFile == FileText(start, logged + [l])
  {
    assert (logged + [l])[..|logged|] == logged;
    logger.LogTrade(l.time, Message(l), write);
  }
}

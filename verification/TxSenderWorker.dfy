/** A transaction sender worker: it drains its own queue, one send call at a time, before it takes
    the next transaction from its channel. Send results and wake-ups are arbitrary inputs.

    A worker is proved against the worker steps of the driver's runs: `Mirrors` says that a driver
    state holds exactly this worker. */
module TxSender {
  import opened Types
  import opened DriverState

  /** How many send calls an entry can still cause. */
  function CallsLeft(e: Entry, maxAttempts: nat): nat {
    Max(1, maxAttempts + 1 - e.attempt)
  }

  function QueueCallsLeft(queue: seq<Entry>, maxAttempts: nat): nat {
    if queue == [] then 0 else CallsLeft(queue[0], maxAttempts) + QueueCallsLeft(queue[1..], maxAttempts)
  }

  lemma {:induction false} CallsLeftAppend(queue: seq<Entry>, e: Entry, maxAttempts: nat)
    ensures QueueCallsLeft(queue + [e], maxAttempts) == QueueCallsLeft(queue, maxAttempts) + CallsLeft(e, maxAttempts)
  {
    if queue == [] {
      assert [] + [e] == [e];
    } else {
      assert (queue + [e])[1..] == queue[1..] + [e];
      CallsLeftAppend(queue[1..], e, maxAttempts);
    }
  }

  /** Every send call uses up at least one of the calls that are left. */
  lemma CallUsesUp(queue: seq<Entry>, result: SendResult, maxAttempts: nat)
    requires queue != []
    ensures QueueCallsLeft(AfterCall(queue, result, maxAttempts), maxAttempts) < QueueCallsLeft(queue, maxAttempts)
  {
    CallsLeftAppend(queue[1..], Entry(queue[0].tx, queue[0].attempt + 1), maxAttempts);
  }

  predicate Fatal(result: SendResult) {
    result.ConnectionLost? || result.ZeroRttRejected?
  }

  /** None of the first `n` calls stopped the worker. */
  ghost predicate Survived(results: nat -> SendResult, n: nat) {
    forall i :: 0 <= i < n ==> !Fatal(results(i))
  }

  lemma SurvivedMore(results: nat -> SendResult, n: nat)
    ensures Survived(results, 0)
    ensures Survived(results, n) && !Fatal(results(n)) ==> Survived(results, n + 1)
  {
  }

  /** `n` send calls of task `id` in a row, with the results the transport gave. */
  ghost function Calls(c: Config, s: State, id: TaskId, results: nat -> SendResult, n: nat): State
    decreases n
  {
    if n == 0 then s
    else
      var t := Calls(c, s, id, results, n - 1);
      if id !in t.tasks || t.tasks[id].queue == [] then t else WorkerSend(c, t, id, results(n - 1))
  }

  datatype WakeUp = Received | InletClosed | IdleTimeout | StillBusy | ConnectionClosed | Cancelled

  class QuicTxSenderWorker {
    const config: Config
    const remotePeer: Pubkey
    const remotePeerAddr: SocketAddr
    var incomingRx: seq<Txn>
    var txQueue: seq<Entry>
    var cancelled: bool
    var txnSent: nat
    var responses: seq<Response>
    ghost var sends: multiset<Entry>

    constructor (config: Config, remotePeer: Pubkey, remotePeerAddr: SocketAddr, queue: seq<Entry>)
      ensures this.config == config && txQueue == queue && incomingRx == [] && !cancelled && responses == []
      ensures this.remotePeer == remotePeer && this.remotePeerAddr == remotePeerAddr
    {
      this.config, this.remotePeer, this.remotePeerAddr := config, remotePeer, remotePeerAddr;
      incomingRx, txQueue, cancelled, txnSent, responses := [], queue, false, 0, [];
      sends := multiset{};
    }

    ghost function AsTask(): Worker
      reads this
    {
      Worker(remotePeer, remotePeerAddr, incomingRx, txQueue, cancelled)
    }

    /** The driver state `s` holds this worker as its task `id`, and has seen what it did. */
    ghost predicate Mirrors(s: State, id: TaskId)
      reads this
    {
      && id in s.tasks && s.tasks[id] == AsTask()
      && s.responses == responses && s.sends == sends
    }

    /** One send call. A failed one is queued again unless its attempts are used up; only the
        loss of the connection and a rejected early-data handshake stop the worker. */
    method ProcessTx(e: Entry, result: SendResult, ghost s: State, ghost id: TaskId) returns (fatal: bool)
      requires id in s.tasks && s.tasks[id].queue != [] && e == s.tasks[id].queue[0]
      requires s.responses == responses && s.sends == sends
      requires s.tasks[id] == AsTask().(queue := [e] + txQueue)
      modifies this`txQueue, this`responses, this`sends, this`txnSent
      ensures Mirrors(WorkerSend(config, s, id, result), id)
      ensures txQueue == AfterCall(s.tasks[id].queue, result, config.maxSendAttempts)
      ensures fatal == Fatal(result)
      ensures txnSent == old(txnSent) + if result.Sent? then 1 else 0
    {
      assert ([e] + txQueue)[1..] == txQueue;
      assert responses + [] == responses;
      sends := sends + multiset{e};
      match result
      case Sent =>
        txnSent := txnSent + 1;
        responses := responses + [TxSent(remotePeer, remotePeerAddr, e)];
        fatal := false;
      case _ =>
        if e.attempt >= config.maxSendAttempts {
          responses := responses + [TxFailed(remotePeer, remotePeerAddr, e)];
        } else {
          txQueue := txQueue + [Entry(e.tx, e.attempt + 1)];
        }
        fatal := !result.StreamStopped?;
    }

    /** Takes the head off the queue and makes its send call. */
    method ProcessHead(result: SendResult, ghost s: State, ghost id: TaskId) returns (fatal: bool)
      requires Mirrors(s, id) && txQueue != []
      modifies this`txQueue, this`responses, this`sends, this`txnSent
      ensures Mirrors(WorkerSend(config, s, id, result), id)
      ensures fatal == Fatal(result)
      ensures QueueCallsLeft(txQueue, config.maxSendAttempts) < QueueCallsLeft(old(txQueue), config.maxSendAttempts)
      ensures sends == old(sends) + multiset{old(txQueue)[0]}
    {
      CallUsesUp(txQueue, result, config.maxSendAttempts);
      var e := txQueue[0];
      txQueue := txQueue[1..];
      fatal := ProcessTx(e, result, s, id);
    }

    /** Drains the queue until it is empty or a call fails for good. It ends, because every call
        uses up at least one of the calls the queue has left. */
    method TryProcessTxInQueue(results: nat -> SendResult, ghost s: State, ghost id: TaskId) returns (fatal: bool, ghost calls: nat)
      requires Mirrors(s, id)
      modifies this`txQueue, this`responses, this`sends, this`txnSent
      ensures Mirrors(Calls(config, s, id, results, calls), id)
      ensures fatal ==> calls > 0 && Fatal(results(calls - 1))
      ensures !fatal ==> txQueue == []
      ensures Survived(results, if fatal then calls - 1 else calls)
      ensures calls + QueueCallsLeft(txQueue, config.maxSendAttempts) <= QueueCallsLeft(old(txQueue), config.maxSendAttempts)
      ensures |sends| == |old(sends)| + calls
    {
      hide QueueCallsLeft, Survived;
      SurvivedMore(results, 0);
      calls := 0;
      var next := 0;
      while txQueue != []
        invariant next == calls
        invariant Mirrors(Calls(config, s, id, results, calls), id)
        invariant Survived(results, calls)
        invariant calls + QueueCallsLeft(txQueue, config.maxSendAttempts) <= QueueCallsLeft(old(txQueue), config.maxSendAttempts)
        invariant |sends| == |old(sends)| + calls
        decreases QueueCallsLeft(txQueue, config.maxSendAttempts)
      {
        fatal := ProcessHead(results(next), Calls(config, s, id, results, calls), id);
        SurvivedMore(results, calls);
        calls, next := calls + 1, next + 1;
        if fatal {
          return;
        }
      }
      fatal := false;
    }

    /** One turn of the worker's loop: drain the queue, then wait for one of several events. The
        channel is read only while the queue is empty, so no transaction overtakes a retry. */
    method Turn(results: nat -> SendResult, wake: WakeUp, ghost s: State, ghost id: TaskId)
      returns (stop: bool, ghost calls: nat)
      requires Mirrors(s, id)
      modifies this
      ensures var t := Calls(config, s, id, results, calls);
              id in t.tasks &&
              if !stop && wake.Received? && t.tasks[id].channel != [] then
                t.tasks[id].queue == [] && Mirrors(WorkerReceive(t, id), id)
              else incomingRx == t.tasks[id].channel && txQueue == t.tasks[id].queue && responses == t.responses && sends == t.sends
      ensures !stop ==> incomingRx == old(incomingRx) || (wake.Received? && old(incomingRx) != [] && incomingRx == old(incomingRx)[1..])
    {
      var fatal;
      fatal, calls := TryProcessTxInQueue(results, s, id);
      if fatal {
        return true, calls;
      }
      match wake
      case Received =>
        if incomingRx != [] {
          txQueue := txQueue + [Entry(incomingRx[0], 1)];
          incomingRx := incomingRx[1..];
        }
        stop := false;
      case StillBusy => stop := false;
      case Cancelled =>
        cancelled := true;
        stop := true;
      case _ => stop := true;
    }
  }
}

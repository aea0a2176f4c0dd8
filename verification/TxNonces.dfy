/** Nonces of the transaction sender's account. Every `send_transaction` reads the account's
    pending count as its nonce (the default nonce manager of nodes-common/src/web3.rs keeps no
    count of its own), and nobody else sends from the account. A broadcast that timed out may
    still reach the node later (nodes-common/src/web3/tx_sender.rs). */
module TxNonces {
  import opened Wrappers
  import opened TxSender
  import opened TxSenderInvariant

  /** A transaction: the number of its `send_transaction` call, and its nonce. */
  datatype Tx = Tx(call: nat, nonce: nat)

  /** `pending` is the account's pending count, `nonce` the nonce of the broadcast in flight,
      `landed` what the node has accepted, `adrift` the broadcasts that timed out and that the
      node may still receive. */
  datatype Ledger = Ledger(sender: State, base: nat, pending: nat, nonce: nat, landed: seq<Tx>, adrift: set<Tx>)

  datatype LedgerEvent = Sender(event: Event) | Arrives(tx: Tx)

  function Current(l: Ledger): Tx {
    Tx(|l.sender.sent| - if l.sender.sent == [] then 0 else 1, l.nonce)
  }

  /** The node accepts a transaction when its nonce is the account's next one. */
  ghost predicate LedgerEnabled(l: Ledger, e: LedgerEvent) {
    match e
    case Sender(event) =>
      Enabled(l.sender, event) && (event.Finish? && event.result.Broadcast? ==> l.nonce == l.pending)
    case Arrives(tx) => tx in l.adrift
  }

  function Land(l: Ledger, tx: Tx): Ledger {
    l.(landed := l.landed + [tx], pending := l.pending + 1)
  }

  function LedgerNext(l: Ledger, e: LedgerEvent): Ledger
    requires e.Sender? && e.event.Take? ==> l.sender.queue != []
    requires e.Sender? && e.event.Finish? ==> l.sender.inFlight.Some?
    requires e.Sender? && e.event.DropHandle? ==> l.sender.handles > 0
  {
    match e
    case Sender(event) =>
      var stepped := l.(sender := Next(l.sender, event));
      (match event
       case Take => stepped.(nonce := l.pending)
       case Finish(Broadcast(_), _) => Land(stepped, Current(l))
       case Finish(Hangs, _) => stepped.(adrift := l.adrift + {Current(l)})
       case _ => stepped)
    case Arrives(tx) =>
      var received := l.(adrift := l.adrift - {tx});
      if tx.nonce == l.pending then Land(received, tx) else received
  }

  ghost predicate LedgerLegal(l: Ledger, events: seq<LedgerEvent>)
    decreases |events|
  {
    events == [] || (LedgerEnabled(l, events[0]) && LedgerLegal(LedgerNext(l, events[0]), events[1..]))
  }

  ghost function LedgerRun(l: Ledger, events: seq<LedgerEvent>): Ledger
    requires LedgerLegal(l, events)
    decreases |events|
  {
    if events == [] then l else LedgerRun(LedgerNext(l, events[0]), events[1..])
  }

  function Opened(capacity: nat, sendTimeout: nat, base: nat): Ledger {
    Ledger(Spawn(capacity, sendTimeout), base, base, 0, [], {})
  }

  /** The transaction is younger than everything that has landed. */
  ghost predicate Youngest(l: Ledger, tx: Tx) {
    forall i :: 0 <= i < |l.landed| ==> l.landed[i].call < tx.call
  }

  /** What the account's ledger and the sender know of each other. */
  ghost predicate Books(l: Ledger) {
    && l.pending == l.base + |l.landed|
    && (forall i :: 0 <= i < |l.landed| ==> l.landed[i].nonce == l.base + i && l.landed[i].call < |l.sender.sent|)
    && (forall i, j :: 0 <= i < j < |l.landed| ==> l.landed[i].call < l.landed[j].call)
    && (forall tx :: tx in l.adrift ==> tx.call < |l.sender.replied| && tx.nonce <= l.pending)
    && (forall tx :: tx in l.adrift && tx.nonce == l.pending ==> Youngest(l, tx))
    && (l.sender.inFlight.Some? ==> l.nonce <= l.pending && (l.nonce == l.pending ==> Youngest(l, Current(l))))
  }

  ghost predicate LedgerInv(l: Ledger) {
    Inv(l.sender) && Books(l)
  }

  predicate Counted(s: State) {
    |s.sent| == |s.replied| + |InFlight(s)|
  }

  lemma CountsOf(s: State)
    requires Inv(s)
    ensures Counted(s)
  {
  }

  lemma TakeKeepsBooks(l: Ledger)
    requires Books(l) && Counted(l.sender) && LedgerEnabled(l, Sender(Take))
    ensures Books(LedgerNext(l, Sender(Take)))
  {
  }

  lemma FinishKeepsBooks(l: Ledger, e: LedgerEvent)
    requires Books(l) && Counted(l.sender) && LedgerEnabled(l, e) && e.Sender? && e.event.Finish?
    ensures Books(LedgerNext(l, e))
  {
  }

  lemma ArrivalKeepsBooks(l: Ledger, e: LedgerEvent)
    requires Books(l) && Counted(l.sender) && LedgerEnabled(l, e) && e.Arrives?
    ensures Books(LedgerNext(l, e))
  {
  }

  lemma OtherKeepsBooks(l: Ledger, event: Event)
    requires Books(l) && LedgerEnabled(l, Sender(event)) && !event.Take? && !event.Finish?
    ensures Books(LedgerNext(l, Sender(event)))
  {
  }

  lemma LedgerInvStep(l: Ledger, e: LedgerEvent)
    requires LedgerInv(l) && LedgerEnabled(l, e)
    ensures LedgerInv(LedgerNext(l, e))
  {
    CountsOf(l.sender);
    if e.Arrives? {
      ArrivalKeepsBooks(l, e);
    } else {
      InvStep(l.sender, e.event);
      if e.event.Finish? {
        FinishKeepsBooks(l, e);
      } else if e.event.Take? {
        TakeKeepsBooks(l);
      } else {
        OtherKeepsBooks(l, e.event);
      }
    }
  }

  lemma {:induction false} LedgerInvRun(l: Ledger, events: seq<LedgerEvent>)
    requires LedgerInv(l) && LedgerLegal(l, events)
    ensures LedgerInv(LedgerRun(l, events)) && LedgerRun(l, events).base == l.base
    decreases |events|
  {
    if events != [] {
      LedgerInvStep(l, events[0]);
      LedgerInvRun(LedgerNext(l, events[0]), events[1..]);
    }
  }

  /** In every run, timeouts and late arrivals included: the accepted transactions carry
      consecutive nonces, in submission order. */
  lemma NoncesConsecutive(capacity: nat, sendTimeout: nat, base: nat, events: seq<LedgerEvent>)
    requires capacity > 0 && LedgerLegal(Opened(capacity, sendTimeout, base), events)
    ensures var l := LedgerRun(Opened(capacity, sendTimeout, base), events);
      && (forall i :: 0 <= i < |l.landed| ==> l.landed[i].nonce == base + i)
      && (forall i, j :: 0 <= i < j < |l.landed| ==> l.landed[i].call < l.landed[j].call)
  {
    LedgerInvRun(Opened(capacity, sendTimeout, base), events);
  }

  /** No send of the run has timed out. */
  predicate NoTimeouts(events: seq<LedgerEvent>) {
    forall i :: 0 <= i < |events| && events[i].Sender? && events[i].event.Finish? ==> !events[i].event.result.Hangs?
  }

  /** The transactions of the calls that were answered with a hash, with consecutive nonces. */
  function Broadcasts(replied: seq<Replied>, base: nat): seq<Tx> {
    if replied == [] then []
    else
      var last := |replied| - 1;
      var before := Broadcasts(replied[..last], base);
      before + if replied[last].answer.Ok? then [Tx(last, base + |before|)] else []
  }

  /** No broadcast is adrift, and the nonce in flight is the one the node expects. */
  ghost predicate RaceFree(l: Ledger) {
    && l.adrift == {}
    && (l.sender.inFlight.Some? ==> l.nonce == l.pending)
    && l.landed == Broadcasts(l.sender.replied, l.base)
  }

  lemma RaceFreeFinish(l: Ledger, result: SendResult, elapsed: nat)
    requires Books(l) && Counted(l.sender) && RaceFree(l) && !result.Hangs?
    requires LedgerEnabled(l, Sender(Finish(result, elapsed)))
    ensures RaceFree(LedgerNext(l, Sender(Finish(result, elapsed))))
  {
    var replied := Next(l.sender, Finish(result, elapsed)).replied;
    assert replied[..|replied| - 1] == l.sender.replied;
  }

  lemma RaceFreeOther(l: Ledger, e: LedgerEvent)
    requires RaceFree(l) && LedgerEnabled(l, e) && (e.Sender? ==> !e.event.Finish?)
    ensures RaceFree(LedgerNext(l, e))
  {
  }

  lemma RaceFreeStep(l: Ledger, e: LedgerEvent)
    requires LedgerInv(l) && RaceFree(l) && LedgerEnabled(l, e)
    requires e.Sender? && e.event.Finish? ==> !e.event.result.Hangs?
    ensures RaceFree(LedgerNext(l, e))
  {
    CountsOf(l.sender);
    if e.Sender? && e.event.Finish? {
      RaceFreeFinish(l, e.event.result, e.event.elapsed);
    } else {
      RaceFreeOther(l, e);
    }
  }

  /** Without timeouts there is no nonce race: the nonce of the broadcast in flight is always the
      one the node expects, and what the node has accepted is exactly what callers were told has
      been broadcast, numbered consecutively in submission order, whatever sends failed between. */
  lemma {:induction false} NoTimeoutNoRace(l: Ledger, events: seq<LedgerEvent>)
    requires LedgerInv(l) && RaceFree(l) && LedgerLegal(l, events) && NoTimeouts(events)
    ensures RaceFree(LedgerRun(l, events))
    decreases |events|
  {
    if events != [] {
      LedgerInvStep(l, events[0]);
      RaceFreeStep(l, events[0]);
      assert forall i :: 0 <= i < |events[1..]| ==> events[1..][i] == events[i + 1];
      NoTimeoutNoRace(LedgerNext(l, events[0]), events[1..]);
    }
  }

  lemma OpenedRaceFree(capacity: nat, sendTimeout: nat, base: nat)
    requires capacity > 0
    ensures LedgerInv(Opened(capacity, sendTimeout, base)) && RaceFree(Opened(capacity, sendTimeout, base))
  {
  }

  /** The broadcast in flight carries a nonce that the account has used meanwhile. */
  predicate Raced(l: Ledger) {
    l.sender.inFlight.Some? && l.nonce != l.pending
  }

  /** Some caller was told that its send timed out, and no caller since that its send went through. */
  ghost predicate TimedOutSinceBroadcast(replied: seq<Replied>) {
    exists i :: 0 <= i < |replied| && UnansweredAt(replied, i)
  }

  ghost predicate UnansweredAt(replied: seq<Replied>, i: nat)
    requires i < |replied|
  {
    replied[i].answer == Err(Timeout) && forall j :: i < j < |replied| ==> replied[j].answer.Err?
  }

  /** Why a broadcast is adrift, and when its nonce is spent: it was told to time out, and any later
      success has used a nonce that is no smaller. */
  ghost predicate Explained(l: Ledger, tx: Tx) {
    && tx.call < |l.sender.replied| && l.sender.replied[tx.call].answer == Err(Timeout)
    && tx.nonce <= l.pending
    && (tx.nonce == l.pending ==> UnansweredAt(l.sender.replied, tx.call))
  }

  /** Every broadcast adrift is explained, and only a timeout without a success since can have let
      the nonce in flight be used. */
  ghost predicate Drift(l: Ledger) {
    && (forall tx :: tx in l.adrift ==> Explained(l, tx))
    && (!TimedOutSinceBroadcast(l.sender.replied) ==> !Raced(l))
  }

  lemma SpentWithoutTimeout(l: Ledger, tx: Tx)
    requires Drift(l) && tx in l.adrift && !TimedOutSinceBroadcast(l.sender.replied)
    ensures tx.nonce < l.pending
  {
    assert Explained(l, tx);
  }

  lemma OneMoreReply(replied: seq<Replied>, last: Replied, i: nat)
    requires i < |replied|
    ensures UnansweredAt(replied + [last], i) <==> UnansweredAt(replied, i) && last.answer.Err?
  {
    var all := replied + [last];
    assert forall j :: 0 <= j < |replied| ==> all[j] == replied[j];
    assert all[|replied|] == last;
  }

  lemma TimedOutStep(replied: seq<Replied>, last: Replied)
    ensures TimedOutSinceBroadcast(replied + [last])
       <==> last.answer == Err(Timeout) || (last.answer.Err? && TimedOutSinceBroadcast(replied))
  {
    var all := replied + [last];
    forall i: nat | i < |replied|
      ensures UnansweredAt(all, i) <==> UnansweredAt(replied, i) && last.answer.Err?
    {
      OneMoreReply(replied, last, i);
    }
    assert UnansweredAt(all, |replied|) <==> last.answer == Err(Timeout);
  }

  lemma FinishKeepsDrift(l: Ledger, result: SendResult, elapsed: nat)
    requires Books(l) && Counted(l.sender) && Drift(l) && LedgerEnabled(l, Sender(Finish(result, elapsed)))
    ensures Drift(LedgerNext(l, Sender(Finish(result, elapsed))))
  {
    var l' := LedgerNext(l, Sender(Finish(result, elapsed)));
    var last := Replied(l.sender.inFlight.value, AnswerOf(result));
    assert l'.sender.replied == l.sender.replied + [last];
    forall tx | tx in l'.adrift
      ensures Explained(l', tx)
    {
      if tx in l.adrift {
        assert Explained(l, tx);
        OneMoreReply(l.sender.replied, last, tx.call);
      }
    }
  }

  lemma ArrivalKeepsDrift(l: Ledger, tx: Tx)
    requires Drift(l) && LedgerEnabled(l, Arrives(tx))
    ensures Drift(LedgerNext(l, Arrives(tx)))
  {
    var l' := LedgerNext(l, Arrives(tx));
    assert Explained(l, tx);
    forall other | other in l'.adrift
      ensures Explained(l', other)
    {
      assert Explained(l, other);
    }
  }

  lemma OtherKeepsDrift(l: Ledger, event: Event)
    requires Drift(l) && LedgerEnabled(l, Sender(event)) && !event.Finish?
    ensures Drift(LedgerNext(l, Sender(event)))
  {
    forall tx | tx in l.adrift
      ensures Explained(LedgerNext(l, Sender(event)), tx)
    {
      assert Explained(l, tx);
    }
  }

  lemma {:induction false} DriftRun(l: Ledger, events: seq<LedgerEvent>)
    requires LedgerInv(l) && Drift(l) && LedgerLegal(l, events)
    ensures Drift(LedgerRun(l, events))
    decreases |events|
  {
    if events != [] {
      CountsOf(l.sender);
      LedgerInvStep(l, events[0]);
      match events[0] {
        case Arrives(tx) => ArrivalKeepsDrift(l, tx);
        case Sender(Finish(result, elapsed)) => FinishKeepsDrift(l, result, elapsed);
        case Sender(event) => OtherKeepsDrift(l, event);
      }
      DriftRun(LedgerNext(l, events[0]), events[1..]);
    }
  }

  /** No nonce races in terms of the answers callers saw, in every run, timeouts and late arrivals
      included: unless some send timed out and none has gone through since, the nonce in flight is the
      one the node expects, and no broadcast that is still adrift can take the next one. */
  lemma RacesNeedTimeout(capacity: nat, sendTimeout: nat, base: nat, events: seq<LedgerEvent>)
    requires capacity > 0 && LedgerLegal(Opened(capacity, sendTimeout, base), events)
    ensures var l := LedgerRun(Opened(capacity, sendTimeout, base), events);
      !TimedOutSinceBroadcast(l.sender.replied) ==> !Raced(l) && forall tx :: tx in l.adrift ==> tx.nonce < l.pending
  {
    var l0 := Opened(capacity, sendTimeout, base);
    OpenedRaceFree(capacity, sendTimeout, base);
    DriftRun(l0, events);
    var l := LedgerRun(l0, events);
    if !TimedOutSinceBroadcast(l.sender.replied) {
      forall tx | tx in l.adrift
        ensures tx.nonce < l.pending
      {
        SpentWithoutTimeout(l, tx);
      }
    }
  }

  /** What has landed is answered for and no longer adrift. */
  ghost predicate Ashore(l: Ledger) {
    && (forall tx :: tx in l.landed ==> tx.call < |l.sender.replied| && tx !in l.adrift)
    && (forall tx :: tx in l.adrift ==> tx.call < |l.sender.replied|)
  }

  lemma AshoreStep(l: Ledger, e: LedgerEvent)
    requires Counted(l.sender) && Ashore(l) && LedgerEnabled(l, e)
    ensures Ashore(LedgerNext(l, e))
  {
  }

  lemma {:induction false} AshoreRun(l: Ledger, events: seq<LedgerEvent>)
    requires LedgerInv(l) && Ashore(l) && LedgerLegal(l, events)
    ensures Ashore(LedgerRun(l, events))
    decreases |events|
  {
    if events != [] {
      CountsOf(l.sender);
      LedgerInvStep(l, events[0]);
      AshoreStep(l, events[0]);
      AshoreRun(LedgerNext(l, events[0]), events[1..]);
    }
  }

  /** Every broadcast reaches the node at most once: in no run is an accepted transaction still adrift. */
  lemma LandsAtMostOnce(capacity: nat, sendTimeout: nat, base: nat, events: seq<LedgerEvent>)
    requires capacity > 0 && LedgerLegal(Opened(capacity, sendTimeout, base), events)
    ensures var l := LedgerRun(Opened(capacity, sendTimeout, base), events);
      forall tx :: tx in l.landed ==> tx !in l.adrift
  {
    OpenedRaceFree(capacity, sendTimeout, base);
    AshoreRun(Opened(capacity, sendTimeout, base), events);
  }

  predicate NothingArrives(events: seq<LedgerEvent>) {
    forall i :: 0 <= i < |events| ==> events[i].Sender?
  }

  /** As long as nothing adrift arrives: every timeout without a success since has left a broadcast
      adrift that carries the account's next nonce. */
  ghost predicate Waiting(l: Ledger) {
    && !Raced(l)
    && (TimedOutSinceBroadcast(l.sender.replied) ==> exists tx :: tx in l.adrift && tx.nonce == l.pending)
  }

  lemma FinishKeepsWaiting(l: Ledger, result: SendResult, elapsed: nat)
    requires Counted(l.sender) && Waiting(l) && LedgerEnabled(l, Sender(Finish(result, elapsed)))
    ensures Waiting(LedgerNext(l, Sender(Finish(result, elapsed))))
  {
    var l' := LedgerNext(l, Sender(Finish(result, elapsed)));
    var last := Replied(l.sender.inFlight.value, AnswerOf(result));
    TimedOutStep(l.sender.replied, last);
    assert l'.sender.replied == l.sender.replied + [last];
    if result.Hangs? {
      assert Current(l) in l'.adrift && Current(l).nonce == l'.pending;
    } else if result.Refused? && TimedOutSinceBroadcast(l.sender.replied) {
      var tx :| tx in l.adrift && tx.nonce == l.pending;
      assert tx in l'.adrift;
    }
  }

  lemma OtherKeepsWaiting(l: Ledger, event: Event)
    requires Waiting(l) && LedgerEnabled(l, Sender(event)) && !event.Finish?
    ensures Waiting(LedgerNext(l, Sender(event)))
  {
    var l' := LedgerNext(l, Sender(event));
    assert l'.sender.replied == l.sender.replied && l'.adrift == l.adrift && l'.pending == l.pending;
  }

  lemma {:induction false} WaitingRun(l: Ledger, events: seq<LedgerEvent>)
    requires LedgerInv(l) && Waiting(l) && LedgerLegal(l, events) && NothingArrives(events)
    ensures Waiting(LedgerRun(l, events))
    decreases |events|
  {
    if events != [] {
      CountsOf(l.sender);
      LedgerInvStep(l, events[0]);
      if events[0].event.Finish? {
        FinishKeepsWaiting(l, events[0].event.result, events[0].event.elapsed);
      } else {
        OtherKeepsWaiting(l, events[0].event);
      }
      assert forall i :: 0 <= i < |events[1..]| ==> events[1..][i] == events[i + 1];
      WaitingRun(LedgerNext(l, events[0]), events[1..]);
    }
  }

  /** The next send can be overtaken while it is in flight. */
  ghost predicate NextSendCanRace(l: Ledger)
    requires Enabled(l.sender, Take)
  {
    var taken := LedgerNext(l, Sender(Take));
    exists tx :: LedgerEnabled(taken, Arrives(tx)) && Raced(LedgerNext(taken, Arrives(tx)))
  }

  lemma TakenUpByAdrift(l: Ledger)
    requires Enabled(l.sender, Take)
    ensures NextSendCanRace(l) <==> exists tx :: tx in l.adrift && tx.nonce == l.pending
  {
    var taken := LedgerNext(l, Sender(Take));
    forall tx | tx in l.adrift
      ensures Raced(LedgerNext(taken, Arrives(tx))) <==> tx.nonce == l.pending
    {
    }
    if tx :| tx in l.adrift && tx.nonce == l.pending {
      assert LedgerEnabled(taken, Arrives(tx));
    }
  }

  /** After any run in which nothing adrift has arrived yet: a broadcast with the account's next nonce
      is adrift if and only if some send timed out and none has gone through since. */
  lemma AdriftIffTimedOut(capacity: nat, sendTimeout: nat, base: nat, events: seq<LedgerEvent>)
    requires capacity > 0 && LedgerLegal(Opened(capacity, sendTimeout, base), events) && NothingArrives(events)
    ensures var l := LedgerRun(Opened(capacity, sendTimeout, base), events);
      && !Raced(l)
      && ((exists tx :: tx in l.adrift && tx.nonce == l.pending) <==> TimedOutSinceBroadcast(l.sender.replied))
  {
    OpenedRaceFree(capacity, sendTimeout, base);
    WaitingRun(Opened(capacity, sendTimeout, base), events);
    RacesNeedTimeout(capacity, sendTimeout, base, events);
  }

  /** The exact condition, in what callers have been told: after such a run the next send can lose its
      nonce if and only if some send timed out and none has gone through since. */
  lemma NextSendRacesIff(capacity: nat, sendTimeout: nat, base: nat, events: seq<LedgerEvent>)
    requires capacity > 0 && LedgerLegal(Opened(capacity, sendTimeout, base), events) && NothingArrives(events)
    requires Enabled(LedgerRun(Opened(capacity, sendTimeout, base), events).sender, Take)
    ensures var l := LedgerRun(Opened(capacity, sendTimeout, base), events);
      NextSendCanRace(l) <==> TimedOutSinceBroadcast(l.sender.replied)
  {
    AdriftIffTimedOut(capacity, sendTimeout, base, events);
    TakenUpByAdrift(LedgerRun(Opened(capacity, sendTimeout, base), events));
  }

  /** It does happen: a send times out, its broadcast arrives during the next send, and that send
      can only be refused. */
  lemma TimeoutRaces(base: nat) returns (events: seq<LedgerEvent>)
    ensures LedgerLegal(Opened(2, 30, base), events)
    ensures Raced(LedgerRun(Opened(2, 30, base), events))
  {
    var a, b := Job(0, 0), Job(1, 0);
    var l0 := Opened(2, 30, base);
    var e4 := [Sender(Take), Arrives(Tx(0, base))];
    var e3 := [Sender(Finish(Hangs, 30))] + e4;
    var e2 := [Sender(Take)] + e3;
    var e1 := [Sender(Accept(a)), Sender(Accept(b))] + e2;
    events := [Sender(Submit(a)), Sender(Submit(b))] + e1;
    var l1 := LedgerNext(LedgerNext(l0, Sender(Submit(a))), Sender(Submit(b)));
    var l2 := LedgerNext(LedgerNext(l1, Sender(Accept(a))), Sender(Accept(b)));
    var l3 := LedgerNext(l2, Sender(Take));
    var l4 := LedgerNext(l3, Sender(Finish(Hangs, 30)));
    assert l4.sender.queue == [b] && l4.adrift == {Tx(0, base)};
    LegalTwo(l4, Sender(Take), Arrives(Tx(0, base)), []);
    LegalOne(l3, Sender(Finish(Hangs, 30)), e4);
    LegalOne(l2, Sender(Take), e3);
    LegalTwo(l1, Sender(Accept(a)), Sender(Accept(b)), e2);
    LegalTwo(l0, Sender(Submit(a)), Sender(Submit(b)), e1);
  }

  lemma LegalOne(l: Ledger, e: LedgerEvent, rest: seq<LedgerEvent>)
    requires LedgerEnabled(l, e) && LedgerLegal(LedgerNext(l, e), rest)
    ensures LedgerLegal(l, [e] + rest) && LedgerRun(l, [e] + rest) == LedgerRun(LedgerNext(l, e), rest)
  {
    assert ([e] + rest)[1..] == rest;
  }

  lemma LegalTwo(l: Ledger, e: LedgerEvent, f: LedgerEvent, rest: seq<LedgerEvent>)
    requires LedgerEnabled(l, e) && LedgerEnabled(LedgerNext(l, e), f)
    requires LedgerLegal(LedgerNext(LedgerNext(l, e), f), rest)
    ensures LedgerLegal(l, [e, f] + rest)
    ensures LedgerRun(l, [e, f] + rest) == LedgerRun(LedgerNext(LedgerNext(l, e), f), rest)
  {
    LegalOne(LedgerNext(l, e), f, rest);
    LegalOne(l, e, [f] + rest);
    assert [e] + ([f] + rest) == [e, f] + rest;
  }
}

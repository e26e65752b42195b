// One managed candidate sink under every interleaving of its senders and its worker thread.
// A step is one lock section or one channel operation. Sender tasks enter either from a failing
// operation (bytes already handed off in the process ledger) or directly at delivery time.

module SinkQueue {
  import opened CandidateEntries
  import opened MapSums

  type Task = int

  datatype Queued = Queued(id: Id, bytes: nat)

  /** Where a sender task stands: `fromFailure` tasks come from a failing operation. */
  datatype Sender =
    | Entering(id: Id, bytes: nat, fromFailure: bool)
    | Claimed(id: Id, bytes: nat, fromFailure: bool)
    | Counted(id: Id, bytes: nat, fromFailure: bool)
    | Refused(id: Id, fromFailure: bool)
    | Sent(id: Id, fromFailure: bool)
    | Checked(id: Id, sent: bool, retained: bool)
    | Done(id: Id, ok: bool)

  datatype Worker =
    | Idle
    | Received(item: Queued)
    | Delivering(item: Queued)
    | Finishing(item: Queued)
    | Released(item: Queued)

  /** Where a counted candidate is: with its sender, in the channel, or with the worker. */
  datatype Place = Mid(task: Task) | InChannel | InWorker

  datatype State = State(
    ledger: map<Id, CandidateEntry>,       // the process ledger's candidate entries
    others: nat,                        // the operation bytes in the process ledger
    foreign: set<Id>,                   // entries of other sinks and recorders
    senders: map<Task, Sender>,
    channel: seq<Queued>,
    worker: Worker,
    active: bool,                       // QueueState.active
    bytes: nat,                         // QueueState.bytes
    candidates: nat,                    // QueueState.candidates
    flight: map<Id, nat>,               // history: what QueueState counts, with its bytes
    place: map<Id, Place>,              // history: where each counted candidate is
    carrier: map<Id, Task>,             // history: which task brought each capture to this sink
    entered: set<Id>,                   // history: captures that got a ledger entry
    returned: map<Id, nat>,             // history: how often a capture's bytes were given back
    delivered: set<Id>)                 // history: captures whose delivery ended

  datatype Step =
    | Reserve(task: Task, id: Id, bytes: nat)      // Sdk::fail, reserve_candidate_handoff
    | Direct(task: Task, id: Id, bytes: nat)       // finalize calls try_send directly
    | Reject(task: Task)                           // authorization or encoding fails
    | Claim(task: Task)                            // claim_candidate
    | Count(task: Task)                            // the QueueState section of try_send
    | Push(task: Task)                             // queue.try_send
    | Check(task: Task)                            // back in Sdk::fail: candidate_is_retained
    | Settle(task: Task)                           // Sdk::fail: release_candidate, if it was not retained
    | Receive
    | Expire                                       // the delivery lifetime is over
    | Start                                        // set_active
    | Deliver                                      // deliver_candidate returns
    | Release                                      // finish_queued: release_candidate
    | Finish                                       // finish_queued: the QueueState section
    | ForeignPut(id: Id, entry: CandidateEntry)
    | ForeignRemove(id: Id)
    | Operations(bytes: nat)                       // operations grow, shrink, come and go

  function Init(): State {
    State(map[], 0, {}, map[], [], Idle, false, 0, 0, map[], map[], map[], {}, map[], {})
  }

  function ReturnCount(s: State, id: Id): nat {
    if id in s.returned then s.returned[id] else 0
  }

  /** release_candidate: an existing entry's bytes go back once; an absent one changes nothing. */
  function GiveBack(s: State, id: Id): State {
    if id in s.ledger then s.(ledger := Removed(s.ledger, id), returned := s.returned[id := ReturnCount(s, id) + 1])
    else s
  }

  predicate IsRetained(s: State, id: Id) {
    id in s.ledger && s.ledger[id].state == Retained
  }

  function Uncount(s: State, item: Queued): State {
    s.(bytes := if s.bytes >= item.bytes then s.bytes - item.bytes else 0,
       candidates := if s.candidates >= 1 then s.candidates - 1 else 0,
       flight := Removed(s.flight, item.id), place := Removed(s.place, item.id))
  }

  /** The ledger's totals stay within the limits of the process. */
  ghost predicate LedgerOk(ledger: map<Id, CandidateEntry>, others: nat) {
    |ledger| <= MAX_QUEUED_CANDIDATES && CandidateTotal(ledger) + others <= MAX_GLOBAL_BYTES
  }

  ghost predicate HasRoom(s: State, bytes: nat) {
    |s.ledger| < MAX_QUEUED_CANDIDATES && CandidateTotal(s.ledger) + s.others + bytes <= MAX_GLOBAL_BYTES
  }

  ghost predicate Enabled(s: State, step: Step) {
    match step
    case Reserve(t, id, bytes) => t !in s.senders && id !in s.carrier && id !in s.ledger && HasRoom(s, bytes)
    case Direct(t, id, _) => t !in s.senders && id !in s.carrier && id !in s.ledger
    case Reject(t) => t in s.senders && s.senders[t].Entering?
    case Claim(t) => t in s.senders && s.senders[t].Entering?
    case Count(t) => t in s.senders && s.senders[t].Claimed?
    case Push(t) => t in s.senders && s.senders[t].Counted?
    case Check(t) => t in s.senders && (s.senders[t].Refused? || s.senders[t].Sent?)
    case Settle(t) => t in s.senders && s.senders[t].Checked?
    case Receive => s.worker.Idle? && s.channel != []
    case Expire => s.worker.Received?
    case Start => s.worker.Received?
    case Deliver => s.worker.Delivering?
    case Release => s.worker.Finishing?
    case Finish => s.worker.Released?
    case ForeignPut(id, entry) =>
      && id !in s.carrier
      && if id in s.ledger then id in s.foreign && entry.bytes == s.ledger[id].bytes else HasRoom(s, entry.bytes)
    case ForeignRemove(id) => id in s.foreign
    case Operations(bytes) => CandidateTotal(s.ledger) + bytes <= MAX_GLOBAL_BYTES
  }

  ghost function Apply(s: State, step: Step): State
    requires Enabled(s, step)
  {
    match step
    case Reserve(t, id, bytes) =>
      s.(ledger := s.ledger[id := CandidateEntry(bytes, Handoff)], senders := s.senders[t := Entering(id, bytes, true)],
         carrier := s.carrier[id := t], entered := s.entered + {id})
    case Direct(t, id, bytes) =>
      s.(senders := s.senders[t := Entering(id, bytes, false)], carrier := s.carrier[id := t])
    case Reject(t) =>
      s.(senders := s.senders[t := Refused(s.senders[t].id, s.senders[t].fromFailure)])
    case Claim(t) =>
      var p := s.senders[t];
      if ClaimSucceeds(s, t) then
        s.(ledger := s.ledger[p.id := CandidateEntry(p.bytes, Retained)], entered := s.entered + {p.id},
           senders := s.senders[t := Claimed(p.id, p.bytes, p.fromFailure)])
      else s.(senders := s.senders[t := Refused(p.id, p.fromFailure)])
    case Count(t) =>
      var p := s.senders[t];
      if s.candidates >= MAX_QUEUED_CANDIDATES || s.bytes + p.bytes > MAX_GLOBAL_BYTES then
        GiveBack(s, p.id).(senders := s.senders[t := Refused(p.id, p.fromFailure)])
      else
        s.(bytes := s.bytes + p.bytes, candidates := s.candidates + 1,
           senders := s.senders[t := Counted(p.id, p.bytes, p.fromFailure)],
           flight := s.flight[p.id := p.bytes], place := s.place[p.id := Mid(t)])
    case Push(t) =>
      var p := s.senders[t];
      if |s.channel| < MAX_QUEUED_CANDIDATES then
        s.(channel := s.channel + [Queued(p.id, p.bytes)], senders := s.senders[t := Sent(p.id, p.fromFailure)],
           place := s.place[p.id := InChannel])
      else
        GiveBack(Uncount(s, Queued(p.id, p.bytes)), p.id).(senders := s.senders[t := Refused(p.id, p.fromFailure)])
    case Check(t) =>
      var p := s.senders[t];
      if !p.fromFailure then s.(senders := s.senders[t := Done(p.id, p.Sent?)])
      else s.(senders := s.senders[t := Checked(p.id, p.Sent?, IsRetained(s, p.id))])
    case Settle(t) =>
      var p := s.senders[t];
      (if p.retained then s else GiveBack(s, p.id)).(senders := s.senders[t := Done(p.id, p.sent && p.retained)])
    case Receive =>
      s.(channel := s.channel[1..], worker := Received(s.channel[0]), place := s.place[s.channel[0].id := InWorker])
    case Expire => s.(worker := Finishing(s.worker.item))
    case Start => s.(worker := Delivering(s.worker.item), active := true)
    case Deliver => s.(worker := Finishing(s.worker.item), delivered := s.delivered + {s.worker.item.id})
    case Release => GiveBack(s, s.worker.item.id).(worker := Released(s.worker.item))
    case Finish => Uncount(s, s.worker.item).(active := false, worker := Idle)
    case ForeignPut(id, entry) => s.(ledger := s.ledger[id := entry], foreign := s.foreign + {id})
    case ForeignRemove(id) => s.(ledger := Removed(s.ledger, id), foreign := s.foreign - {id})
    case Operations(bytes) => s.(others := bytes)
  }

  /** A handed-off entry of the same size is taken over; otherwise a new one needs room. */
  ghost predicate ClaimSucceeds(s: State, t: Task)
    requires t in s.senders && s.senders[t].Entering?
  {
    var p := s.senders[t];
    if p.id in s.ledger then s.ledger[p.id] == CandidateEntry(p.bytes, Handoff)
    else HasRoom(s, p.bytes)
  }

  predicate IsAt(s: State, id: Id, p: Place) {
    id in s.place && s.place[id] == p
  }

  // ---- the invariant -----------------------------------------------------------------------

  /** What one sender task knows about its capture. */
  predicate SenderOk(s: State, t: Task, p: Sender) {
    && p.id in s.carrier && s.carrier[p.id] == t
    && match p
       case Entering(id, bytes, fromFailure) =>
         id !in s.flight && id !in s.delivered
         && (if fromFailure then InLedger(s, id, CandidateEntry(bytes, Handoff)) else id !in s.entered)
       case Claimed(id, bytes, _) =>
              id !in s.flight && id !in s.delivered && InLedger(s, id, CandidateEntry(bytes, Retained))
       case Counted(id, bytes, _) => id !in s.delivered && Counts(s, id, bytes) && IsAt(s, id, Mid(t))
       case Refused(id, fromFailure) =>
         id !in s.flight && id !in s.delivered && (id in s.ledger ==> fromFailure && s.ledger[id].state == Handoff)
       case Sent(id, _) => id in s.entered && !IsAt(s, id, Mid(t))
       case Checked(id, sent, retained) =>
         if sent then id in s.entered && !IsAt(s, id, Mid(t)) && (!retained ==> id !in s.ledger)
         else !retained && id !in s.flight && id !in s.delivered && (id in s.ledger ==> s.ledger[id].state == Handoff)
       case Done(id, ok) => !IsAt(s, id, Mid(t)) && (ok ==> id in s.entered)
  }

  predicate InLedger(s: State, id: Id, entry: CandidateEntry) {
    id in s.ledger && s.ledger[id] == entry
  }

  predicate Counts(s: State, id: Id, bytes: nat) {
    id in s.flight && s.flight[id] == bytes
  }

  predicate Holds(worker: Worker, id: Id) {
    !worker.Idle? && worker.item.id == id
  }

  predicate HasReleased(worker: Worker, id: Id) {
    worker.Released? && worker.item.id == id
  }

  predicate HasSender(s: State, t: Task, id: Id) {
    t in s.senders && s.senders[t].Counted? && s.senders[t].id == id
  }

  ghost predicate Waits(channel: seq<Queued>, id: Id) {
    exists i :: 0 <= i < |channel| && channel[i].id == id
  }

  /** A counted candidate is in exactly one place and, until released, retained in the ledger. */
  ghost predicate FlightOk(s: State, id: Id) {
    && (id in s.place <==> id in s.flight)
    && (id in s.flight ==>
          && (if HasReleased(s.worker, id) then id !in s.ledger
              else InLedger(s, id, CandidateEntry(s.flight[id], Retained)))
          && match s.place[id] {
               case Mid(t) => HasSender(s, t, id)
               case InChannel => Waits(s.channel, id)
               case InWorker => Holds(s.worker, id)
             })
  }

  /** Every capture that entered the ledger is there or was given back: never both, never twice. */
  predicate BalanceOk(s: State, id: Id) {
    && (id in s.flight || id in s.delivered ==> id in s.entered)
    && (id in s.entered ==> id in s.carrier && ReturnCount(s, id) + (if id in s.ledger then 1 else 0) == 1)
    && (id in s.carrier ==> id !in s.foreign)
    && (id in s.foreign ==> id in s.ledger)
    && (id in s.ledger ==> id in s.entered || id in s.foreign)
    && (id in s.returned ==> id in s.entered)
  }

  /** A ledger entry of this sink is in flight or carried by a task that still settles it. */
  predicate SettledOk(s: State, id: Id) {
    id in s.ledger && id !in s.foreign && id !in s.flight ==> id in s.carrier && Settles(s, s.carrier[id], id)
  }

  predicate Settles(s: State, t: Task, id: Id) {
    t in s.senders && s.senders[t].id == id && (s.senders[t].Entering? || s.senders[t].Claimed? || s.senders[t].Refused?
        || (s.senders[t].Checked? && !s.senders[t].sent))
  }

  ghost predicate IdOk(s: State, id: Id) {
    FlightOk(s, id) && BalanceOk(s, id) && SettledOk(s, id)
  }

  ghost predicate SendersOk(s: State) {
    forall t :: t in s.senders ==> SenderOk(s, t, s.senders[t])
  }

  ghost predicate IdsOk(s: State) {
    forall id :: IdOk(s, id)
  }

  /** The worker's item is one that the queue counts; only a delivery in progress is `active`. */
  predicate WorkerOk(s: State) {
    && (!s.worker.Idle? ==> Counts(s, s.worker.item.id, s.worker.item.bytes) && IsAt(s, s.worker.item.id, InWorker))
    && (s.worker.Idle? || s.worker.Received? ==> !s.active)
    && (s.worker.Delivering? ==> s.active)
  }

  ghost predicate ChannelOk(channel: seq<Queued>, flight: map<Id, nat>, place: map<Id, Place>) {
    && (forall i :: 0 <= i < |channel| ==> WaitingOk(channel[i], flight, place))
    && (forall i, j :: 0 <= i < j < |channel| ==> channel[i].id != channel[j].id)
  }

  predicate WaitingOk(q: Queued, flight: map<Id, nat>, place: map<Id, Place>) {
    q.id in flight && flight[q.id] == q.bytes && q.id in place && place[q.id] == InChannel
  }

  /** QueueState counts exactly the candidates in flight, and never more than its bounds. */
  ghost predicate CountsOk(candidates: nat, bytes: nat, flight: map<Id, nat>) {
    && candidates == |flight| <= MAX_QUEUED_CANDIDATES
    && bytes == Sum(flight) <= MAX_GLOBAL_BYTES
  }

  ghost predicate Inv(s: State) {
    && SendersOk(s) && IdsOk(s) && WorkerOk(s) && ChannelOk(s.channel, s.flight, s.place)
    && CountsOk(s.candidates, s.bytes, s.flight) && LedgerOk(s.ledger, s.others)
  }

  // ---- one capture at a time -------------------------------------------------------------------

  /** Two states that record the same about one capture. */
  predicate Agree(s: State, s': State, x: Id) {
    && (x in s.ledger <==> x in s'.ledger) && (x in s.ledger ==> s'.ledger[x] == s.ledger[x])
    && (x in s.flight <==> x in s'.flight) && (x in s.flight ==> s'.flight[x] == s.flight[x])
    && (x in s.place <==> x in s'.place) && (x in s.place ==> s'.place[x] == s.place[x])
    && (x in s.carrier <==> x in s'.carrier) && (x in s.carrier ==> s'.carrier[x] == s.carrier[x])
    && (x in s.returned <==> x in s'.returned) && (x in s.returned ==> s'.returned[x] == s.returned[x])
    && (x in s.foreign <==> x in s'.foreign)
    && (x in s.entered <==> x in s'.entered)
    && (x in s.delivered <==> x in s'.delivered)
  }

  ghost predicate AgreeOff(s: State, s': State, id: Id) {
    forall x :: x != id ==> Agree(s, s', x)
  }

  /** Only the sender of capture `id` moved. */
  ghost predicate SendersOff(s: State, s': State, id: Id) {
    && (forall u :: u in s.senders && s.senders[u].id != id ==> u in s'.senders && s'.senders[u] == s.senders[u])
    && (forall u :: u in s'.senders && s'.senders[u].id != id ==> u in s.senders && s'.senders[u] == s.senders[u])
  }

  ghost predicate QueueOff(s: State, s': State, id: Id) {
    && (forall x :: x != id ==> (Waits(s.channel, x) ==> Waits(s'.channel, x)))
    && (forall x :: x != id ==> (Holds(s.worker, x) <==> Holds(s'.worker, x)))
    && (forall x :: x != id ==> (HasReleased(s.worker, x) <==> HasReleased(s'.worker, x)))
  }

  /** A step that concerns one capture keeps what is known about all others. */
  lemma Frame(s: State, s': State, id: Id)
    requires SendersOk(s) && IdsOk(s)
    requires AgreeOff(s, s', id) && SendersOff(s, s', id) && QueueOff(s, s', id)
    requires forall u :: u in s'.senders && s'.senders[u].id == id ==> SenderOk(s', u, s'.senders[u])
    requires IdOk(s', id)
    ensures SendersOk(s') && IdsOk(s')
  {
    forall u | u in s'.senders ensures SenderOk(s', u, s'.senders[u]) {
      if s'.senders[u].id != id {
        assert SenderOk(s, u, s.senders[u]) && Agree(s, s', s.senders[u].id);
      }
    }
    forall x ensures IdOk(s', x) {
      if x != id {
        assert IdOk(s, x) && Agree(s, s', x);
        FrameAt(s, s', id, x);
      }
    }
  }

  lemma FrameAt(s: State, s': State, id: Id, x: Id)
    requires IdOk(s, x) && Agree(s, s', x) && x != id
    requires SendersOff(s, s', id) && QueueOff(s, s', id)
    ensures IdOk(s', x)
  {
    hide Waits, Holds, HasReleased;
  }

  lemma LedgerGrows(s: State, id: Id, entry: CandidateEntry)
    requires LedgerOk(s.ledger, s.others) && id !in s.ledger && HasRoom(s, entry.bytes)
    ensures LedgerOk(s.ledger[id := entry], s.others)
  {
    CandidateTotalPut(s.ledger, id, entry);
  }

  lemma LedgerChanges(s: State, id: Id, entry: CandidateEntry)
    requires LedgerOk(s.ledger, s.others) && id in s.ledger && entry.bytes == s.ledger[id].bytes
    ensures LedgerOk(s.ledger[id := entry], s.others)
  {
    CandidateTotalPut(s.ledger, id, entry);
  }

  lemma LedgerShrinks(ledger: map<Id, CandidateEntry>, others: nat, id: Id)
    requires LedgerOk(ledger, others)
    ensures LedgerOk(Removed(ledger, id), others)
  {
    hide Removed;
    RemovedSize(ledger, id);
    if id in ledger {
      CandidateTotalRemove(ledger, id);
    } else {
      RemovedAbsent(ledger, id);
    }
  }

  /** What a release changes: only the capture's own ledger entry, and its balance stays right. */
  lemma GaveBack(s: State, id: Id)
    requires BalanceOk(s, id) && id !in s.foreign && LedgerOk(s.ledger, s.others)
    ensures var g := GiveBack(s, id);
            && g == s.(ledger := g.ledger, returned := g.returned)
            && AgreeOff(s, g, id) && BalanceOk(g, id) && id !in g.ledger && LedgerOk(g.ledger, g.others)
  {
    hide BalanceOk, Removed, LedgerOk;
    LedgerShrinks(s.ledger, s.others, id);
    RemovedEverywhere(s.ledger, id);
    GaveBackAt(s, id);
  }

  lemma GaveBackAt(s: State, id: Id)
    requires BalanceOk(s, id) && id !in s.foreign
    ensures BalanceOk(GiveBack(s, id), id)
  {
    hide Removed;
    RemovedKeys(s.ledger, id, id);
  }

  /** Two states with the same records. */
  predicate SameRecords(s: State, s': State) {
    && s'.ledger == s.ledger && s'.flight == s.flight && s'.place == s.place && s'.carrier == s.carrier
    && s'.returned == s.returned && s'.foreign == s.foreign && s'.entered == s.entered && s'.delivered == s.delivered
  }

  lemma AgreeThrough(s: State, g: State, s': State, id: Id)
    requires AgreeOff(s, g, id) && SameRecords(g, s')
    ensures AgreeOff(s, s', id)
  {
    forall x | x != id ensures Agree(s, s', x) { assert Agree(s, g, x); }
  }

  /** Dropping one capture's count. */
  lemma Uncounted(s: State, q: Queued)
    requires CountsOk(s.candidates, s.bytes, s.flight) && Counts(s, q.id, q.bytes)
    ensures var g := Uncount(s, q);
            && g == s.(bytes := g.bytes, candidates := g.candidates, flight := g.flight, place := g.place)
            && AgreeOff(s, g, q.id) && q.id !in g.flight && q.id !in g.place
            && CountsOk(g.candidates, g.bytes, g.flight)
  {
    hide Removed;
    SumRemoved(s.flight, q.id);
    RemovedSize(s.flight, q.id);
    RemovedEverywhere(s.flight, q.id);
    RemovedEverywhere(s.place, q.id);
  }

  // ---- each step keeps the invariant ---------------------------------------------------------

  /** A step taken by the sender task of one capture. */
  lemma SenderMoves(s: State, s': State, t: Task, id: Id)
    requires SendersOk(s) && t in s'.senders && s'.senders == s.senders[t := s'.senders[t]]
    requires t in s.senders ==> s.senders[t].id == id
    requires t !in s.senders ==> id !in s.carrier
    requires s'.senders[t].id == id
    ensures SendersOff(s, s', id)
    ensures forall u :: u in s'.senders && s'.senders[u].id == id ==> u == t
  {
    assert t in s.senders ==> SenderOk(s, t, s.senders[t]);
  }

  lemma SenderKnown(s: State, t: Task)
    requires SendersOk(s) && t in s.senders
    ensures SenderOk(s, t, s.senders[t])
  {
  }

  lemma IdKnown(s: State, id: Id)
    requires IdsOk(s)
    ensures IdOk(s, id)
  {
  }

  lemma WorkerUntouched(s: State, s': State)
    requires WorkerOk(s) && s'.worker == s.worker && s'.active == s.active
    requires !s.worker.Idle? ==> Agree(s, s', s.worker.item.id)
    ensures WorkerOk(s')
  {
  }

  lemma ReserveKeeps(s: State, t: Task, id: Id, bytes: nat)
    requires Inv(s) && Enabled(s, Reserve(t, id, bytes))
    ensures Inv(Apply(s, Reserve(t, id, bytes)))
  {
    hide LedgerOk, ChannelOk, CountsOk, SendersOk, IdsOk, SendersOff, Waits;
    var s' := Apply(s, Reserve(t, id, bytes));
    LedgerGrows(s, id, CandidateEntry(bytes, Handoff));
    SenderMoves(s, s', t, id);
    IdKnown(s, id);
    Frame(s, s', id);
    WorkerUntouched(s, s');
  }

  lemma DirectKeeps(s: State, t: Task, id: Id, bytes: nat)
    requires Inv(s) && Enabled(s, Direct(t, id, bytes))
    ensures Inv(Apply(s, Direct(t, id, bytes)))
  {
    hide LedgerOk, ChannelOk, CountsOk, SendersOk, IdsOk, SendersOff, Waits;
    var s' := Apply(s, Direct(t, id, bytes));
    SenderMoves(s, s', t, id);
    IdKnown(s, id);
    Frame(s, s', id);
    WorkerUntouched(s, s');
  }

  lemma RejectKeeps(s: State, t: Task)
    requires Inv(s) && Enabled(s, Reject(t))
    ensures Inv(Apply(s, Reject(t)))
  {
    hide LedgerOk, ChannelOk, CountsOk, SendersOk, IdsOk, SendersOff, Waits;
    var s' := Apply(s, Reject(t));
    var id := s.senders[t].id;
    SenderKnown(s, t);
    SenderMoves(s, s', t, id);
    IdKnown(s, id);
    Frame(s, s', id);
    WorkerUntouched(s, s');
  }

  lemma ClaimKeeps(s: State, t: Task)
    requires Inv(s) && Enabled(s, Claim(t))
    ensures Inv(Apply(s, Claim(t)))
  {
    hide Inv, Apply;
    if ClaimSucceeds(s, t) { ClaimTakes(s, t); } else { ClaimRefuses(s, t); }
  }

  lemma ClaimTakes(s: State, t: Task)
    requires Inv(s) && Enabled(s, Claim(t)) && ClaimSucceeds(s, t)
    ensures Inv(Apply(s, Claim(t)))
  {
    hide LedgerOk, HasRoom, ChannelOk, CountsOk, SendersOk, IdsOk, SendersOff, Waits;
    var s' := Apply(s, Claim(t));
    var id := s.senders[t].id;
    var entry := CandidateEntry(s.senders[t].bytes, Retained);
    if id in s.ledger { LedgerChanges(s, id, entry); } else { LedgerGrows(s, id, entry); }
    SenderKnown(s, t);
    SenderMoves(s, s', t, id);
    IdKnown(s, id);
    Frame(s, s', id);
    WorkerUntouched(s, s');
  }

  lemma ClaimRefuses(s: State, t: Task)
    requires Inv(s) && Enabled(s, Claim(t)) && !ClaimSucceeds(s, t)
    ensures Inv(Apply(s, Claim(t)))
  {
    hide LedgerOk, HasRoom, ChannelOk, CountsOk, SendersOk, IdsOk, SendersOff, Waits;
    var s' := Apply(s, Claim(t));
    var id := s.senders[t].id;
    SenderKnown(s, t);
    SenderMoves(s, s', t, id);
    IdKnown(s, id);
    Frame(s, s', id);
    WorkerUntouched(s, s');
  }

  lemma CountKeeps(s: State, t: Task)
    requires Inv(s) && Enabled(s, Count(t))
    ensures Inv(Apply(s, Count(t)))
  {
    hide Inv, Apply;
    if s.candidates < MAX_QUEUED_CANDIDATES && s.bytes + s.senders[t].bytes <= MAX_GLOBAL_BYTES { CountAdmits(s, t); }
    else { CountRefuses(s, t); }
  }

  /** Room is found: the candidate is counted. */
  lemma CountAdmits(s: State, t: Task)
    requires Inv(s) && Enabled(s, Count(t))
    requires s.candidates < MAX_QUEUED_CANDIDATES && s.bytes + s.senders[t].bytes <= MAX_GLOBAL_BYTES
    ensures Inv(Apply(s, Count(t)))
  {
    hide LedgerOk, ChannelOk, CountsOk, SendersOk, IdsOk, SendersOff, Waits;
    var s' := Apply(s, Count(t));
    var id := s.senders[t].id;
    SenderKnown(s, t);
    SenderMoves(s, s', t, id);
    IdKnown(s, id);
    CountGrows(s.candidates, s.bytes, s.flight, id, s.senders[t].bytes);
    Frame(s, s', id);
    WorkerUntouched(s, s');
    ChannelOther(s, s', id);
  }

  lemma CountGrows(candidates: nat, bytes: nat, flight: map<Id, nat>, id: Id, added: nat)
    requires CountsOk(candidates, bytes, flight) && id !in flight
    requires candidates < MAX_QUEUED_CANDIDATES && bytes + added <= MAX_GLOBAL_BYTES
    ensures CountsOk(candidates + 1, bytes + added, flight[id := added])
  {
    SumInsert(flight, id, added);
  }

  lemma ChannelOther(s: State, s': State, id: Id)
    requires ChannelOk(s.channel, s.flight, s.place) && s'.channel == s.channel
    requires AgreeOff(s, s', id) && (id in s.flight ==> id in s.place && s.place[id] != InChannel)
    ensures ChannelOk(s'.channel, s'.flight, s'.place)
  {
    forall i | 0 <= i < |s.channel| ensures WaitingOk(s.channel[i], s'.flight, s'.place) {
      assert WaitingOk(s.channel[i], s.flight, s.place);
      assert s.channel[i].id != id ==> Agree(s, s', s.channel[i].id);
    }
  }

  /** No room: the bytes just claimed are given back. */
  lemma CountRefuses(s: State, t: Task)
    requires Inv(s) && Enabled(s, Count(t))
    requires !(s.candidates < MAX_QUEUED_CANDIDATES && s.bytes + s.senders[t].bytes <= MAX_GLOBAL_BYTES)
    ensures Inv(Apply(s, Count(t)))
  {
    hide LedgerOk, ChannelOk, CountsOk, SendersOk, IdsOk, SendersOff, AgreeOff, Agree, GiveBack, Waits;
    var s' := Apply(s, Count(t));
    var id := s.senders[t].id;
    SenderKnown(s, t);
    SenderMoves(s, s', t, id);
    IdKnown(s, id);
    GaveBack(s, id);
    AgreeThrough(s, GiveBack(s, id), s', id);
    Frame(s, s', id);
  }

  /** The channel's captures are counted and are not the one still with a sender. */
  lemma ChannelFits(channel: seq<Queued>, flight: set<Id>)
    requires forall i :: 0 <= i < |channel| ==> channel[i].id in flight
    requires forall i, j :: 0 <= i < j < |channel| ==> channel[i].id != channel[j].id
    ensures |channel| <= |flight|
  {
    if channel != [] {
      var last := channel[|channel| - 1].id;
      ChannelFits(channel[..|channel| - 1], flight - {last});
    }
  }

  /** `TrySendError::Full` cannot happen: a sender in mid-send is counted beside the whole channel. */
  lemma ChannelHasRoom(s: State, t: Task)
    requires Inv(s) && Enabled(s, Push(t))
    ensures |s.channel| < |s.flight| <= MAX_QUEUED_CANDIDATES
  {
    hide IdsOk, SendersOk;
    SenderKnown(s, t);
    var id := s.senders[t].id;
    forall i | 0 <= i < |s.channel| ensures s.channel[i].id in s.flight.Keys - {id} {
      assert WaitingOk(s.channel[i], s.flight, s.place);
    }
    ChannelFits(s.channel, s.flight.Keys - {id});
    assert |s.flight.Keys| == |s.flight|;
  }

  lemma ChannelPushed(channel: seq<Queued>, q: Queued, flight: map<Id, nat>, place: map<Id, Place>)
    requires ChannelOk(channel, flight, place)
    requires q.id in flight && flight[q.id] == q.bytes && q.id in place && place[q.id] != InChannel
    ensures ChannelOk(channel + [q], flight, place[q.id := InChannel])
    ensures Waits(channel + [q], q.id)
    ensures forall x :: Waits(channel, x) ==> Waits(channel + [q], x)
  {
    var longer := channel + [q];
    forall i | 0 <= i < |longer| ensures WaitingOk(longer[i], flight, place[q.id := InChannel]) {
      if i < |channel| { assert WaitingOk(channel[i], flight, place); }
    }
    assert longer[|channel|].id == q.id;
    forall x | Waits(channel, x) ensures Waits(longer, x) {
      var i :| 0 <= i < |channel| && channel[i].id == x;
      assert longer[i].id == x;
    }
  }

  lemma PushKeeps(s: State, t: Task)
    requires Inv(s) && Enabled(s, Push(t))
    ensures Inv(Apply(s, Push(t)))
  {
    hide LedgerOk, ChannelOk, CountsOk, SendersOk, IdsOk, SendersOff, Waits;
    ChannelHasRoom(s, t);
    var s' := Apply(s, Push(t));
    var id := s.senders[t].id;
    SenderKnown(s, t);
    SenderMoves(s, s', t, id);
    IdKnown(s, id);
    ChannelPushed(s.channel, Queued(id, s.senders[t].bytes), s.flight, s.place);
    Frame(s, s', id);
    WorkerUntouched(s, s');
  }

  /** A sender moves on without touching anything else. */
  lemma SenderOnly(s: State, t: Task, v: Sender)
    requires Inv(s) && t in s.senders && v.id == s.senders[t].id
    requires SenderOk(s.(senders := s.senders[t := v]), t, v) && IdOk(s.(senders := s.senders[t := v]), v.id)
    ensures Inv(s.(senders := s.senders[t := v]))
  {
    hide LedgerOk, ChannelOk, CountsOk, SendersOk, IdsOk, SendersOff, Waits, SenderOk, IdOk;
    var s' := s.(senders := s.senders[t := v]);
    SenderMoves(s, s', t, v.id);
    Frame(s, s', v.id);
    WorkerUntouched(s, s');
  }

  function AfterCheck(s: State, p: Sender): Sender
    requires p.Refused? || p.Sent?
  {
    if p.fromFailure then Checked(p.id, p.Sent?, IsRetained(s, p.id)) else Done(p.id, p.Sent?)
  }

  lemma CheckIs(s: State, t: Task)
    requires Enabled(s, Check(t))
    ensures s.senders[t].Refused? || s.senders[t].Sent?
    ensures Apply(s, Check(t)) == s.(senders := s.senders[t := AfterCheck(s, s.senders[t])])
  {
  }

  lemma CheckOk(s: State, t: Task)
    requires t in s.senders && (s.senders[t].Refused? || s.senders[t].Sent?)
    requires SenderOk(s, t, s.senders[t]) && IdOk(s, s.senders[t].id)
    ensures var v := AfterCheck(s, s.senders[t]); var s' := s.(senders := s.senders[t := v]);
            v.id == s.senders[t].id && SenderOk(s', t, v) && IdOk(s', v.id)
  {
    hide Waits;
  }

  lemma CheckKeeps(s: State, t: Task)
    requires Inv(s) && Enabled(s, Check(t))
    ensures Inv(Apply(s, Check(t)))
  {
    hide LedgerOk, ChannelOk, CountsOk, SendersOk, IdsOk;
    SenderKnown(s, t);
    IdKnown(s, s.senders[t].id);
    CheckIs(s, t);
    CheckOk(s, t);
    hide Inv, Apply, Enabled, SenderOk, IdOk, AfterCheck;
    SenderOnly(s, t, AfterCheck(s, s.senders[t]));
  }

  lemma SettleKeeps(s: State, t: Task)
    requires Inv(s) && Enabled(s, Settle(t))
    ensures Inv(Apply(s, Settle(t)))
  {
    hide Inv, Apply;
    if s.senders[t].retained { SettleLeaves(s, t); } else { SettleGivesBack(s, t); }
  }

  lemma SettleGivesBack(s: State, t: Task)
    requires Inv(s) && Enabled(s, Settle(t)) && !s.senders[t].retained
    ensures Inv(Apply(s, Settle(t)))
  {
    hide LedgerOk, ChannelOk, CountsOk, SendersOk, IdsOk, SendersOff, AgreeOff, Agree, GiveBack, Waits;
    var s' := Apply(s, Settle(t));
    var id := s.senders[t].id;
    SenderKnown(s, t);
    SenderMoves(s, s', t, id);
    IdKnown(s, id);
    GaveBack(s, id);
    AgreeThrough(s, GiveBack(s, id), s', id);
    Frame(s, s', id);
  }

  lemma SettleLeaves(s: State, t: Task)
    requires Inv(s) && Enabled(s, Settle(t)) && s.senders[t].retained
    ensures Inv(Apply(s, Settle(t)))
  {
    hide LedgerOk, ChannelOk, CountsOk, SendersOk, IdsOk, SendersOff, Waits;
    var s' := Apply(s, Settle(t));
    var id := s.senders[t].id;
    SenderKnown(s, t);
    SenderMoves(s, s', t, id);
    IdKnown(s, id);
    Frame(s, s', id);
    WorkerUntouched(s, s');
  }

  /** A step of the worker leaves the senders where they are. */
  lemma SendersStay(s: State, s': State, id: Id)
    requires SendersOk(s) && s'.senders == s.senders
    ensures SendersOff(s, s', id)
    ensures forall u :: u in s.senders && s.senders[u].id == id ==> SenderOk(s, u, s.senders[u])
  {
  }

  lemma ChannelPopped(channel: seq<Queued>, flight: map<Id, nat>, place: map<Id, Place>)
    requires ChannelOk(channel, flight, place) && channel != []
    ensures ChannelOk(channel[1..], flight, place[channel[0].id := InWorker])
    ensures WaitingOk(channel[0], flight, place)
    ensures forall x :: Waits(channel, x) && x != channel[0].id ==> Waits(channel[1..], x)
  {
    forall x | Waits(channel, x) && x != channel[0].id ensures Waits(channel[1..], x) {
      var i :| 0 <= i < |channel| && channel[i].id == x;
      assert channel[1..][i - 1].id == x;
    }
  }

  lemma ReceiveKeeps(s: State)
    requires Inv(s) && Enabled(s, Receive)
    ensures Inv(Apply(s, Receive))
  {
    hide LedgerOk, ChannelOk, CountsOk, SendersOk, IdsOk, SendersOff, Waits;
    var s' := Apply(s, Receive);
    var id := s.channel[0].id;
    SendersStay(s, s', id);
    ChannelPopped(s.channel, s.flight, s.place);
    IdKnown(s, id);
    Frame(s, s', id);
  }

  lemma WorkerMoveKeeps(s: State, step: Step)
    requires Inv(s) && Enabled(s, step) && (step.Expire? || step.Start? || step.Deliver?)
    ensures Inv(Apply(s, step))
  {
    hide LedgerOk, ChannelOk, CountsOk, SendersOk, IdsOk, SendersOff, Waits;
    var s' := Apply(s, step);
    var id := s.worker.item.id;
    SendersStay(s, s', id);
    IdKnown(s, id);
    Frame(s, s', id);
  }

  lemma ReleaseKeeps(s: State)
    requires Inv(s) && Enabled(s, Release)
    ensures Inv(Apply(s, Release))
  {
    hide LedgerOk, ChannelOk, CountsOk, SendersOk, IdsOk, SendersOff, AgreeOff, Agree, GiveBack, Waits;
    var s' := Apply(s, Release);
    var id := s.worker.item.id;
    IdKnown(s, id);
    GaveBack(s, id);
    SendersStay(s, s', id);
    AgreeThrough(s, GiveBack(s, id), s', id);
    Frame(s, s', id);
  }

  lemma FinishKeeps(s: State)
    requires Inv(s) && Enabled(s, Finish)
    ensures Inv(Apply(s, Finish))
  {
    hide LedgerOk, ChannelOk, CountsOk, SendersOk, IdsOk, SendersOff, AgreeOff, Agree, Uncount, Waits;
    var s' := Apply(s, Finish);
    var id := s.worker.item.id;
    IdKnown(s, id);
    Uncounted(s, s.worker.item);
    SendersStay(s, s', id);
    AgreeThrough(s, Uncount(s, s.worker.item), s', id);
    Frame(s, s', id);
    ChannelOther(s, s', id);
  }

  lemma ForeignPutKeeps(s: State, id: Id, entry: CandidateEntry)
    requires Inv(s) && Enabled(s, ForeignPut(id, entry))
    ensures Inv(Apply(s, ForeignPut(id, entry)))
  {
    hide LedgerOk, ChannelOk, CountsOk, SendersOk, IdsOk, SendersOff, Waits;
    var s' := Apply(s, ForeignPut(id, entry));
    if id in s.ledger { LedgerChanges(s, id, entry); } else { LedgerGrows(s, id, entry); }
    SendersStay(s, s', id);
    IdKnown(s, id);
    Frame(s, s', id);
    WorkerUntouched(s, s');
  }

  lemma ForeignRemoveKeeps(s: State, id: Id)
    requires Inv(s) && Enabled(s, ForeignRemove(id))
    ensures Inv(Apply(s, ForeignRemove(id)))
  {
    hide LedgerOk, ChannelOk, CountsOk, SendersOk, IdsOk, SendersOff, Waits, Removed;
    var s' := Apply(s, ForeignRemove(id));
    SendersStay(s, s', id);
    IdKnown(s, id);
    LedgerShrinks(s.ledger, s.others, id);
    RemovedEverywhere(s.ledger, id);
    Frame(s, s', id);
    WorkerUntouched(s, s');
  }

  lemma OperationsKeep(s: State, bytes: nat)
    requires Inv(s) && Enabled(s, Operations(bytes))
    ensures Inv(Apply(s, Operations(bytes)))
  {
    hide ChannelOk, CountsOk, CandidateTotal, Waits;
    var s' := Apply(s, Operations(bytes));
    forall t | t in s'.senders ensures SenderOk(s', t, s'.senders[t]) { assert SenderOk(s, t, s.senders[t]); }
    forall id ensures IdOk(s', id) { assert IdOk(s, id); }
  }

  /** Every step of every task keeps the invariant. */
  lemma StepKeeps(s: State, step: Step)
    requires Inv(s) && Enabled(s, step)
    ensures Inv(Apply(s, step))
  {
    hide Inv, Apply, Enabled;
    match step
    case Reserve(t, id, b) => ReserveKeeps(s, t, id, b);
    case Direct(t, id, b) => DirectKeeps(s, t, id, b);
    case Reject(t) => RejectKeeps(s, t);
    case Claim(t) => ClaimKeeps(s, t);
    case Count(t) => CountKeeps(s, t);
    case Push(t) => PushKeeps(s, t);
    case Check(t) => CheckKeeps(s, t);
    case Settle(t) => SettleKeeps(s, t);
    case Receive => ReceiveKeeps(s);
    case Expire => WorkerMoveKeeps(s, step);
    case Start => WorkerMoveKeeps(s, step);
    case Deliver => WorkerMoveKeeps(s, step);
    case Release => ReleaseKeeps(s);
    case Finish => FinishKeeps(s);
    case ForeignPut(id, e) => ForeignPutKeeps(s, id, e);
    case ForeignRemove(id) => ForeignRemoveKeeps(s, id);
    case Operations(bytes) => OperationsKeep(s, bytes);
  }

  // ---- whole runs --------------------------------------------------------------------------------

  ghost predicate Legal(s: State, steps: seq<Step>)
    decreases |steps|
  {
    steps == [] || (Enabled(s, steps[0]) && Legal(Apply(s, steps[0]), steps[1..]))
  }

  ghost function Run(s: State, steps: seq<Step>): State
    requires Legal(s, steps)
    decreases |steps|
  {
    if steps == [] then s else Run(Apply(s, steps[0]), steps[1..])
  }

  lemma InitOk()
    ensures Inv(Init())
  {
    assert CandidateBytes(map[]) == map[];
  }

  /** Whatever the interleaving, every reachable state satisfies the invariant. */
  lemma {:induction false} RunKeeps(s: State, steps: seq<Step>)
    requires Inv(s) && Legal(s, steps)
    ensures Inv(Run(s, steps))
    decreases |steps|
  {
    hide Inv, Apply, Enabled;
    if steps != [] {
      StepKeeps(s, steps[0]);
      RunKeeps(Apply(s, steps[0]), steps[1..]);
    }
  }

  ghost predicate Reachable(s: State) {
    exists steps :: Legal(Init(), steps) && Run(Init(), steps) == s
  }

  lemma ReachableInv(s: State)
    requires Reachable(s)
    ensures Inv(s)
  {
    hide Inv, Apply, Enabled;
    var steps :| Legal(Init(), steps) && Run(Init(), steps) == s;
    InitOk();
    RunKeeps(Init(), steps);
  }

  // ---- what the runs guarantee -------------------------------------------------------------------

  /** The condition on which `wait_until_idle` returns true. */
  predicate SeemsIdle(s: State) {
    !s.active && s.candidates == 0
  }

  /** Nothing is in mid-send, in the channel or with the worker. */
  ghost predicate NothingQueued(s: State) {
    && s.channel == [] && s.worker.Idle?
    && forall t :: t in s.senders ==> !s.senders[t].Counted?
  }

  /** `wait_until_idle` answers true exactly when nothing is queued or in delivery. */
  lemma IdleIffNothingQueued(s: State)
    requires Reachable(s)
    ensures SeemsIdle(s) <==> NothingQueued(s)
  {
    ReachableInv(s);
    if SeemsIdle(s) {
      IdleIsEmpty(s);
    } else if NothingQueued(s) {
      EmptyIsIdle(s);
    }
  }

  lemma IdleIsEmpty(s: State)
    requires Inv(s) && SeemsIdle(s)
    ensures NothingQueued(s)
  {
    hide IdsOk, Sum;
    assert s.flight == map[];
    forall t | t in s.senders ensures !s.senders[t].Counted? {
      SenderKnown(s, t);
    }
    forall i | 0 <= i < |s.channel| ensures s.channel[i].id in s.flight.Keys {
      assert WaitingOk(s.channel[i], s.flight, s.place);
    }
    ChannelFits(s.channel, s.flight.Keys);
  }

  lemma EmptyIsIdle(s: State)
    requires Inv(s) && NothingQueued(s)
    ensures SeemsIdle(s)
  {
    hide SendersOk, Sum;
    forall id ensures id !in s.flight {
      IdKnown(s, id);
    }
    assert s.flight == map[];
  }

  /** The bytes of a capture are never given back twice. */
  lemma GivenBackAtMostOnce(s: State, id: Id)
    requires Reachable(s)
    ensures ReturnCount(s, id) <= 1
    ensures id in s.entered ==> (ReturnCount(s, id) == 1 <==> id !in s.ledger)
    ensures id in s.delivered ==> id in s.entered
  {
    hide SendersOk, Sum;
    ReachableInv(s);
    IdKnown(s, id);
  }

  /** Once all senders are done and the queue is idle, every capture's bytes were given back exactly once. */
  lemma NothingLeaks(s: State)
    requires Reachable(s) && SeemsIdle(s)
    requires forall t :: t in s.senders ==> s.senders[t].Done?
    ensures forall id :: id in s.entered ==> ReturnCount(s, id) == 1 && id !in s.ledger
    ensures s.ledger.Keys == s.foreign
  {
    hide SendersOk, Sum;
    ReachableInv(s);
    assert s.flight == map[];
    forall id ensures id in s.ledger <==> id in s.foreign {
      IdKnown(s, id);
    }
    forall id | id in s.entered ensures ReturnCount(s, id) == 1 && id !in s.ledger {
      IdKnown(s, id);
    }
  }

  /** `queue.try_send` never finds the channel full: the step always appends. */
  lemma PushNeverFull(s: State, t: Task)
    requires Reachable(s) && Enabled(s, Push(t))
    ensures |s.channel| < MAX_QUEUED_CANDIDATES
    ensures Apply(s, Push(t)).channel == s.channel + [Queued(s.senders[t].id, s.senders[t].bytes)]
  {
    hide Inv;
    ReachableInv(s);
    ChannelHasRoom(s, t);
  }

  /**
   * What `Sdk::fail` finds for a sent candidate: it is retained exactly when the worker has not yet
   * given its bytes back. The verdict depends on the race, not on whether delivery happened.
   */
  lemma CheckVerdict(s: State, t: Task)
    requires Reachable(s) && Enabled(s, Check(t)) && s.senders[t].fromFailure
    ensures var id := s.senders[t].id;
            Apply(s, Check(t)).senders[t]
            == Checked(id, s.senders[t].Sent?, s.senders[t].Sent? && ReturnCount(s, id) == 0)
  {
    hide Sum;
    ReachableInv(s);
    SenderKnown(s, t);
    IdKnown(s, s.senders[t].id);
  }

  /** Success is reported iff it was retained when checked; otherwise no entry of the candidate is left. */
  lemma SettleVerdict(s: State, t: Task)
    requires Reachable(s) && Enabled(s, Settle(t))
    ensures var id := s.senders[t].id; var s' := Apply(s, Settle(t));
            && s'.senders[t] == Done(id, s.senders[t].retained)
            && (!s.senders[t].retained ==> id !in s'.ledger && (id in s.entered ==> ReturnCount(s', id) == 1))
  {
    hide Sum, LedgerOk;
    ReachableInv(s);
    SenderKnown(s, t);
    IdKnown(s, s.senders[t].id);
    hide Inv;
    GaveBackAt(s, s.senders[t].id);
  }

  lemma {:induction false} RunAppend(s: State, steps: seq<Step>, step: Step)
    requires Legal(s, steps) && Enabled(Run(s, steps), step)
    ensures Legal(s, steps + [step]) && Run(s, steps + [step]) == Apply(Run(s, steps), step)
    decreases |steps|
  {
    hide Apply, Enabled;
    if steps == [] {
      assert [step][1..] == [];
      assert Legal(Apply(s, step), []);
      assert steps + [step] == [step];
    } else {
      RunAppend(Apply(s, steps[0]), steps[1..], step);
      assert (steps + [step])[1..] == steps[1..] + [step];
    }
  }

  lemma ReachStep(s: State, step: Step)
    requires Reachable(s) && Enabled(s, step)
    ensures Reachable(Apply(s, step))
  {
    hide Apply, Enabled;
    var steps :| Legal(Init(), steps) && Run(Init(), steps) == s;
    RunAppend(Init(), steps, step);
  }

  /** A candidate of a failing operation, claimed by the sink. */
  lemma ClaimedCandidate() returns (s: State)
    ensures Reachable(s) && s.senders == map[1 := Claimed(7, 100, true)]
    ensures s == Init().(ledger := map[7 := CandidateEntry(100, Retained)], senders := s.senders, carrier := s.carrier,
                         entered := s.entered)
  {
    hide Reachable;
    s := Init();
    assert Reachable(s) by { InitReachable(); }
    assert CandidateBytes(map[]) == map[];
    ReachStep(s, Reserve(1, 7, 100));
    s := Apply(s, Reserve(1, 7, 100));
    ReachStep(s, Claim(1));
    s := Apply(s, Claim(1));
  }

  /** The candidate waits in the channel. */
  lemma SentCandidate() returns (s: State)
    ensures Reachable(s) && s.channel == [Queued(7, 100)] && s.worker == Idle
    ensures s.senders == map[1 := Sent(7, true)] && s.ledger == map[7 := CandidateEntry(100, Retained)]
            && s.returned == map[]
  {
    hide Reachable;
    s := ClaimedCandidate();
    ReachStep(s, Count(1));
    s := Apply(s, Count(1));
    ReachStep(s, Push(1));
    s := Apply(s, Push(1));
  }

  lemma InitReachable()
    ensures Reachable(Init())
  {
    assert Legal(Init(), []) && Run(Init(), []) == Init();
  }

  /** The worker delivers it and gives its bytes back before its sender looks again. */
  lemma DeliveredCandidate() returns (s: State)
    ensures Reachable(s) && 7 in s.delivered && s.ledger == map[] && s.returned == map[7 := 1]
    ensures s.senders == map[1 := Sent(7, true)]
  {
    hide Reachable;
    s := SentCandidate();
    ReachStep(s, Receive);
    s := Apply(s, Receive);
    ReachStep(s, Start);
    s := Apply(s, Start);
    ReachStep(s, Deliver);
    s := Apply(s, Deliver);
    ReachStep(s, Release);
    s := Apply(s, Release);
  }

  /** The race exists: a delivered candidate for which `Sdk::fail` reports a quota error. */
  lemma DeliveredYetRefused() returns (s: State)
    ensures Reachable(s) && 7 in s.delivered && ReturnCount(s, 7) == 1
    ensures 1 in s.senders && s.senders[1] == Done(7, false)
  {
    hide Reachable;
    s := DeliveredCandidate();
    ReachStep(s, Check(1));
    s := Apply(s, Check(1));
    ReachStep(s, Settle(1));
    s := Apply(s, Settle(1));
  }

  /**
   * A claimed candidate is refused by the queue iff the worker has given a candidate's bytes back and not
   * yet uncounted it, and with it the queue is full or has no bytes left: the ledger itself always has room.
   */
  lemma CountRefusesIff(s: State, t: Task)
    requires Reachable(s) && Enabled(s, Count(t))
    ensures Apply(s, Count(t)).senders[t].Refused? <==>
              s.worker.Released? && (|s.flight| == MAX_QUEUED_CANDIDATES
                                     || Sum(s.flight) + s.senders[t].bytes > MAX_GLOBAL_BYTES)
    ensures Apply(s, Count(t)).senders[t].Refused? ==>
              |s.flight| - 1 < MAX_QUEUED_CANDIDATES
              && Sum(s.flight) - s.worker.item.bytes + s.senders[t].bytes <= MAX_GLOBAL_BYTES
  {
    ReachableInv(s);
    SenderKnown(s, t);
    var id := s.senders[t].id;
    if s.worker.Released? {
      ReleasedApart(s, id);
    } else {
      AllRetained(s, id);
    }
    hide IdsOk, Sum, Inv, CandidateTotal;
  }

  /** The bytes of some of the ledger's entries, beside those of another one. */
  lemma {:induction false} PartOfLedger(part: map<Id, nat>, ledger: map<Id, CandidateEntry>, id: Id)
    requires id in ledger && id !in part && forall x :: x in part ==> x in ledger && ledger[x].bytes == part[x]
    ensures |part| < |ledger| && Sum(part) + ledger[id].bytes <= CandidateTotal(ledger)
    decreases |part|
  {
    if part == map[] {
      CandidateTotalRemove(ledger, id);
      assert id in ledger.Keys && |ledger.Keys| == |ledger|;
    } else {
      var x := AnyKey(part);
      PartOfLedger(part - {x}, ledger - {x}, id);
      SumSplit(part, x);
      CandidateTotalRemove(ledger, x);
      RemovedSize(ledger, x);
      RemovedSize(part, x);
      assert Removed(ledger, x) == ledger - {x} && Removed(part, x) == part - {x};
    }
  }

  lemma AllRetained(s: State, id: Id)
    requires Inv(s) && !s.worker.Released? && id in s.ledger && id !in s.flight
    ensures |s.flight| < MAX_QUEUED_CANDIDATES && Sum(s.flight) + s.ledger[id].bytes <= MAX_GLOBAL_BYTES
  {
    hide SendersOk, Sum, CandidateTotal;
    forall x | x in s.flight ensures x in s.ledger && s.ledger[x].bytes == s.flight[x] {
      IdKnown(s, x);
    }
    PartOfLedger(s.flight, s.ledger, id);
  }

  /** Without the candidate that the worker has released, the rest is in the ledger. */
  lemma ReleasedApart(s: State, id: Id)
    requires Inv(s) && s.worker.Released? && id in s.ledger && id !in s.flight
    ensures |s.flight| - 1 < MAX_QUEUED_CANDIDATES
            && Sum(s.flight) - s.worker.item.bytes + s.ledger[id].bytes <= MAX_GLOBAL_BYTES
  {
    hide SendersOk, Sum, CandidateTotal;
    var gone := s.worker.item.id;
    var rest := s.flight - {gone};
    forall x | x in rest ensures x in s.ledger && s.ledger[x].bytes == rest[x] {
      IdKnown(s, x);
    }
    PartOfLedger(rest, s.ledger, id);
    SumSplit(s.flight, gone);
    RemovedSize(s.flight, gone);
    assert Removed(s.flight, gone) == rest;
  }
}

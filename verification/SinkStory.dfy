// What a managed sink was handed and what its worker received, from the steps alone: candidates are
// received in the order in which they were queued, and a sender's answer says whether its own was queued.

module SinkStory {
  import opened CandidateEntries
  import opened MapSums
  import opened SinkQueue

  /** The candidates put into the channel, those taken out, and the tasks that came without a failing operation. */
  datatype Diary = Diary(pushed: seq<Queued>, received: seq<Queued>, direct: set<Task>)

  const BLANK: Diary := Diary([], [], {})

  function Note(d: Diary, s: State, s': State, step: Step): Diary {
    match step
    case Direct(t, _, _) => d.(direct := d.direct + {t})
    case Push(t) =>
      if t in s.senders && s.senders[t].Counted? && t in s'.senders && s'.senders[t].Sent? then
        d.(pushed := d.pushed + [Queued(s.senders[t].id, s.senders[t].bytes)])
      else d
    case Receive => if s'.worker.Received? then d.(received := d.received + [s'.worker.item]) else d
    case _ => d
  }

  ghost function Follow(d: Diary, s: State, steps: seq<Step>): Diary
    requires Legal(s, steps)
    decreases |steps|
  {
    if steps == [] then d else Follow(Note(d, s, Apply(s, steps[0]), steps[0]), Apply(s, steps[0]), steps[1..])
  }

  function Ids(items: seq<Queued>): set<Id> {
    set i | 0 <= i < |items| :: items[i].id
  }

  lemma OneMore(items: seq<Queued>, q: Queued)
    ensures Ids(items + [q]) == Ids(items) + {q.id}
  {
    var longer := items + [q];
    assert longer[|items|] == q;
    forall id | id in Ids(items) ensures id in Ids(longer) {
      var i :| 0 <= i < |items| && items[i].id == id;
      assert longer[i].id == id;
    }
  }

  /** What a sender knows of its own candidate is what the diary says. */
  predicate SenderTells(d: Diary, s: State, t: Task) {
    if t in s.senders then
      match s.senders[t]
      case Entering(id, _, fromFailure) => id !in Ids(d.pushed) && (fromFailure <==> t !in d.direct)
      case Claimed(id, _, fromFailure) => id !in Ids(d.pushed) && (fromFailure <==> t !in d.direct)
      case Counted(id, _, fromFailure) => id !in Ids(d.pushed) && (fromFailure <==> t !in d.direct)
      case Refused(id, fromFailure) => id !in Ids(d.pushed) && (fromFailure <==> t !in d.direct)
      case Sent(id, fromFailure) => id in Ids(d.pushed) && (fromFailure <==> t !in d.direct)
      case Checked(id, sent, _) => (sent <==> id in Ids(d.pushed)) && t !in d.direct
      case Done(id, ok) => (ok ==> id in Ids(d.pushed)) && (t in d.direct ==> (ok <==> id in Ids(d.pushed)))
    else t !in d.direct
  }

  /** Only carried captures were ever queued. */
  predicate Carried(d: Diary, s: State) {
    forall id :: id in Ids(d.pushed) ==> id in s.carrier
  }

  predicate Distinct(items: seq<Queued>) {
    forall i, j :: 0 <= i < j < |items| ==> items[i].id != items[j].id
  }

  ghost predicate Tells(d: Diary, s: State) {
    && d.pushed == d.received + s.channel && Distinct(d.pushed) && Carried(d, s)
    && forall t :: SenderTells(d, s, t)
  }

  // ---- every step -------------------------------------------------------------------------------------

  predicate Moves(step: Step, t: Task) {
    step == Reject(t) || step == Claim(t) || step == Count(t) || step == Check(t) || step == Settle(t)
  }

  /** The channel stays, and only this sender moves. */
  predicate OnlyMoves(s: State, s': State, t: Task, p: Sender) {
    s'.senders == s.senders[t := p] && s'.channel == s.channel && s'.carrier == s.carrier
  }

  lemma EntryIs(s: State, step: Step, t: Task)
    requires step == Reject(t) || step == Claim(t)
    requires Enabled(s, step)
    ensures t in s.senders && t in Apply(s, step).senders && s.senders[t].Entering?
    ensures var p, p' := s.senders[t], Apply(s, step).senders[t];
            OnlyMoves(s, Apply(s, step), t, p') && p'.id == p.id && (p'.Claimed? || p'.Refused?)
            && p'.fromFailure == p.fromFailure
  {
    hide ClaimSucceeds;
  }

  lemma CountIs(s: State, t: Task)
    requires Enabled(s, Count(t))
    ensures t in s.senders && t in Apply(s, Count(t)).senders && s.senders[t].Claimed?
    ensures var p, p' := s.senders[t], Apply(s, Count(t)).senders[t];
            OnlyMoves(s, Apply(s, Count(t)), t, p') && p'.id == p.id && (p'.Counted? || p'.Refused?)
            && p'.fromFailure == p.fromFailure
  {
    hide Removed;
  }

  lemma EndIs(s: State, step: Step, t: Task)
    requires step == Check(t) || step == Settle(t)
    requires Enabled(s, step)
    ensures t in s.senders && t in Apply(s, step).senders
    ensures var p, p' := s.senders[t], Apply(s, step).senders[t];
            && OnlyMoves(s, Apply(s, step), t, p') && p'.id == p.id
            && (step.Check? ==> (p.Refused? || p.Sent?) && p' == (if p.fromFailure then
                                                                    Checked(p.id, p.Sent?, IsRetained(s, p.id))
                                                                  else Done(p.id, p.Sent?)))
            && (step.Settle? ==> p.Checked? && p' == Done(p.id, p.sent && p.retained))
  {
    hide Removed, IsRetained;
  }

  lemma MoveTells(d: Diary, s: State, step: Step, t: Task)
    requires Moves(step, t) && Enabled(s, step) && Tells(d, s)
    ensures Tells(d, Apply(s, step))
  {
    hide Apply, Enabled, Ids, IsRetained;
    if step.Check? || step.Settle? {
      EndIs(s, step, t);
    } else if step.Count? {
      CountIs(s, t);
    } else {
      EntryIs(s, step, t);
    }
    assert SenderTells(d, s, t);
    var s' := Apply(s, step);
    forall u ensures SenderTells(d, s', u) { assert SenderTells(d, s, u); }
  }

  lemma PushTells(d: Diary, s: State, t: Task)
    requires Inv(s) && Enabled(s, Push(t)) && Tells(d, s)
    ensures Tells(Note(d, s, Apply(s, Push(t)), Push(t)), Apply(s, Push(t)))
  {
    var q := Queued(s.senders[t].id, s.senders[t].bytes);
    PushIs(s, t);
    var s' := Apply(s, Push(t));
    var d' := Note(d, s, s', Push(t));
    OneMore(d.pushed, q);
    assert SenderTells(d, s, t);
    NewItem(d.pushed, q);
    assert d.received + s.channel + [q] == d.received + (s.channel + [q]);
    forall u ensures SenderTells(d', s', u) {
      assert SenderTells(d, s, u);
      if u in s.senders && u != t { SenderKnown(s, u); SenderKnown(s, t); }
    }
    SenderKnown(s, t);
    hide Apply, Inv, Ids;
  }

  lemma NewItem(items: seq<Queued>, q: Queued)
    requires Distinct(items) && q.id !in Ids(items)
    ensures Distinct(items + [q])
  {
    forall i | 0 <= i < |items| ensures items[i].id != q.id { assert items[i].id in Ids(items); }
  }

  lemma PushIs(s: State, t: Task)
    requires Inv(s) && Enabled(s, Push(t))
    ensures t in s.senders && s.senders[t].Counted?
    ensures var s', p := Apply(s, Push(t)), s.senders[t];
            s'.channel == s.channel + [Queued(p.id, p.bytes)] && s'.carrier == s.carrier
            && s'.senders == s.senders[t := Sent(p.id, p.fromFailure)]
  {
    ChannelHasRoom(s, t);
    hide Inv, GiveBack, Uncount;
  }

  lemma ReceiveTells(d: Diary, s: State)
    requires Enabled(s, Receive) && Tells(d, s)
    ensures Tells(Note(d, s, Apply(s, Receive), Receive), Apply(s, Receive))
  {
    var s' := Apply(s, Receive);
    var d' := Note(d, s, s', Receive);
    assert d.received + s.channel == (d.received + [s.channel[0]]) + s.channel[1..];
    forall u ensures SenderTells(d', s', u) { assert SenderTells(d, s, u); }
  }

  lemma NewTells(d: Diary, s: State, step: Step)
    requires Enabled(s, step) && (step.Reserve? || step.Direct?) && Tells(d, s)
    ensures Tells(Note(d, s, Apply(s, step), step), Apply(s, step))
  {
    var s' := Apply(s, step);
    var d' := Note(d, s, s', step);
    assert SenderTells(d, s, step.task);
    forall u ensures SenderTells(d', s', u) { assert SenderTells(d, s, u); }
    hide Ids, Distinct;
  }

  /** The worker, other sinks and other operations do not concern the senders. */
  lemma OtherTells(d: Diary, s: State, step: Step)
    requires Enabled(s, step) && Tells(d, s)
    requires step.Expire? || step.Start? || step.Deliver? || step.Release? || step.Finish? || step.ForeignPut?
             || step.ForeignRemove? || step.Operations?
    ensures Tells(Note(d, s, Apply(s, step), step), Apply(s, step))
  {
    OtherIs(s, step);
    hide Apply, Enabled;
    var s' := Apply(s, step);
    forall u ensures SenderTells(d, s', u) { assert SenderTells(d, s, u); }
  }

  lemma OtherIs(s: State, step: Step)
    requires Enabled(s, step)
    requires step.Expire? || step.Start? || step.Deliver? || step.Release? || step.Finish? || step.ForeignPut?
             || step.ForeignRemove? || step.Operations?
    ensures var s' := Apply(s, step); s'.senders == s.senders && s'.channel == s.channel && s'.carrier == s.carrier
  {
    hide Removed, CandidateTotal, HasRoom;
  }

  lemma StepTells(d: Diary, s: State, step: Step)
    requires Inv(s) && Enabled(s, step) && Tells(d, s)
    ensures Tells(Note(d, s, Apply(s, step), step), Apply(s, step))
  {
    hide Inv, Apply, Enabled, Tells;
    match step
    case Reserve(_, _, _) => NewTells(d, s, step);
    case Direct(_, _, _) => NewTells(d, s, step);
    case Push(t) => PushTells(d, s, t);
    case Receive => ReceiveTells(d, s);
    case Reject(t) => MoveTells(d, s, step, t);
    case Claim(t) => MoveTells(d, s, step, t);
    case Count(t) => MoveTells(d, s, step, t);
    case Check(t) => MoveTells(d, s, step, t);
    case Settle(t) => MoveTells(d, s, step, t);
    case _ => OtherTells(d, s, step);
  }

  lemma {:induction false} RunTells(d: Diary, s: State, steps: seq<Step>)
    requires Inv(s) && Legal(s, steps) && Tells(d, s)
    ensures Tells(Follow(d, s, steps), Run(s, steps))
    decreases |steps|
  {
    hide Inv, Apply, Enabled, Note, Tells;
    if steps != [] {
      StepKeeps(s, steps[0]);
      StepTells(d, s, steps[0]);
      RunTells(Note(d, s, Apply(s, steps[0]), steps[0]), Apply(s, steps[0]), steps[1..]);
    }
  }

  lemma ReachableTells(steps: seq<Step>)
    requires Legal(Init(), steps)
    ensures Tells(Follow(BLANK, Init(), steps), Run(Init(), steps))
  {
    InitOk();
    assert Tells(BLANK, Init());
    RunTells(BLANK, Init(), steps);
  }

  // ---- what the runs tell -----------------------------------------------------------------------------

  /** In every run the worker receives the queued candidates in their order, none twice and none left out. */
  lemma ReceivedInOrder(steps: seq<Step>)
    requires Legal(Init(), steps)
    ensures var d := Follow(BLANK, Init(), steps);
            d.pushed == d.received + Run(Init(), steps).channel && Distinct(d.pushed)
  {
    ReachableTells(steps);
  }

  /**
   * A sender that ends well has queued its candidate. A direct delivery ends well iff it has; a failing
   * operation may end badly although it has, when its candidate was found returned.
   */
  lemma AnswersAreTrue(steps: seq<Step>, t: Task)
    requires Legal(Init(), steps) && t in Run(Init(), steps).senders && Run(Init(), steps).senders[t].Done?
    ensures var d, p := Follow(BLANK, Init(), steps), Run(Init(), steps).senders[t];
            && (p.ok ==> p.id in Ids(d.pushed)) && (t in d.direct ==> (p.ok <==> p.id in Ids(d.pushed)))
  {
    ReachableTells(steps);
    assert SenderTells(Follow(BLANK, Init(), steps), Run(Init(), steps), t);
    hide Run, Follow;
  }

  /** The claim of a failing operation never fails; a direct one is refused iff the process has no room for it. */
  lemma ClaimVerdict(s: State, t: Task)
    requires Reachable(s) && Enabled(s, Claim(t))
    ensures var p, p' := s.senders[t], Apply(s, Claim(t)).senders[t];
            && (p'.Claimed? <==> p.fromFailure || HasRoom(s, p.bytes)) && (p'.Refused? <==> !p'.Claimed?)
            && (p'.Claimed? ==> InLedger(Apply(s, Claim(t)), p.id, CandidateEntry(p.bytes, Retained)))
            && (p'.Refused? ==> Apply(s, Claim(t)).ledger == s.ledger)
  {
    ReachableInv(s);
    SenderKnown(s, t);
    IdKnown(s, s.senders[t].id);
    hide Inv, CandidateTotal;
  }
}

/** The shape every step of one task has, and that every event but a new round and an abort is such a step. */
module Steps {
  import opened Options
  import opened Search
  import opened Durability

  /**
   * Task `i` moved; a proof is registered only together with the panel that task `i` opens for it, and accepted only
   * by the task that runs its panel.
   */
  ghost predicate Step(cfg: Config, s: State, s': State, i: nat) {
    && Moved(s, s', i)
    && (forall p :: 0 <= p < |s'.pool| && s'.pool[p].accepted ==>
          p < |s.pool| && (s.pool[p].accepted || (HasPanel(s.tasks[i].pc) && s.tasks[i].pc.at == p)))
    && (|s'.pool| == |s.pool| ||
        (|s'.pool| == |s.pool| + 1 && s'.tasks[i].pc == Voting(|s.pool|, EmptyPanel(cfg)) && s'.pool[|s.pool|].round == s.tasks[i].round))
  }

  lemma PcStep(cfg: Config, s: State, i: nat, pc: Pc)
    requires i < |s.tasks| && (HasPanel(pc) ==> HasPanel(s.tasks[i].pc) && pc.at == s.tasks[i].pc.at)
    ensures Step(cfg, s, SetPc(s, i, pc), i)
  {
  }

  lemma MergeStep(cfg: Config, s: State, s': State, i: nat, k: nat)
    requires i < |s.tasks| && k < |s.pool| && s'.round == s.round && s'.ledger == s.ledger
    requires s'.pool == s.pool[k := Merge(s.pool[k], s.tasks[i])] && s'.tasks == s.tasks[i := s.tasks[i].(pc := Done)]
    ensures Step(cfg, s, s', i)
  {
  }

  lemma RegisterStep(cfg: Config, s: State, s': State, i: nat, rec: Record)
    requires i < |s.tasks| && s'.round == s.round && s'.ledger == s.ledger && rec.round == s.tasks[i].round && !rec.accepted
    requires s'.pool == s.pool + [rec] && s'.tasks == s.tasks[i := s.tasks[i].(pc := Voting(|s.pool|, EmptyPanel(cfg)))]
    ensures Step(cfg, s, s', i)
  {
  }

  lemma AdmitStep(cfg: Config, s: State, i: nat, resp: Response)
    requires i < |s.tasks|
    ensures Step(cfg, s, Admit(cfg, s, i, resp), i)
  {
    var t, p := s.tasks[i], cfg.parseProof(resp);
    if t.model in s.stopped || !p.valid {
      PcStep(cfg, s, i, Done);
    } else {
      match Find(s.pool, p.proof)
      case Some(k) => MergeStep(cfg, s, Admit(cfg, s, i, resp), i, k);
      case None => RegisterStep(cfg, s, Admit(cfg, s, i, resp), i, NewRecord(p, t, s.nextId));
    }
  }

  lemma SettleStep(cfg: Config, s: State, i: nat, rec: Record)
    requires i < |s.tasks| && s.tasks[i].pc.Recording? && s.tasks[i].pc.at < |s.pool| && rec.verdict.Some?
    requires rec.proof == s.pool[s.tasks[i].pc.at].proof && rec.round == s.pool[s.tasks[i].pc.at].round
    ensures Step(cfg, s, Settle(s, i, rec), i)
  {
    SettleMoves(s, i, rec);
  }

  lemma ConcludeStep(cfg: Config, s: State, i: nat)
    requires Enabled(cfg, s, Conclude(i))
    ensures Step(cfg, s, Conclusion(cfg, s, i), i)
  {
    PcStep(cfg, s, i, Done);
    SettleStep(cfg, s, i, Judged(cfg, s.pool[s.tasks[i].pc.at], s.tasks[i].pc.seats));
  }

  lemma SaveStep(cfg: Config, s: State, ev: Event)
    requires Enabled(cfg, s, ev) && (ev.Deliver? || ev.Write? || ev.WriteVote? || ev.Fail?)
    ensures Step(cfg, s, Next(cfg, s, ev), ev.i)
  {
  }

  lemma BeginStep(cfg: Config, s: State, i: nat)
    requires Enabled(cfg, s, Start(i))
    ensures Step(cfg, s, Begin(cfg, s, i), i)
  {
    var t := s.tasks[i];
    if !t.cancelled && t.model !in s.stopped && t.id in s.ledger {
      AdmitStep(cfg, s, i, s.ledger[t.id]);
    } else {
      PcStep(cfg, s, i, Begin(cfg, s, i).tasks[i].pc);
    }
  }

  lemma SeatStep(cfg: Config, s: State, i: nat, a: nat, b: nat, was: Seat, seat: Seat)
    requires SeatAt(cfg, s, i, a, b, was)
    ensures Step(cfg, s, SettleSeat(s, i, a, b, seat), i)
  {
  }

  lemma BeginSeatStep(cfg: Config, s: State, i: nat, a: nat, b: nat)
    requires SeatAt(cfg, s, i, a, b, Unsent)
    ensures Step(cfg, s, BeginSeat(cfg, s, i, a, b), i)
  {
  }

  lemma TaskStep(cfg: Config, s: State, ev: Event)
    requires Enabled(cfg, s, ev) && !ev.NextRound? && !ev.Abort?
    ensures Step(cfg, s, Next(cfg, s, ev), ev.i)
  {
    match ev
    case Start(i) => BeginStep(cfg, s, i);
    case Deliver(_, _) => SaveStep(cfg, s, ev);
    case Park(i) => PcStep(cfg, s, i, Done);
    case Fail(_) => SaveStep(cfg, s, ev);
    case Drop(i) => PcStep(cfg, s, i, Done);
    case Write(_) => SaveStep(cfg, s, ev);
    case LoseWrite(i) => PcStep(cfg, s, i, Done);
    case Resume(i) => PcStep(cfg, s, i, Done); AdmitStep(cfg, s, i, s.tasks[i].pc.resp);
    case SeatStart(i, a, b) => BeginSeatStep(cfg, s, i, a, b);
    case SeatDeliver(i, a, b, resp) => SeatStep(cfg, s, i, a, b, Sent, Got(resp, true));
    case SeatPark(i, a, b) => SeatStep(cfg, s, i, a, b, Sent, Parked);
    case SeatFail(i, a, b) => SeatStep(cfg, s, i, a, b, Sent, Fatal);
    case SeatDrop(i, a, b) => SeatStep(cfg, s, i, a, b, s.tasks[i].pc.seats[a][b], Dropped);
    case Gather(i) => PcStep(cfg, s, i, Gathered(s, i).tasks[i].pc);
    case WriteVote(_, _, _) => SaveStep(cfg, s, ev);
    case Leave(i) => PcStep(cfg, s, i, Done);
    case Conclude(i) => ConcludeStep(cfg, s, i);
  }
}

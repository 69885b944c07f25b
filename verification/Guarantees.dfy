/** What the order manager guarantees over whole days of recorded actions: any interleaving of actions and crashes,
    starting from the day's first session. */
module Guarantees {
  import opened Contracts
  import opened Accounting
  import opened Recovery
  import opened Sessions
  import opened Replay
  import opened Invariants
  import opened Reconciling

  /** A day: a first session, then any enabled actions and any crashes. */
  ghost predicate Day(costs: CostModel, first: Session, run: seq<Event>) {
    SoundCosts(costs) && Initial(first) && AllEnabled(costs, first, run)
  }

  lemma DayInv(costs: CostModel, first: Session, run: seq<Event>)
    requires Day(costs, first, run)
    ensures Inv(costs, first.ledger, Exec(costs, first, run))
  {
    InitialInv(costs, first);
    RunInv(costs, first.ledger, first, run);
  }

  // ---------------------------------------------------------------- crash replay

  lemma StepJournal(costs: CostModel, s: Session, e: Event)
    ensures s.journal <= Step(costs, s, e).journal
    ensures |Step(costs, s, e).journal| <= |s.journal| + 1
  {
  }

  /** The durable prefix of n records is the journal at some moment of the run. */
  lemma {:induction false} MomentOf(costs: CostModel, s: Session, run: seq<Event>, n: nat) returns (k: nat)
    requires AllEnabled(costs, s, run) && |s.journal| <= n <= |Exec(costs, s, run).journal|
    ensures k <= |run| && AllEnabled(costs, s, run[..k])
    ensures Exec(costs, s, run[..k]).journal == Exec(costs, s, run).journal[..n]
  {
    if n == |Exec(costs, s, run).journal| {
      k := |run|;
      assert run[..k] == run;
    } else {
      var init := run[..|run| - 1];
      StepJournal(costs, Exec(costs, s, init), run[|run| - 1]);
      k := MomentOf(costs, s, init, n);
      assert init[..k] == run[..k];
    }
  }

  /** CRASH REPLAY. Whatever happened during the day, and wherever the journal was cut, the restore
      succeeds, and the session it builds continues the one that lived at that moment: the same
      orders with the same intents, broker numbers, fills and statuses (an unanswered send becoming
      UNKNOWN), the same ledger, and a sequence number above every recorded client id. */
  lemma CrashReplay(costs: CostModel, first: Session, run: seq<Event>, n: nat) returns (k: nat)
    requires Day(costs, first, run)
    requires 1 <= n <= |Exec(costs, first, run).journal|
    ensures var durable := Exec(costs, first, run).journal[..n];
            && k <= |run|
            && Exec(costs, first, run[..k]).journal == durable
            && Resume(costs, durable).Some?
            && Continues(Resume(costs, durable).value, Exec(costs, first, run[..k]))
  {
    k := MomentOf(costs, first, run, n);
    DayInv(costs, first, run[..k]);
    CrashInv(costs, first.ledger, Exec(costs, first, run[..k]));
  }

  /** A client id that reached the journal is never given out again, also by a restarted session. */
  lemma IdsNeverReused(costs: CostModel, first: Session, run: seq<Event>, k: nat)
    requires Day(costs, first, run)
    requires k < |Exec(costs, first, run).journal|
    requires Exec(costs, first, run).journal[k].IntentRecord? || Exec(costs, first, run).journal[k].RiskReject?
    ensures var s := Exec(costs, first, run);
            && s.journal[k].id <= s.seqNo
            && Resume(costs, s.journal).Some? && s.journal[k].id <= Resume(costs, s.journal).value.seqNo
  {
    DayInv(costs, first, run);
    CrashInv(costs, first.ledger, Exec(costs, first, run));
    RecordedIdsBounded(Exec(costs, first, run).journal, k);
  }

  // ---------------------------------------------------------------- positions and money

  /** NO OVERSELL. At every moment of every day, what open sell orders may still sell is held. */
  lemma NeverOversold(costs: CostModel, first: Session, run: seq<Event>, symbol: string)
    requires Day(costs, first, run)
    ensures var s := Exec(costs, first, run);
            Sum(s.orders, OpenOf(Sell, symbol), s.seqNo) <= Held(s.ledger, symbol)
  {
    DayInv(costs, first, run);
    var s := Exec(costs, first, run);
    assert Covered(s.orders, s.ledger, s.seqNo, symbol);
  }

  /** CONSERVATION. Cash plus position cost minus realized profit never changes, each position is the
      morning's plus all buys minus all sells of the orders, and nothing held or paid is negative. */
  lemma DayConserves(costs: CostModel, first: Session, run: seq<Event>, symbol: string)
    requires Day(costs, first, run)
    ensures var s := Exec(costs, first, run);
            && Worth(s.ledger) == Worth(first.ledger)
            && Held(s.ledger, symbol) == Held(first.ledger, symbol) + Sum(s.orders, NetFillOf(symbol), s.seqNo)
            && Sound(s.ledger)
  {
    DayInv(costs, first, run);
    var s := Exec(costs, first, run);
    assert Accounted(s.orders, s.ledger, first.ledger, s.seqNo, symbol);
  }

  // ---------------------------------------------------------------- adoption

  /** At every moment at most one order per symbol and side is in doubt, so two such orders never
      have a candidate row in common, and no two orders hold the same broker number. */
  lemma AdoptionSafe(costs: CostModel, first: Session, run: seq<Event>, rows: seq<Row>, a: nat, b: nat)
    requires Day(costs, first, run)
    requires var s := Exec(costs, first, run); a in s.orders && b in s.orders && a != b
    ensures var s := Exec(costs, first, run);
            && (s.orders[a].Numbered() && s.orders[b].Numbered() ==> s.orders[a].ref.no != s.orders[b].ref.no)
            && (s.orders[a].status.Unknown? && s.orders[b].status.Unknown? ==>
                  forall c :: !(c in Candidates(s.orders[a], rows, Known(s.orders))
                                && c in Candidates(s.orders[b], rows, Known(s.orders))))
  {
    DayInv(costs, first, run);
    var s := Exec(costs, first, run);
    var known := Known(s.orders);
    if s.orders[a].status.Unknown? && s.orders[b].status.Unknown? {
      forall c | c in Candidates(s.orders[a], rows, known)
        ensures c !in Candidates(s.orders[b], rows, known)
      {
        var j :| 0 <= j < |Candidates(s.orders[a], rows, known)| && Candidates(s.orders[a], rows, known)[j] == c;
        CandidateFacts(s.orders[a], rows, known, j);
        if c in Candidates(s.orders[b], rows, known) {
          var k :| 0 <= k < |Candidates(s.orders[b], rows, known)| && Candidates(s.orders[b], rows, known)[k] == c;
          CandidateFacts(s.orders[b], rows, known, k);
        }
      }
    }
  }

  // ---------------------------------------------------------------- life cycle

  /** How far an order has come. */
  function Stage(status: OrderStatus): nat {
    match status
    case PendingSubmit => 0
    case Unknown => 1
    case Accepted => 2
    case PartiallyFilled => 3
    case _ => 4
  }

  /** An order only gets further; what is closed stays, and what is partially filled is not rejected any more. */
  predicate Along(a: OrderStatus, b: OrderStatus) {
    a == b || (Stage(a) < Stage(b) && !(a == PartiallyFilled && b == Rejected))
  }

  /** The table of moves is this order, except that an order being submitted moves only by its answer; so legal moves
      never lead back. */
  lemma LegalMoves(a: OrderStatus, b: OrderStatus)
    ensures Transition(a, b) == if Along(a, b) && (a == PendingSubmit ==> Stage(b) <= 2 || b == Rejected) then Success(b)
                                else Failure(IllegalTransition)
    ensures Along(a, b) && Along(b, a) ==> a == b
  {
  }

  /** A later view of an order: it moves along the life cycle, fills only grow, never beyond the order, and a closed
      order stays as it was (a restart reads its creation time back from the journal). */
  predicate Later(o: Order, p: Order) {
    && p.id == o.id && p.intent == o.intent && !p.reject.ByGate? && Along(o.status, p.status)
    && o.filledQty <= p.filledQty <= p.intent.qty
    && o.filledAmount <= p.filledAmount
    && (Stage(o.status) == 4 ==> p == o.(createdAt := p.createdAt))
  }

  ghost predicate AllLater(before: Orders, after: Orders) {
    forall id :: id in Visible(before) ==> id in after && Later(before[id], after[id])
  }

  lemma OrderAdvances(costs: CostModel, s: Session, a: Action, id: nat)
    requires Shape(s) && Enabled(s, a) && id in Visible(s.orders)
    ensures id in Next(costs, s, a).orders && Later(s.orders[id], Next(costs, s, a).orders[id])
  {
    assert OrderOk(id, s.orders[id]);
  }

  lemma ActionAdvances(costs: CostModel, s: Session, a: Action)
    requires Shape(s) && Enabled(s, a)
    ensures AllLater(s.orders, Next(costs, s, a).orders)
  {
    forall id | id in Visible(s.orders)
      ensures id in Next(costs, s, a).orders && Later(s.orders[id], Next(costs, s, a).orders[id])
    {
      OrderAdvances(costs, s, a, id);
    }
  }

  lemma CrashAdvances(r: Session, s: Session)
    requires Shape(s) && Continues(r, s)
    ensures AllLater(s.orders, r.orders)
  {
  }

  lemma EventAdvances(costs: CostModel, start: Balance, s: Session, e: Event)
    requires Inv(costs, start, s) && (e.Act? ==> Enabled(s, e.action))
    ensures AllLater(s.orders, Step(costs, s, e).orders)
  {
    if e.Crash? {
      CrashInv(costs, start, s);
      CrashAdvances(Step(costs, s, e), s);
    } else {
      ActionAdvances(costs, s, e.action);
    }
  }

  lemma LaterTransitive(a: Orders, b: Orders, c: Orders)
    requires AllLater(a, b) && AllLater(b, c)
    ensures AllLater(a, c)
  {
    forall id | id in Visible(a)
      ensures id in c && Later(a[id], c[id])
    {
      assert id in Visible(b);
    }
  }

  lemma LaterReflexive(s: Session)
    requires Shape(s)
    ensures AllLater(s.orders, s.orders)
  {
  }

  lemma {:induction false} RunAdvances(costs: CostModel, start: Balance, s: Session, run: seq<Event>)
    requires SoundCosts(costs) && Inv(costs, start, s) && AllEnabled(costs, s, run)
    ensures AllLater(s.orders, Exec(costs, s, run).orders)
  {
    if run == [] {
      LaterReflexive(s);
    } else {
      var init := run[..|run| - 1];
      RunAdvances(costs, start, s, init);
      RunInv(costs, start, s, init);
      EventAdvances(costs, start, Exec(costs, s, init), run[|run| - 1]);
      LaterTransitive(s.orders, Exec(costs, s, init).orders, Exec(costs, s, run).orders);
    }
  }

  lemma {:induction false} EnabledSplits(costs: CostModel, s: Session, run: seq<Event>, i: nat)
    requires i <= |run| && AllEnabled(costs, s, run)
    ensures AllEnabled(costs, s, run[..i])
    ensures AllEnabled(costs, Exec(costs, s, run[..i]), run[i..])
    ensures Exec(costs, Exec(costs, s, run[..i]), run[i..]) == Exec(costs, s, run)
  {
    if i == |run| {
      assert run[..i] == run && run[i..] == [];
    } else {
      var init := run[..|run| - 1];
      EnabledSplits(costs, s, init, i);
      assert init[..i] == run[..i] && run[i..][..|run[i..]| - 1] == init[i..];
    }
  }

  /** At every moment of a day an order that was sent is within its quantity, and one partially filled has a fill. */
  lemma FillsFitStatus(costs: CostModel, first: Session, run: seq<Event>, id: nat)
    requires Day(costs, first, run) && id in Visible(Exec(costs, first, run).orders)
    ensures var o := Exec(costs, first, run).orders[id];
            && 0 <= o.filledQty <= o.intent.qty && (o.status.PartiallyFilled? ==> o.filledQty > 0)
            && (o.status.PendingSubmit? ==> o.filledQty == 0) && (o.filledQty > 0 ==> o.Numbered())
  {
    DayInv(costs, first, run);
    assert OrderOk(id, Exec(costs, first, run).orders[id]);
  }

  /** LIFE CYCLE. Between any two moments of a day of recorded actions, crashes included, an order only gets
      further, its cumulative fill never falls and never exceeds its quantity, and a closed order never changes. */
  lemma OrdersOnlyAdvance(costs: CostModel, first: Session, run: seq<Event>, i: nat)
    requires Day(costs, first, run) && i <= |run|
    ensures AllLater(Exec(costs, first, run[..i]).orders, Exec(costs, first, run).orders)
  {
    EnabledSplits(costs, first, run, i);
    DayInv(costs, first, run[..i]);
    RunAdvances(costs, first.ledger, Exec(costs, first, run[..i]), run[i..]);
  }

  // ---------------------------------------------------------------- a broker number belongs to one order for good

  /** No adoption replaces a number the order already holds. */
  predicate NoReplacement(costs: CostModel, s: Session, run: seq<Event>) {
    run == [] ||
    (var before, e := run[..|run| - 1], run[|run| - 1];
     && NoReplacement(costs, s, before)
     && (e.Act? && e.action.Adopt? && e.action.id in Exec(costs, s, before).orders ==>
           !Exec(costs, s, before).orders[e.action.id].Numbered()))
  }

  ghost predicate NumbersStay(before: Orders, after: Orders) {
    forall id :: id in before && before[id].Numbered() ==> id in after && after[id].ref == before[id].ref
  }

  lemma ActionKeepsNumbers(costs: CostModel, s: Session, a: Action)
    requires Shape(s) && Enabled(s, a)
    requires a.Adopt? ==> !s.orders[a.id].Numbered()
    ensures NumbersStay(s.orders, Next(costs, s, a).orders)
  {
  }

  lemma CrashKeepsNumbers(r: Session, s: Session)
    requires Shape(s) && Continues(r, s)
    ensures NumbersStay(s.orders, r.orders)
  {
  }

  lemma EventKeepsNumbers(costs: CostModel, start: Balance, s: Session, e: Event)
    requires Inv(costs, start, s) && (e.Act? ==> Enabled(s, e.action))
    requires e.Act? && e.action.Adopt? ==> !s.orders[e.action.id].Numbered()
    ensures NumbersStay(s.orders, Step(costs, s, e).orders)
  {
    if e.Crash? {
      CrashInv(costs, start, s);
      CrashKeepsNumbers(Step(costs, s, e), s);
    } else {
      ActionKeepsNumbers(costs, s, e.action);
    }
  }

  lemma {:induction false} RunKeepsNumbers(costs: CostModel, start: Balance, s: Session, run: seq<Event>)
    requires SoundCosts(costs) && Inv(costs, start, s) && AllEnabled(costs, s, run) && NoReplacement(costs, s, run)
    ensures NumbersStay(s.orders, Exec(costs, s, run).orders)
  {
    if run != [] {
      var init := run[..|run| - 1];
      RunKeepsNumbers(costs, start, s, init);
      RunInv(costs, start, s, init);
      EventKeepsNumbers(costs, start, Exec(costs, s, init), run[|run| - 1]);
    }
  }

  lemma {:induction false} NoReplacementSplits(costs: CostModel, s: Session, run: seq<Event>, i: nat)
    requires i <= |run| && NoReplacement(costs, s, run)
    ensures NoReplacement(costs, s, run[..i]) && NoReplacement(costs, Exec(costs, s, run[..i]), run[i..])
  {
    if i == |run| {
      assert run[..i] == run && run[i..] == [];
    } else {
      var init := run[..|run| - 1];
      NoReplacementSplits(costs, s, init, i);
      ExecSplits(costs, s, init, i);
      assert init[..i] == run[..i] && run[i..][..|run[i..]| - 1] == init[i..];
    }
  }

  lemma {:induction false} ExecSplits(costs: CostModel, s: Session, run: seq<Event>, i: nat)
    requires i <= |run|
    ensures Exec(costs, Exec(costs, s, run[..i]), run[i..]) == Exec(costs, s, run)
  {
    if i == |run| {
      assert run[..i] == run && run[i..] == [];
    } else {
      var init := run[..|run| - 1];
      ExecSplits(costs, s, init, i);
      assert init[..i] == run[..i] && run[i..][..|run[i..]| - 1] == init[i..];
    }
  }

  /** Every order keeps its number from any moment of the run to any later one. */
  ghost predicate NumbersStayThroughout(costs: CostModel, s: Session, run: seq<Event>) {
    forall i, j :: 0 <= i <= j <= |run| ==> NumbersStay(Exec(costs, s, run[..i]).orders, Exec(costs, s, run[..j]).orders)
  }

  lemma StayBetween(costs: CostModel, first: Session, run: seq<Event>, i: nat, j: nat)
    requires Day(costs, first, run) && NoReplacement(costs, first, run) && i <= j <= |run|
    ensures NumbersStay(Exec(costs, first, run[..i]).orders, Exec(costs, first, run[..j]).orders)
  {
    var part := run[..j];
    EnabledSplits(costs, first, run, j);
    NoReplacementSplits(costs, first, run, j);
    assert part[..i] == run[..i];
    EnabledSplits(costs, first, part, i);
    NoReplacementSplits(costs, first, part, i);
    DayInv(costs, first, part[..i]);
    RunKeepsNumbers(costs, first.ledger, Exec(costs, first, part[..i]), part[i..]);
  }

  lemma ReplacementShows(costs: CostModel, s: Session, a: Action)
    requires Enabled(s, a) && a.Adopt? && s.orders[a.id].Numbered()
    ensures !NumbersStay(s.orders, Next(costs, s, a).orders)
  {
    assert s.orders[a.id].ref.no.value in Known(s.orders);
  }

  lemma {:induction false} StayMeansNoReplacement(costs: CostModel, first: Session, run: seq<Event>)
    requires AllEnabled(costs, first, run) && NumbersStayThroughout(costs, first, run)
    ensures NoReplacement(costs, first, run)
  {
    if run != [] {
      var init, e := run[..|run| - 1], run[|run| - 1];
      forall i, j | 0 <= i <= j <= |init|
        ensures NumbersStay(Exec(costs, first, init[..i]).orders, Exec(costs, first, init[..j]).orders)
      {
        assert init[..i] == run[..i] && init[..j] == run[..j];
      }
      StayMeansNoReplacement(costs, first, init);
      var s := Exec(costs, first, init);
      assert run[..|run|] == run && run[..|run| - 1] == init;
      if e.Act? && e.action.Adopt? && s.orders[e.action.id].Numbered() {
        ReplacementShows(costs, s, e.action);
      }
    }
  }

  /** EXACT CONDITION. Orders keep their numbers from every moment of a day to every later one if and only if no adoption
      of the day replaces a number. */
  lemma NumbersStayExactly(costs: CostModel, first: Session, run: seq<Event>)
    requires Day(costs, first, run)
    ensures NumbersStayThroughout(costs, first, run) <==> NoReplacement(costs, first, run)
  {
    if NoReplacement(costs, first, run) {
      forall i, j | 0 <= i <= j <= |run|
        ensures NumbersStay(Exec(costs, first, run[..i]).orders, Exec(costs, first, run[..j]).orders)
      {
        StayBetween(costs, first, run, i, j);
      }
    }
    if NumbersStayThroughout(costs, first, run) {
      StayMeansNoReplacement(costs, first, run);
    }
  }

  /** Each broker order, hence each of its fills, belongs to at most one local order over the whole
      day: if a number is held by order a now and by order b later, a and b are the same order. */
  lemma OneOwnerPerNumber(costs: CostModel, first: Session, run: seq<Event>, more: seq<Event>, a: nat, b: nat)
    requires Day(costs, first, run) && AllEnabled(costs, Exec(costs, first, run), more)
    requires NoReplacement(costs, Exec(costs, first, run), more)
    requires var now := Exec(costs, first, run).orders; a in now && now[a].Numbered()
    requires var later := Exec(costs, Exec(costs, first, run), more).orders; b in later && later[b].Numbered()
    requires Exec(costs, first, run).orders[a].ref.no == Exec(costs, Exec(costs, first, run), more).orders[b].ref.no
    ensures a == b
  {
    DayInv(costs, first, run);
    RunKeepsNumbers(costs, first.ledger, Exec(costs, first, run), more);
    RunInv(costs, first.ledger, Exec(costs, first, run), more);
  }

  // ---------------------------------------------------------------- no illegal reconcile

  /** LEGAL RECONCILE. On no day does a reconcile of any broker list, however inconsistent, raise an
      illegal transition or reach the ledger's oversell branch. */
  lemma ReconcileNeverIllegal(costs: CostModel, first: Session, run: seq<Event>, rows: seq<Row>)
    requires Day(costs, first, run) && NoPending(Exec(costs, first, run).orders) && NamedRows(rows)
    ensures var err := Reconcile(costs, Exec(costs, first, run), rows).1;
            err != Some(IllegalTransition) && err != Some(Oversell)
  {
    DayInv(costs, first, run);
    var s := Exec(costs, first, run);
    AdoptToInv(costs, first.ledger, s, rows, s.seqNo);
    SyncToSteady(costs, first.ledger, AdoptTo(costs, s, rows, s.seqNo).0, rows, s.seqNo);
  }
}

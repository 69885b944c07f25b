/** Which order in doubt gets which broker row. The source decides one order after another with a
    growing set of claimed numbers; because at most one order per symbol and side is in doubt, that
    equals deciding all orders at once. */
module Adoption {
  import opened Contracts
  import opened Accounting
  import opened Recovery
  import opened Sessions
  import opened Invariants
  import opened Reconciling

  /** All orders up to id n decided at once, against the numbers claimed before the loop. */
  function Adopted(orders: Orders, rows: seq<Row>, n: nat): Orders {
    map id | id in orders :: Decided(orders[id], rows, Known(orders), 1 <= id <= n)
  }

  function Decided(o: Order, rows: seq<Row>, known: set<string>, turn: bool): Order {
    var found := Candidates(o, rows, known);
    if turn && o.status.Unknown? && |found| == 1 then o.(ref := RefOf(found[0])) else o
  }

  // ---------------------------------------------------------------- candidates

  /** Claiming numbers that no matching row bears leaves the candidates alone. */
  lemma {:induction false} CandidatesUnmoved(o: Order, rows: seq<Row>, a: set<string>, b: set<string>)
    requires forall k :: 0 <= k < |rows| && Matches(o, rows[k]) ==> (rows[k].no in a <==> rows[k].no in b)
    ensures Candidates(o, rows, a) == Candidates(o, rows, b)
  {
    if rows != [] {
      CandidatesUnmoved(o, rows[..|rows| - 1], a, b);
    }
  }

  /** Candidates depend only on intent and creation time. */
  lemma {:induction false} CandidatesReadIntent(o: Order, p: Order, rows: seq<Row>, known: set<string>)
    requires o.intent == p.intent && o.createdAt == p.createdAt
    ensures Candidates(o, rows, known) == Candidates(p, rows, known)
  {
    if rows != [] {
      CandidatesReadIntent(o, p, rows[..|rows| - 1], known);
    }
  }

  /** With more of the matching rows' numbers claimed there are no new candidates. */
  lemma {:induction false} CandidatesShrink(o: Order, rows: seq<Row>, a: set<string>, b: set<string>)
    requires forall k :: 0 <= k < |rows| && Matches(o, rows[k]) && rows[k].no in a ==> rows[k].no in b
    ensures |Candidates(o, rows, b)| <= |Candidates(o, rows, a)|
    ensures forall c :: c in Candidates(o, rows, b) ==> c in Candidates(o, rows, a)
  {
    if rows != [] {
      CandidatesShrink(o, rows[..|rows| - 1], a, b);
    }
  }

  /** Once the only candidate is claimed, none is left. */
  lemma ClaimedCandidateGone(o: Order, rows: seq<Row>, a: set<string>, b: set<string>)
    requires forall k :: 0 <= k < |rows| && Matches(o, rows[k]) && rows[k].no in a ==> rows[k].no in b
    requires |Candidates(o, rows, a)| == 1 && Candidates(o, rows, a)[0].no in b
    ensures Candidates(o, rows, b) == []
  {
    CandidatesShrink(o, rows, a, b);
    if |Candidates(o, rows, b)| > 0 {
      var c := Candidates(o, rows, b)[0];
      assert c in Candidates(o, rows, b);
      CandidateFacts(o, rows, b, 0);
    }
  }

  // ---------------------------------------------------------------- one by one equals all at once

  /** A number claimed during the loop belongs to a row that matches an order in doubt, up to n. */
  ghost predicate ClaimedBy(orders: Orders, rows: seq<Row>, no: string, n: nat) {
    exists j, k :: 1 <= j <= n && j in orders && orders[j].status.Unknown? && 0 <= k < |rows|
                   && rows[k].no == no && Matches(orders[j], rows[k])
  }

  ghost predicate ClaimsAccountedFor(orders: Orders, rows: seq<Row>, known: set<string>, n: nat) {
    && Known(orders) <= known
    && forall no :: no in known && no !in Known(orders) ==> ClaimedBy(orders, rows, no, n)
  }

  /** Numbers claimed by other orders in doubt are never those of this order's rows. */
  lemma OthersDoNotCompete(orders: Orders, rows: seq<Row>, known: set<string>, id: nat, n: nat)
    requires OneUnsurePerKey(orders) && DistinctRows(rows)
    requires id in orders && orders[id].status.Unknown? && n < id
    requires ClaimsAccountedFor(orders, rows, known, n)
    ensures Candidates(orders[id], rows, known) == Candidates(orders[id], rows, Known(orders))
  {
    forall k | 0 <= k < |rows| && Matches(orders[id], rows[k])
      ensures rows[k].no in known <==> rows[k].no in Known(orders)
    {
    }
    CandidatesUnmoved(orders[id], rows, known, Known(orders));
  }

  lemma AdoptedStep(orders: Orders, rows: seq<Row>, n: nat)
    requires n > 0
    ensures n !in orders ==> Adopted(orders, rows, n) == Adopted(orders, rows, n - 1)
    ensures n in orders ==>
              Adopted(orders, rows, n) == Adopted(orders, rows, n - 1)[n := Decided(orders[n], rows, Known(orders), true)]
  {
  }

  lemma ClaimsGrow(orders: Orders, rows: seq<Row>, known: set<string>, n: nat, row: Row)
    requires n > 0 && ClaimsAccountedFor(orders, rows, known, n - 1)
    requires n in orders && orders[n].status.Unknown? && row in rows && Matches(orders[n], row)
    ensures ClaimsAccountedFor(orders, rows, known + {row.no}, n)
  {
    ClaimsAge(orders, rows, known, n);
    var k :| 0 <= k < |rows| && rows[k] == row;
    assert ClaimedBy(orders, rows, row.no, n);
  }

  lemma ClaimsAge(orders: Orders, rows: seq<Row>, known: set<string>, n: nat)
    requires n > 0 && ClaimsAccountedFor(orders, rows, known, n - 1)
    ensures ClaimsAccountedFor(orders, rows, known, n)
  {
    forall no | no in known && no !in Known(orders)
      ensures ClaimedBy(orders, rows, no, n)
    {
      assert ClaimedBy(orders, rows, no, n - 1);
    }
  }

  /** One turn of the loop, told by what all orders looked like before it began. */
  lemma TurnDecides(costs: CostModel, orders: Orders, rows: seq<Row>, n: nat, before: Session, known: set<string>)
    requires OneUnsurePerKey(orders) && DistinctRows(rows) && n > 0
    requires n in orders && orders[n].status.Unknown?
    requires n in before.orders && before.orders[n] == orders[n]
    requires ClaimsAccountedFor(orders, rows, known, n - 1)
    ensures var r := AdoptOne(costs, before, known, rows, n);
            && r.0.orders == before.orders[n := Decided(orders[n], rows, Known(orders), true)]
            && r.0.ledger == before.ledger && r.0.seqNo == before.seqNo
            && ClaimsAccountedFor(orders, rows, r.1, n)
  {
    OthersDoNotCompete(orders, rows, known, n, n - 1);
    ClaimsAge(orders, rows, known, n);
    var found := Candidates(orders[n], rows, known);
    if |found| == 1 {
      CandidateFacts(orders[n], rows, known, 0);
      ClaimsGrow(orders, rows, known, n, found[0]);
    } else {
      assert before.orders[n := orders[n]] == before.orders;
    }
  }

  /** The loop's result in closed form. */
  lemma {:induction false} LoopDecidesAtOnce(costs: CostModel, s: Session, rows: seq<Row>, n: nat)
    requires OneUnsurePerKey(s.orders) && DistinctRows(rows)
    ensures var r := AdoptTo(costs, s, rows, n);
            && r.0.orders == Adopted(s.orders, rows, n)
            && r.0.ledger == s.ledger && r.0.seqNo == s.seqNo
            && ClaimsAccountedFor(s.orders, rows, r.1, n)
  {
    if n == 0 {
      assert Adopted(s.orders, rows, 0) == s.orders;
    } else {
      LoopDecidesAtOnce(costs, s, rows, n - 1);
      AdoptedStep(s.orders, rows, n);
      var (before, known) := AdoptTo(costs, s, rows, n - 1);
      if n in s.orders && s.orders[n].status.Unknown? {
        TurnDecides(costs, s.orders, rows, n, before, known);
      } else {
        ClaimsAge(s.orders, rows, known, n);
        assert Adopted(s.orders, rows, n) == Adopted(s.orders, rows, n - 1);
      }
    }
  }

  // ---------------------------------------------------------------- adopted numbers can be replaced

  /** An order still in doubt that already holds a number, and exactly one unclaimed row fits it. */
  predicate Readoptable(orders: Orders, rows: seq<Row>) {
    exists id :: id in orders && Replaceable(orders, rows, id)
  }

  predicate Replaceable(orders: Orders, rows: seq<Row>, id: nat)
    requires id in orders
  {
    orders[id].status.Unknown? && orders[id].Numbered() && |Candidates(orders[id], rows, Known(orders))| == 1
  }

  predicate NumbersKept(before: Orders, after: Orders) {
    forall id :: id in before && before[id].Numbered() ==> id in after && after[id].ref.no == before[id].ref.no
  }

  /** The first loop does not ask whether an order in doubt was already adopted. It keeps the numbers
      orders hold if and only if no such order has exactly one unclaimed candidate. */
  lemma NumbersKeptExactly(costs: CostModel, s: Session, rows: seq<Row>)
    requires Shape(s) && OneUnsurePerKey(s.orders) && DistinctRows(rows)
    ensures NumbersKept(s.orders, AdoptTo(costs, s, rows, s.seqNo).0.orders) <==> !Readoptable(s.orders, rows)
  {
    LoopDecidesAtOnce(costs, s, rows, s.seqNo);
    forall id | id in s.orders && Replaceable(s.orders, rows, id)
      ensures Adopted(s.orders, rows, s.seqNo)[id].ref.no != s.orders[id].ref.no
    {
      CandidateFacts(s.orders[id], rows, Known(s.orders), 0);
    }
  }

  /** The number such an order gives up is held by nobody once its turn has passed. */
  lemma AbandonedNumberIsFree(orders: Orders, rows: seq<Row>, id: nat, n: nat)
    requires Exclusive(orders) && DistinctRows(rows)
    requires id in orders && Replaceable(orders, rows, id) && 1 <= id <= n
    ensures orders[id].ref.no.value !in Known(Adopted(orders, rows, n))
  {
    var after := Adopted(orders, rows, n);
    forall k | k in after && after[k].Numbered()
      ensures after[k].ref.no != orders[id].ref.no
    {
      if after[k] != orders[k] || k == id {
        CandidateFacts(orders[k], rows, Known(orders), 0);
      }
    }
  }

  // ---------------------------------------------------------------- how the claimed numbers move

  /** A matching row is newly claimed only by the order itself. */
  lemma ClaimedOnlyByItself(orders: Orders, rows: seq<Row>, n: nat, id: nat, k: nat)
    requires OneUnsurePerKey(orders) && DistinctRows(rows)
    requires id in orders && orders[id].status.Unknown? && k < |rows| && Matches(orders[id], rows[k])
    requires rows[k].no in Known(Adopted(orders, rows, n)) && rows[k].no !in Known(orders)
    ensures 1 <= id <= n && |Candidates(orders[id], rows, Known(orders))| == 1
    ensures Candidates(orders[id], rows, Known(orders))[0] == rows[k]
  {
    var after := Adopted(orders, rows, n);
    var j :| j in after && after[j].Numbered() && after[j].ref.no.value == rows[k].no;
    CandidateFacts(orders[j], rows, Known(orders), 0);
  }

  /** A number is set free only by an order that replaces it. */
  lemma FreedOnlyByReplacement(orders: Orders, rows: seq<Row>, n: nat, no: string) returns (j: nat)
    requires no in Known(orders) && no !in Known(Adopted(orders, rows, n))
    ensures 1 <= j <= n && j in orders && Replaceable(orders, rows, j) && orders[j].ref.no.value == no
  {
    var after := Adopted(orders, rows, n);
    j :| j in orders && orders[j].Numbered() && orders[j].ref.no.value == no;
    assert after[j] != orders[j];
  }

  /** No order in doubt with at most one unclaimed row is tempted by a number about to be given up. */
  predicate Repeatable(orders: Orders, rows: seq<Row>) {
    forall j, id, k ::
      j in orders && Replaceable(orders, rows, j) && id in orders && orders[id].status.Unknown?
      && 0 <= k < |rows| && Matches(orders[id], rows[k]) && rows[k].no == orders[j].ref.no.value ==>
        |Candidates(orders[id], rows, Known(orders))| > 1
  }
}

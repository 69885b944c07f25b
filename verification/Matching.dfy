/** Which row of the broker's list an order in doubt is given, told by the fields of the list. */
module Matching {
  import opened Contracts
  import opened Accounting
  import opened Recovery
  import opened Sessions
  import opened Reconciling

  /** The row is an order of its own for what was intended, at the intended price, and not from before the order was
      created, give or take five seconds. */
  predicate Fits(o: Order, row: Row) {
    && (row.original == "" || row.original == row.no)
    && row.symbol == o.intent.symbol && row.side == o.intent.side && row.orderedQty == o.intent.qty
    && (o.intent.orderType.Limit? ==> o.intent.limitPrice == Some(row.price))
    && (o.intent.orderType.Market? ==> row.price == 0)
    && o.createdAt - 5 <= row.orderTime
  }

  /** Some order holds the number. */
  predicate HeldIn(orders: Orders, no: string) {
    no != "" && exists id :: id in orders && orders[id].ref.no == Some(no)
  }

  /** An order before this one was given the number. */
  predicate TakenBefore(orders: Orders, after: Orders, id: nat, no: string) {
    exists j :: j in orders && j in after && j < id && after[j].ref != orders[j].ref && after[j].ref.no == Some(no)
  }

  /** The k-th row fits the order, and its number is free when the order's turn comes. */
  predicate Open(orders: Orders, after: Orders, rows: seq<Row>, id: nat, k: int)
    requires id in orders
  {
    && 0 <= k < |rows| && Fits(orders[id], rows[k])
    && !HeldIn(orders, rows[k].no) && !TakenBefore(orders, after, id, rows[k].no)
  }

  /** And it is the only such row. */
  predicate OnlyOpen(orders: Orders, after: Orders, rows: seq<Row>, id: nat, k: int)
    requires id in orders
  {
    Open(orders, after, rows, id, k) && forall j :: 0 <= j < |rows| && Open(orders, after, rows, id, j) ==> j == k
  }

  // ---------------------------------------------------------------- candidates

  lemma MatchesFits(o: Order, row: Row)
    ensures Matches(o, row) <==> Fits(o, row)
  {
  }

  lemma HeldIsKnown(orders: Orders, no: string)
    ensures no in Known(orders) <==> HeldIn(orders, no)
  {
  }

  predicate Picks(o: Order, rows: seq<Row>, known: set<string>, k: int) {
    0 <= k < |rows| && Fits(o, rows[k]) && rows[k].no !in known
  }

  lemma {:induction false} NonePicked(o: Order, rows: seq<Row>, known: set<string>)
    requires forall k :: 0 <= k < |rows| ==> !Picks(o, rows, known, k)
    ensures Candidates(o, rows, known) == []
  {
    if rows != [] {
      var init := rows[..|rows| - 1];
      assert forall k :: 0 <= k < |init| ==> (Picks(o, init, known, k) <==> Picks(o, rows, known, k));
      assert !Picks(o, rows, known, |rows| - 1);
      MatchesFits(o, rows[|rows| - 1]);
      NonePicked(o, init, known);
    }
  }

  lemma {:induction false} OnePicked(o: Order, rows: seq<Row>, known: set<string>, k: int)
    requires Picks(o, rows, known, k) && forall j :: 0 <= j < |rows| && Picks(o, rows, known, j) ==> j == k
    ensures Candidates(o, rows, known) == [rows[k]]
  {
    var init, last := rows[..|rows| - 1], |rows| - 1;
    assert forall j :: 0 <= j < |init| ==> (Picks(o, init, known, j) <==> Picks(o, rows, known, j));
    MatchesFits(o, rows[last]);
    if k == last {
      NonePicked(o, init, known);
    } else {
      assert !Picks(o, rows, known, last);
      OnePicked(o, init, known, k);
    }
  }

  /** The rows collected for an order. */
  lemma {:induction false} PickedAmong(o: Order, rows: seq<Row>, known: set<string>, k: int)
    requires Picks(o, rows, known, k)
    ensures rows[k] in Candidates(o, rows, known)
    ensures forall j :: 0 <= j < |rows| && j != k && Picks(o, rows, known, j) ==> |Candidates(o, rows, known)| >= 2
  {
    var init, last := rows[..|rows| - 1], |rows| - 1;
    assert forall j :: 0 <= j < |init| ==> (Picks(o, init, known, j) <==> Picks(o, rows, known, j));
    MatchesFits(o, rows[last]);
    if k < last {
      PickedAmong(o, init, known, k);
      assert |Candidates(o, init, known)| >= 1;
    } else {
      forall j | 0 <= j < |init| && Picks(o, init, known, j)
        ensures |Candidates(o, init, known)| >= 1
      {
        PickedAmong(o, init, known, j);
      }
    }
  }

  /** One row is collected if and only if exactly one row of the list fits and is free. */
  lemma OneCandidate(o: Order, rows: seq<Row>, known: set<string>)
    ensures |Candidates(o, rows, known)| == 1
            <==> exists k :: Picks(o, rows, known, k) && forall j :: 0 <= j < |rows| && Picks(o, rows, known, j) ==> j == k
    ensures |Candidates(o, rows, known)| > 1 <==> exists j, k :: j != k && Picks(o, rows, known, j) && Picks(o, rows, known, k)
  {
    if exists k :: Picks(o, rows, known, k) {
      var k :| Picks(o, rows, known, k);
      PickedAmong(o, rows, known, k);
      if forall j :: 0 <= j < |rows| && Picks(o, rows, known, j) ==> j == k {
        OnePicked(o, rows, known, k);
      } else {
        var j :| 0 <= j < |rows| && Picks(o, rows, known, j) && j != k;
        assert |Candidates(o, rows, known)| >= 2;
      }
    } else {
      NonePicked(o, rows, known);
    }
  }

  // ---------------------------------------------------------------- the loop

  /** The claims after n turns: numbers held before the loop, and those given to earlier orders. */
  ghost predicate ClaimsAre(orders: Orders, after: Orders, claims: set<string>, n: nat) {
    && after.Keys == orders.Keys
    && (forall no :: no in claims <==> HeldIn(orders, no) || TakenBefore(orders, after, n + 1, no))
    && (forall id :: id in orders && id > n ==> after[id] == orders[id])
  }

  lemma FreeIsUnclaimed(orders: Orders, after: Orders, claims: set<string>, n: nat, rows: seq<Row>, k: int)
    requires n > 0 && ClaimsAre(orders, after, claims, n - 1) && n in orders
    ensures Picks(orders[n], rows, claims, k) <==> Open(orders, after, rows, n, k)
  {
  }

  /** One turn of the loop by fields. */
  lemma TurnByFields(costs: CostModel, orders: Orders, before: Session, claims: set<string>, rows: seq<Row>, n: nat)
    requires n > 0 && NamedRows(rows) && ClaimsAre(orders, before.orders, claims, n - 1) && n in orders
    ensures var after := AdoptOne(costs, before, claims, rows, n).0.orders;
            && after.Keys == orders.Keys && (forall id :: id in orders && id != n ==> after[id] == before.orders[id])
            && (after[n] != orders[n] <==> orders[n].status.Unknown? && exists k :: OnlyOpen(orders, before.orders, rows, n, k))
            && (forall k :: orders[n].status.Unknown? && OnlyOpen(orders, before.orders, rows, n, k) ==>
                  after[n] == orders[n].(ref := BrokerRef(Some(rows[k].no), Some(rows[k].org), Some(rows[k].orderTime))))
  {
    CandidateByFields(orders, before.orders, claims, rows, n);
    var o := orders[n];
    assert before.orders[n] == o;
    if o.status.Unknown? && |Candidates(o, rows, claims)| == 1 {
      var k :| OnlyOpen(orders, before.orders, rows, n, k);
      OtherRef(orders, before.orders, claims, n, rows[k]);
      forall j | OnlyOpen(orders, before.orders, rows, n, j)
        ensures j == k
      {
      }
    }
  }

  /** The order's candidates by fields. */
  lemma CandidateByFields(orders: Orders, before: Orders, claims: set<string>, rows: seq<Row>, n: nat)
    requires n > 0 && ClaimsAre(orders, before, claims, n - 1) && n in orders
    ensures |Candidates(orders[n], rows, claims)| == 1 <==> exists k :: OnlyOpen(orders, before, rows, n, k)
    ensures forall k :: OnlyOpen(orders, before, rows, n, k) ==>
              Candidates(orders[n], rows, claims) == [rows[k]] && rows[k].no !in claims
  {
    var o := orders[n];
    forall k
      ensures Picks(o, rows, claims, k) <==> Open(orders, before, rows, n, k)
    {
      FreeIsUnclaimed(orders, before, claims, n, rows, k);
    }
    OneCandidate(o, rows, claims);
    if |Candidates(o, rows, claims)| == 1 {
      var k :| Picks(o, rows, claims, k) && forall j :: 0 <= j < |rows| && Picks(o, rows, claims, j) ==> j == k;
      assert OnlyOpen(orders, before, rows, n, k);
    }
    forall k | OnlyOpen(orders, before, rows, n, k)
      ensures Candidates(o, rows, claims) == [rows[k]] && rows[k].no !in claims
    {
      assert Picks(o, rows, claims, k);
      OnePicked(o, rows, claims, k);
    }
  }

  lemma ClaimsGoOn(costs: CostModel, orders: Orders, before: Session, claims: set<string>, rows: seq<Row>, n: nat)
    requires n > 0 && NamedRows(rows) && ClaimsAre(orders, before.orders, claims, n - 1)
    ensures var (after, more) := AdoptOne(costs, before, claims, rows, n); ClaimsAre(orders, after.orders, more, n)
  {
    var (after, more) := AdoptOne(costs, before, claims, rows, n);
    if n in orders && orders[n].status.Unknown? && |Candidates(orders[n], rows, claims)| == 1 {
      var row := Candidates(orders[n], rows, claims)[0];
      CandidateFacts(orders[n], rows, claims, 0);
      assert before.orders[n] == orders[n];
      OtherRef(orders, before.orders, claims, n, row);
      ClaimedNow(orders, before.orders, after.orders, claims, n, row);
    } else {
      SameClaims(orders, before.orders, claims, n);
    }
  }

  /** A free row is not the one the order already has. */
  lemma OtherRef(orders: Orders, before: Orders, claims: set<string>, n: nat, row: Row)
    requires n > 0 && ClaimsAre(orders, before, claims, n - 1) && n in orders && row.no !in claims && row.no != ""
    ensures orders[n].ref != RefOf(row)
  {
    assert !HeldIn(orders, row.no);
  }

  lemma ClaimedNow(orders: Orders, before: Orders, after: Orders, claims: set<string>, n: nat, row: Row)
    requires n > 0 && ClaimsAre(orders, before, claims, n - 1) && n in orders
    requires after == before[n := before[n].(ref := RefOf(row))] && orders[n].ref != RefOf(row)
    ensures ClaimsAre(orders, after, claims + {row.no}, n)
  {
    forall no
      ensures no in claims + {row.no} <==> HeldIn(orders, no) || TakenBefore(orders, after, n + 1, no)
    {
      assert no in claims <==> HeldIn(orders, no) || TakenBefore(orders, before, n - 1 + 1, no);
      if no == row.no {
        assert after[n].ref.no == Some(no);
      }
      if TakenBefore(orders, before, n, no) {
        var j :| j in orders && j in before && j < n && before[j].ref != orders[j].ref && before[j].ref.no == Some(no);
        assert after[j] == before[j];
      }
      if TakenBefore(orders, after, n + 1, no) && no != row.no {
        var j :| j in orders && j in after && j < n + 1 && after[j].ref != orders[j].ref && after[j].ref.no == Some(no);
        assert j < n && after[j] == before[j];
      }
    }
  }

  lemma SameClaims(orders: Orders, before: Orders, claims: set<string>, n: nat)
    requires n > 0 && ClaimsAre(orders, before, claims, n - 1)
    ensures ClaimsAre(orders, before, claims, n)
  {
    forall no
      ensures TakenBefore(orders, before, n + 1, no) <==> TakenBefore(orders, before, n, no)
    {
      if TakenBefore(orders, before, n + 1, no) {
        var j :| j in orders && j in before && j < n + 1 && before[j].ref != orders[j].ref && before[j].ref.no == Some(no);
        assert j < n;
      }
    }
  }

  lemma {:induction false} ClaimsTo(costs: CostModel, s: Session, rows: seq<Row>, n: nat)
    requires NamedRows(rows)
    ensures var (after, claims) := AdoptTo(costs, s, rows, n); ClaimsAre(s.orders, after.orders, claims, n)
  {
    if n == 0 {
      forall no
        ensures no in Known(s.orders) <==> HeldIn(s.orders, no) || TakenBefore(s.orders, s.orders, 1, no)
      {
        HeldIsKnown(s.orders, no);
      }
    } else {
      ClaimsTo(costs, s, rows, n - 1);
      var (before, claims) := AdoptTo(costs, s, rows, n - 1);
      ClaimsGoOn(costs, s.orders, before, claims, rows, n);
    }
  }

  lemma {:induction false} SameKeys(costs: CostModel, s: Session, rows: seq<Row>, n: nat)
    ensures AdoptTo(costs, s, rows, n).0.orders.Keys == s.orders.Keys
  {
    if n > 0 {
      SameKeys(costs, s, rows, n - 1);
    }
  }

  /** Later turns leave an order alone. */
  lemma {:induction false} LaterTurns(costs: CostModel, s: Session, rows: seq<Row>, m: nat, n: nat)
    requires m <= n
    ensures var (a, b) := (AdoptTo(costs, s, rows, m).0.orders, AdoptTo(costs, s, rows, n).0.orders);
            && a.Keys == b.Keys == s.orders.Keys
            && forall id :: id in s.orders && id <= m ==> a[id] == b[id]
  {
    SameKeys(costs, s, rows, m);
    if m < n {
      LaterTurns(costs, s, rows, m, n - 1);
    }
  }

  lemma SameOpen(orders: Orders, a: Orders, b: Orders, rows: seq<Row>, id: nat, k: int)
    requires id in orders && a.Keys == b.Keys == orders.Keys && forall j :: j in orders && j < id ==> a[j] == b[j]
    ensures OnlyOpen(orders, a, rows, id, k) <==> OnlyOpen(orders, b, rows, id, k)
  {
    forall no
      ensures TakenBefore(orders, a, id, no) <==> TakenBefore(orders, b, id, no)
    {
    }
    assert forall j :: Open(orders, a, rows, id, j) <==> Open(orders, b, rows, id, j);
  }

  /** The order was given another number if and only if it was in doubt and exactly one row of the list fits it under a
      number that no order held before and no earlier order was given; number, office and time are then that row's, and
      nothing else of the order changes. */
  ghost predicate Given(orders: Orders, after: Orders, rows: seq<Row>, id: nat)
    requires id in orders
  {
    && id in after
    && (after[id] != orders[id] <==> orders[id].status == Unknown && exists k :: OnlyOpen(orders, after, rows, id, k))
    && (forall k :: orders[id].status == Unknown && OnlyOpen(orders, after, rows, id, k) ==>
          after[id] == orders[id].(ref := BrokerRef(Some(rows[k].no), Some(rows[k].org), Some(rows[k].orderTime))))
  }

  /** WHICH ROW. The first loop gives each order what the fields of the list say. */
  lemma AdoptsByFields(costs: CostModel, s: Session, rows: seq<Row>, id: nat)
    requires NamedRows(rows) && id in s.orders && 1 <= id <= s.seqNo
    ensures Given(s.orders, AdoptTo(costs, s, rows, s.seqNo).0.orders, rows, id)
  {
    var (before, claims) := AdoptTo(costs, s, rows, id - 1);
    var after := AdoptTo(costs, s, rows, s.seqNo).0.orders;
    ClaimsTo(costs, s, rows, id - 1);
    TurnByFields(costs, s.orders, before, claims, rows, id);
    LaterTurns(costs, s, rows, id, s.seqNo);
    LaterTurns(costs, s, rows, id - 1, s.seqNo);
    forall k
      ensures OnlyOpen(s.orders, before.orders, rows, id, k) <==> OnlyOpen(s.orders, after, rows, id, k)
    {
      SameOpen(s.orders, before.orders, after, rows, id, k);
    }
  }

  lemma AllGiven(costs: CostModel, s: Session, rows: seq<Row>)
    requires NamedRows(rows)
    ensures forall id :: id in s.orders && 1 <= id <= s.seqNo ==> Given(s.orders, AdoptTo(costs, s, rows, s.seqNo).0.orders, rows, id)
  {
    forall id | id in s.orders && 1 <= id <= s.seqNo
      ensures Given(s.orders, AdoptTo(costs, s, rows, s.seqNo).0.orders, rows, id)
    {
      AdoptsByFields(costs, s, rows, id);
    }
  }
}

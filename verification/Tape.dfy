/** Certifying whole trading days from a tick tape that a vendor serves newest first, page by page. A day
    is certified once an older tick proves that its part of the tape has been read to the end. */
module Tape {
  import opened Contracts

  datatype TapeTick = TapeTick(day: int, hms: int, price: int, volume: int)

  /** The answer to one page request: a page, the caller's own budget running out, or a failure. */
  datatype Fetch = Page(ticks: seq<TapeTick>, nextKey: Option<string>) | Boundary | Broken

  datatype Termination = Crossed | TapeEnd | PageBudget | Oversize

  datatype TapeWalk = TapeWalk(
    complete: map<int, seq<TapeTick>>, vendorEmpty: set<int>, edgePartial: set<int>, pages: nat,
    termination: Termination, emitted: set<int>, oversizeDay: Option<int>)

  datatype TapeError = BadBudget | TransportFailure | NotNewestFirst | NoProgress

  /** What a walk is asked for. */
  datatype Request = Request(wanted: set<int>, maxPages: int, streaming: bool, cap: Option<nat>)

  // ---------------------------------------------------------------- ticks

  predicate NotAfter(a: TapeTick, b: TapeTick) { a.day < b.day || (a.day == b.day && a.hms <= b.hms) }

  predicate NewestFirst(ticks: seq<TapeTick>) {
    forall i, j :: 0 <= i < j < |ticks| ==> NotAfter(ticks[j], ticks[i])
  }

  /** The ticks of one day, in tape order. */
  function DayTicks(ticks: seq<TapeTick>, day: int): seq<TapeTick> {
    if ticks == [] then []
    else
      var last := ticks[|ticks| - 1];
      DayTicks(ticks[..|ticks| - 1], day) + if last.day == day then [last] else []
  }

  function Reversed(ticks: seq<TapeTick>): seq<TapeTick> {
    seq(|ticks|, i requires 0 <= i < |ticks| => ticks[|ticks| - 1 - i])
  }

  predicate HasOlder(ticks: seq<TapeTick>, day: int) { exists i :: 0 <= i < |ticks| && ticks[i].day < day }

  predicate HasNewer(ticks: seq<TapeTick>, day: int) { exists i :: 0 <= i < |ticks| && ticks[i].day > day }

  // ---------------------------------------------------------------- the walk as a function of the pages

  /** The answer to the n-th request, whose cursor is the key of the page before. */
  function FetchAt(fetch: (nat, Option<string>) -> Fetch, n: nat): Fetch {
    if n == 0 then fetch(0, None)
    else
      var before := FetchAt(fetch, n - 1);
      fetch(n, if before.Page? then before.nextKey else None)
  }

  /** Everything the first n pages hold. */
  function TicksTo(fetch: (nat, Option<string>) -> Fetch, n: nat): seq<TapeTick> {
    if n == 0 then []
    else
      var page := FetchAt(fetch, n - 1);
      TicksTo(fetch, n - 1) + if page.Page? then page.ticks else []
  }

  function KeysTo(fetch: (nat, Option<string>) -> Fetch, n: nat): set<string> {
    if n == 0 then {}
    else
      var page := FetchAt(fetch, n - 1);
      KeysTo(fetch, n - 1) + if page.Page? && page.nextKey.Some? then {page.nextKey.value} else {}
  }

  /** Days delivered as soon as they are certified. */
  function Emitted(read: seq<TapeTick>, req: Request): set<int> {
    set day | day in req.wanted && req.streaming && DayTicks(read, day) != [] && HasOlder(read, day)
  }

  /** Days whose ticks still held in memory outgrow the cap. */
  function Breached(read: seq<TapeTick>, req: Request): set<int> {
    set day | day in req.wanted && req.cap.Some? && day !in Emitted(read, req) && |DayTicks(read, day)| > req.cap.value
  }

  predicate CrossedFloor(read: seq<TapeTick>, wanted: set<int>) {
    read != [] && forall day :: day in wanted ==> read[|read| - 1].day < day
  }

  /** Days among the given ones with ticks and an older tick after them, with their ticks in chronological order. */
  function CompleteDays(read: seq<TapeTick>, days: set<int>): map<int, seq<TapeTick>> {
    map day | day in days && DayTicks(read, day) != [] && HasOlder(read, day) :: Reversed(DayTicks(read, day))
  }

  /** Days without ticks between an older and a newer tick. */
  function EmptyDays(read: seq<TapeTick>, days: set<int>): set<int> {
    set day | day in days && DayTicks(read, day) == [] && HasOlder(read, day) && HasNewer(read, day)
  }

  /** Days beyond the oldest tick read. */
  function DaysBelow(read: seq<TapeTick>, days: set<int>): set<int> {
    set day | day in days && DayTicks(read, day) == [] && !HasOlder(read, day)
  }

  /** What the walk can say of the ticks it has read. */
  function Report(read: seq<TapeTick>, pages: nat, req: Request, end: Termination, oversize: Option<int>): TapeWalk {
    var emitted := Emitted(read, req);
    var eligible := set day | day in req.wanted - emitted && (oversize.None? || day > oversize.value);
    TapeWalk(
      CompleteDays(read, eligible),
      EmptyDays(read, eligible) + (if end.TapeEnd? && read != [] then DaysBelow(read, req.wanted) else {}),
      if end.TapeEnd? && read != [] then {read[|read| - 1].day} else {},
      pages, end, emitted, oversize)
  }

  /** How a walk ends: with a report on the pages taken in, or by raising an error after them. */
  datatype Ending = Ended(pages: nat, termination: Termination, oversizeDay: Option<int>) | Raised(pages: nat, error: TapeError)

  /** How the walk ends after taking in a page, if it does: `more` is all it has read by then and `keys` are
      the cursors it followed before. */
  ghost function Verdict(more: seq<TapeTick>, page: Fetch, keys: set<string>, req: Request, pages: nat): Option<Ending>
    requires page.Page?
  {
    if Breached(more, req) != {} then Some(Ended(pages, Oversize, Some(Largest(Breached(more, req)))))
    else if CrossedFloor(more, req.wanted) then Some(Ended(pages, Crossed, None))
    else if page.nextKey.None? then Some(Ended(pages, TapeEnd, None))
    else if page.ticks == [] || page.nextKey.value in keys then Some(Raised(pages, NoProgress))
    else None
  }

  /** How the walk ends at its n-th request, if it does. */
  ghost function EndAt(fetch: (nat, Option<string>) -> Fetch, req: Request, n: nat): Option<Ending> {
    match FetchAt(fetch, n)
    case Boundary => Some(Ended(n, PageBudget, None))
    case Broken => Some(Raised(n, TransportFailure))
    case Page(ticks, nextKey) =>
      if !NewestFirst(TicksTo(fetch, n + 1)) then Some(Raised(n, NotNewestFirst))
      else Verdict(TicksTo(fetch, n + 1), Page(ticks, nextKey), KeysTo(fetch, n), req, n + 1)
  }

  /** The end of the walk from its n-th request on. */
  ghost function Walked(fetch: (nat, Option<string>) -> Fetch, req: Request, n: nat): Ending
    requires n <= req.maxPages
    decreases req.maxPages - n
  {
    if n == req.maxPages then Ended(n, PageBudget, None)
    else
      match EndAt(fetch, req, n)
      case Some(end) => end
      case None => Walked(fetch, req, n + 1)
  }

  ghost function WalkResult(fetch: (nat, Option<string>) -> Fetch, req: Request, end: Ending): Result<TapeWalk, TapeError> {
    match end
    case Raised(_, error) => Failure(error)
    case Ended(pages, termination, oversizeDay) =>
      Success(Report(TicksTo(fetch, pages), pages, req, termination, oversizeDay))
  }

  ghost function Largest(days: set<int>): (m: int)
    requires days != {}
    ensures m in days && forall d :: d in days ==> d <= m
  {
    HasLargest(days);
    var d :| d in days && forall x :: x in days ==> x <= d;
    d
  }

  lemma EmptyOrNot(days: set<int>)
    ensures days == {} || exists d :: d in days
  {
    if forall d :: d !in days {
      assert days == {};
    }
  }

  lemma {:induction false} HasLargest(days: set<int>)
    requires days != {}
    ensures exists d :: d in days && forall x :: x in days ==> x <= d
    decreases |days|
  {
    EmptyOrNot(days);
    var d :| d in days;
    var rest := days - {d};
    var big := d;
    if rest != {} {
      HasLargest(rest);
      var m :| m in rest && forall x :: x in rest ==> x <= m;
      big := if d > m then d else m;
    }
    assert forall x :: x in days ==> x == d || x in rest;
    assert big in days && forall x :: x in days ==> x <= big;
  }

  // ---------------------------------------------------------------- facts about ticks

  lemma {:induction false} DayTicksConcat(a: seq<TapeTick>, b: seq<TapeTick>, day: int)
    ensures DayTicks(a + b, day) == DayTicks(a, day) + DayTicks(b, day)
  {
    if b == [] {
      assert a + b == a;
    } else {
      DayTicksConcat(a, b[..|b| - 1], day);
      assert (a + b)[..|a + b| - 1] == a + b[..|b| - 1];
    }
  }

  lemma {:induction false} DayOccurs(ticks: seq<TapeTick>, day: int)
    ensures DayTicks(ticks, day) != [] <==> exists i :: 0 <= i < |ticks| && ticks[i].day == day
  {
    if ticks != [] {
      var init := ticks[..|ticks| - 1];
      DayOccurs(init, day);
      if DayTicks(init, day) != [] {
        var i :| 0 <= i < |init| && init[i].day == day;
        assert ticks[i].day == day;
      }
    }
  }

  lemma Extends(ticks: seq<TapeTick>, t: TapeTick)
    requires NewestFirst(ticks)
    ensures NewestFirst(ticks + [t]) <==> (ticks != [] ==> NotAfter(t, ticks[|ticks| - 1]))
  {
    var more := ticks + [t];
    if ticks != [] {
      assert more[|ticks|] == t && more[|ticks| - 1] == ticks[|ticks| - 1];
      forall i | 0 <= i < |ticks|
        ensures NotAfter(ticks[|ticks| - 1], ticks[i])
      {
      }
    }
  }

  lemma Prefixes(a: seq<TapeTick>, b: seq<TapeTick>)
    requires a <= b && NewestFirst(b)
    ensures NewestFirst(a)
  {
  }

  // ---------------------------------------------------------------- the walk as a program

  datatype Delivery = Delivery(day: int, ticks: seq<TapeTick>)

  /** The three marks the walk keeps of what it has read. */
  predicate Ends(read: seq<TapeTick>, newest: Option<int>, oldest: Option<int>, previous: Option<TapeTick>) {
    if read == [] then newest.None? && oldest.None? && previous.None?
    else newest == Some(read[0].day) && oldest == Some(read[|read| - 1].day) && previous == Some(read[|read| - 1])
  }

  /** What is held once more ticks have been put with their days. */
  function HeldPlus(held: map<int, seq<TapeTick>>, ticks: seq<TapeTick>): map<int, seq<TapeTick>> {
    map d | d in held :: held[d] + DayTicks(ticks, d)
  }

  lemma NothingHeldPlus(held: map<int, seq<TapeTick>>)
    ensures HeldPlus(held, []) == held
  {
    forall d | d in held
      ensures HeldPlus(held, [])[d] == held[d]
    {
      assert held[d] + [] == held[d];
    }
  }

  lemma OneMoreTick(ticks: seq<TapeTick>, k: nat, day: int)
    requires k < |ticks|
    ensures DayTicks(ticks[..k + 1], day) == DayTicks(ticks[..k], day) + if ticks[k].day == day then [ticks[k]] else []
  {
    assert ticks[..k + 1][..k] == ticks[..k];
  }

  lemma HeldPlusOne(held: map<int, seq<TapeTick>>, ticks: seq<TapeTick>, k: nat)
    requires k < |ticks|
    ensures var before, t := HeldPlus(held, ticks[..k]), ticks[k];
            HeldPlus(held, ticks[..k + 1]) == if t.day in held then before[t.day := before[t.day] + [t]] else before
  {
    var before, t := HeldPlus(held, ticks[..k]), ticks[k];
    var after := if t.day in held then before[t.day := before[t.day] + [t]] else before;
    forall d | d in held
      ensures HeldPlus(held, ticks[..k + 1])[d] == after[d]
    {
      OneMoreTick(ticks, k, d);
      assert held[d] + (DayTicks(ticks[..k], d) + [t]) == held[d] + DayTicks(ticks[..k], d) + [t];
      assert DayTicks(ticks[..k], d) + [] == DayTicks(ticks[..k], d);
    }
  }

  /** Takes in the ticks of one page, or finds one that is newer than its predecessor. */
  method ReadTicks(
    ghost read: seq<TapeTick>, ticks: seq<TapeTick>, held: map<int, seq<TapeTick>>,
    newest: Option<int>, oldest: Option<int>, previous: Option<TapeTick>)
    returns (ok: bool, held': map<int, seq<TapeTick>>, newest': Option<int>, oldest': Option<int>, previous': Option<TapeTick>)
    requires NewestFirst(read) && Ends(read, newest, oldest, previous)
    ensures ok <==> NewestFirst(read + ticks)
    ensures ok ==> Ends(read + ticks, newest', oldest', previous')
    ensures ok ==> held' == HeldPlus(held, ticks)
  {
    NothingHeldPlus(held);
    held', newest', oldest', previous' := held, newest, oldest, previous;
    assert read + ticks[..0] == read;
    for k := 0 to |ticks|
      invariant NewestFirst(read + ticks[..k])
      invariant Ends(read + ticks[..k], newest', oldest', previous')
      invariant held' == HeldPlus(held, ticks[..k])
    {
      var tick := ticks[k];
      ghost var before := read + ticks[..k];
      Extends(before, tick);
      assert read + ticks[..k + 1] == before + [tick];
      HeldPlusOne(held, ticks, k);
      if previous'.Some? && !NotAfter(tick, previous'.value) {
        assert before + [tick] <= read + ticks;
        if NewestFirst(read + ticks) {
          Prefixes(before + [tick], read + ticks);
        }
        return false, held', newest', oldest', previous';
      }
      previous' := Some(tick);
      newest' := if newest'.None? then Some(tick.day) else Some(if newest'.value >= tick.day then newest'.value else tick.day);
      oldest' := if oldest'.None? then Some(tick.day) else Some(if oldest'.value <= tick.day then oldest'.value else tick.day);
      if tick.day in held' {
        held' := held'[tick.day := held'[tick.day] + [tick]];
      }
    }
    assert ticks[..|ticks|] == ticks;
    ok := true;
  }

  method Smallest(days: set<int>) returns (m: int)
    requires days != {}
    ensures m in days && forall d :: d in days ==> m <= d
  {
    EmptyOrNot(days);
    m :| m in days;
    var rest := days - {m};
    while rest != {}
      invariant m in days && rest <= days
      invariant forall d :: d in days ==> d in rest || m <= d
      decreases |rest|
    {
      EmptyOrNot(rest);
      var d :| d in rest;
      rest := rest - {d};
      m := if d < m then d else m;
    }
  }

  /** Days held in memory that an older tick has certified. */
  function Finished(held: map<int, seq<TapeTick>>, oldest: int): set<int> {
    set d | d in held && held[d] != [] && d > oldest
  }

  predicate Ascending(batch: seq<Delivery>) { forall i, j :: 0 <= i < j < |batch| ==> batch[i].day < batch[j].day }

  /** Deliveries in ascending day order, each day's ticks in chronological order. */
  predicate Batch(batch: seq<Delivery>, held: map<int, seq<TapeTick>>) {
    && (forall i :: 0 <= i < |batch| ==> batch[i].day in held && batch[i].ticks == Reversed(held[batch[i].day]))
    && Ascending(batch)
  }

  function Days(batch: seq<Delivery>): set<int> {
    set i | 0 <= i < |batch| :: batch[i].day
  }

  lemma DaysExtend(batch: seq<Delivery>, more: seq<Delivery>)
    ensures Days(batch + more) == Days(batch) + Days(more)
  {
    var all := batch + more;
    forall d | d in Days(batch)
      ensures d in Days(all)
    {
      var i :| 0 <= i < |batch| && batch[i].day == d;
      assert all[i].day == d;
    }
    forall d | d in Days(more)
      ensures d in Days(all)
    {
      var i :| 0 <= i < |more| && more[i].day == d;
      assert all[|batch| + i].day == d;
    }
  }

  method SortedDays(days: set<int>) returns (list: seq<int>)
    ensures forall i, j :: 0 <= i < j < |list| ==> list[i] < list[j]
    ensures forall i :: 0 <= i < |list| ==> list[i] in days
    ensures forall d :: d in days ==> d in list
  {
    list := [];
    var todo := days;
    while todo != {}
      invariant todo <= days
      invariant forall i, j :: 0 <= i < j < |list| ==> list[i] < list[j]
      invariant forall i, d :: 0 <= i < |list| && d in todo ==> list[i] < d
      invariant forall i :: 0 <= i < |list| ==> list[i] in days
      invariant forall d :: d in days ==> d in list || d in todo
      decreases |todo|
    {
      var day := Smallest(todo);
      list := list + [day];
      todo := todo - {day};
    }
  }

  /** Hands over the finished days and drops their ticks. */
  method EmitDays(held: map<int, seq<TapeTick>>, oldest: int)
    returns (batch: seq<Delivery>, held': map<int, seq<TapeTick>>)
    ensures Batch(batch, held) && Days(batch) == Finished(held, oldest)
    ensures held'.Keys == held.Keys
    ensures forall d :: d in held ==> held'[d] == if d in Finished(held, oldest) then [] else held[d]
  {
    var days := SortedDays(Finished(held, oldest));
    batch, held' := [], held;
    for k := 0 to |days|
      invariant |batch| == k
      invariant forall i :: 0 <= i < k ==> batch[i] == Delivery(days[i], Reversed(held[days[i]]))
      invariant held'.Keys == held.Keys
      invariant forall d :: d in held ==> held'[d] == if d in days[..k] then [] else held[d]
    {
      assert days[k] !in days[..k];
      batch := batch + [Delivery(days[k], Reversed(held'[days[k]]))];
      held' := held'[days[k] := []];
      assert days[..k + 1] == days[..k] + [days[k]];
    }
    assert days[..|days|] == days;
    assert Days(batch) == Finished(held, oldest) by {
      forall d | d in Finished(held, oldest)
        ensures d in Days(batch)
      {
        var i :| 0 <= i < |days| && days[i] == d;
        assert batch[i].day == d;
      }
    }
  }

  // ---------------------------------------------------------------- what the walk holds

  /** The ticks in memory: those of every wanted day that has not been handed over. */
  function HeldOf(read: seq<TapeTick>, req: Request): map<int, seq<TapeTick>> {
    map d | d in req.wanted :: if d in Emitted(read, req) then [] else DayTicks(read, d)
  }

  lemma HeldIs(read: seq<TapeTick>, req: Request, held: map<int, seq<TapeTick>>)
    requires held.Keys == req.wanted
    requires forall d :: d in req.wanted ==> held[d] == if d in Emitted(read, req) then [] else DayTicks(read, d)
    ensures held == HeldOf(read, req)
  {
  }

  lemma HeldBreach(read: seq<TapeTick>, req: Request)
    requires req.cap.Some?
    ensures Breached(read, req) == set d | d in req.wanted && |HeldOf(read, req)[d]| > req.cap.value
  {
  }

  ghost predicate Holds(read: seq<TapeTick>, req: Request, held: map<int, seq<TapeTick>>) {
    NewestFirst(read) && held == HeldOf(read, req)
  }

  /** Every emitted day has been handed over once and whole, its ticks in chronological order. */
  ghost predicate HandedOver(delivered: seq<Delivery>, read: seq<TapeTick>, req: Request) {
    && Days(delivered) == Emitted(read, req)
    && (forall i :: 0 <= i < |delivered| ==> delivered[i].ticks == Reversed(DayTicks(read, delivered[i].day)))
    && (forall i, j :: 0 <= i < j < |delivered| ==> delivered[i].day != delivered[j].day)
  }

  /** One more page was worked off: the days it certified were handed over in ascending order. */
  predicate NextBatch(before: seq<Delivery>, after: seq<Delivery>, read: seq<TapeTick>, more: seq<TapeTick>, req: Request) {
    && before <= after && Ascending(after[|before|..])
    && Days(after[|before|..]) == Emitted(more, req) - Emitted(read, req)
  }

  lemma LastIsOldest(read: seq<TapeTick>, day: int)
    requires NewestFirst(read)
    ensures HasOlder(read, day) <==> read != [] && read[|read| - 1].day < day
    ensures HasNewer(read, day) <==> read != [] && read[0].day > day
  {
    forall i | 0 <= i < |read|
      ensures read[|read| - 1].day <= read[i].day <= read[0].day
    {
    }
  }

  /** Once an older tick has been read, the rest of a newest-first tape has none of the day's ticks. */
  lemma DayIsOver(read: seq<TapeTick>, more: seq<TapeTick>, day: int)
    requires NewestFirst(read + more) && HasOlder(read, day)
    ensures DayTicks(more, day) == [] && DayTicks(read + more, day) == DayTicks(read, day)
  {
    var k :| 0 <= k < |read| && read[k].day < day;
    var all := read + more;
    forall i | 0 <= i < |more|
      ensures more[i].day != day
    {
      assert all[k] == read[k] && all[|read| + i] == more[i];
    }
    DayOccurs(more, day);
    DayTicksConcat(read, more, day);
  }

  lemma HasOlderMore(read: seq<TapeTick>, more: seq<TapeTick>, day: int)
    requires HasOlder(read, day)
    ensures HasOlder(read + more, day)
  {
    var k :| 0 <= k < |read| && read[k].day < day;
    assert (read + more)[k] == read[k];
  }

  lemma EmittedGrows(read: seq<TapeTick>, ticks: seq<TapeTick>, req: Request)
    requires NewestFirst(read + ticks)
    ensures Emitted(read, req) <= Emitted(read + ticks, req)
    ensures forall d :: d in Emitted(read, req) ==> DayTicks(ticks, d) == [] && DayTicks(read + ticks, d) == DayTicks(read, d)
  {
    forall d | d in Emitted(read, req)
      ensures d in Emitted(read + ticks, req) && DayTicks(ticks, d) == [] && DayTicks(read + ticks, d) == DayTicks(read, d)
    {
      DayIsOver(read, ticks, d);
      HasOlderMore(read, ticks, d);
    }
  }

  /** After a page the held days are those not handed over before it. */
  lemma HeldAfterPage(read: seq<TapeTick>, ticks: seq<TapeTick>, req: Request, held: map<int, seq<TapeTick>>, held': map<int, seq<TapeTick>>)
    requires Holds(read, req, held) && NewestFirst(read + ticks)
    requires held' == HeldPlus(held, ticks)
    ensures forall d :: d in req.wanted ==>
              held'[d] == if d in Emitted(read, req) then [] else DayTicks(read + ticks, d)
  {
    EmittedGrows(read, ticks, req);
    forall d | d in req.wanted
      ensures held'[d] == if d in Emitted(read, req) then [] else DayTicks(read + ticks, d)
    {
      DayTicksConcat(read, ticks, d);
    }
  }

  lemma FinishedAreNew(read: seq<TapeTick>, more: seq<TapeTick>, req: Request, held: map<int, seq<TapeTick>>)
    requires NewestFirst(more) && more != [] && req.streaming && Emitted(read, req) <= Emitted(more, req)
    requires held.Keys == req.wanted
    requires forall d :: d in req.wanted ==> held[d] == if d in Emitted(read, req) then [] else DayTicks(more, d)
    ensures Finished(held, more[|more| - 1].day) == Emitted(more, req) - Emitted(read, req)
  {
    forall d | d in req.wanted
      ensures HasOlder(more, d) <==> more[|more| - 1].day < d
    {
      LastIsOldest(more, d);
    }
  }

  lemma HandOverMore(delivered: seq<Delivery>, batch: seq<Delivery>, read: seq<TapeTick>, ticks: seq<TapeTick>, req: Request, held: map<int, seq<TapeTick>>)
    requires HandedOver(delivered, read, req) && NewestFirst(read + ticks)
    requires Batch(batch, held) && Days(batch) == Emitted(read + ticks, req) - Emitted(read, req)
    requires forall d :: d in Days(batch) ==> d in held && held[d] == DayTicks(read + ticks, d)
    ensures HandedOver(delivered + batch, read + ticks, req)
  {
    EmittedGrows(read, ticks, req);
    DaysExtend(delivered, batch);
    var all := delivered + batch;
    forall i | 0 <= i < |all|
      ensures all[i].ticks == Reversed(DayTicks(read + ticks, all[i].day))
    {
      if i < |delivered| {
        assert delivered[i].day in Days(delivered);
      } else {
        assert batch[i - |delivered|].day in Days(batch);
      }
    }
    forall i, j | 0 <= i < j < |all|
      ensures all[i].day != all[j].day
    {
      if i < |delivered| <= j {
        assert delivered[i].day in Days(delivered) && batch[j - |delivered|].day in Days(batch);
      }
    }
  }

  // ---------------------------------------------------------------- the order of deliveries

  /** Which of the first n pages certified a day: the first after which it counts as certified. */
  function PageOf(fetch: (nat, Option<string>) -> Fetch, req: Request, n: nat, day: int): (page: nat)
    ensures page <= n
    ensures day in Emitted(TicksTo(fetch, n), req) ==> day in Emitted(TicksTo(fetch, page), req)
    ensures 0 < page ==> day !in Emitted(TicksTo(fetch, page - 1), req)
  {
    if n == 0 then 0
    else if day in Emitted(TicksTo(fetch, n - 1), req) then PageOf(fetch, req, n - 1, day)
    else n
  }

  /** A day and one handed over after it: either one page certified both and the first is older, or an earlier page
      certified the first and it is newer. */
  predicate Placed(fetch: (nat, Option<string>) -> Fetch, req: Request, n: nat, a: int, b: int) {
    var p, q := PageOf(fetch, req, n, a), PageOf(fetch, req, n, b);
    if p == q then a < b else p < q && a > b
  }

  ghost predicate InOrder(fetch: (nat, Option<string>) -> Fetch, req: Request, delivered: seq<Delivery>, n: nat) {
    forall i, j :: 0 <= i < j < |delivered| ==> Placed(fetch, req, n, delivered[i].day, delivered[j].day)
  }

  /** A day certified by a later page is older than every day certified before. */
  lemma LaterIsOlder(read: seq<TapeTick>, more: seq<TapeTick>, req: Request, day: int, later: int)
    requires NewestFirst(more) && read <= more
    requires day in Emitted(read, req) && later in Emitted(more, req) && later !in Emitted(read, req)
    ensures later < day
  {
    LastIsOldest(read, day);
    LastIsOldest(read, later);
    DayOccurs(read, later);
    DayOccurs(more, later);
    var i :| 0 <= i < |more| && more[i].day == later;
    if i < |read| {
      assert read[i].day == later;
    } else {
      assert NotAfter(more[i], more[|read| - 1]);
    }
  }

  /** Of two days certified by different pages the later one is older. */
  lemma AcrossPages(fetch: (nat, Option<string>) -> Fetch, req: Request, n: nat, day: int, later: int)
    requires NewestFirst(TicksTo(fetch, n + 1)) && day in Emitted(TicksTo(fetch, n), req)
    requires later in Emitted(TicksTo(fetch, n + 1), req) && later !in Emitted(TicksTo(fetch, n), req)
    ensures Placed(fetch, req, n + 1, day, later)
  {
    LaterIsOlder(TicksTo(fetch, n), TicksTo(fetch, n + 1), req, day, later);
  }

  lemma StaysPlaced(fetch: (nat, Option<string>) -> Fetch, req: Request, n: nat, a: int, b: int)
    requires a in Emitted(TicksTo(fetch, n), req) && b in Emitted(TicksTo(fetch, n), req) && Placed(fetch, req, n, a, b)
    ensures Placed(fetch, req, n + 1, a, b)
  {
  }

  lemma WithinPage(fetch: (nat, Option<string>) -> Fetch, req: Request, n: nat, a: int, b: int)
    requires a !in Emitted(TicksTo(fetch, n), req) && b !in Emitted(TicksTo(fetch, n), req) && a < b
    ensures Placed(fetch, req, n + 1, a, b)
  {
  }

  lemma DayOf(batch: seq<Delivery>, i: nat)
    requires i < |batch|
    ensures batch[i].day in Days(batch)
  {
  }

  /** One more page keeps the order. */
  lemma PageDone(fetch: (nat, Option<string>) -> Fetch, req: Request, before: seq<Delivery>, after: seq<Delivery>, n: nat)
    requires Days(before) == Emitted(TicksTo(fetch, n), req) && NewestFirst(TicksTo(fetch, n + 1))
    requires InOrder(fetch, req, before, n) && NextBatch(before, after, TicksTo(fetch, n), TicksTo(fetch, n + 1), req)
    ensures InOrder(fetch, req, after, n + 1)
  {
    var batch := after[|before|..];
    forall i, j | 0 <= i < j < |after|
      ensures Placed(fetch, req, n + 1, after[i].day, after[j].day)
    {
      if j < |before| {
        DayOf(before, i);
        DayOf(before, j);
        StaysPlaced(fetch, req, n, before[i].day, before[j].day);
      } else {
        DayOf(batch, j - |before|);
        if i < |before| {
          DayOf(before, i);
          AcrossPages(fetch, req, n, before[i].day, batch[j - |before|].day);
        } else {
          DayOf(batch, i - |before|);
          WithinPage(fetch, req, n, batch[i - |before|].day, batch[j - |before|].day);
        }
      }
    }
  }

  // ---------------------------------------------------------------- the program

  /** Hands over what the page just read has certified. */
  method HandOver(
    ghost read: seq<TapeTick>, ghost ticks: seq<TapeTick>, req: Request, oldest: Option<int>,
    held: map<int, seq<TapeTick>>, emitted: set<int>, delivered: seq<Delivery>)
    returns (held': map<int, seq<TapeTick>>, emitted': set<int>, delivered': seq<Delivery>)
    requires NewestFirst(read + ticks) && HandedOver(delivered, read, req) && emitted == Emitted(read, req)
    requires oldest == if read + ticks == [] then None else Some((read + ticks)[|read + ticks| - 1].day)
    requires held.Keys == req.wanted
    requires forall d :: d in req.wanted ==>
               held[d] == if d in Emitted(read, req) then [] else DayTicks(read + ticks, d)
    ensures Holds(read + ticks, req, held') && HandedOver(delivered', read + ticks, req)
    ensures emitted' == Emitted(read + ticks, req) && NextBatch(delivered, delivered', read, read + ticks, req)
  {
    ghost var more := read + ticks;
    assert Emitted(read, req) <= Emitted(more, req) by { EmittedGrows(read, ticks, req); }
    var batch := [];
    held', emitted' := held, emitted;
    if req.streaming && oldest.Some? {
      FinishedAreNew(read, more, req, held);
      batch, held' := EmitDays(held, oldest.value);
      emitted' := emitted + Finished(held, oldest.value);
    }
    assert Days(batch) == Emitted(more, req) - Emitted(read, req);
    HandOverMore(delivered, batch, read, ticks, req, held);
    HeldIs(more, req, held');
    delivered' := delivered + batch;
    assert delivered'[|delivered|..] == batch;
  }

  method LargestOf(days: set<int>) returns (m: int)
    requires days != {}
    ensures m == Largest(days)
  {
    var list := SortedDays(days);
    ghost var top := Largest(days);
    assert top in list;
    m := list[|list| - 1];
  }

  /** The largest day whose held ticks outgrow the cap, if any. */
  method LargestBreach(ghost read: seq<TapeTick>, req: Request, held: map<int, seq<TapeTick>>) returns (day: Option<int>)
    requires Holds(read, req, held)
    ensures day.None? <==> Breached(read, req) == {}
    ensures day.Some? ==> Breached(read, req) != {} && day.value == Largest(Breached(read, req))
  {
    if req.cap.None? {
      assert Breached(read, req) == {};
      return None;
    }
    HeldBreach(read, req);
    var breached := set d | d in req.wanted && |held[d]| > req.cap.value;
    if breached == {} {
      return None;
    }
    var largest := LargestOf(breached);
    day := Some(largest);
  }

  method Crosses(wanted: set<int>, oldest: Option<int>, ghost read: seq<TapeTick>) returns (crossed: bool)
    requires wanted != {} && NewestFirst(read)
    requires oldest == if read == [] then None else Some(read[|read| - 1].day)
    ensures crossed <==> CrossedFloor(read, wanted)
  {
    var floor := Smallest(wanted);
    crossed := oldest.Some? && oldest.value < floor;
  }

  /** The days certified complete, and those certified empty between an older and a newer tick. */
  method Certify(
    ghost read: seq<TapeTick>, req: Request, held: map<int, seq<TapeTick>>, eligible: set<int>,
    newest: Option<int>, oldest: Option<int>)
    returns (complete: map<int, seq<TapeTick>>, empty: set<int>)
    requires Holds(read, req, held) && eligible <= req.wanted - Emitted(read, req)
    requires read == [] ==> newest.None? && oldest.None?
    requires read != [] ==> newest == Some(read[0].day) && oldest == Some(read[|read| - 1].day)
    ensures complete == CompleteDays(read, eligible) && empty == EmptyDays(read, eligible)
  {
    complete, empty := map[], {};
    var todo := eligible;
    while todo != {}
      invariant todo <= eligible
      invariant complete == CompleteDays(read, eligible - todo) && empty == EmptyDays(read, eligible - todo)
      decreases |todo|
    {
      EmptyOrNot(todo);
      var day :| day in todo;
      DayDecided(read, req, held, eligible - todo, newest, oldest, day);
      var rows := held[day];
      var older := oldest.Some? && oldest.value < day;
      var newer := newest.Some? && newest.value > day;
      if rows != [] && older {
        complete := complete[day := Reversed(rows)];
      } else if rows == [] && newer && older {
        empty := empty + {day};
      }
      assert eligible - (todo - {day}) == eligible - todo + {day};
      todo := todo - {day};
    }
    assert eligible - todo == eligible;
  }

  /** What the walk's marks say about one day. */
  lemma DayDecided(
    read: seq<TapeTick>, req: Request, held: map<int, seq<TapeTick>>, days: set<int>, newest: Option<int>, oldest: Option<int>, day: int)
    requires Holds(read, req, held) && day in req.wanted && day !in Emitted(read, req) && day !in days
    requires read == [] ==> newest.None? && oldest.None?
    requires read != [] ==> newest == Some(read[0].day) && oldest == Some(read[|read| - 1].day)
    ensures var older, newer := oldest.Some? && oldest.value < day, newest.Some? && newest.value > day;
            && CompleteDays(read, days + {day})
               == (if held[day] != [] && older then CompleteDays(read, days)[day := Reversed(held[day])]
                   else CompleteDays(read, days))
            && EmptyDays(read, days + {day})
               == EmptyDays(read, days) + if held[day] == [] && newer && older then {day} else {}
  {
    OneMoreDay(read, days, day);
    LastIsOldest(read, day);
  }

  lemma OneMoreDay(read: seq<TapeTick>, days: set<int>, day: int)
    requires day !in days
    ensures CompleteDays(read, days + {day})
            == if DayTicks(read, day) != [] && HasOlder(read, day) then CompleteDays(read, days)[day := Reversed(DayTicks(read, day))]
               else CompleteDays(read, days)
    ensures EmptyDays(read, days + {day})
            == EmptyDays(read, days)
               + if DayTicks(read, day) == [] && HasOlder(read, day) && HasNewer(read, day) then {day} else {}
  {
  }

  lemma OnEdge(read: seq<TapeTick>, edge: int, day: int)
    requires NewestFirst(read) && read != [] && edge == read[|read| - 1].day
    ensures !HasOlder(read, edge)
    ensures day < edge <==> DayTicks(read, day) == [] && !HasOlder(read, day)
  {
    LastIsOldest(read, edge);
    LastIsOldest(read, day);
    DayOccurs(read, day);
    DayOccurs(read, edge);
    assert read[|read| - 1].day == edge;
  }

  /** The edge day itself is certified neither way. */
  lemma EdgeIsOpen(read: seq<TapeTick>, days: set<int>, edge: int)
    requires NewestFirst(read) && read != [] && edge == read[|read| - 1].day
    ensures CompleteDays(read, days) - {edge} == CompleteDays(read, days)
    ensures EmptyDays(read, days) - {edge} == EmptyDays(read, days)
  {
    OnEdge(read, edge, edge);
    assert edge !in CompleteDays(read, days) && edge !in EmptyDays(read, days);
  }

  lemma BelowEdge(read: seq<TapeTick>, req: Request, held: map<int, seq<TapeTick>>, edge: int)
    requires Holds(read, req, held) && read != [] && edge == read[|read| - 1].day
    ensures DaysBelow(read, req.wanted) == set day | day in req.wanted - Emitted(read, req) && held[day] == [] && day < edge
  {
    forall day | day in req.wanted
      ensures day < edge <==> DayTicks(read, day) == [] && !HasOlder(read, day)
    {
      OnEdge(read, edge, day);
    }
  }

  /** The walk's report: the end of the tape certifies nothing about its edge day. */
  method Conclude(
    ghost read: seq<TapeTick>, req: Request, held: map<int, seq<TapeTick>>, emitted: set<int>,
    newest: Option<int>, oldest: Option<int>, pages: nat, end: Termination, oversize: Option<int>)
    returns (walk: TapeWalk)
    requires Holds(read, req, held) && emitted == Emitted(read, req)
    requires read == [] ==> newest.None? && oldest.None?
    requires read != [] ==> newest == Some(read[0].day) && oldest == Some(read[|read| - 1].day)
    ensures walk == Report(read, pages, req, end, oversize)
  {
    var eligible := set day | day in req.wanted - emitted && (oversize.None? || day > oversize.value);
    var complete, empty := Certify(read, req, held, eligible, newest, oldest);
    var edgePartial := {};
    if end.TapeEnd? && oldest.Some? {
      var edge := oldest.value;
      EdgeIsOpen(read, eligible, edge);
      BelowEdge(read, req, held, edge);
      edgePartial := {edge};
      complete := complete - {edge};
      empty := empty - {edge};
      empty := empty + set day | day in req.wanted - emitted && held[day] == [] && day < edge;
    }
    walk := TapeWalk(complete, empty, edgePartial, pages, end, emitted, oversize);
  }

  /** The cursor for the next request. */
  function CursorAt(fetch: (nat, Option<string>) -> Fetch, n: nat): Option<string> {
    if n == 0 then None
    else
      var before := FetchAt(fetch, n - 1);
      if before.Page? then before.nextKey else None
  }

  lemma NothingRead(req: Request)
    ensures Holds([], req, map day | day in req.wanted :: []) && Emitted([], req) == {} && HandedOver([], [], req)
  {
  }

  /** The local state of a walk between pages. */
  datatype Memory = Memory(
    held: map<int, seq<TapeTick>>, newest: Option<int>, oldest: Option<int>, previous: Option<TapeTick>, emitted: set<int>)

  ghost predicate Reflects(m: Memory, read: seq<TapeTick>, req: Request) {
    && Holds(read, req, m.held) && m.emitted == Emitted(read, req)
    && Ends(read, m.newest, m.oldest, m.previous)
  }

  /** Takes in one page and hands over the days it certifies. */
  method TakePage(ghost read: seq<TapeTick>, ticks: seq<TapeTick>, req: Request, m: Memory, delivered: seq<Delivery>)
    returns (ok: bool, m': Memory, delivered': seq<Delivery>)
    requires Reflects(m, read, req) && HandedOver(delivered, read, req)
    ensures ok <==> NewestFirst(read + ticks)
    ensures !ok ==> delivered' == delivered
    ensures ok ==> Reflects(m', read + ticks, req) && HandedOver(delivered', read + ticks, req)
    ensures ok ==> NextBatch(delivered, delivered', read, read + ticks, req)
  {
    var held, newest, oldest, previous;
    ok, held, newest, oldest, previous := ReadTicks(read, ticks, m.held, m.newest, m.oldest, m.previous);
    m', delivered' := m, delivered;
    if ok {
      HeldAfterPage(read, ticks, req, m.held, held);
      var emitted;
      held, emitted, delivered' := HandOver(read, ticks, req, oldest, held, m.emitted, delivered);
      m' := Memory(held, newest, oldest, previous, emitted);
    }
  }

  method Judge(ghost more: seq<TapeTick>, page: Fetch, keys: set<string>, req: Request, pages: nat, m: Memory)
    returns (end: Option<Ending>)
    requires page.Page? && req.wanted != {} && Reflects(m, more, req)
    ensures end == Verdict(more, page, keys, req, pages)
  {
    var breach := LargestBreach(more, req, m.held);
    if breach.Some? {
      return Some(Ended(pages, Oversize, breach));
    }
    var crossed := Crosses(req.wanted, m.oldest, more);
    if crossed {
      return Some(Ended(pages, Crossed, None));
    }
    if page.nextKey.None? {
      return Some(Ended(pages, TapeEnd, None));
    }
    if page.ticks == [] || page.nextKey.value in keys {
      return Some(Raised(pages, NoProgress));
    }
    end := None;
  }

  /** The first n pages have been worked off, and every day they certified has been handed over. */
  ghost predicate DeliveredTo(fetch: (nat, Option<string>) -> Fetch, req: Request, delivered: seq<Delivery>, n: nat) {
    HandedOver(delivered, TicksTo(fetch, n), req) && InOrder(fetch, req, delivered, n)
  }

  /** The walk between pages: n of them worked off. */
  ghost predicate Between(
    fetch: (nat, Option<string>) -> Fetch, req: Request, n: nat, nextKey: Option<string>, m: Memory, cursors: set<string>,
    delivered: seq<Delivery>)
  {
    && nextKey == CursorAt(fetch, n) && cursors == KeysTo(fetch, n)
    && Reflects(m, TicksTo(fetch, n), req) && DeliveredTo(fetch, req, delivered, n)
  }

  /** The walk at its end. */
  ghost predicate Over(fetch: (nat, Option<string>) -> Fetch, req: Request, end: Ending, m: Memory, delivered: seq<Delivery>) {
    DeliveredTo(fetch, req, delivered, end.pages) && (end.Ended? ==> Reflects(m, TicksTo(fetch, end.pages), req))
  }

  /** Asks for one more page and finds out whether it ends the walk. */
  method AskPage(
    fetch: (nat, Option<string>) -> Fetch, req: Request, n: nat, nextKey: Option<string>,
    m: Memory, cursors: set<string>, delivered: seq<Delivery>)
    returns (end: Option<Ending>, key: Option<string>, m': Memory, cursors': set<string>, delivered': seq<Delivery>)
    requires req.wanted != {} && n < req.maxPages && Between(fetch, req, n, nextKey, m, cursors, delivered)
    ensures end == EndAt(fetch, req, n)
    ensures end.None? ==> Between(fetch, req, n + 1, key, m', cursors', delivered')
    ensures end.Some? ==> Over(fetch, req, end.value, m', delivered')
  {
    key, m', cursors', delivered' := nextKey, m, cursors, delivered;
    var page := fetch(n, nextKey);
    assert page == FetchAt(fetch, n);
    if page.Boundary? {
      end := Some(Ended(n, PageBudget, None));
    } else if page.Broken? {
      end := Some(Raised(n, TransportFailure));
    } else {
      end, m', delivered' := PageIn(fetch, req, n, page, m, cursors, delivered);
      if end.None? {
        cursors', key := cursors + {page.nextKey.value}, page.nextKey;
      }
    }
  }

  lemma PageOutcome(fetch: (nat, Option<string>) -> Fetch, req: Request, n: nat, page: Fetch)
    requires page.Page? && page == FetchAt(fetch, n)
    ensures TicksTo(fetch, n + 1) == TicksTo(fetch, n) + page.ticks
    ensures EndAt(fetch, req, n) == if NewestFirst(TicksTo(fetch, n + 1))
                                    then Verdict(TicksTo(fetch, n + 1), page, KeysTo(fetch, n), req, n + 1)
                                    else Some(Raised(n, NotNewestFirst))
  {
  }

  lemma VerdictCounts(more: seq<TapeTick>, page: Fetch, keys: set<string>, req: Request, pages: nat)
    requires page.Page?
    ensures var end := Verdict(more, page, keys, req, pages);
            if end.Some? then end.value.pages == pages else page.nextKey.Some?
  {
  }

  /** A page that arrived is worked off, or found out of order. */
  method PageIn(
    fetch: (nat, Option<string>) -> Fetch, req: Request, n: nat, page: Fetch, m: Memory, cursors: set<string>,
    delivered: seq<Delivery>)
    returns (end: Option<Ending>, m': Memory, delivered': seq<Delivery>)
    requires req.wanted != {} && page.Page? && page == FetchAt(fetch, n) && cursors == KeysTo(fetch, n)
    requires Reflects(m, TicksTo(fetch, n), req) && DeliveredTo(fetch, req, delivered, n)
    ensures end == EndAt(fetch, req, n)
    ensures end.None? ==>
              page.nextKey.Some? && Reflects(m', TicksTo(fetch, n + 1), req) && DeliveredTo(fetch, req, delivered', n + 1)
    ensures end.Some? ==> Over(fetch, req, end.value, m', delivered')
  {
    ghost var more := TicksTo(fetch, n + 1);
    PageOutcome(fetch, req, n, page);
    end, m', delivered' := WorkPage(TicksTo(fetch, n), page, cursors, req, n, m, delivered);
    if NewestFirst(more) {
      PageDone(fetch, req, delivered, delivered', n);
      VerdictCounts(more, page, cursors, req, n + 1);
    }
  }

  /** Takes in a page and judges what it leads to. */
  method WorkPage(
    ghost read: seq<TapeTick>, page: Fetch, cursors: set<string>, req: Request, n: nat, m: Memory, delivered: seq<Delivery>)
    returns (end: Option<Ending>, m': Memory, delivered': seq<Delivery>)
    requires page.Page? && req.wanted != {} && Reflects(m, read, req) && HandedOver(delivered, read, req)
    ensures end == if NewestFirst(read + page.ticks) then Verdict(read + page.ticks, page, cursors, req, n + 1)
                   else Some(Raised(n, NotNewestFirst))
    ensures if NewestFirst(read + page.ticks)
            then && Reflects(m', read + page.ticks, req) && HandedOver(delivered', read + page.ticks, req)
                 && NextBatch(delivered, delivered', read, read + page.ticks, req)
            else delivered' == delivered
  {
    var ok;
    ok, m', delivered' := TakePage(read, page.ticks, req, m, delivered);
    if ok {
      end := Judge(read + page.ticks, page, cursors, req, n + 1, m');
    } else {
      end := Some(Raised(n, NotNewestFirst));
    }
  }

  /** The walk ends with the next page or goes on after it. */
  method NextPage(
    fetch: (nat, Option<string>) -> Fetch, req: Request, n: nat, nextKey: Option<string>,
    m: Memory, cursors: set<string>, delivered: seq<Delivery>)
    returns (end: Option<Ending>, key: Option<string>, m': Memory, cursors': set<string>, delivered': seq<Delivery>)
    requires req.wanted != {} && n < req.maxPages && Between(fetch, req, n, nextKey, m, cursors, delivered)
    ensures end.None? ==>
              Walked(fetch, req, n) == Walked(fetch, req, n + 1) && Between(fetch, req, n + 1, key, m', cursors', delivered')
    ensures end.Some? ==> Walked(fetch, req, n) == end.value && Over(fetch, req, end.value, m', delivered')
  {
    end, key, m', cursors', delivered' := AskPage(fetch, req, n, nextKey, m, cursors, delivered);
  }

  /** Walks the tape until it is older than every wanted day, ends, outgrows the cap or the budget. */
  method WalkSymbolTape(fetch: (nat, Option<string>) -> Fetch, req: Request)
    returns (r: Result<TapeWalk, TapeError>, delivered: seq<Delivery>)
    ensures req.maxPages < 1 ==> r == Failure(BadBudget) && delivered == []
    ensures req.maxPages >= 1 && req.wanted == {} ==>
              r == Success(TapeWalk(map[], {}, {}, 0, Crossed, {}, None)) && delivered == []
    ensures req.maxPages >= 1 && req.wanted != {} ==>
              var end := Walked(fetch, req, 0);
              r == WalkResult(fetch, req, end) && DeliveredTo(fetch, req, delivered, end.pages)
  {
    delivered := [];
    if req.maxPages < 1 {
      return Failure(BadBudget), delivered;
    }
    if req.wanted == {} {
      return Success(TapeWalk(map[], {}, {}, 0, Crossed, {}, None)), delivered;
    }
    NothingRead(req);
    var nothing := Memory(map day | day in req.wanted :: [], None, None, None, {});
    var end, m;
    end, m, delivered := WalkPages(fetch, req, 0, None, nothing, {}, delivered);
    if end.Raised? {
      return Failure(end.error), delivered;
    }
    var walk := Conclude(TicksTo(fetch, end.pages), req, m.held, m.emitted, m.newest, m.oldest, end.pages, end.termination, end.oversizeDay);
    r := Success(walk);
  }

  /** The page loop, entered with `first` pages taken in. */
  method WalkPages(
    fetch: (nat, Option<string>) -> Fetch, req: Request, first: nat, key: Option<string>,
    m: Memory, cursors: set<string>, delivered: seq<Delivery>)
    returns (end: Ending, m': Memory, delivered': seq<Delivery>)
    requires req.wanted != {} && first <= req.maxPages && Between(fetch, req, first, key, m, cursors, delivered)
    ensures end == Walked(fetch, req, first) && Over(fetch, req, end, m', delivered')
  {
    m', delivered' := m, delivered;
    var cursors', pages, nextKey := cursors, first, key;
    ghost var goal := Walked(fetch, req, first);
    while pages < req.maxPages
      invariant pages <= req.maxPages
      invariant Walked(fetch, req, pages) == goal && Between(fetch, req, pages, nextKey, m', cursors', delivered')
    {
      var stop;
      stop, nextKey, m', cursors', delivered' := NextPage(fetch, req, pages, nextKey, m', cursors', delivered');
      if stop.Some? {
        return stop.value, m', delivered';
      }
      pages := pages + 1;
    }
    end := Ended(pages, PageBudget, None);
  }
}

/** What a walk certifies, judged against the whole tape the pages were cut from. */
module TapeCertification {
  import opened Contracts
  import opened Tape

  // ---------------------------------------------------------------- how walks end

  /** What each way of ending says about the pages taken in. */
  ghost predicate EndMeans(fetch: (nat, Option<string>) -> Fetch, req: Request, end: Ending) {
    match end
    case Raised(_, _) => true
    case Ended(pages, termination, oversizeDay) =>
      var read := TicksTo(fetch, pages);
      && NewestFirst(read) && pages <= req.maxPages
      && (oversizeDay.Some? <==> termination.Oversize?)
      && (match termination
          case PageBudget => pages == req.maxPages || FetchAt(fetch, pages).Boundary?
          case Crossed => CrossedFloor(read, req.wanted)
          case TapeEnd => pages > 0 && FetchAt(fetch, pages - 1).Page? && FetchAt(fetch, pages - 1).nextKey.None?
          case Oversize => Breached(read, req) != {} && oversizeDay == Some(Largest(Breached(read, req))))
  }

  lemma PageEnds(fetch: (nat, Option<string>) -> Fetch, req: Request, n: nat)
    requires n < req.maxPages && NewestFirst(TicksTo(fetch, n))
    ensures EndAt(fetch, req, n).Some? ==> EndMeans(fetch, req, EndAt(fetch, req, n).value)
    ensures EndAt(fetch, req, n).None? ==> NewestFirst(TicksTo(fetch, n + 1))
  {
  }

  lemma {:induction false} WalkEnds(fetch: (nat, Option<string>) -> Fetch, req: Request, n: nat)
    requires n <= req.maxPages && NewestFirst(TicksTo(fetch, n))
    ensures EndMeans(fetch, req, Walked(fetch, req, n))
    decreases req.maxPages - n
  {
    if n < req.maxPages {
      PageEnds(fetch, req, n);
      if EndAt(fetch, req, n).None? {
        WalkEnds(fetch, req, n + 1);
      }
    }
  }

  // ---------------------------------------------------------------- soundness

  /** A day with an older tick read is whole: the tape has no further tick of it. */
  lemma WholeDay(read: seq<TapeTick>, tape: seq<TapeTick>, day: int)
    requires read <= tape && NewestFirst(tape) && HasOlder(read, day)
    ensures DayTicks(tape, day) == DayTicks(read, day)
  {
    assert tape == read + tape[|read|..];
    DayIsOver(read, tape[|read|..], day);
  }

  /** No tick is of a later day than one after it, or later on the same day. */
  predicate Chronological(ticks: seq<TapeTick>) {
    forall i, j :: 0 <= i < j < |ticks| ==>
      ticks[i].day <= ticks[j].day && (ticks[i].day == ticks[j].day ==> ticks[i].hms <= ticks[j].hms)
  }

  /** A tape is newest first if and only if no tick is of a later day than the one before it, or later on the same day. */
  lemma {:induction false} NewestFirstByFields(ticks: seq<TapeTick>)
    ensures NewestFirst(ticks)
            <==> forall k :: 0 < k < |ticks| ==>
                   && ticks[k].day <= ticks[k - 1].day
                   && (ticks[k].day == ticks[k - 1].day ==> ticks[k].hms <= ticks[k - 1].hms)
  {
    if |ticks| > 1 {
      var init, last := ticks[..|ticks| - 1], |ticks| - 1;
      NewestFirstByFields(init);
      assert forall k :: 0 <= k < last ==> init[k] == ticks[k];
      if NewestFirst(init) && NotAfter(ticks[last], ticks[last - 1]) {
        forall i, j | 0 <= i < j < |ticks|
          ensures NotAfter(ticks[j], ticks[i])
        {
          if j < last {
            assert NotAfter(init[j], init[i]);
          } else if i < last - 1 {
            assert NotAfter(init[last - 1], init[i]);
          }
        }
      }
      if NewestFirst(ticks) {
        assert NewestFirst(init) by {
          forall i, j | 0 <= i < j < |init|
            ensures NotAfter(init[j], init[i])
          {
            assert NotAfter(ticks[j], ticks[i]);
          }
        }
        assert NotAfter(ticks[last], ticks[last - 1]);
      }
    }
  }

  /** The ticks of one day keep the tape's order. */
  lemma {:induction false} DayKeepsOrder(ticks: seq<TapeTick>, day: int)
    requires NewestFirst(ticks)
    ensures NewestFirst(DayTicks(ticks, day))
    ensures forall i :: 0 <= i < |DayTicks(ticks, day)| ==>
              DayTicks(ticks, day)[i].day == day && NotAfter(ticks[|ticks| - 1], DayTicks(ticks, day)[i])
  {
    if ticks != [] {
      var init := ticks[..|ticks| - 1];
      DayKeepsOrder(init, day);
      forall i | 0 <= i < |DayTicks(init, day)|
        ensures NotAfter(ticks[|ticks| - 1], DayTicks(init, day)[i])
      {
        assert init != [];
        assert NotAfter(ticks[|ticks| - 1], init[|init| - 1]);
        assert NotAfter(init[|init| - 1], DayTicks(init, day)[i]);
      }
    }
  }

  lemma DayIsChronological(tape: seq<TapeTick>, day: int)
    requires NewestFirst(tape)
    ensures Chronological(Reversed(DayTicks(tape, day)))
    ensures forall t :: t in Reversed(DayTicks(tape, day)) ==> t.day == day
  {
    DayKeepsOrder(tape, day);
  }

  /** The report of any walk over pages cut from a newest-first tape: what it calls complete is the whole day in
      chronological order, what it calls empty between two ticks is empty, and no day is called both. */
  lemma CertifiedAgainstTape(fetch: (nat, Option<string>) -> Fetch, req: Request, tape: seq<TapeTick>)
    requires req.maxPages >= 1 && Walked(fetch, req, 0).Ended? && NewestFirst(tape)
    requires TicksTo(fetch, Walked(fetch, req, 0).pages) <= tape
    ensures var end := Walked(fetch, req, 0);
            var walk := WalkResult(fetch, req, end).value;
            && (forall day :: day in walk.complete ==>
                  walk.complete[day] == Reversed(DayTicks(tape, day)) && walk.complete[day] != []
                  && Chronological(walk.complete[day]))
            && (forall day :: day in walk.emitted ==> DayTicks(tape, day) != [])
            && (forall day :: day in walk.vendorEmpty && HasOlder(TicksTo(fetch, end.pages), day) ==> DayTicks(tape, day) == [])
            && (tape == TicksTo(fetch, end.pages) ==> forall day :: day in walk.vendorEmpty ==> DayTicks(tape, day) == [])
            && walk.vendorEmpty !! walk.complete.Keys && walk.vendorEmpty !! walk.emitted && walk.complete.Keys !! walk.emitted
  {
    var end := Walked(fetch, req, 0);
    var read := TicksTo(fetch, end.pages);
    ReportSound(read, tape, end.pages, req, end.termination, end.oversizeDay);
  }

  lemma ReportSound(
    read: seq<TapeTick>, tape: seq<TapeTick>, pages: nat, req: Request, termination: Termination, oversizeDay: Option<int>)
    requires NewestFirst(tape) && read <= tape
    ensures var walk := Report(read, pages, req, termination, oversizeDay);
            && (forall day :: day in walk.complete ==>
                  walk.complete[day] == Reversed(DayTicks(tape, day)) && walk.complete[day] != []
                  && Chronological(walk.complete[day]))
            && (forall day :: day in walk.emitted ==> DayTicks(tape, day) != [])
            && (forall day :: day in walk.vendorEmpty && HasOlder(read, day) ==> DayTicks(tape, day) == [])
            && (tape == read ==> forall day :: day in walk.vendorEmpty ==> DayTicks(tape, day) == [])
            && walk.vendorEmpty !! walk.complete.Keys && walk.vendorEmpty !! walk.emitted && walk.complete.Keys !! walk.emitted
  {
    forall day | HasOlder(read, day)
      ensures DayTicks(tape, day) == DayTicks(read, day) && Chronological(Reversed(DayTicks(tape, day)))
    {
      WholeDay(read, tape, day);
      DayIsChronological(tape, day);
    }
  }

  /** Days handed over while the walk was going on are whole, in order, and handed over once. */
  lemma DeliveredAgainstTape(delivered: seq<Delivery>, read: seq<TapeTick>, tape: seq<TapeTick>, req: Request)
    requires HandedOver(delivered, read, req) && NewestFirst(tape) && read <= tape
    ensures forall i :: 0 <= i < |delivered| ==>
              && delivered[i].day in req.wanted
              && delivered[i].ticks == Reversed(DayTicks(tape, delivered[i].day)) && Chronological(delivered[i].ticks)
    ensures forall i, j :: 0 <= i < j < |delivered| ==> delivered[i].day != delivered[j].day
  {
    forall i | 0 <= i < |delivered|
      ensures delivered[i].day in req.wanted
      ensures delivered[i].ticks == Reversed(DayTicks(tape, delivered[i].day)) && Chronological(delivered[i].ticks)
    {
      assert delivered[i].day in Days(delivered);
      WholeDay(read, tape, delivered[i].day);
      DayIsChronological(tape, delivered[i].day);
    }
  }

  /** Pages cut from a newest-first tape never look out of order. */
  lemma {:induction false} NeverOutOfOrder(fetch: (nat, Option<string>) -> Fetch, req: Request, tape: seq<TapeTick>, n: nat)
    requires n <= req.maxPages && NewestFirst(tape)
    requires forall k: nat :: k <= req.maxPages ==> TicksTo(fetch, k) <= tape
    ensures Walked(fetch, req, n) != Raised(Walked(fetch, req, n).pages, NotNewestFirst)
    decreases req.maxPages - n
  {
    if n < req.maxPages {
      assert TicksTo(fetch, n + 1) <= tape;
      Prefixes(TicksTo(fetch, n + 1), tape);
      if EndAt(fetch, req, n).None? {
        NeverOutOfOrder(fetch, req, tape, n + 1);
      }
    }
  }

  // ---------------------------------------------------------------- completeness

  /** A walk that crossed below the wanted days resolves exactly the wanted days not newer than the newest tick. */
  lemma CrossedResolves(fetch: (nat, Option<string>) -> Fetch, req: Request, day: int)
    requires req.maxPages >= 1 && day in req.wanted
    requires Walked(fetch, req, 0).Ended? && Walked(fetch, req, 0).termination.Crossed?
    ensures var end := Walked(fetch, req, 0);
            var read, walk := TicksTo(fetch, end.pages), WalkResult(fetch, req, end).value;
            && read != []
            && (day in walk.complete.Keys + walk.emitted + walk.vendorEmpty <==> day <= read[0].day)
  {
    var end := Walked(fetch, req, 0);
    var read := TicksTo(fetch, end.pages);
    WalkEnds(fetch, req, 0);
    LastIsOldest(read, day);
    DayOccurs(read, day);
    if DayTicks(read, day) != [] {
      var i :| 0 <= i < |read| && read[i].day == day;
      assert i == 0 || NotAfter(read[i], read[0]);
    } else {
      assert read[0].day != day;
    }
  }

  // ---------------------------------------------------------------- streaming and buffering agree

  lemma {:induction false} SameEnd(fetch: (nat, Option<string>) -> Fetch, req: Request, n: nat)
    requires n <= req.maxPages && req.cap.None?
    ensures Walked(fetch, req.(streaming := true), n) == Walked(fetch, req.(streaming := false), n)
    decreases req.maxPages - n
  {
    var streaming, buffered := req.(streaming := true), req.(streaming := false);
    assert Breached(TicksTo(fetch, n + 1), streaming) == {};
    assert Breached(TicksTo(fetch, n + 1), buffered) == {};
    if n < req.maxPages && EndAt(fetch, streaming, n).None? {
      SameEnd(fetch, req, n + 1);
    }
  }

  lemma SameReport(read: seq<TapeTick>, pages: nat, req: Request, termination: Termination)
    ensures var streamed := Report(read, pages, req.(streaming := true), termination, None);
            var buffered := Report(read, pages, req.(streaming := false), termination, None);
            && streamed.emitted == buffered.complete.Keys && streamed.complete.Keys == {} && buffered.emitted == {}
            && streamed.vendorEmpty == buffered.vendorEmpty
  {
  }

  /** Without a tick cap, streaming hands over exactly the days buffering reports complete, with the same ticks, and
      agrees on everything else. */
  lemma StreamingAgrees(fetch: (nat, Option<string>) -> Fetch, req: Request, delivered: seq<Delivery>)
    requires req.maxPages >= 1 && req.cap.None? && Walked(fetch, req.(streaming := true), 0).Ended?
    requires HandedOver(delivered, TicksTo(fetch, Walked(fetch, req.(streaming := true), 0).pages), req.(streaming := true))
    ensures var end := Walked(fetch, req.(streaming := false), 0);
            && end == Walked(fetch, req.(streaming := true), 0)
            && var streamed := WalkResult(fetch, req.(streaming := true), end).value;
               var buffered := WalkResult(fetch, req.(streaming := false), end).value;
               && streamed == TapeWalk(map[], buffered.vendorEmpty, buffered.edgePartial, buffered.pages,
                                       buffered.termination, buffered.complete.Keys, None)
               && Days(delivered) == buffered.complete.Keys
               && (forall i :: 0 <= i < |delivered| && delivered[i].day in buffered.complete ==>
                     delivered[i].ticks == buffered.complete[delivered[i].day])
  {
    SameEnd(fetch, req, 0);
    WalkEnds(fetch, req.(streaming := true), 0);
    var end := Walked(fetch, req.(streaming := false), 0);
    assert end.oversizeDay.None? by {
      assert Breached(TicksTo(fetch, end.pages), req.(streaming := true)) == {};
    }
    SameReport(TicksTo(fetch, end.pages), end.pages, req, end.termination);
  }
}

/** Duplicate suppression while a streamer holds two vendor connections: a payload already recorded from one
    connection is dropped when the other delivers it. Payload keys are the payloads themselves. */
module Handovers {
  /** A frame that was offered: its payload, the connection it came from (0 is the primary, every adopted standby has
      a token of its own) and whether it was let through. */
  datatype Offered = Offered(payload: string, owner: nat, admitted: bool)

  /** `epoch` lists what was offered since the seen-table was last cleared. */
  datatype Link = Link(
    standby: bool, opening: bool, refreshPending: bool, refreshOverlap: bool,
    seen: map<string, nat>, standbyOwner: nat, epoch: seq<Offered>)

  datatype Event =
    | Offer(payload: string, fromStandby: bool)
    | Start(granted: bool)
    | AskRefresh
    | Refresh(granted: bool)
    | Opened(adopted: bool)
    | Lose
    | CutOver
    | Close

  function Cleared(l: Link): Link { l.(seen := map[], epoch := []) }

  function Token(l: Link, fromStandby: bool): nat { if fromStandby then l.standbyOwner else 0 }

  /** Without a standby or a refresh in progress every frame passes unrecorded. */
  predicate Overlapping(l: Link) { l.standby || l.refreshOverlap }

  predicate Admits(l: Link, payload: string, fromStandby: bool) {
    !Overlapping(l) || payload !in l.seen || l.seen[payload] == Token(l, fromStandby)
  }

  predicate Possible(l: Link, e: Event) {
    match e
    case Offer(_, fromStandby) => fromStandby ==> l.standby
    case Start(_) => !l.opening && !l.standby
    case AskRefresh => !l.opening && l.standby
    case Refresh(_) => l.refreshPending
    case Opened(_) => l.opening && !l.refreshPending
    case Lose => l.standby
    case CutOver => l.standby
    case Close => true
  }

  function Next(l: Link, e: Event): Link {
    match e
    case Offer(payload, fromStandby) =>
      var offered := Offered(payload, Token(l, fromStandby), Admits(l, payload, fromStandby));
      l.(seen := if Overlapping(l) && payload !in l.seen then l.seen[payload := Token(l, fromStandby)] else l.seen,
         epoch := l.epoch + [offered])
    case Start(granted) => l.(opening := granted)
    case AskRefresh => l.(refreshPending := true)
    case Refresh(granted) =>
      l.(refreshPending := false, standby := false, opening := l.opening || granted, refreshOverlap := granted)
    case Opened(adopted) =>
      var kept := if adopted && l.refreshOverlap then l else Cleared(l);
      kept.(opening := false, refreshOverlap := false, standby := adopted || l.standby,
            standbyOwner := if adopted then l.standbyOwner + 1 else l.standbyOwner)
    case Lose => Cleared(l).(standby := false)
    case CutOver => Cleared(l).(standby := false)
    case Close => Cleared(l).(standby := false, opening := false, refreshOverlap := false)
  }

  function Run(l: Link, events: seq<Event>): Link {
    if events == [] then l else Next(Run(l, events[..|events| - 1]), events[|events| - 1])
  }

  const ALONE := Link(false, false, false, false, map[], 0, [])

  /** Every step happens where it can, and every refresh replaces a standby it finds. */
  ghost predicate Smooth(l: Link, events: seq<Event>) {
    forall i :: 0 <= i < |events| ==>
      var now := Run(l, events[..i]);
      Possible(now, events[i]) && (events[i].Refresh? ==> now.standby && events[i].granted)
  }

  // ---------------------------------------------------------------- which connections there are

  /** Something happened and nothing that undoes it has happened since. */
  predicate Since(events: seq<Event>, begins: Event -> bool, ends: Event -> bool) {
    exists i :: 0 <= i < |events| && begins(events[i]) && forall j :: i < j < |events| ==> !ends(events[j])
  }

  lemma SinceNext(events: seq<Event>, e: Event, begins: Event -> bool, ends: Event -> bool)
    ensures Since(events + [e], begins, ends) <==> begins(e) || (Since(events, begins, ends) && !ends(e))
  {
    var more := events + [e];
    if begins(e) {
      assert begins(more[|events|]);
    } else if Since(events, begins, ends) && !ends(e) {
      var i :| 0 <= i < |events| && begins(events[i]) && forall j :: i < j < |events| ==> !ends(events[j]);
      assert begins(more[i]) && forall j :: i < j < |more| ==> !ends(more[j]);
    }
    if Since(more, begins, ends) && !begins(e) {
      var i :| 0 <= i < |more| && begins(more[i]) && forall j :: i < j < |more| ==> !ends(more[j]);
      assert i < |events| && begins(events[i]) && ends(more[|events|]) == ends(e);
      assert forall j :: i < j < |events| ==> events[j] == more[j];
    }
  }

  predicate BringsStandby(e: Event) { e == Opened(true) }

  predicate EndsStandby(e: Event) { e.Refresh? || e.Lose? || e.CutOver? || e.Close? }

  predicate Grants(e: Event) { e == Start(true) || e == Refresh(true) }

  predicate EndsOpening(e: Event) { e.Opened? || e == Start(false) || e.Close? }

  predicate GrantsRefresh(e: Event) { e == Refresh(true) }

  predicate EndsRefresh(e: Event) { e.Refresh? || e.Opened? || e.Close? }

  /** After any events the flags say which connections there are: a standby was adopted and since then neither refreshed,
      lost, promoted nor closed; a connection was granted and since then neither opened, denied nor closed; a refresh was
      granted and its replacement is still to come. */
  lemma {:induction false} FlagsTell(events: seq<Event>)
    ensures var l := Run(ALONE, events);
            && (l.standby <==> Since(events, BringsStandby, EndsStandby))
            && (l.opening <==> Since(events, Grants, EndsOpening))
            && (l.refreshOverlap <==> Since(events, GrantsRefresh, EndsRefresh))
  {
    if events != [] {
      var init, e := events[..|events| - 1], events[|events| - 1];
      FlagsTell(init);
      assert events == init + [e];
      SinceNext(init, e, BringsStandby, EndsStandby);
      SinceNext(init, e, Grants, EndsOpening);
      SinceNext(init, e, GrantsRefresh, EndsRefresh);
    }
  }

  // ---------------------------------------------------------------- one owner per payload

  predicate Recorded(l: Link, o: Offered) { o.admitted ==> o.payload in l.seen && l.seen[o.payload] == o.owner }

  predicate LetThrough(epoch: seq<Offered>, payload: string) {
    exists i :: 0 <= i < |epoch| && epoch[i].admitted && epoch[i].payload == payload
  }

  ghost predicate Tidy(l: Link) {
    && (l.standby ==> l.standbyOwner > 0)
    && (if Overlapping(l)
        then (forall i :: 0 <= i < |l.epoch| ==> Recorded(l, l.epoch[i]))
        else l.seen == map[] && (forall i :: 0 <= i < |l.epoch| ==> l.epoch[i].admitted && l.epoch[i].owner == 0))
    && (forall p :: p in l.seen ==> LetThrough(l.epoch, p))
    && (forall i :: 0 <= i < |l.epoch| ==> LetThrough(l.epoch, l.epoch[i].payload))
  }

  lemma LetThroughMore(epoch: seq<Offered>, o: Offered, payload: string)
    ensures LetThrough(epoch, payload) ==> LetThrough(epoch + [o], payload)
    ensures o.admitted && o.payload == payload ==> LetThrough(epoch + [o], payload)
  {
    var more := epoch + [o];
    if LetThrough(epoch, payload) {
      var i :| 0 <= i < |epoch| && epoch[i].admitted && epoch[i].payload == payload;
      assert more[i].admitted && more[i].payload == payload;
    }
    assert more[|epoch|] == o;
  }

  lemma OfferTidy(l: Link, payload: string, fromStandby: bool)
    requires Tidy(l) && (fromStandby ==> l.standby)
    ensures Tidy(Next(l, Offer(payload, fromStandby)))
  {
    var t := Next(l, Offer(payload, fromStandby));
    var o := Offered(payload, Token(l, fromStandby), Admits(l, payload, fromStandby));
    forall p
      ensures LetThrough(l.epoch, p) ==> LetThrough(t.epoch, p)
      ensures o.admitted && o.payload == p ==> LetThrough(t.epoch, p)
    {
      LetThroughMore(l.epoch, o, p);
    }
  }

  lemma NextTidy(l: Link, e: Event)
    requires Tidy(l) && Possible(l, e) && (e.Refresh? ==> l.standby && e.granted)
    ensures Tidy(Next(l, e))
  {
    if e.Offer? {
      OfferTidy(l, e.payload, e.fromStandby);
    }
  }

  lemma {:induction false} RunTidy(events: seq<Event>)
    requires Smooth(ALONE, events)
    ensures Tidy(Run(ALONE, events))
  {
    if events != [] {
      var init := events[..|events| - 1];
      assert Smooth(ALONE, init) by {
        forall i | 0 <= i < |init| ensures init[..i] == events[..i] {}
      }
      RunTidy(init);
      assert events[..|events| - 1] == init;
      NextTidy(Run(ALONE, init), events[|events| - 1]);
    }
  }

  /** Between two clearings every payload offered is let through at least once, all copies let through come from one
      connection, and a dropped copy came from another. */
  lemma OneOwner(events: seq<Event>)
    requires Smooth(ALONE, events)
    ensures var epoch := Run(ALONE, events).epoch;
            && (forall i :: 0 <= i < |epoch| ==> LetThrough(epoch, epoch[i].payload))
            && (forall i, j :: 0 <= i < |epoch| && 0 <= j < |epoch| && epoch[i].admitted && epoch[j].admitted ==>
                  epoch[i].payload == epoch[j].payload ==> epoch[i].owner == epoch[j].owner)
  {
    RunTidy(events);
    var l := Run(ALONE, events);
    if Overlapping(l) {
      forall i, j | 0 <= i < |l.epoch| && 0 <= j < |l.epoch| && l.epoch[i].payload == l.epoch[j].payload
                    && l.epoch[i].admitted && l.epoch[j].admitted
        ensures l.epoch[i].owner == l.epoch[j].owner
      {
        assert Recorded(l, l.epoch[i]) && Recorded(l, l.epoch[j]);
      }
    }
  }

  // ---------------------------------------------------------------- refreshes that break it

  /** All copies of a payload let through came from one connection. */
  predicate OneOwnerIn(epoch: seq<Offered>) {
    forall i, j :: 0 <= i < |epoch| && 0 <= j < |epoch| && epoch[i].admitted && epoch[j].admitted ==>
      epoch[i].payload == epoch[j].payload ==> epoch[i].owner == epoch[j].owner
  }

  /** What can happen between a denied refresh and the next clearing: the primary delivers, and bring-ups are tried. */
  predicate PrimaryOnly(events: seq<Event>) {
    forall i :: 0 <= i < |events| ==> events[i].Start? || (events[i].Offer? && !events[i].fromStandby)
  }

  function Delivered(events: seq<Event>): seq<Offered> {
    if events == [] then []
    else
      var e := events[|events| - 1];
      Delivered(events[..|events| - 1]) + if e.Offer? then [Offered(e.payload, 0, true)] else []
  }

  /** Without a standby and an overlap everything the primary delivers is let through. */
  lemma {:induction false} UnguardedDelivers(l: Link, events: seq<Event>)
    requires !Overlapping(l) && PrimaryOnly(events)
    ensures !Overlapping(Run(l, events)) && Run(l, events).epoch == l.epoch + Delivered(events)
  {
    if events != [] {
      UnguardedDelivers(l, events[..|events| - 1]);
    }
  }

  lemma {:induction false} DeliveredByPrimary(events: seq<Event>, p: string)
    requires PrimaryOnly(events)
    ensures forall i :: 0 <= i < |Delivered(events)| ==> Delivered(events)[i].owner == 0 && Delivered(events)[i].admitted
    ensures Offer(p, false) in events <==> exists i :: 0 <= i < |Delivered(events)| && Delivered(events)[i].payload == p
  {
    if events != [] {
      var init, e := events[..|events| - 1], events[|events| - 1];
      DeliveredByPrimary(init, p);
      var before, all := Delivered(init), Delivered(events);
      if Offer(p, false) in init {
        var i :| 0 <= i < |before| && before[i].payload == p;
        assert all[i].payload == p;
      }
      if e == Offer(p, false) {
        assert all[|all| - 1].payload == p;
      }
    }
  }

  /** A standby's copy of the payload was let through. */
  predicate FromStandby(epoch: seq<Offered>, p: string) {
    exists i :: 0 <= i < |epoch| && epoch[i].admitted && epoch[i].payload == p && epoch[i].owner != 0
  }

  lemma PrimaryJoins(epoch: seq<Offered>, more: seq<Offered>)
    requires OneOwnerIn(epoch) && forall i :: 0 <= i < |more| ==> more[i].owner == 0 && more[i].admitted
    ensures OneOwnerIn(epoch + more) <==> forall i :: 0 <= i < |more| ==> !FromStandby(epoch, more[i].payload)
  {
    var all := epoch + more;
    if exists i :: 0 <= i < |more| && FromStandby(epoch, more[i].payload) {
      var i :| 0 <= i < |more| && FromStandby(epoch, more[i].payload);
      var k :| 0 <= k < |epoch| && epoch[k].admitted && epoch[k].payload == more[i].payload && epoch[k].owner != 0;
      assert all[k] == epoch[k] && all[|epoch| + i] == more[i];
      assert !OneOwnerIn(all);
    }
  }

  /** EXACT CONDITION, over runs. After a refresh that is denied a replacement, and until the table is next cleared, all
      copies of a payload let through still come from one connection if and only if the primary delivers nothing of
      which the dropped standby's copy was let through. */
  lemma DeniedRefreshExactly(events: seq<Event>, tail: seq<Event>)
    requires Smooth(ALONE, events) && Run(ALONE, events).standby && Run(ALONE, events).refreshPending && PrimaryOnly(tail)
    ensures var l := Run(ALONE, events);
            OneOwnerIn(Run(Next(l, Refresh(false)), tail).epoch)
            <==> forall p :: Offer(p, false) in tail ==> !FromStandby(l.epoch, p)
  {
    var l := Run(ALONE, events);
    OneOwner(events);
    UnguardedDelivers(Next(l, Refresh(false)), tail);
    var more := Delivered(tail);
    DeliveredByPrimary(tail, "");
    PrimaryJoins(l.epoch, more);
    forall p
      ensures Offer(p, false) in tail <==> exists i :: 0 <= i < |more| && more[i].payload == p
    {
      DeliveredByPrimary(tail, p);
    }
  }

  /** The run in which it happens: the standby's copy and, after the denied refresh, the primary's are both let through. */
  lemma DeniedRefreshDuplicates(payload: string) returns (events: seq<Event>, tail: seq<Event>)
    ensures Smooth(ALONE, events) && Run(ALONE, events).standby && Run(ALONE, events).refreshPending && PrimaryOnly(tail)
    ensures Run(Next(Run(ALONE, events), Refresh(false)), tail).epoch
            == [Offered(payload, 1, true), Offered(payload, 0, true)]
  {
    var e0, e1, e2, e3 := Start(true), Opened(true), Offer(payload, true), AskRefresh;
    events, tail := [e0, e1, e2, e3], [Offer(payload, false)];
    var l1 := Next(ALONE, e0);
    var l2 := Next(l1, e1);
    var l3 := Next(l2, e2);
    assert events[..0] == [] && events[..1][..0] == [] && Run(ALONE, events[..1]) == l1;
    assert events[..2][..1] == events[..1] && Run(ALONE, events[..2]) == l2;
    assert events[..3][..2] == events[..2] && Run(ALONE, events[..3]) == l3;
    assert Run(ALONE, events) == Next(l3, e3);
    UnguardedDelivers(Next(Next(l3, e3), Refresh(false)), tail);
    assert tail[..0] == [];
  }

  ghost predicate AllPossible(events: seq<Event>) {
    forall i :: 0 <= i < |events| ==> Possible(Run(ALONE, events[..i]), events[i])
  }

  lemma OneMore(events: seq<Event>, e: Event)
    requires AllPossible(events) && Possible(Run(ALONE, events), e)
    ensures AllPossible(events + [e]) && Run(ALONE, events + [e]) == Next(Run(ALONE, events), e)
  {
    var more := events + [e];
    assert more[..|events|] == events;
    forall i | 0 <= i < |events|
      ensures more[..i] == events[..i]
    {
    }
  }

  /** A refresh that comes after its standby was promoted keeps a table that never saw the frames let through
      meanwhile, so the new standby repeats them. */
  lemma LateRefreshDuplicates(payload: string) returns (events: seq<Event>)
    ensures AllPossible(events)
    ensures Run(ALONE, events).epoch == [Offered(payload, 0, true), Offered(payload, 2, true)]
  {
    OneMore([], Start(true));
    events := [] + [Start(true)];
    OneMore(events, Opened(true));
    events := events + [Opened(true)];
    OneMore(events, AskRefresh);
    events := events + [AskRefresh];
    OneMore(events, CutOver);
    events := events + [CutOver];
    OneMore(events, Offer(payload, false));
    events := events + [Offer(payload, false)];
    OneMore(events, Refresh(true));
    events := events + [Refresh(true)];
    OneMore(events, Opened(true));
    events := events + [Opened(true)];
    OneMore(events, Offer(payload, true));
    events := events + [Offer(payload, true)];
  }

  // ---------------------------------------------------------------- the object

  class Handover {
    var standby: bool
    var opening: bool
    var refreshPending: bool
    var refreshOverlap: bool
    var seen: map<string, nat>
    var standbyOwner: nat
    var dropped: nat
    ghost var epoch: seq<Offered>

    constructor ()
      ensures Value() == ALONE && dropped == 0
    {
      standby, opening, refreshPending, refreshOverlap := false, false, false, false;
      seen, standbyOwner, dropped, epoch := map[], 0, 0, [];
    }

    ghost function Value(): Link
      reads this
    {
      Link(standby, opening, refreshPending, refreshOverlap, seen, standbyOwner, epoch)
    }

    method Admit(payload: string, fromStandby: bool) returns (admitted: bool)
      requires Possible(Value(), Offer(payload, fromStandby))
      modifies this
      ensures Value() == Next(old(Value()), Offer(payload, fromStandby))
      ensures admitted <==> Admits(old(Value()), payload, fromStandby)
      ensures dropped == old(dropped) + if admitted then 0 else 1
    {
      if !standby && !refreshOverlap {
        epoch := epoch + [Offered(payload, Token(Value(), fromStandby), true)];
        return true;
      }
      var token := if fromStandby then standbyOwner else 0;
      if payload !in seen {
        seen := seen[payload := token];
      }
      admitted := seen[payload] == token;
      if !admitted {
        dropped := dropped + 1;
      }
      epoch := epoch + [Offered(payload, token, admitted)];
    }

    /** The seen-table part of a step that finds a refresh asked for. */
    method DoRefresh(granted: bool)
      requires Possible(Value(), Refresh(granted))
      modifies this
      ensures Value() == Next(old(Value()), Refresh(granted))
    {
      refreshPending := false;
      if standby {
        var kept := seen;
        ghost var offered := epoch;
        DropStandby();
        seen, epoch := kept, offered;
      }
      opening := opening || granted;
      refreshOverlap := granted;
    }

    /** The part of a step that finds the bring-up finished. */
    method FinishOpening(adopted: bool)
      requires Possible(Value(), Opened(adopted))
      modifies this
      ensures Value() == Next(old(Value()), Opened(adopted))
    {
      opening := false;
      if adopted {
        standby := true;
        standbyOwner := standbyOwner + 1;
        if !refreshOverlap {
          seen, epoch := map[], [];
        }
        dropped := 0;
      } else {
        seen, epoch := map[], [];
      }
      refreshOverlap := false;
    }

    method DropStandby()
      modifies this
      ensures Value() == Cleared(old(Value())).(standby := false) && dropped == old(dropped)
    {
      standby := false;
      seen, epoch := map[], [];
    }

    method PromoteStandby()
      requires Possible(Value(), CutOver)
      modifies this
      ensures Value() == Next(old(Value()), CutOver)
    {
      standby := false;
      seen, epoch := map[], [];
    }
  }
}

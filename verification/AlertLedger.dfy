/** The ledger object: every call loads the file, works on the loaded state and saves it. */
module AlertLedger {
  import opened Contracts
  import opened Alerts

  // ---------------------------------------------------------------- work on a loaded state

  method SumAll(keys: map<string, Budget>) returns (n: nat)
    ensures n == SumCounts(keys)
  {
    n := 0;
    var todo := keys;
    while todo != map[]
      invariant n + SumCounts(todo) == SumCounts(keys)
      decreases |todo|
    {
      KeysEmptyOrNot(todo);
      var k :| k in todo;
      SumTakes(todo, k);
      n := n + todo[k].count;
      todo := todo - {k};
    }
  }

  /** How many reservations a key has, and the latest of their times and its last success. */
  method ScanPending(reservations: map<nat, Reservation>, key: string, success: Option<real>)
    returns (n: nat, last: Option<real>)
    ensures n == |PendingIds(reservations, key)| && last == Latest(reservations, key, success)
  {
    var ids := PendingIds(reservations, key);
    var todo := ids;
    n, last := 0, success;
    while todo != {}
      invariant todo <= ids && n + |todo| == |ids|
      invariant LatestOver(last, reservations, ids - todo, success)
      decreases |todo|
    {
      IdsEmptyOrNot(todo);
      var id :| id in todo;
      LatestAdds(last, reservations, ids - todo, success, id);
      OneLess(ids, todo, id);
      last := if last.Some? && last.value >= reservations[id].now then last else Some(reservations[id].now);
      n := n + 1;
      todo := todo - {id};
    }
    assert ids - todo == ids;
    LatestUnique(last, Latest(reservations, key, success), reservations, key, success);
  }

  lemma OneLess(ids: set<nat>, todo: set<nat>, id: nat)
    requires todo <= ids && id in todo
    ensures ids - (todo - {id}) == ids - todo + {id} && |todo - {id}| == |todo| - 1
  {
  }

  lemma LatestAdds(last: Option<real>, reservations: map<nat, Reservation>, ids: set<nat>, success: Option<real>, id: nat)
    requires ids <= reservations.Keys && id in reservations && LatestOver(last, reservations, ids, success)
    ensures var next := if last.Some? && last.value >= reservations[id].now then last else Some(reservations[id].now);
            LatestOver(next, reservations, ids + {id}, success)
  {
    assert id in ids + {id};
  }

  method RefreshKey(s: State, key: string, b: Budget) returns (t: State)
    ensures t == Refresh(s, key, b)
  {
    var pending, last := ScanPending(s.reservations, key, b.lastSuccess);
    var count := b.confirmed + pending;
    var keys := if count == 0 then s.keys - {key} else s.keys[key := b.(count := count, lastSent := last)];
    var total := SumAll(keys);
    t := s.(keys := keys, sentToday := total);
  }

  method FinishReservation(s: State, key: string, id: nat, success: bool) returns (t: State, done: bool)
    requires Consistent(s)
    ensures t == Finished(s, key, id, success) && (done <==> Finishes(s, key, id))
  {
    if id !in s.reservations || s.reservations[id].key != key {
      return s, false;
    }
    var budget := s.keys[key];
    if success {
      budget := Confirmed(budget, s.reservations[id].now);
    }
    t := RefreshKey(s.(reservations := s.reservations - {id}), key, budget);
    done := true;
  }

  /** A run that reaped its way from one state to another, taking only slots of processes that are gone. */
  ghost predicate Reaped(limits: AlertLimits, s: State, reaps: seq<Event>, t: State, alive: set<Owner>) {
    && Run(limits, Books(s, map[]), reaps) == Books(t, map[])
    && forall i :: 0 <= i < |reaps| ==>
         reaps[i].Reap? && reaps[i].id in s.reservations && s.reservations[reaps[i].id].owner !in alive
  }

  lemma ReapOne(limits: AlertLimits, s: State, reaps: seq<Event>, t: State, alive: set<Owner>, id: nat)
    requires Reaped(limits, s, reaps, t, alive) && id in t.reservations
    requires id in s.reservations && s.reservations[id].owner !in alive
    ensures Reaped(limits, s, reaps + [Reap(id)], Finished(t, t.reservations[id].key, id, false), alive)
  {
    assert (reaps + [Reap(id)])[..|reaps + [Reap(id)]| - 1] == reaps;
  }

  /** The reservations left when those of dead owners outside `todo` are gone. */
  function Left(reservations: map<nat, Reservation>, todo: set<nat>, alive: set<Owner>): map<nat, Reservation> {
    map id | id in reservations && (id in todo || reservations[id].owner in alive) :: reservations[id]
  }

  lemma LeftDrops(reservations: map<nat, Reservation>, todo: set<nat>, alive: set<Owner>, id: nat)
    requires id in todo && id in reservations
    ensures Left(reservations, todo - {id}, alive)
            == if reservations[id].owner in alive then Left(reservations, todo, alive) else Left(reservations, todo, alive) - {id}
  {
  }

  lemma AllLeft(reservations: map<nat, Reservation>, alive: set<Owner>)
    ensures Left(reservations, reservations.Keys, alive) == reservations
  {
  }

  /** Gives back the slots of processes that are gone; afterwards every slot belongs to a live one. */
  method ReapAbandoned(s: State, alive: set<Owner>, ghost limits: AlertLimits) returns (t: State, changed: bool, ghost reaps: seq<Event>)
    requires Consistent(s)
    ensures Consistent(t) && t.day == s.day && Reaped(limits, s, reaps, t, alive) && (changed <==> reaps != [])
    ensures t.reservations == Left(s.reservations, {}, alive)
  {
    t, changed, reaps := s, false, [];
    var todo := s.reservations.Keys;
    AllLeft(s.reservations, alive);
    while todo != {}
      invariant todo <= s.reservations.Keys && Consistent(t) && t.day == s.day
      invariant Reaped(limits, s, reaps, t, alive) && (changed <==> reaps != [])
      invariant t.reservations == Left(s.reservations, todo, alive)
      decreases |todo|
    {
      IdsEmptyOrNot(todo);
      var id :| id in todo;
      LeftDrops(s.reservations, todo, alive, id);
      if s.reservations[id].owner !in alive {
        t, reaps := ReapReservation(s, t, alive, id, limits, reaps);
        changed := true;
      }
      todo := todo - {id};
    }
  }

  method ReapReservation(ghost s: State, t: State, ghost alive: set<Owner>, id: nat, ghost limits: AlertLimits, ghost reaps: seq<Event>)
    returns (t': State, ghost reaps': seq<Event>)
    requires Consistent(t) && id in t.reservations && Reaped(limits, s, reaps, t, alive)
    requires id in s.reservations && s.reservations[id].owner !in alive
    ensures Consistent(t') && t'.day == t.day && t'.reservations == t.reservations - {id}
    ensures Reaped(limits, s, reaps', t', alive) && reaps' != []
  {
    var key := t.reservations[id].key;
    FinishConsistent(t, key, id, false);
    ReapOne(limits, s, reaps, t, alive, id);
    var done;
    t', done := FinishReservation(t, key, id, false);
    reaps' := reaps + [Reap(id)];
  }

  // ---------------------------------------------------------------- the file

  ghost function LoadedState(file: Option<State>, day: int): State {
    if file.Some? && Loadable(file.value) then Pruned(file.value) else Fresh(day)
  }

  lemma LoadedIsConsistent(file: Option<State>, day: int)
    ensures Consistent(LoadedState(file, day))
  {
    if file.Some? && Loadable(file.value) {
      LoadedConsistent(file.value);
    }
  }

  method CheckKey(s: State, key: string) returns (ok: bool)
    requires key in s.keys
    ensures ok <==> KeyConsistent(s, key, s.keys[key])
  {
    var b := s.keys[key];
    if (b.confirmed == 0) != b.lastSuccess.None? {
      return false;
    }
    var pending, last := ScanPending(s.reservations, key, b.lastSuccess);
    ok := b.count == b.confirmed + pending && b.lastSent == last;
    if IsLatest(b.lastSent, s.reservations, key, b.lastSuccess) {
      LatestUnique(b.lastSent, last, s.reservations, key, b.lastSuccess);
    }
  }

  method CheckLoaded(s: State) returns (ok: bool)
    ensures ok <==> Loadable(s)
  {
    if exists id :: id in s.reservations && s.reservations[id].key !in s.keys {
      return false;
    }
    var todo := s.keys.Keys;
    while todo != {}
      invariant todo <= s.keys.Keys
      invariant forall k :: k in s.keys && k !in todo ==> KeyConsistent(s, k, s.keys[k])
      decreases |todo|
    {
      SomeKey(todo);
      var key :| key in todo;
      var fits := CheckKey(s, key);
      if !fits {
        return false;
      }
      todo := todo - {key};
    }
    var total := SumAll(s.keys);
    ok := total == s.sentToday;
  }

  lemma SomeKey(keys: set<string>)
    ensures keys == {} || exists k :: k in keys
  {
    if forall k :: k !in keys {
      assert keys == {};
    }
  }

  // ---------------------------------------------------------------- calls as runs

  /** No two reservations share an id. */
  predicate DistinctIds(events: seq<Event>) {
    forall i, j :: 0 <= i < j < |events| && events[i].Reserve? && events[j].Reserve? ==> events[i].id != events[j].id
  }

  predicate Unused(id: nat, events: seq<Event>) {
    forall i :: 0 <= i < |events| && events[i].Reserve? ==> events[i].id != id
  }

  /** A slot, reserved or sent, was reserved by some event. */
  lemma {:induction false} UnusedIsFree(limits: AlertLimits, day: int, events: seq<Event>, id: nat)
    requires Unused(id, events)
    ensures var b := Run(limits, NewDay(day), events); id !in b.state.reservations && id !in b.sent
  {
    if events != [] {
      UnusedIsFree(limits, day, events[..|events| - 1], id);
    }
  }

  lemma DistinctAreFresh(limits: AlertLimits, day: int, events: seq<Event>)
    requires DistinctIds(events)
    ensures FreshIds(limits, NewDay(day), events)
  {
    forall i | 0 <= i < |events| && events[i].Reserve?
      ensures var now := Run(limits, NewDay(day), events[..i]);
              events[i].id !in now.state.reservations && events[i].id !in now.sent
    {
      UnusedIsFree(limits, day, events[..i], events[i].id);
    }
  }

  lemma {:induction false} RunConcat(limits: AlertLimits, b: Books, before: seq<Event>, after: seq<Event>)
    ensures Run(limits, b, before + after) == Run(limits, Run(limits, b, before), after)
  {
    if after == [] {
      assert before + after == before;
    } else {
      var init := after[..|after| - 1];
      RunConcat(limits, b, before, init);
      assert (before + after)[..|before + after| - 1] == before + init;
    }
  }

  /** The state does not depend on what was sent. */
  lemma {:induction false} StateAlone(limits: AlertLimits, s: State, sent: map<nat, Reservation>, events: seq<Event>)
    ensures Run(limits, Books(s, sent), events).state == Run(limits, Books(s, map[]), events).state
  {
    if events != [] {
      StateAlone(limits, s, sent, events[..|events| - 1]);
    }
  }

  /** A saved state is where one run of its day's events leads. */
  ghost predicate Follows(limits: AlertLimits, s: State, events: seq<Event>) {
    DistinctIds(events) && Run(limits, NewDay(s.day), events).state == s
  }

  /** Whatever the calls were: the file passes its own checks, loads as saved, and keeps every limit; confirmed sends of
      one key are a cooldown apart. */
  lemma FollowsSound(limits: AlertLimits, s: State, events: seq<Event>)
    requires limits.Ok() && Follows(limits, s, events)
    ensures Consistent(s) && WithinLimits(s, limits) && Loadable(s) && Pruned(s) == s
    ensures AllApart(Run(limits, NewDay(s.day), events).sent, limits.cooldown)
  {
    DistinctAreFresh(limits, s.day, events);
    SavedStatesLoad(limits, s.day, events);
    RunSound(limits, s.day, events);
    var b := Run(limits, NewDay(s.day), events);
    forall i, j | i in b.sent && j in b.sent && i != j
      ensures Apart(b.sent[i], b.sent[j], limits.cooldown)
    {
      assert i in Live(b) && j in Live(b) && Live(b)[i] == b.sent[i] && Live(b)[j] == b.sent[j];
    }
  }

  /** The events a call of this day goes on from. */
  function Base(file: Option<State>, events: seq<Event>, day: int): seq<Event> {
    if file.Some? && file.value.day == day then events else []
  }

  ghost predicate FileFollows(limits: AlertLimits, file: Option<State>, events: seq<Event>) {
    file.Some? ==> Follows(limits, file.value, events)
  }

  ghost function TodayState(file: Option<State>, day: int): State {
    var loaded := LoadedState(file, day);
    if loaded.day == day then loaded else Fresh(day)
  }

  lemma TodayFollows(limits: AlertLimits, file: Option<State>, events: seq<Event>, day: int)
    requires limits.Ok() && FileFollows(limits, file, events)
    ensures Follows(limits, TodayState(file, day), Base(file, events, day)) && TodayState(file, day).day == day
    ensures file.Some? ==> LoadedState(file, day) == file.value
  {
    if file.Some? {
      FollowsSound(limits, file.value, events);
    }
  }

  /** Going on with events that reserve nothing twice. */
  lemma FollowsOn(limits: AlertLimits, s: State, events: seq<Event>, more: seq<Event>)
    requires Follows(limits, s, events) && DistinctIds(events + more)
    ensures Run(limits, Books(s, map[]), more).state.day == s.day
    ensures Follows(limits, Run(limits, Books(s, map[]), more).state, events + more)
  {
    RunConcat(limits, NewDay(s.day), events, more);
    StateAlone(limits, s, Run(limits, NewDay(s.day), events).sent, more);
    RunKeepsDay(limits, Books(s, map[]), more);
  }

  lemma {:induction false} RunKeepsDay(limits: AlertLimits, b: Books, events: seq<Event>)
    ensures Run(limits, b, events).state.day == b.state.day
  {
    if events != [] {
      RunKeepsDay(limits, b, events[..|events| - 1]);
    }
  }

  lemma ReserveFollows(
    limits: AlertLimits, today: State, base: seq<Event>, reaps: seq<Event>, reaped: State, alive: set<Owner>,
    key: string, now: real, id: nat, owner: Owner)
    requires Follows(limits, today, base) && Reaped(limits, today, reaps, reaped, alive) && Unused(id, base)
    ensures Follows(limits, Step(limits, Books(reaped, map[]), Event.Reserve(key, now, id, owner)).state,
                    base + (reaps + [Event.Reserve(key, now, id, owner)]))
  {
    var more := reaps + [Event.Reserve(key, now, id, owner)];
    assert more[..|more| - 1] == reaps;
    FollowsOn(limits, today, base, more);
  }

  lemma FinishFollows(limits: AlertLimits, file: Option<State>, events: seq<Event>, day: int, key: string, id: nat, success: bool)
    requires limits.Ok() && FileFollows(limits, file, events)
    ensures var s := LoadedState(file, day);
            s.day == day && Finishes(s, key, id) ==>
              Follows(limits, Finished(s, key, id, success), events + [if success then Commit(key, id) else Release(key, id)])
  {
    var s := LoadedState(file, day);
    TodayFollows(limits, file, events, day);
    if s.day == day && Finishes(s, key, id) {
      var e := if success then Commit(key, id) else Release(key, id);
      assert [e][..|[e]| - 1] == [];
      FollowsOn(limits, s, events, [e]);
    }
  }

  class FileAlertLedger {
    var file: Option<State>
    ghost var events: seq<Event>

    constructor ()
      ensures file.None? && events == []
    {
      file, events := None, [];
    }

    /** The file is where the events of its day lead. */
    ghost predicate Valid(limits: AlertLimits)
      reads this
    {
      limits.Ok() && FileFollows(limits, file, events)
    }

    method Load(day: int) returns (s: State)
      ensures s == LoadedState(file, day)
    {
      if file.None? {
        return Fresh(day);
      }
      var ok := CheckLoaded(file.value);
      s := if ok then Pruned(file.value) else Fresh(day);
    }

    /** Reaps, decides and reserves under the lock; the file moves as a run of the day's events moves it, and calls with
        fresh ids make up one run. */
    method Reserve(key: string, day: int, now: real, id: nat, owner: Owner, alive: set<Owner>, limits: AlertLimits)
      returns (reason: Option<Suppression>, ghost reaps: seq<Event>, ghost reaped: State)
      modifies this
      ensures var today := TodayState(old(file), day);
              && Reaped(limits, today, reaps, reaped, alive)
              && reaped.reservations == Left(today.reservations, {}, alive)
              && reason == DecideFor(reaped, key, now, limits)
              && file == if reason.None? then Some(Step(limits, Books(reaped, map[]), Event.Reserve(key, now, id, owner)).state)
                         else if reaps != [] then Some(reaped) else old(file)
      ensures events == if reason.None? || reaps != []
                        then Base(old(file), old(events), day) + (reaps + [Event.Reserve(key, now, id, owner)]) else old(events)
      ensures old(Valid(limits)) && Unused(id, Base(old(file), old(events), day)) ==> Valid(limits)
      ensures DecidedRightly(reaped, key, now, limits, reason)
      ensures reason.None? ==> file.Some? && id in file.value.reservations && file.value.reservations[id] == Reservation(key, now, owner)
    {
      ghost var base := Base(file, events, day);
      ghost var follows := Valid(limits) && Unused(id, base);
      if follows {
        TodayFollows(limits, file, events, day);
      }
      var s := Load(day);
      LoadedIsConsistent(file, day);
      if s.day != day {
        s := Fresh(day);
      }
      ghost var today := s;
      var changed;
      s, changed, reaps := ReapAbandoned(s, alive, limits);
      reaped := s;
      if follows {
        ReserveFollows(limits, today, base, reaps, reaped, alive, key, now, id, owner);
      }
      reason := DecideFor(s, key, now, limits);
      DecidesRightly(s, key, now, limits);
      if reason.None? {
        var more := s.(reservations := s.reservations[id := Reservation(key, now, owner)]);
        s := RefreshKey(more, key, BudgetOf(s, key));
      }
      if reason.None? || changed {
        file, events := Some(s), base + (reaps + [Event.Reserve(key, now, id, owner)]);
      }
    }

    /** Confirms or releases one reservation, as one more event; an unknown id or another day changes nothing. */
    method Finish(key: string, day: int, id: Option<nat>, success: bool, ghost limits: AlertLimits)
      modifies this
      ensures var s := LoadedState(old(file), day);
              if id.Some? && s.day == day && Finishes(s, key, id.value)
              then && file == Some(Finished(s, key, id.value, success))
                   && events == old(events) + [if success then Commit(key, id.value) else Release(key, id.value)]
              else file == old(file) && events == old(events)
      ensures old(Valid(limits)) ==> Valid(limits)
    {
      if id.None? {
        return;
      }
      var s := Load(day);
      LoadedIsConsistent(file, day);
      if s.day == day {
        var done;
        ghost var e := if success then Commit(key, id.value) else Release(key, id.value);
        if Valid(limits) {
          FinishFollows(limits, file, events, day, key, id.value, success);
        }
        s, done := FinishReservation(s, key, id.value, success);
        if done {
          file, events := Some(s), events + [e];
        }
      }
    }
  }
}

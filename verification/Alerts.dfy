/** The alert budget ledger shared by every process of a deployment: a slot is reserved before a mail is sent
    and confirmed or released afterwards, and slots of dead processes are reclaimed. Each operation runs under
    an exclusive lock on a loaded copy of the saved state. */
module Alerts {
  import opened Contracts

  datatype AlertLimits = AlertLimits(cooldown: real, dailyCap: nat, perKeyCap: nat, reserve: nat) {
    predicate Ok() { perKeyCap >= 1 && reserve < dailyCap }
  }

  datatype Budget = Budget(count: nat, lastSent: Option<real>, confirmed: nat, lastSuccess: Option<real>)

  datatype Owner = Owner(pid: nat, start: string)

  datatype Reservation = Reservation(key: string, now: real, owner: Owner)

  datatype State = State(day: int, sentToday: nat, keys: map<string, Budget>, reservations: map<nat, Reservation>)

  datatype Suppression = DailyCap | PerKeyCap | RepeatBudget | Cooldown

  const NO_BUDGET := Budget(0, None, 0, None)

  function Fresh(day: int): State { State(day, 0, map[], map[]) }

  // ---------------------------------------------------------------- sums and maxima

  lemma KeysEmptyOrNot(keys: map<string, Budget>)
    ensures keys == map[] || exists k :: k in keys
  {
    if forall k :: k !in keys {
      assert keys == map[];
    }
  }

  ghost function SumCounts(keys: map<string, Budget>): nat
    decreases |keys|
  {
    if keys == map[] then 0
    else
      KeysEmptyOrNot(keys);
      var k :| k in keys;
      keys[k].count + SumCounts(keys - {k})
  }

  /** The sum may be taken in any order. */
  lemma {:induction false} SumTakes(keys: map<string, Budget>, k: string)
    requires k in keys
    ensures SumCounts(keys) == keys[k].count + SumCounts(keys - {k})
    decreases |keys|
  {
    KeysEmptyOrNot(keys);
    var first :| first in keys && SumCounts(keys) == keys[first].count + SumCounts(keys - {first});
    if first != k {
      SumTakes(keys - {first}, k);
      SumTakes(keys - {k}, first);
      assert keys - {first} - {k} == keys - {k} - {first};
    }
  }

  lemma SumSets(keys: map<string, Budget>, k: string, b: Budget)
    ensures SumCounts(keys[k := b]) == SumCounts(keys - {k}) + b.count
  {
    SumTakes(keys[k := b], k);
    assert keys[k := b] - {k} == keys - {k};
  }

  lemma SumWithout(keys: map<string, Budget>, k: string)
    ensures SumCounts(keys) == SumCounts(keys - {k}) + if k in keys then keys[k].count else 0
  {
    if k in keys {
      SumTakes(keys, k);
    } else {
      assert keys - {k} == keys;
    }
  }

  /** The reservations of one key. */
  function PendingIds(reservations: map<nat, Reservation>, key: string): set<nat> {
    set id | id in reservations && reservations[id].key == key
  }

  /** The latest of the given reservations' times and a last success. */
  ghost predicate LatestOver(last: Option<real>, reservations: map<nat, Reservation>, ids: set<nat>, success: Option<real>)
    requires ids <= reservations.Keys
  {
    && (last.None? ==> success.None? && ids == {})
    && (last.Some? ==>
          && (success.Some? ==> success.value <= last.value)
          && (forall id :: id in ids ==> reservations[id].now <= last.value)
          && (success == last || exists id :: id in ids && reservations[id].now == last.value))
  }

  /** The latest time among the key's reservations and its last success. */
  ghost predicate IsLatest(last: Option<real>, reservations: map<nat, Reservation>, key: string, success: Option<real>) {
    LatestOver(last, reservations, PendingIds(reservations, key), success)
  }

  lemma LatestUnique(a: Option<real>, b: Option<real>, reservations: map<nat, Reservation>, key: string, success: Option<real>)
    requires IsLatest(a, reservations, key, success) && IsLatest(b, reservations, key, success)
    ensures a == b
  {
  }

  lemma IdsEmptyOrNot(ids: set<nat>)
    ensures ids == {} || exists id :: id in ids
  {
    if forall id :: id !in ids {
      assert ids == {};
    }
  }

  /** Some reservation of a non-empty set is the latest. */
  lemma {:induction false} LatestExists(reservations: map<nat, Reservation>, ids: set<nat>) returns (m: nat)
    requires ids != {} && ids <= reservations.Keys
    ensures m in ids && forall id :: id in ids ==> reservations[id].now <= reservations[m].now
    decreases |ids|
  {
    IdsEmptyOrNot(ids);
    var first :| first in ids;
    var rest := ids - {first};
    m := first;
    if rest != {} {
      var other := LatestExists(reservations, rest);
      m := if reservations[other].now > reservations[first].now then other else first;
    }
    assert forall id :: id in ids ==> id == first || id in rest;
  }

  lemma HasLatest(reservations: map<nat, Reservation>, key: string, success: Option<real>)
    ensures exists last :: IsLatest(last, reservations, key, success)
  {
    var ids := PendingIds(reservations, key);
    if ids == {} {
      assert IsLatest(success, reservations, key, success);
    } else {
      var m := LatestExists(reservations, ids);
      var t := reservations[m].now;
      var last := if success.Some? && success.value > t then success else Some(t);
      assert IsLatest(last, reservations, key, success);
    }
  }

  ghost function Latest(reservations: map<nat, Reservation>, key: string, success: Option<real>): (last: Option<real>)
    ensures IsLatest(last, reservations, key, success)
  {
    HasLatest(reservations, key, success);
    var last :| IsLatest(last, reservations, key, success);
    last
  }

  // ---------------------------------------------------------------- the operations as functions

  /** Recomputes a key's budget from its confirmed sends and its reservations. */
  ghost function Refresh(s: State, key: string, b: Budget): State {
    var count := b.confirmed + |PendingIds(s.reservations, key)|;
    var keys := if count == 0 then s.keys - {key}
                else s.keys[key := b.(count := count, lastSent := Latest(s.reservations, key, b.lastSuccess))];
    s.(keys := keys, sentToday := SumCounts(keys))
  }

  function BudgetOf(s: State, key: string): Budget { if key in s.keys then s.keys[key] else NO_BUDGET }

  function Decide(sentToday: nat, keyCount: nat, last: Option<real>, now: real, limits: AlertLimits): Option<Suppression> {
    if sentToday >= limits.dailyCap then Some(DailyCap)
    else if keyCount >= limits.perKeyCap then Some(PerKeyCap)
    else if keyCount > 0 && sentToday >= limits.dailyCap - limits.reserve then Some(RepeatBudget)
    else if last.Some? && now - last.value < limits.cooldown then Some(Cooldown)
    else None
  }

  function DecideFor(s: State, key: string, now: real, limits: AlertLimits): Option<Suppression> {
    var b := BudgetOf(s, key);
    Decide(s.sentToday, b.count, b.lastSent, now, limits)
  }

  /** Why a key may not have another slot now: the day is full, the key is, only first occurrences are served, or the key's
      last slot is too recent. */
  ghost predicate Forbids(s: State, key: string, now: real, limits: AlertLimits, reason: Suppression) {
    var used := if key in s.keys then s.keys[key].count else 0;
    match reason
    case DailyCap => limits.dailyCap <= s.sentToday
    case PerKeyCap => limits.perKeyCap <= used
    case RepeatBudget => used >= 1 && limits.dailyCap <= s.sentToday + limits.reserve
    case Cooldown => key in s.keys && s.keys[key].lastSent.Some? && now < s.keys[key].lastSent.value + limits.cooldown
  }

  /** The order in which the reasons are tried. */
  function ReasonNo(reason: Suppression): nat {
    match reason
    case DailyCap => 0
    case PerKeyCap => 1
    case RepeatBudget => 2
    case Cooldown => 3
  }

  /** A slot is granted if and only if nothing forbids it; otherwise the first reason is given. */
  ghost predicate DecidedRightly(s: State, key: string, now: real, limits: AlertLimits, answer: Option<Suppression>) {
    && (answer.None? <==> forall reason :: !Forbids(s, key, now, limits, reason))
    && (answer.Some? ==>
          && Forbids(s, key, now, limits, answer.value)
          && forall reason :: ReasonNo(reason) < ReasonNo(answer.value) ==> !Forbids(s, key, now, limits, reason))
  }

  lemma DecidesRightly(s: State, key: string, now: real, limits: AlertLimits)
    ensures DecidedRightly(s, key, now, limits, DecideFor(s, key, now, limits))
  {
    assert Forbids(s, key, now, limits, DailyCap) <==> s.sentToday >= limits.dailyCap;
    assert Forbids(s, key, now, limits, PerKeyCap) <==> BudgetOf(s, key).count >= limits.perKeyCap;
    assert Forbids(s, key, now, limits, RepeatBudget)
           <==> BudgetOf(s, key).count > 0 && s.sentToday >= limits.dailyCap - limits.reserve;
    assert Forbids(s, key, now, limits, Cooldown)
           <==> BudgetOf(s, key).lastSent.Some? && now - BudgetOf(s, key).lastSent.value < limits.cooldown;
  }

  ghost function Reserved(s: State, key: string, now: real, id: nat, owner: Owner, limits: AlertLimits): State {
    if DecideFor(s, key, now, limits).Some? then s
    else Refresh(s.(reservations := s.reservations[id := Reservation(key, now, owner)]), key, BudgetOf(s, key))
  }

  predicate Finishes(s: State, key: string, id: nat) { id in s.reservations && s.reservations[id].key == key }

  function Confirmed(b: Budget, now: real): Budget {
    b.(confirmed := b.confirmed + 1,
       lastSuccess := Some(if b.lastSuccess.Some? && b.lastSuccess.value > now then b.lastSuccess.value else now))
  }

  ghost function Finished(s: State, key: string, id: nat, success: bool): State {
    if !Finishes(s, key, id) || key !in s.keys then s
    else
      var b := if success then Confirmed(s.keys[key], s.reservations[id].now) else s.keys[key];
      Refresh(s.(reservations := s.reservations - {id}), key, b)
  }

  // ---------------------------------------------------------------- runs

  /** What happens on one day: a reservation by some process, the end of one, or the reaping of one whose
      process is gone. */
  datatype Event =
    | Reserve(key: string, now: real, id: nat, owner: Owner)
    | Commit(key: string, id: nat)
    | Release(key: string, id: nat)
    | Reap(id: nat)

  /** The ledger and the sends confirmed so far. */
  datatype Books = Books(state: State, sent: map<nat, Reservation>)

  ghost function Step(limits: AlertLimits, b: Books, e: Event): Books {
    match e
    case Reserve(key, now, id, owner) => b.(state := Reserved(b.state, key, now, id, owner, limits))
    case Release(key, id) => b.(state := Finished(b.state, key, id, false))
    case Reap(id) =>
      if id in b.state.reservations then b.(state := Finished(b.state, b.state.reservations[id].key, id, false)) else b
    case Commit(key, id) =>
      if Finishes(b.state, key, id)
      then Books(Finished(b.state, key, id, true), b.sent[id := b.state.reservations[id]]) else b
  }

  ghost function Run(limits: AlertLimits, b: Books, events: seq<Event>): Books {
    if events == [] then b else Step(limits, Run(limits, b, events[..|events| - 1]), events[|events| - 1])
  }

  /** Reservation ids are not used twice. */
  ghost predicate FreshIds(limits: AlertLimits, b: Books, events: seq<Event>) {
    forall i :: 0 <= i < |events| && events[i].Reserve? ==>
      var now := Run(limits, b, events[..i]);
      events[i].id !in now.state.reservations && events[i].id !in now.sent
  }

  // ---------------------------------------------------------------- what every state keeps

  /** One key's budget is what its confirmed sends and reservations say. */
  ghost predicate KeyConsistent(s: State, key: string, b: Budget) {
    && b.count == b.confirmed + |PendingIds(s.reservations, key)|
    && (b.confirmed == 0 <==> b.lastSuccess.None?)
    && IsLatest(b.lastSent, s.reservations, key, b.lastSuccess)
  }

  ghost predicate Consistent(s: State) {
    && (forall id :: id in s.reservations ==> s.reservations[id].key in s.keys)
    && (forall k :: k in s.keys ==> s.keys[k].count > 0 && KeyConsistent(s, k, s.keys[k]))
    && s.sentToday == SumCounts(s.keys)
  }

  /** Slots beyond the first of each key. */
  ghost function Repeats(keys: map<string, Budget>): int { SumCounts(keys) - |keys| }

  ghost predicate WithinLimits(s: State, limits: AlertLimits) {
    && s.sentToday <= limits.dailyCap
    && (forall k :: k in s.keys ==> s.keys[k].count <= limits.perKeyCap)
    && Repeats(s.keys) < limits.dailyCap - limits.reserve
  }

  predicate Apart(a: Reservation, b: Reservation, cooldown: real) {
    a.key == b.key ==> a.now - b.now >= cooldown || b.now - a.now >= cooldown
  }

  /** Sent and reserved slots together. */
  function Live(b: Books): map<nat, Reservation> { b.sent + b.state.reservations }

  /** The slots of one key, sent or reserved, are pairwise a cooldown apart. */
  ghost predicate AllApart(live: map<nat, Reservation>, cooldown: real) {
    forall i, j :: i in live && j in live && i != j ==> Apart(live[i], live[j], cooldown)
  }

  /** A key's last success is no earlier than any of its sends. */
  ghost predicate SuccessCovers(sent: map<nat, Reservation>, keys: map<string, Budget>) {
    forall i :: i in sent ==>
      && sent[i].key in keys && keys[sent[i].key].lastSuccess.Some?
      && sent[i].now <= keys[sent[i].key].lastSuccess.value
  }

  ghost predicate Cool(b: Books, cooldown: real) {
    && b.sent.Keys !! b.state.reservations.Keys
    && AllApart(Live(b), cooldown) && SuccessCovers(b.sent, b.state.keys)
  }

  // ---------------------------------------------------------------- refreshing one key

  /** Everything but one key is consistent. */
  ghost predicate ConsistentBut(s: State, key: string) {
    && (forall id :: id in s.reservations ==> s.reservations[id].key == key || s.reservations[id].key in s.keys)
    && (forall k :: k in s.keys && k != key ==> s.keys[k].count > 0 && KeyConsistent(s, k, s.keys[k]))
  }

  lemma RefreshConsistent(s: State, key: string, b: Budget)
    requires ConsistentBut(s, key) && (b.confirmed == 0 <==> b.lastSuccess.None?)
    ensures Consistent(Refresh(s, key, b))
  {
    var t := Refresh(s, key, b);
    forall id | id in t.reservations
      ensures t.reservations[id].key in t.keys
    {
      if t.reservations[id].key == key {
        assert id in PendingIds(s.reservations, key);
        assert |PendingIds(s.reservations, key)| > 0;
      }
    }
  }

  lemma SizeWithout(keys: map<string, Budget>, key: string)
    ensures |keys| == |keys - {key}| + if key in keys then 1 else 0
  {
    if key in keys {
      assert keys.Keys == (keys - {key}).Keys + {key};
    } else {
      assert keys - {key} == keys;
    }
  }

  lemma SetsSums(keys: map<string, Budget>, key: string, b: Budget)
    ensures SumCounts(keys[key := b]) == SumCounts(keys - {key}) + b.count
    ensures |keys[key := b]| == |keys - {key}| + 1
  {
    SumSets(keys, key, b);
    SizeWithout(keys[key := b], key);
    assert keys[key := b] - {key} == keys - {key};
  }

  /** The day's total after refreshing a key, and how many keys there are. */
  lemma RefreshSums(s: State, key: string, b: Budget)
    ensures var t, count := Refresh(s, key, b), b.confirmed + |PendingIds(s.reservations, key)|;
            && t.sentToday == SumCounts(t.keys) == SumCounts(s.keys - {key}) + count
            && |t.keys| == |s.keys - {key}| + if count > 0 then 1 else 0
  {
    var count := b.confirmed + |PendingIds(s.reservations, key)|;
    if count > 0 {
      SetsSums(s.keys, key, b.(count := count, lastSent := Latest(s.reservations, key, b.lastSuccess)));
    }
  }

  // ---------------------------------------------------------------- reserving

  lemma PendingAdds(reservations: map<nat, Reservation>, id: nat, r: Reservation, key: string)
    requires id !in reservations
    ensures PendingIds(reservations[id := r], key) == PendingIds(reservations, key) + if r.key == key then {id} else {}
    ensures |PendingIds(reservations[id := r], key)| == |PendingIds(reservations, key)| + if r.key == key then 1 else 0
  {
  }

  lemma OthersUnmoved(s: State, t: State, key: string)
    requires Consistent(s) && t.keys == s.keys
    requires forall id :: id in t.reservations ==> t.reservations[id].key == key || t.reservations[id].key in s.keys
    requires forall k :: k != key ==> PendingIds(t.reservations, k) == PendingIds(s.reservations, k)
    requires forall id :: id in s.reservations && id in t.reservations ==> t.reservations[id] == s.reservations[id]
    ensures ConsistentBut(t, key)
  {
    forall k | k in s.keys && k != key
      ensures KeyConsistent(t, k, s.keys[k])
    {
      assert forall id :: id in PendingIds(s.reservations, k) ==> id in t.reservations;
    }
  }

  lemma NoPending(s: State, key: string)
    requires Consistent(s) && key !in s.keys
    ensures PendingIds(s.reservations, key) == {}
  {
  }

  /** The count a key has, whether it is listed or not. */
  lemma CountOf(s: State, key: string)
    requires Consistent(s)
    ensures BudgetOf(s, key).count == BudgetOf(s, key).confirmed + |PendingIds(s.reservations, key)|
    ensures BudgetOf(s, key).confirmed == 0 <==> BudgetOf(s, key).lastSuccess.None?
    ensures SumCounts(s.keys) == SumCounts(s.keys - {key}) + BudgetOf(s, key).count
  {
    SumWithout(s.keys, key);
    if key !in s.keys {
      NoPending(s, key);
    }
  }

  lemma ReserveConsistent(s: State, key: string, now: real, id: nat, owner: Owner, limits: AlertLimits)
    requires Consistent(s) && id !in s.reservations
    ensures Consistent(Reserved(s, key, now, id, owner, limits))
  {
    var r := Reservation(key, now, owner);
    var t := s.(reservations := s.reservations[id := r]);
    forall k | k != key
      ensures PendingIds(t.reservations, k) == PendingIds(s.reservations, k)
    {
      PendingAdds(s.reservations, id, r, k);
    }
    OthersUnmoved(s, t, key);
    CountOf(s, key);
    RefreshConsistent(t, key, BudgetOf(s, key));
  }

  /** An admitted reservation takes one slot of the day and one of its key. */
  lemma ReserveTakesOne(s: State, key: string, now: real, id: nat, owner: Owner, limits: AlertLimits)
    requires Consistent(s) && id !in s.reservations && DecideFor(s, key, now, limits).None?
    ensures var t := Reserved(s, key, now, id, owner, limits);
            && t.sentToday == SumCounts(t.keys) == s.sentToday + 1
            && |t.keys| == |s.keys| + (if key in s.keys then 0 else 1)
            && key in t.keys && t.keys[key].count == BudgetOf(s, key).count + 1
            && (forall k :: k in t.keys && k != key ==> k in s.keys && t.keys[k] == s.keys[k])
  {
    var r := Reservation(key, now, owner);
    PendingAdds(s.reservations, id, r, key);
    CountOf(s, key);
    RefreshSums(s.(reservations := s.reservations[id := r]), key, BudgetOf(s, key));
    SizeWithout(s.keys, key);
  }

  lemma ReserveWithin(s: State, key: string, now: real, id: nat, owner: Owner, limits: AlertLimits)
    requires limits.Ok() && Consistent(s) && WithinLimits(s, limits) && id !in s.reservations
    ensures WithinLimits(Reserved(s, key, now, id, owner, limits), limits)
  {
    if DecideFor(s, key, now, limits).None? {
      ReserveTakesOne(s, key, now, id, owner, limits);
      if key in s.keys {
        assert |s.keys| > 0 by { SizeWithout(s.keys, key); }
      }
    }
  }

  // ---------------------------------------------------------------- finishing

  lemma PendingDrops(reservations: map<nat, Reservation>, id: nat, key: string)
    requires id in reservations
    ensures PendingIds(reservations - {id}, key) == PendingIds(reservations, key) - if reservations[id].key == key then {id} else {}
    ensures |PendingIds(reservations - {id}, key)| == |PendingIds(reservations, key)| - if reservations[id].key == key then 1 else 0
  {
    if reservations[id].key == key {
      assert id in PendingIds(reservations, key);
    }
  }

  lemma FinishConsistent(s: State, key: string, id: nat, success: bool)
    requires Consistent(s)
    ensures Consistent(Finished(s, key, id, success))
  {
    if Finishes(s, key, id) {
      var t := s.(reservations := s.reservations - {id});
      forall k | k != key
        ensures PendingIds(t.reservations, k) == PendingIds(s.reservations, k)
      {
        PendingDrops(s.reservations, id, k);
      }
      OthersUnmoved(s, t, key);
      RefreshConsistent(t, key, if success then Confirmed(s.keys[key], s.reservations[id].now) else s.keys[key]);
    }
  }

  /** Confirming keeps the slot; releasing gives it back. */
  lemma FinishGivesBack(s: State, key: string, id: nat, success: bool)
    requires Consistent(s) && Finishes(s, key, id)
    ensures var t := Finished(s, key, id, success);
            var gone := !success && s.keys[key].count == 1;
            && t.sentToday == SumCounts(t.keys) == s.sentToday - (if success then 0 else 1)
            && |t.keys| == |s.keys| - (if gone then 1 else 0)
            && (if gone then key !in t.keys
                else key in t.keys && t.keys[key].count == s.keys[key].count - (if success then 0 else 1))
            && (forall k :: k in t.keys && k != key ==> k in s.keys && t.keys[k] == s.keys[k])
  {
    PendingDrops(s.reservations, id, key);
    CountOf(s, key);
    var b := if success then Confirmed(s.keys[key], s.reservations[id].now) else s.keys[key];
    RefreshSums(s.(reservations := s.reservations - {id}), key, b);
    SizeWithout(s.keys, key);
  }

  lemma FinishWithin(s: State, key: string, id: nat, success: bool, limits: AlertLimits)
    requires Consistent(s) && WithinLimits(s, limits)
    ensures WithinLimits(Finished(s, key, id, success), limits)
  {
    if Finishes(s, key, id) {
      FinishGivesBack(s, key, id, success);
    }
  }

  // ---------------------------------------------------------------- cooldown

  /** Every live slot of a key is no later than the time its budget remembers. */
  lemma LastCoversLive(b: Books, cooldown: real, i: nat)
    requires Consistent(b.state) && Cool(b, cooldown) && i in Live(b)
    ensures var last := BudgetOf(b.state, Live(b)[i].key).lastSent;
            last.Some? && Live(b)[i].now <= last.value
  {
    var key := Live(b)[i].key;
    if i in b.state.reservations {
      assert i in PendingIds(b.state.reservations, key);
      assert KeyConsistent(b.state, key, b.state.keys[key]);
    } else {
      assert KeyConsistent(b.state, key, b.state.keys[key]);
    }
  }

  lemma ApartGrows(live: map<nat, Reservation>, id: nat, r: Reservation, cooldown: real)
    requires AllApart(live, cooldown) && id !in live
    requires forall i :: i in live ==> Apart(live[i], r, cooldown)
    ensures AllApart(live[id := r], cooldown)
  {
  }

  lemma LiveMoves(sent: map<nat, Reservation>, reservations: map<nat, Reservation>, id: nat)
    requires id in reservations && sent.Keys !! reservations.Keys
    ensures sent[id := reservations[id]] + (reservations - {id}) == sent + reservations
    ensures sent + (reservations - {id}) == sent + reservations - {id}
  {
  }

  /** No success time is forgotten or moved. */
  ghost predicate SuccessesStay(before: map<string, Budget>, after: map<string, Budget>) {
    forall k :: k in before && before[k].lastSuccess.Some? ==> k in after && after[k].lastSuccess == before[k].lastSuccess
  }

  lemma CoversStay(sent: map<nat, Reservation>, before: map<string, Budget>, after: map<string, Budget>)
    requires SuccessCovers(sent, before) && SuccessesStay(before, after)
    ensures SuccessCovers(sent, after)
  {
  }

  lemma RefreshStays(s: State, key: string, b: Budget)
    requires b.lastSuccess == BudgetOf(s, key).lastSuccess && (b.confirmed == 0 <==> b.lastSuccess.None?)
    ensures SuccessesStay(s.keys, Refresh(s, key, b).keys)
  {
  }

  /** A slot admitted a cooldown after the key's last time is apart from every live slot. */
  lemma NewSlotApart(b: Books, limits: AlertLimits, r: Reservation, i: nat)
    requires Consistent(b.state) && Cool(b, limits.cooldown) && i in Live(b)
    requires var last := BudgetOf(b.state, r.key).lastSent; last.Some? ==> r.now - last.value >= limits.cooldown
    ensures Apart(Live(b)[i], r, limits.cooldown)
  {
    LastCoversLive(b, limits.cooldown, i);
  }

  lemma LiveGrows(sent: map<nat, Reservation>, reservations: map<nat, Reservation>, id: nat, r: Reservation)
    ensures sent + reservations[id := r] == (sent + reservations)[id := r]
  {
  }

  lemma ReserveApart(b: Books, id: nat, r: Reservation, limits: AlertLimits)
    requires Consistent(b.state) && Cool(b, limits.cooldown) && id !in b.state.reservations && id !in b.sent
    requires var last := BudgetOf(b.state, r.key).lastSent; last.Some? ==> r.now - last.value >= limits.cooldown
    ensures AllApart(b.sent + b.state.reservations[id := r], limits.cooldown)
  {
    assert forall i :: i in Live(b) ==> Apart(Live(b)[i], r, limits.cooldown) by {
      forall i | i in Live(b)
        ensures Apart(Live(b)[i], r, limits.cooldown)
      {
        NewSlotApart(b, limits, r, i);
      }
    }
    LiveGrows(b.sent, b.state.reservations, id, r);
    ApartGrows(Live(b), id, r, limits.cooldown);
  }

  lemma ReserveCovers(sent: map<nat, Reservation>, s: State, key: string, now: real, id: nat, owner: Owner, limits: AlertLimits)
    requires Consistent(s) && SuccessCovers(sent, s.keys)
    ensures SuccessCovers(sent, Reserved(s, key, now, id, owner, limits).keys)
  {
    var more := s.reservations[id := Reservation(key, now, owner)];
    CountOf(s, key);
    RefreshStays(s.(reservations := more), key, BudgetOf(s, key));
    CoversStay(sent, s.keys, Reserved(s, key, now, id, owner, limits).keys);
  }

  lemma ReserveCool(b: Books, key: string, now: real, id: nat, owner: Owner, limits: AlertLimits)
    requires Consistent(b.state) && Cool(b, limits.cooldown) && id !in b.state.reservations && id !in b.sent
    ensures Cool(b.(state := Reserved(b.state, key, now, id, owner, limits)), limits.cooldown)
  {
    if DecideFor(b.state, key, now, limits).None? {
      ReserveCovers(b.sent, b.state, key, now, id, owner, limits);
      ReserveApart(b, id, Reservation(key, now, owner), limits);
    }
  }

  lemma DropCool(b: Books, key: string, id: nat, cooldown: real)
    requires Consistent(b.state) && Cool(b, cooldown)
    ensures Cool(b.(state := Finished(b.state, key, id, false)), cooldown)
  {
    var s := b.state;
    if Finishes(s, key, id) {
      var fewer := s.reservations - {id};
      assert AllApart(b.sent + fewer, cooldown) by {
        LiveMoves(b.sent, s.reservations, id);
      }
      assert SuccessCovers(b.sent, Finished(s, key, id, false).keys) by {
        CountOf(s, key);
        RefreshStays(s.(reservations := fewer), key, s.keys[key]);
        CoversStay(b.sent, s.keys, Finished(s, key, id, false).keys);
      }
    }
  }

  lemma CoversMore(sent: map<nat, Reservation>, id: nat, r: Reservation, before: map<string, Budget>, after: map<string, Budget>)
    requires SuccessCovers(sent, before) && r.key in before && r.key in after
    requires forall k :: k in before && k != r.key ==> k in after && after[k] == before[k]
    requires after[r.key].lastSuccess.Some? && after[r.key].lastSuccess.value >= r.now
    requires before[r.key].lastSuccess.Some? ==> after[r.key].lastSuccess.value >= before[r.key].lastSuccess.value
    ensures SuccessCovers(sent[id := r], after)
  {
  }

  lemma CommitCovers(sent: map<nat, Reservation>, s: State, key: string, id: nat)
    requires Consistent(s) && SuccessCovers(sent, s.keys) && Finishes(s, key, id)
    ensures SuccessCovers(sent[id := s.reservations[id]], Finished(s, key, id, true).keys)
  {
    CoversMore(sent, id, s.reservations[id], s.keys, Finished(s, key, id, true).keys);
  }

  lemma CommitCool(b: Books, key: string, id: nat, cooldown: real)
    requires Consistent(b.state) && Cool(b, cooldown) && Finishes(b.state, key, id)
    ensures Cool(Books(Finished(b.state, key, id, true), b.sent[id := b.state.reservations[id]]), cooldown)
  {
    var s := b.state;
    assert AllApart(b.sent[id := s.reservations[id]] + (s.reservations - {id}), cooldown) by {
      LiveMoves(b.sent, s.reservations, id);
    }
    CommitCovers(b.sent, s, key, id);
  }

  // ---------------------------------------------------------------- every run

  ghost predicate Sound(b: Books, limits: AlertLimits) {
    Consistent(b.state) && WithinLimits(b.state, limits) && Cool(b, limits.cooldown)
  }

  lemma StepSound(limits: AlertLimits, b: Books, e: Event)
    requires limits.Ok() && Sound(b, limits)
    requires e.Reserve? ==> e.id !in b.state.reservations && e.id !in b.sent
    ensures Sound(Step(limits, b, e), limits)
  {
    match e
    case Reserve(key, now, id, owner) =>
      ReserveConsistent(b.state, key, now, id, owner, limits);
      ReserveWithin(b.state, key, now, id, owner, limits);
      ReserveCool(b, key, now, id, owner, limits);
    case Commit(key, id) =>
      if Finishes(b.state, key, id) {
        FinishConsistent(b.state, key, id, true);
        FinishWithin(b.state, key, id, true, limits);
        CommitCool(b, key, id, limits.cooldown);
      }
    case Release(key, id) =>
      FinishConsistent(b.state, key, id, false);
      FinishWithin(b.state, key, id, false, limits);
      DropCool(b, key, id, limits.cooldown);
    case Reap(id) =>
      if id in b.state.reservations {
        var key := b.state.reservations[id].key;
        FinishConsistent(b.state, key, id, false);
        FinishWithin(b.state, key, id, false, limits);
        DropCool(b, key, id, limits.cooldown);
      }
  }

  function NewDay(day: int): Books { Books(Fresh(day), map[]) }

  lemma {:induction false} RunSound(limits: AlertLimits, day: int, events: seq<Event>)
    requires limits.Ok() && FreshIds(limits, NewDay(day), events)
    ensures Sound(Run(limits, NewDay(day), events), limits)
  {
    if events != [] {
      var init := events[..|events| - 1];
      assert FreshIds(limits, NewDay(day), init) by {
        forall i | 0 <= i < |init| ensures init[..i] == events[..i] {}
      }
      RunSound(limits, day, init);
      StepSound(limits, Run(limits, NewDay(day), init), events[|events| - 1]);
    }
  }

  /** Over every interleaving of reservations, commits, releases and reaping on one day: each key's count is its
      confirmed sends plus its reservations and stays within the key's cap, the day's total is the sum of the
      counts and stays within the daily cap, and repeats leave the reserve to first occurrences. */
  lemma BudgetsHold(limits: AlertLimits, day: int, events: seq<Event>)
    requires limits.Ok() && FreshIds(limits, NewDay(day), events)
    ensures var s := Run(limits, NewDay(day), events).state;
            && s.sentToday == SumCounts(s.keys) <= limits.dailyCap
            && (forall k :: k in s.keys ==>
                  && s.keys[k].count == s.keys[k].confirmed + |PendingIds(s.reservations, k)|
                  && 0 < s.keys[k].count <= limits.perKeyCap)
            && Repeats(s.keys) < limits.dailyCap - limits.reserve
  {
    RunSound(limits, day, events);
  }

  /** Two confirmed sends of one key are at least a cooldown apart. */
  lemma SendsCooldown(limits: AlertLimits, day: int, events: seq<Event>, i: nat, j: nat)
    requires limits.Ok() && FreshIds(limits, NewDay(day), events) && i != j
    requires var sent := Run(limits, NewDay(day), events).sent; i in sent && j in sent && sent[i].key == sent[j].key
    ensures var sent := Run(limits, NewDay(day), events).sent;
            sent[i].now - sent[j].now >= limits.cooldown || sent[j].now - sent[i].now >= limits.cooldown
  {
    RunSound(limits, day, events);
    var b := Run(limits, NewDay(day), events);
    assert i in Live(b) && j in Live(b) && Apart(Live(b)[i], Live(b)[j], limits.cooldown);
  }

  // ---------------------------------------------------------------- loading

  /** What a loaded file is checked for. */
  ghost predicate Loadable(s: State) {
    && (forall id :: id in s.reservations ==> s.reservations[id].key in s.keys)
    && (forall k :: k in s.keys ==> KeyConsistent(s, k, s.keys[k]))
    && s.sentToday == SumCounts(s.keys)
  }

  /** Checking drops the keys that hold nothing. */
  function Pruned(s: State): State { s.(keys := map k | k in s.keys && s.keys[k].count > 0 :: s.keys[k]) }

  lemma {:induction false} PrunedSum(keys: map<string, Budget>)
    ensures SumCounts(map k | k in keys && keys[k].count > 0 :: keys[k]) == SumCounts(keys)
    decreases |keys|
  {
    var pruned := map k | k in keys && keys[k].count > 0 :: keys[k];
    if exists k :: k in keys && keys[k].count == 0 {
      var k :| k in keys && keys[k].count == 0;
      SumTakes(keys, k);
      PrunedSum(keys - {k});
      assert pruned == map j | j in keys - {k} && (keys - {k})[j].count > 0 :: (keys - {k})[j];
    } else {
      assert pruned == keys;
    }
  }

  /** A file that passes the checks loads as a consistent state. */
  lemma LoadedConsistent(s: State)
    requires Loadable(s)
    ensures Consistent(Pruned(s))
  {
    PrunedSum(s.keys);
    forall id | id in s.reservations
      ensures s.reservations[id].key in Pruned(s).keys
    {
      assert id in PendingIds(s.reservations, s.reservations[id].key);
      assert |PendingIds(s.reservations, s.reservations[id].key)| > 0;
    }
  }

  /** Every state a run saves passes the checks made when it is loaded, and loads as it was saved. */
  lemma SavedStatesLoad(limits: AlertLimits, day: int, events: seq<Event>)
    requires limits.Ok() && FreshIds(limits, NewDay(day), events)
    ensures var s := Run(limits, NewDay(day), events).state;
            Loadable(s) && Pruned(s) == s
  {
    RunSound(limits, day, events);
    var s := Run(limits, NewDay(day), events).state;
    assert Pruned(s).keys == s.keys;
  }
}

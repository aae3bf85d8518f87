/** Sound sources captured once and shared: the store of
    crates/asset_audio/src/zone_sound.rs. Every action below is one critical section,
    and a run is any interleaving of them. */
module ZoneSound {
  import opened Wrappers

  type Path = string
  type Thread = nat
  type ClaimId = nat

  /** The outcome of a capture. The number stands for the shared catalogue itself. */
  type Stored = Result<nat, string>

  datatype Slot = Capturing | Ready(stored: Stored, walk: string)

  /** A thread asleep on the condition variable, and whether it has been woken. */
  datatype Wait = Wait(key: Path, notified: bool)

  datatype Delivery = Delivery(key: Path, stored: Stored, walk: string)

  /** slots is the shared map. claims holds the live claims not filled yet;
      fills and shown log what was ever stored and what shared readers got. */
  datatype StoreState = StoreState(
    slots: map<Path, Slot>,
    claims: map<ClaimId, Path>,
    nextClaim: ClaimId,
    waiters: map<Thread, Wait>,
    fills: seq<Delivery>,
    shown: seq<Delivery>)

  const EMPTY := StoreState(map[], map[], 0, map[], [], [])

  datatype Action =
    | TakeClaim(path: Path)
    | FillClaim(id: ClaimId, stored: Stored, walk: string)
    | AbandonClaim(id: ClaimId)
    | Look(thread: Thread, path: Path, isT6: bool)

  /** Every sleeper is woken. */
  function Woken(waiters: map<Thread, Wait>): map<Thread, Wait> {
    map t | t in waiters :: waiters[t].(notified := true)
  }

  function Without<K, V>(m: map<K, V>, k: K): map<K, V> {
    map j | j in m && j != k :: m[j]
  }

  /** Only a live claim can be filled or abandoned, and a sleeping thread can only
      look again at what it waits for. */
  predicate Enabled(s: StoreState, a: Action) {
    match a
    case TakeClaim(_) => true
    case FillClaim(id, _, _) => id in s.claims
    case AbandonClaim(id) => id in s.claims
    case Look(t, path, _) => t in s.waiters ==> s.waiters[t].key == path
  }

  function Claimed(s: StoreState, path: Path): StoreState {
    s.(slots := s.slots[path := Capturing], claims := s.claims[s.nextClaim := path], nextClaim := s.nextClaim + 1)
  }

  function Next(s: StoreState, a: Action): StoreState
    requires Enabled(s, a)
  {
    match a
    case TakeClaim(path) => if path in s.slots then s else Claimed(s, path)
    case FillClaim(id, stored, walk) =>
      s.(slots := s.slots[s.claims[id] := Ready(stored, walk)],
         claims := Without(s.claims, id),
         waiters := Woken(s.waiters),
         fills := s.fills + [Delivery(s.claims[id], stored, walk)])
    case AbandonClaim(id) =>
      var key := s.claims[id];
      s.(slots := if key in s.slots && s.slots[key].Capturing? then Without(s.slots, key) else s.slots,
         claims := Without(s.claims, id),
         waiters := Woken(s.waiters))
    case Look(t, path, isT6) =>
      var awake := s.(waiters := Without(s.waiters, t));
      if path !in s.slots then if isT6 then awake else Claimed(awake, path)
      else
        match s.slots[path]
        case Capturing => s.(waiters := s.waiters[t := Wait(path, false)])
        case Ready(stored, walk) => awake.(shown := s.shown + [Delivery(path, stored, walk)])
  }

  // ---------- the store and its claims ----------

  /** What one turn of the waiting loop ends with. */
  datatype Looked = Shared(stored: Stored, walk: string) | Blocked | NoT6 | MustCapture(claim: Claim)

  class Claim {
    const key: Path
    const id: ClaimId
    var filled: bool

    constructor (key: Path, id: ClaimId)
      ensures this.key == key && this.id == id && !filled
    {
      this.key, this.id, this.filled := key, id, false;
    }

    /** A claim that has not been filled is one of the store's live claims. */
    ghost predicate Live(store: Store)
      reads this, store
    {
      !filled && id in store.claims && store.claims[id] == key
    }

    /** Stores the outcome and wakes every waiter. The claim goes out of scope
        filled, so that dropping it changes nothing more. */
    method Fill(store: Store, stored: Stored, walk: string)
      requires Live(store)
      modifies this, store
      ensures store.State() == Next(old(store.State()), FillClaim(id, stored, walk))
      ensures filled && store.slots == old(store.slots)[key := Ready(stored, walk)] && id !in store.claims
      ensures forall t | t in store.waiters :: store.waiters[t].notified
    {
      store.slots := store.slots[key := Ready(stored, walk)];
      filled := true;
      store.NotifyAll();
      store.claims := Without(store.claims, id);
      store.fills := store.fills + [Delivery(key, stored, walk)];
      Drop(store);
    }

    /** Runs whenever a claim goes away, on a panic as well. */
    method Drop(store: Store)
      requires !filled ==> Live(store)
      modifies store
      ensures store.State() == if filled then old(store.State()) else Next(old(store.State()), AbandonClaim(id))
      ensures !filled ==>
                && id !in store.claims
                && (key in store.slots ==> store.slots[key].Ready?)
                && forall t | t in store.waiters :: store.waiters[t].notified
    {
      if filled {
        return;
      }
      if key in store.slots && store.slots[key].Capturing? {
        store.slots := Without(store.slots, key);
      }
      store.NotifyAll();
      store.claims := Without(store.claims, id);
    }
  }

  class Store {
    var slots: map<Path, Slot>
    var waiters: map<Thread, Wait>
    var claims: map<ClaimId, Path>
    var nextClaim: ClaimId
    var fills: seq<Delivery>
    var shown: seq<Delivery>

    function State(): StoreState
      reads this
    {
      StoreState(slots, claims, nextClaim, waiters, fills, shown)
    }

    constructor ()
      ensures State() == EMPTY
    {
      slots, waiters, claims, nextClaim, fills, shown := map[], map[], map[], 0, [], [];
    }

    method NotifyAll()
      modifies this`waiters
      ensures waiters == Woken(old(waiters))
    {
      waiters := Woken(waiters);
    }

    /** The only way in: a key that has no slot gets one, and one claim to it. */
    method Take(path: Path) returns (claim: Option<Claim>)
      modifies this
      ensures State() == Next(old(State()), TakeClaim(path))
      ensures claim.Some? <==> path !in old(slots)
      ensures claim.Some? ==> fresh(claim.value) && claim.value.Live(this) && claim.value.key == path
    {
      if path in slots {
        return None;
      }
      slots := slots[path := Capturing];
      var taken := new Claim(path, nextClaim);
      claims, nextClaim := claims[nextClaim := path], nextClaim + 1;
      claim := Some(taken);
    }

    /** One turn of the loop in which a thread waits for a path: read what is
        there, fall asleep, or take the capture on. */
    method LookOnce(thread: Thread, path: Path, isT6: bool) returns (looked: Looked)
      requires thread in waiters ==> waiters[thread].key == path
      modifies this
      ensures State() == Next(old(State()), Look(thread, path, isT6))
      ensures looked.Shared? <==> path in old(slots) && old(slots)[path].Ready?
      ensures looked.Shared? ==> old(slots)[path] == Ready(looked.stored, looked.walk)
      ensures looked.Blocked? <==> path in old(slots) && old(slots)[path].Capturing?
      ensures looked.NoT6? <==> path !in old(slots) && isT6
      ensures looked.MustCapture? ==> !isT6 && fresh(looked.claim) && looked.claim.Live(this) && looked.claim.key == path
    {
      if path in slots {
        match slots[path]
        case Ready(stored, walk) =>
          shown := shown + [Delivery(path, stored, walk)];
          waiters := Without(waiters, thread);
          return Shared(stored, walk);
        case Capturing =>
          waiters := waiters[thread := Wait(path, false)];
          return Blocked;
      }
      waiters := Without(waiters, thread);
      if isT6 {
        return NoT6;
      }
      var claim := Take(path);
      looked := MustCapture(claim.value);
    }

    /** Other threads run; none of them holds the claim mine. */
    method OthersRun(actions: seq<Action>, mine: Option<ClaimId>)
      modifies this
      ensures State() == Performed(old(State()), actions, mine)
    {
      var s := Performed(State(), actions, mine);
      slots, claims, nextClaim, waiters, fills, shown := s.slots, s.claims, s.nextClaim, s.waiters, s.fills, s.shown;
    }

    /** The waiting loop. During each sleep other threads run; sleeps says what they
        do, and when it runs out the thread is still asleep. */
    method WaitFor(thread: Thread, path: Path, isT6: bool, sleeps: seq<seq<Action>>) returns (looked: Looked)
      requires Inv(State()) && thread !in waiters
      requires forall i | 0 <= i < |sleeps| :: NotBy(sleeps[i], thread)
      modifies this
      ensures Inv(State())
      ensures looked.Shared? ==> path in slots && slots[path] == Ready(looked.stored, looked.walk)
      ensures looked.Blocked? ==> path in slots && slots[path].Capturing? && thread in waiters
      ensures looked.NoT6? ==> path !in slots && isT6
      ensures looked.MustCapture? ==> !isT6 && fresh(looked.claim) && looked.claim.Live(this) && looked.claim.key == path
      ensures !looked.Blocked? ==> thread !in waiters
    {
      looked := LookAgain(thread, path, isT6);
      for i := 0 to |sleeps|
        invariant Inv(State())
        invariant looked.Shared? ==> path in slots && slots[path] == Ready(looked.stored, looked.walk)
        invariant looked.Blocked? ==> path in slots && slots[path].Capturing? && thread in waiters && waiters[thread].key == path
        invariant looked.NoT6? ==> path !in slots && isT6
        invariant looked.MustCapture? ==> !isT6 && fresh(looked.claim) && looked.claim.Live(this) && looked.claim.key == path
        invariant !looked.Blocked? ==> thread !in waiters
      {
        if !looked.Blocked? {
          return;
        }
        PerformedKeeps(State(), sleeps[i], None);
        PerformedLeaves(State(), sleeps[i], None, thread);
        OthersRun(sleeps[i], None);
        looked := LookAgain(thread, path, isT6);
      }
    }

    method LookAgain(thread: Thread, path: Path, isT6: bool) returns (looked: Looked)
      requires Inv(State()) && (thread in waiters ==> waiters[thread].key == path)
      modifies this
      ensures Inv(State())
      ensures looked.Shared? ==> path in slots && slots[path] == Ready(looked.stored, looked.walk)
      ensures looked.Blocked? ==> path in slots && slots[path].Capturing? && thread in waiters && waiters[thread].key == path
      ensures looked.NoT6? ==> path !in slots && isT6
      ensures looked.MustCapture? ==> !isT6 && fresh(looked.claim) && looked.claim.Live(this) && looked.claim.key == path
      ensures !looked.Blocked? ==> thread !in waiters
    {
      InvStep(State(), Look(thread, path, isT6));
      looked := LookOnce(thread, path, isT6);
    }

    /** Waits for the sound of a path, or captures it: what comes back is what the
        store holds for the path from then on. */
    method EnsureZoneSound(thread: Thread, path: Path, isT6: bool, sleeps: seq<seq<Action>>,
            meanwhile: seq<Action>, walked: Stored)
      returns (r: Option<(Stored, Origin)>)
      requires Inv(State()) && thread !in waiters
      requires forall i | 0 <= i < |sleeps| :: NotBy(sleeps[i], thread)
      modifies this
      ensures Inv(State())
      ensures r.None? ==> path in slots && slots[path].Capturing? && thread in waiters
      ensures r.Some? && r.value.1.SharedBy? ==> path in slots && slots[path] == Ready(r.value.0, r.value.1.walk)
      ensures r.Some? && r.value.1.AudioOnly? && isT6 ==> r.value.0.Err? && path !in slots
      ensures r.Some? && r.value.1.AudioOnly? && !isT6 ==> r.value.0 == walked && path in slots && slots[path] == Ready(walked, "audio-only")
    {
      var looked := WaitFor(thread, path, isT6, sleeps);
      match looked
      case Blocked => return None;
      case Shared(stored, walk) => return Some((stored, SharedBy(walk)));
      case NoT6 => return Some((Err("T6 sounds come from the common walk"), AudioOnly));
      case MustCapture(claim) =>
        PerformedKeeps(State(), meanwhile, Some(claim.id));
        OthersRun(meanwhile, Some(claim.id));
        InvStep(State(), FillClaim(claim.id, walked, "audio-only"));
        claim.Fill(this, walked, "audio-only");
        return Some((walked, AudioOnly));
    }
  }

  datatype Origin = SharedBy(walk: string) | AudioOnly

  /** What is left to a thread that does not hold the claim mine. */
  predicate Possible(s: StoreState, a: Action, mine: Option<ClaimId>) {
    Enabled(s, a) && !((a.FillClaim? || a.AbandonClaim?) && Some(a.id) == mine)
  }

  function Performed(s: StoreState, actions: seq<Action>, mine: Option<ClaimId>): StoreState
    decreases |actions|
  {
    if actions == [] then s
    else Performed(if Possible(s, actions[0], mine) then Next(s, actions[0]) else s, actions[1..], mine)
  }

  /** Every action is another thread's. */
  predicate NotBy(actions: seq<Action>, t: Thread) {
    forall i | 0 <= i < |actions| :: actions[i].Look? ==> actions[i].thread != t
  }

  lemma ClaimStays(s: StoreState, a: Action, mine: Option<ClaimId>)
    requires ClaimsMatch(s) && Possible(s, a, mine) && mine.Some? && mine.value in s.claims
    ensures mine.value in Next(s, a).claims && Next(s, a).claims[mine.value] == s.claims[mine.value]
  {}

  /** Others keep the invariant, and the claim that is not theirs. */
  lemma {:induction false} PerformedKeeps(s: StoreState, actions: seq<Action>, mine: Option<ClaimId>)
    requires Inv(s)
    ensures Inv(Performed(s, actions, mine))
    ensures mine.Some? && mine.value in s.claims ==>
              mine.value in Performed(s, actions, mine).claims && Performed(s, actions, mine).claims[mine.value] == s.claims[mine.value]
    decreases |actions|
  {
    if actions != [] {
      if Possible(s, actions[0], mine) {
        InvStep(s, actions[0]);
        if mine.Some? && mine.value in s.claims {
          ClaimStays(s, actions[0], mine);
        }
        PerformedKeeps(Next(s, actions[0]), actions[1..], mine);
      } else {
        PerformedKeeps(s, actions[1..], mine);
      }
    }
  }

  /** Others do not end the wait of a thread. */
  lemma {:induction false} PerformedLeaves(s: StoreState, actions: seq<Action>, mine: Option<ClaimId>, t: Thread)
    requires t in s.waiters && NotBy(actions, t)
    ensures t in Performed(s, actions, mine).waiters && Performed(s, actions, mine).waiters[t].key == s.waiters[t].key
    decreases |actions|
  {
    if actions != [] {
      assert NotBy(actions[1..], t);
      PerformedLeaves(if Possible(s, actions[0], mine) then Next(s, actions[0]) else s, actions[1..], mine, t);
    }
  }

  // ---------- what every run keeps ----------

  /** The claims and the slots being captured are each other's images. */
  ghost predicate ClaimsMatch(s: StoreState) {
    && (forall id | id in s.claims :: id < s.nextClaim)
    && (forall id | id in s.claims :: s.claims[id] in s.slots && s.slots[s.claims[id]].Capturing?)
    && (forall i, j | i in s.claims && j in s.claims && s.claims[i] == s.claims[j] :: i == j)
    && (forall key | key in s.slots && s.slots[key].Capturing? :: Held(s, key))
  }

  ghost predicate Held(s: StoreState, key: Path) {
    exists id | id in s.claims :: s.claims[id] == key
  }

  /** A thread asleep and not woken waits for a capture still under way. */
  ghost predicate NoLostWakeup(s: StoreState) {
    forall t | t in s.waiters && !s.waiters[t].notified ::
      s.waiters[t].key in s.slots && s.slots[s.waiters[t].key].Capturing?
  }

  /** Each key was filled at most once, and what is ready is what was filled. */
  ghost predicate FilledOnce(s: StoreState) {
    && (forall i, j | 0 <= i < j < |s.fills| :: s.fills[i].key != s.fills[j].key)
    && (forall i | 0 <= i < |s.fills| :: ReadyWith(s, s.fills[i]))
    && (forall key | key in s.slots && s.slots[key].Ready? :: Delivery(key, s.slots[key].stored, s.slots[key].walk) in s.fills)
  }

  ghost predicate ReadyWith(s: StoreState, f: Delivery) {
    f.key in s.slots && s.slots[f.key] == Ready(f.stored, f.walk)
  }

  ghost predicate ReadsReady(s: StoreState) {
    forall i | 0 <= i < |s.shown| :: ReadyWith(s, s.shown[i])
  }

  ghost predicate Inv(s: StoreState) {
    ClaimsMatch(s) && NoLostWakeup(s) && FilledOnce(s) && ReadsReady(s)
  }

  lemma HeldStep(s: StoreState, a: Action, key: Path)
    requires ClaimsMatch(s) && Enabled(s, a) && key in Next(s, a).slots && Next(s, a).slots[key].Capturing?
    ensures Held(Next(s, a), key)
  {
    var s' := Next(s, a);
    if key in s.slots && s.slots[key].Capturing? {
      var id :| id in s.claims && s.claims[id] == key;
      assert id in s'.claims && s'.claims[id] == key;
    } else {
      assert s'.claims[s.nextClaim] == key;
    }
  }

  lemma ClaimsMatchStep(s: StoreState, a: Action)
    requires ClaimsMatch(s) && Enabled(s, a)
    ensures ClaimsMatch(Next(s, a))
  {
    forall key | key in Next(s, a).slots && Next(s, a).slots[key].Capturing?
      ensures Held(Next(s, a), key)
    {
      HeldStep(s, a, key);
    }
  }

  lemma NoLostWakeupStep(s: StoreState, a: Action)
    requires NoLostWakeup(s) && Enabled(s, a)
    ensures NoLostWakeup(Next(s, a))
  {}

  /** What is ready stays ready, with the same contents. */
  lemma ReadyStays(s: StoreState, a: Action, key: Path)
    requires ClaimsMatch(s) && Enabled(s, a) && key in s.slots && s.slots[key].Ready?
    ensures key in Next(s, a).slots && Next(s, a).slots[key] == s.slots[key]
  {}

  lemma AllReadyStays(s: StoreState, a: Action)
    requires ClaimsMatch(s) && Enabled(s, a)
    ensures forall f | ReadyWith(s, f) :: ReadyWith(Next(s, a), f)
  {
    forall f | ReadyWith(s, f)
      ensures ReadyWith(Next(s, a), f)
    {
      ReadyStays(s, a, f.key);
    }
  }

  lemma ReadsStep(s: StoreState, a: Action)
    requires ClaimsMatch(s) && ReadsReady(s) && Enabled(s, a)
    ensures ReadsReady(Next(s, a))
  {
    AllReadyStays(s, a);
  }

  lemma FillsStep(s: StoreState, a: Action)
    requires ClaimsMatch(s) && FilledOnce(s) && Enabled(s, a)
    ensures FilledOnce(Next(s, a))
  {
    AllReadyStays(s, a);
  }

  lemma InvStep(s: StoreState, a: Action)
    requires Inv(s) && Enabled(s, a)
    ensures Inv(Next(s, a))
  {
    ClaimsMatchStep(s, a);
    NoLostWakeupStep(s, a);
    ReadsStep(s, a);
    FillsStep(s, a);
  }

  // ---------- runs ----------

  /** after is what the actions, each possible in its turn, lead to from before. */
  ghost predicate Run(before: StoreState, actions: seq<Action>, after: StoreState)
    decreases |actions|
  {
    if actions == [] then after == before
    else Enabled(before, actions[0]) && Run(Next(before, actions[0]), actions[1..], after)
  }

  lemma {:induction false} RunKeeps(before: StoreState, actions: seq<Action>, after: StoreState)
    requires Inv(before) && Run(before, actions, after)
    ensures Inv(after)
    ensures forall key | key in before.slots && before.slots[key].Ready? ::
              key in after.slots && after.slots[key] == before.slots[key]
    decreases |actions|
  {
    if actions != [] {
      InvStep(before, actions[0]);
      forall key | key in before.slots && before.slots[key].Ready?
        ensures key in Next(before, actions[0]).slots && Next(before, actions[0]).slots[key] == before.slots[key]
      {
        ReadyStays(before, actions[0], key);
      }
      RunKeeps(Next(before, actions[0]), actions[1..], after);
    }
  }

  /** In every state a run can reach: a slot is being captured exactly when one
      live claim holds its key, and then only one. */
  lemma CapturingIffClaimed(actions: seq<Action>, s: StoreState, key: Path)
    requires Run(EMPTY, actions, s)
    ensures key in s.slots && s.slots[key].Capturing? <==> exists id :: id in s.claims && s.claims[id] == key
    ensures forall i, j | i in s.claims && j in s.claims && s.claims[i] == key == s.claims[j] :: i == j
  {
    RunKeeps(EMPTY, actions, s);
  }

  /** Two shared readers of one key, at any two moments of a run, get the same
      catalogue, and it is the only one that key was ever filled with. */
  lemma ReadersAgree(actions: seq<Action>, s: StoreState, i: nat, j: nat)
    requires Run(EMPTY, actions, s) && i < |s.shown| && j < |s.shown| && s.shown[i].key == s.shown[j].key
    ensures s.shown[i] == s.shown[j]
    ensures s.shown[i] in s.fills
    ensures forall f | f in s.fills && f.key == s.shown[i].key :: f == s.shown[i]
  {
    RunKeeps(EMPTY, actions, s);
    assert ReadyWith(s, s.shown[i]) && ReadyWith(s, s.shown[j]);
    forall f | f in s.fills && f.key == s.shown[i].key
      ensures f == s.shown[i]
    {
      assert ReadyWith(s, f);
    }
  }

  /** No key is captured to the end twice. */
  lemma SingleFlight(actions: seq<Action>, s: StoreState, i: nat, j: nat)
    requires Run(EMPTY, actions, s) && i < |s.fills| && j < |s.fills| && s.fills[i].key == s.fills[j].key
    ensures i == j
  {
    RunKeeps(EMPTY, actions, s);
  }

  /** A thread still asleep has someone to wake it: a live claim to its key. */
  lemma SleepersHaveAWaker(actions: seq<Action>, s: StoreState, t: Thread)
    requires Run(EMPTY, actions, s) && t in s.waiters && !s.waiters[t].notified
    ensures exists id :: id in s.claims && s.claims[id] == s.waiters[t].key
  {
    RunKeeps(EMPTY, actions, s);
    assert Held(s, s.waiters[t].key);
  }

  /** Whoever ends the last claim to a key wakes every thread asleep on it, and
      the next look of such a thread does not fall asleep. */
  lemma EndingAClaimWakes(actions: seq<Action>, s: StoreState, a: Action, t: Thread, isT6: bool)
    requires Run(EMPTY, actions, s) && Enabled(s, a) && (a.FillClaim? || a.AbandonClaim?)
    requires t in s.waiters && s.claims[a.id] == s.waiters[t].key
    ensures var s' := Next(s, a);
            && s'.waiters[t].notified
            && t !in Next(s', Look(t, s.waiters[t].key, isT6)).waiters
  {
    RunKeeps(EMPTY, actions, s);
  }

  /** When no claim is live, no thread sleeps unwoken. */
  lemma QuietStore(actions: seq<Action>, s: StoreState)
    requires Run(EMPTY, actions, s) && s.claims == map[]
    ensures forall t | t in s.waiters :: s.waiters[t].notified
    ensures forall key | key in s.slots :: s.slots[key].Ready?
  {
    RunKeeps(EMPTY, actions, s);
    forall key | key in s.slots
      ensures s.slots[key].Ready?
    {
      assert s.slots[key].Capturing? ==> Held(s, key);
    }
  }

  /** The test for a capture still under way is always passed when a claim is
      dropped: abandoning gives the key back, so that another can take it. */
  lemma AbandonFreesTheKey(actions: seq<Action>, s: StoreState, id: ClaimId)
    requires Run(EMPTY, actions, s) && id in s.claims
    ensures s.claims[id] in s.slots && s.slots[s.claims[id]].Capturing?
    ensures s.claims[id] !in Next(s, AbandonClaim(id)).slots
  {
    RunKeeps(EMPTY, actions, s);
  }

  /** A T6 path that nobody captures is answered without storing anything. */
  lemma T6StoresNothing(s: StoreState, t: Thread, path: Path)
    requires Enabled(s, Look(t, path, true)) && path !in s.slots
    ensures var s' := Next(s, Look(t, path, true));
            s'.slots == s.slots && s'.claims == s.claims && s'.fills == s.fills && s'.shown == s.shown && t !in s'.waiters
  {}
}

/**
 The controller as a transition system: Secrets are written, watch events arrive later, specs are edited, checks
 run and read their Secrets one at a time, and verdicts are latched. The question is whether an issuer that
 nobody is going to look at again can be wrong about itself.
 */
module Latch {
  import opened Wrappers
  import opened GoErrors
  import opened VaultSpec
  import opened ClientSpec
  import opened SecretWatch
  import opened IssuerCheck
  import opened ClientFacts
  import opened CheckFacts
  import opened Examples

  // ---------------------------------------------------------------- state

  datatype IssuerId = IssuerId(kind: Kind, namespace: string, name: string)

  /** An issuer as stored; every edit of the spec gives it a new revision. */
  datatype Stored = Stored(issuer: Issuer, revision: nat)

  /** The recorded verdict and the revision that it is about. */
  datatype Status = Status(revision: nat, verdict: Option<GoError>)

  /** A running check: what it checks, and the answers to the reads that it has made so far. */
  datatype Flight = Flight(stored: Stored, seen: map<(Slot, ObjectKey), Option<SecretData>>)

  datatype State = State(
    secrets: map<ObjectKey, SecretData>,
    issuers: map<IssuerId, Stored>,
    nextRevision: nat,
    status: map<IssuerId, Status>,
    queue: set<IssuerId>,
    flights: map<IssuerId, Flight>,
    events: multiset<(Kind, ObjectKey)>)           // undelivered, for each of the two issuer controllers

  /** What stays fixed during a run: the flags and the way Vault, Kubernetes and AWS answer. */
  datatype Setup = Setup(o: Options, env: Env)

  function IdOf(iss: Issuer): IssuerId {
    IssuerId(iss.kind, iss.namespace, iss.name)
  }

  function Lookup(secrets: map<ObjectKey, SecretData>, k: ObjectKey): Option<SecretData> {
    if k in secrets then Some(secrets[k]) else None
  }

  /** The reader that a check had, given the answers it got. */
  function SeenReader(seen: map<(Slot, ObjectKey), Option<SecretData>>): Reader {
    (slot, k) => if (slot, k) in seen && seen[(slot, k)].Some? then Ok(seen[(slot, k)].value)
                 else Err(Plain("Secret not found"))
  }

  function Verdict(c: Setup, r: Reader, iss: Issuer): Option<GoError> {
    Check(c.o, c.env, r, InTree(iss, true))
  }

  function VerdictNow(c: Setup, s: State, id: IssuerId): Option<GoError>
    requires id in s.issuers
  {
    Verdict(c, StoreReader(s.secrets), s.issuers[id].issuer)
  }

  ghost function AllIssuers(s: State): set<Issuer> {
    set id | id in s.issuers :: s.issuers[id].issuer
  }

  // ---------------------------------------------------------------- steps

  datatype Step =
    | WriteSecret(key: ObjectKey, data: SecretData)
    | DeleteSecret(key: ObjectKey)
    | Deliver(kind: Kind, key: ObjectKey, items: seq<Issuer>)     // `items` is what List returns
    | ListFails(kind: Kind, key: ObjectKey)                       // the map function cannot list: the event is gone
    | PutIssuer(issuer: Issuer)
    | DeleteIssuer(id: IssuerId)
    | Resync(ids: set<IssuerId>)
    | Start(id: IssuerId)
    | ReadOne(id: IssuerId, slot: Slot, key: ObjectKey)
    | Finish(id: IssuerId)
    | Restart

  function EventsOf(k: ObjectKey): multiset<(Kind, ObjectKey)> {
    multiset{(IssuerKind, k), (ClusterIssuerKind, k)}
  }

  /** issuer-lib skips the check of an issuer whose current revision has failed permanently. */
  predicate Skips(s: State, id: IssuerId) {
    id in s.issuers && id in s.status && s.status[id].revision == s.issuers[id].revision && IsPermanent(s.status[id].verdict)
  }

  function Dequeued(s: State, id: IssuerId): State {
    s.(queue := s.queue - {id})
  }

  function Launched(s: State, id: IssuerId): State
    requires id in s.issuers
  {
    Dequeued(s, id).(flights := s.flights[id := Flight(s.issuers[id], map[])])
  }

  predicate Launches(s: State, id: IssuerId) {
    id in s.issuers && !IgnoreIssuer(s.issuers[id].issuer) && !Skips(s, id)
  }

  ghost predicate Enabled(c: Setup, s: State, step: Step) {
    match step
    case WriteSecret(k, _) => k.namespace != ""
    case DeleteSecret(k) => k.namespace != ""
    case Deliver(kind, k, items) => (kind, k) in s.events && IsListing(items, AllIssuers(s), kind, k)
    case ListFails(kind, k) => (kind, k) in s.events
    case PutIssuer(iss) => WellFormed(iss)
    case DeleteIssuer(id) => id in s.issuers
    case Resync(_) => true
    case Start(id) => id in s.queue && id !in s.flights
    case ReadOne(id, slot, k) => id in s.flights && (slot, k) !in s.flights[id].seen
    case Finish(id) =>
      && id in s.flights
      && var f := s.flights[id];
         forall e :: e in CheckLog(c.o, c.env, SeenReader(f.seen), f.stored.issuer) && e.ReadSecret? ==> (e.slot, e.key) in f.seen
    case Restart => true
  }

  function Woke(o: Options, kind: Kind, k: ObjectKey, listed: Result<seq<Issuer>, GoError>): set<IssuerId> {
    set r | r in RequestsFor(o, kind, k, listed) :: IssuerId(kind, r.namespace, r.name)
  }

  function FlightVerdict(c: Setup, f: Flight): Option<GoError> {
    Verdict(c, SeenReader(f.seen), f.stored.issuer)
  }

  ghost function Apply(c: Setup, s: State, step: Step): State
    requires Enabled(c, s, step)
  {
    match step
    case WriteSecret(k, data) => s.(secrets := s.secrets[k := data], events := s.events + EventsOf(k))
    case DeleteSecret(k) => s.(secrets := s.secrets - {k}, events := s.events + EventsOf(k))
    case Deliver(kind, k, items) =>
      s.(queue := s.queue + Woke(c.o, kind, k, Ok(items)), events := s.events - multiset{(kind, k)})
    case ListFails(kind, k) =>
      s.(queue := s.queue + Woke(c.o, kind, k, Err(Plain("list failed"))), events := s.events - multiset{(kind, k)})
    case PutIssuer(iss) =>
      s.(issuers := s.issuers[IdOf(iss) := Stored(iss, s.nextRevision)],
         nextRevision := s.nextRevision + 1,
         queue := s.queue + {IdOf(iss)})
    case DeleteIssuer(id) => s.(issuers := s.issuers - {id}, status := s.status - {id})
    case Resync(ids) => s.(queue := s.queue + ids)
    case Start(id) =>
      if Launches(s, id) then Launched(s, id) else Dequeued(s, id)
    case ReadOne(id, slot, k) =>
      var f := s.flights[id];
      s.(flights := s.flights[id := f.(seen := f.seen[(slot, k) := Lookup(s.secrets, k)])])
    case Finish(id) =>
      var f := s.flights[id];
      var verdict := FlightVerdict(c, f);
      s.(flights := s.flights - {id},
         status := if id in s.issuers then s.status[id := Status(f.stored.revision, verdict)] else s.status,
         queue := if verdict.Some? && !IsPermanent(verdict) then s.queue + {id} else s.queue)
    case Restart => s.(queue := s.issuers.Keys, flights := map[], events := multiset{})
  }

  // ---------------------------------------------------------------- invariant

  /** The verdict is about the current revision, will not be retried, and is what Check would answer now. */
  ghost predicate Settled(c: Setup, s: State, id: IssuerId)
    requires id in s.issuers
  {
    && id in s.status
    && s.status[id].revision == s.issuers[id].revision
    && s.status[id].verdict == VerdictNow(c, s, id)
    && (s.status[id].verdict.None? || IsPermanent(s.status[id].verdict))
  }

  ghost predicate EventPending(c: Setup, s: State, id: IssuerId)
    requires id in s.issuers
  {
    exists k :: Watches(c.o, s.issuers[id].issuer, k) && (id.kind, k) in s.events
  }

  /** The check that is running looks at the current spec, and what it has read is current or about to be announced. */
  ghost predicate FlightIsFresh(c: Setup, s: State, id: IssuerId)
    requires id in s.issuers && id in s.flights
  {
    && s.flights[id].stored == s.issuers[id]
    && forall slot, k :: (slot, k) in s.flights[id].seen && Watches(c.o, s.issuers[id].issuer, k) ==>
         s.flights[id].seen[(slot, k)] == Lookup(s.secrets, k) || (id.kind, k) in s.events
  }

  ghost predicate Safe(c: Setup, s: State, id: IssuerId)
    requires id in s.issuers
  {
    || IgnoreIssuer(s.issuers[id].issuer)
    || id in s.queue
    || (if id in s.flights then FlightIsFresh(c, s, id) else Settled(c, s, id) || EventPending(c, s, id))
  }

  ghost predicate WellFormedState(s: State) {
    && (forall id :: id in s.issuers ==> IdOf(s.issuers[id].issuer) == id && WellFormed(s.issuers[id].issuer))
    && (forall id :: id in s.issuers ==> s.issuers[id].revision < s.nextRevision)
    && (forall id :: id in s.status ==> s.status[id].revision < s.nextRevision)
    && (forall id :: id in s.flights ==> s.flights[id].stored.revision < s.nextRevision)
    && (forall id :: id in s.flights && id in s.issuers && s.flights[id].stored.revision == s.issuers[id].revision
          ==> s.flights[id].stored == s.issuers[id])
    && (forall k, kind :: (kind, k) in s.events ==> k.namespace != "")
  }

  /** A permanent verdict about the current revision is what Check answers now. */
  ghost predicate LatchedIsRight(c: Setup, s: State) {
    forall id :: Skips(s, id) ==> s.status[id].verdict == VerdictNow(c, s, id)
  }

  ghost predicate Sound(c: Setup, s: State) {
    WellFormedState(s) && LatchedIsRight(c, s)
  }

  ghost predicate SafeIfStored(c: Setup, s: State, id: IssuerId) {
    id in s.issuers ==> Safe(c, s, id)
  }

  ghost predicate Inv(c: Setup, s: State) {
    Sound(c, s) && forall id :: SafeIfStored(c, s, id)
  }

  /** No library error is itself a PermanentError. */
  ghost predicate SetupIsFair(c: Setup) {
    OutsideFreeOf(c.env, StoreReader(map[]), AnyPermanent)
  }

  // ---------------------------------------------------------------- preservation, step by step

  lemma FairForAll(c: Setup, secrets: map<ObjectKey, SecretData>, seen: map<(Slot, ObjectKey), Option<SecretData>>)
    requires SetupIsFair(c)
    ensures OutsideFreeOf(c.env, StoreReader(secrets), AnyPermanent)
    ensures OutsideFreeOf(c.env, SeenReader(seen), AnyPermanent)
  {
  }

  lemma LatchedStaysRight(c: Setup, s: State, s': State)
    requires SetupIsFair(c) && LatchedIsRight(c, s)
    requires forall id :: Skips(s', id) ==> Skips(s, id) && s'.issuers[id].issuer == s.issuers[id].issuer
                                             && s'.status[id] == s.status[id]
    ensures LatchedIsRight(c, s')
  {
    forall id | Skips(s', id) ensures s'.status[id].verdict == VerdictNow(c, s', id) {
      FairForAll(c, s.secrets, map[]);
      PermanentVerdictsNeverExpire(c.o, c.env, StoreReader(s.secrets), c.o, c.env, StoreReader(s'.secrets),
                                   InTree(s.issuers[id].issuer, true));
    }
  }

  /** What a step does not touch stays safe. */
  lemma UntouchedStaysSafe(c: Setup, s: State, s': State, id: IssuerId)
    requires id in s.issuers && id in s'.issuers && s'.issuers[id] == s.issuers[id] && s'.secrets == s.secrets
    requires (id in s'.status <==> id in s.status) && (id in s.status ==> s'.status[id] == s.status[id])
    requires (id in s'.flights <==> id in s.flights) && (id in s.flights ==> s'.flights[id] == s.flights[id])
    requires id in s.queue ==> id in s'.queue
    requires forall k :: (id.kind, k) in s.events ==> (id.kind, k) in s'.events
    requires Safe(c, s, id)
    ensures Safe(c, s', id)
  {
    if EventPending(c, s, id) {
      var k :| Watches(c.o, s.issuers[id].issuer, k) && (id.kind, k) in s.events;
      assert (id.kind, k) in s'.events;
    }
  }

  lemma EventsReachBoth(kind: Kind, k: ObjectKey)
    ensures EventsOf(k)[(kind, k)] == 1
  {
    match kind
    case IssuerKind =>
    case ClusterIssuerKind =>
  }

  lemma SecretChangeIsSafe(c: Setup, s: State, k: ObjectKey, secrets': map<ObjectKey, SecretData>, id: IssuerId)
    requires id in s.issuers && Safe(c, s, id)
    requires forall j :: j != k ==> Lookup(s.secrets, j) == Lookup(secrets', j)
    ensures Safe(c, s.(secrets := secrets', events := s.events + EventsOf(k)), id)
  {
    var s' := s.(secrets := secrets', events := s.events + EventsOf(k));
    var iss := s.issuers[id].issuer;
    EventsReachBoth(id.kind, k);
    if !Watches(c.o, iss, k) {
      CheckIsIndexed(c.o, c.env, StoreReader(s.secrets), StoreReader(secrets'), iss, true) by {
        forall slot: Slot, j | Watches(c.o, iss, j)
          ensures StoreReader(s.secrets)(slot, j) == StoreReader(secrets')(slot, j)
        {
          assert Lookup(s.secrets, j) == Lookup(secrets', j);
        }
      }
    }
  }

  lemma IssuersAreValid(s: State)
    requires WellFormedState(s)
    ensures ValidIssuers(AllIssuers(s))
  {
    forall x, y | x in AllIssuers(s) && y in AllIssuers(s) && SameName(x, y) ensures x == y {
      assert IdOf(x) == IdOf(y);
    }
  }

  /** An event that is delivered to the controller of the issuer puts the issuer in the queue. */
  lemma DeliveryWakes(c: Setup, s: State, k: ObjectKey, items: seq<Issuer>, id: IssuerId)
    requires WellFormedState(s) && id in s.issuers && k.namespace != ""
    requires IsListing(items, AllIssuers(s), id.kind, k)
    requires Watches(c.o, s.issuers[id].issuer, k)
    ensures id in Woke(c.o, id.kind, k, Ok(items))
  {
    var iss := s.issuers[id].issuer;
    assert IdOf(iss) == id;
    IssuersAreValid(s);
    IndexIsWatches(c.o, AllIssuers(s), iss, k, items);
    assert Request(iss.namespace, iss.name) in RequestsFor(c.o, id.kind, k, Ok(items));
  }

  lemma DeliveryIsSafe(c: Setup, s: State, kind: Kind, k: ObjectKey, items: seq<Issuer>, id: IssuerId)
    requires WellFormedState(s) && Enabled(c, s, Deliver(kind, k, items)) && id in s.issuers && Safe(c, s, id)
    ensures Safe(c, Apply(c, s, Deliver(kind, k, items)), id)
  {
    var s' := Apply(c, s, Deliver(kind, k, items));
    var iss := s.issuers[id].issuer;
    if id.kind == kind && Watches(c.o, iss, k) {
      DeliveryWakes(c, s, k, items, id);
    } else {
      assert forall j :: Watches(c.o, iss, j) && (id.kind, j) in s.events ==> (id.kind, j) in s'.events;
    }
  }

  /** The running check of the issuer has read this Secret, and the Secret has changed since. */
  ghost predicate HasReadOld(s: State, id: IssuerId, k: ObjectKey) {
    id in s.flights && exists slot :: (slot, k) in s.flights[id].seen && s.flights[id].seen[(slot, k)] != Lookup(s.secrets, k)
  }

  /**
   The listing fails for the only event that would still tell this issuer something: the last one on the Secret,
   where the running check has read the Secret's old value or, if none is running, the recorded verdict cannot stay
   and no other event on a Secret of the issuer is on its way.
   */
  ghost predicate LosesLastWord(c: Setup, s: State, step: Step, id: IssuerId) {
    && step.ListFails? && s.events[(step.kind, step.key)] == 1
    && id in s.issuers && id.kind == step.kind && Watches(c.o, s.issuers[id].issuer, step.key)
    && !IgnoreIssuer(s.issuers[id].issuer) && id !in s.queue
    && if id in s.flights then HasReadOld(s, id, step.key)
       else !Settled(c, s, id)
            && forall k :: Watches(c.o, s.issuers[id].issuer, k) && (id.kind, k) in s.events ==> k == step.key
  }

  lemma EventGoneIsSafeIff(c: Setup, s: State, kind: Kind, k: ObjectKey, id: IssuerId)
    requires (kind, k) in s.events && id in s.issuers && Safe(c, s, id)
    ensures Safe(c, s.(events := s.events - multiset{(kind, k)}), id) <==> !LosesLastWord(c, s, ListFails(kind, k), id)
  {
    var s' := s.(events := s.events - multiset{(kind, k)});
    assert forall e :: e != (kind, k) ==> (e in s'.events <==> e in s.events);
    assert (kind, k) in s'.events <==> s.events[(kind, k)] > 1;
    if id !in s.flights && EventPending(c, s, id) && !LosesLastWord(c, s, ListFails(kind, k), id) {
      if j :| Watches(c.o, s.issuers[id].issuer, j) && (id.kind, j) in s.events && (id.kind, j) in s'.events {
        assert EventPending(c, s', id);
      }
    }
  }

  lemma ListFailureIsSafeIff(c: Setup, s: State, kind: Kind, k: ObjectKey, id: IssuerId)
    requires Enabled(c, s, ListFails(kind, k)) && id in s.issuers && Safe(c, s, id)
    ensures Safe(c, Apply(c, s, ListFails(kind, k)), id) <==> !LosesLastWord(c, s, ListFails(kind, k), id)
  {
    EventGoneIsSafeIff(c, s, kind, k, id);
    assert Apply(c, s, ListFails(kind, k)) == s.(events := s.events - multiset{(kind, k)});
  }

  lemma LaunchKeepsSound(c: Setup, s: State, s': State, id: IssuerId)
    requires Sound(c, s)
    requires s' == Dequeued(s, id) || (id in s.issuers && s' == Launched(s, id))
    ensures Sound(c, s')
  {
    forall j | Skips(s', j) ensures s'.status[j].verdict == VerdictNow(c, s', j) {
      assert Skips(s, j);
    }
  }

  /** A check that is skipped is not needed. */
  lemma SkippedIsSafe(c: Setup, s: State, id: IssuerId)
    requires Sound(c, s) && id in s.issuers && id !in s.flights && Skips(s, id)
    ensures Safe(c, Dequeued(s, id), id)
  {
    assert Settled(c, Dequeued(s, id), id);
  }

  lemma StartIsSafe(c: Setup, s: State, started: IssuerId, id: IssuerId)
    requires Sound(c, s) && Enabled(c, s, Start(started)) && id in s.issuers && Safe(c, s, id)
    ensures Safe(c, Apply(c, s, Start(started)), id)
  {
    var s' := if Launches(s, started) then Launched(s, started) else Dequeued(s, started);
    assert s' == Apply(c, s, Start(started));
    if id != started {
      UntouchedStaysSafe(c, s, s', id);
    } else if Skips(s, id) {
      SkippedIsSafe(c, s, id);
    }
  }

  /** A check whose reads are all still true gives the verdict of an instantaneous check. */
  lemma FreshFlightTellsTheTruth(c: Setup, s: State, id: IssuerId)
    requires id in s.issuers && Enabled(c, s, Finish(id)) && FlightIsFresh(c, s, id) && !EventPending(c, s, id)
    requires IdOf(s.issuers[id].issuer) == id
    ensures FlightVerdict(c, s.flights[id]) == VerdictNow(c, s, id)
  {
    var f := s.flights[id];
    var iss := f.stored.issuer;
    if ValidationError(iss.vault).None? {
      var ns, amb, v := ResourceNamespace(c.o, iss), CanUseAmbientCredentials(c.o, iss), iss.vault.value;
      var r1, r2 := SeenReader(f.seen), StoreReader(s.secrets);
      var log := CheckLog(c.o, c.env, r1, iss);
      ReadsAreIndexed(PRECEDENCE, c.env, r1, ns, amb, iss, v);
      forall i | 0 <= i < |log| && log[i].ReadSecret?
        ensures r1(log[i].slot, log[i].key) == r2(log[i].slot, log[i].key)
      {
        assert log[i] in log;
        assert Watches(c.o, iss, log[i].key);
        assert f.seen[(log[i].slot, log[i].key)] == Lookup(s.secrets, log[i].key);
      }
      ReadsDetermine(PRECEDENCE, c.env, r1, r2, ns, amb, iss, v);
    }
  }

  lemma FinishKeepsSound(c: Setup, s: State, done: IssuerId)
    requires SetupIsFair(c) && Sound(c, s) && Enabled(c, s, Finish(done))
    ensures Sound(c, Apply(c, s, Finish(done)))
  {
    var s' := Apply(c, s, Finish(done));
    var f := s.flights[done];
    forall id | Skips(s', id) ensures s'.status[id].verdict == VerdictNow(c, s', id) {
      if id == done {
        FairForAll(c, s.secrets, f.seen);
        PermanentVerdictsNeverExpire(c.o, c.env, SeenReader(f.seen), c.o, c.env, StoreReader(s'.secrets),
                                     InTree(s.issuers[id].issuer, true));
      } else {
        assert Skips(s, id);
      }
    }
  }

  lemma FinishIsSafe(c: Setup, s: State, done: IssuerId, id: IssuerId)
    requires Sound(c, s) && Enabled(c, s, Finish(done)) && id in s.issuers && Safe(c, s, id)
    ensures Safe(c, Apply(c, s, Finish(done)), id)
  {
    var s' := Apply(c, s, Finish(done));
    if id != done {
      UntouchedStaysSafe(c, s, s', id);
    } else if EventPending(c, s, id) {
      var k :| Watches(c.o, s.issuers[id].issuer, k) && (id.kind, k) in s.events;
      assert (id.kind, k) in s'.events;
      assert EventPending(c, s', id);
    } else if id !in s.queue && !IgnoreIssuer(s.issuers[id].issuer) {
      FreshFlightTellsTheTruth(c, s, id);
    }
  }

  lemma EventKeepsSound(c: Setup, s: State, step: Step)
    requires SetupIsFair(c) && Sound(c, s) && Enabled(c, s, step)
    requires step.Deliver? || step.ListFails?
    ensures Sound(c, Apply(c, s, step))
  {
    LatchedStaysRight(c, s, Apply(c, s, step));
  }

  lemma QueueingKeepsSound(c: Setup, s: State, step: Step)
    requires SetupIsFair(c) && Sound(c, s) && Enabled(c, s, step) && (step.Resync? || step.Restart?)
    ensures Sound(c, Apply(c, s, step))
  {
    LatchedStaysRight(c, s, Apply(c, s, step));
  }

  lemma SecretChangeKeepsSound(c: Setup, s: State, step: Step)
    requires SetupIsFair(c) && Sound(c, s) && Enabled(c, s, step) && (step.WriteSecret? || step.DeleteSecret?)
    ensures Sound(c, Apply(c, s, step))
  {
    LatchedStaysRight(c, s, Apply(c, s, step));
  }

  lemma PutKeepsSound(c: Setup, s: State, iss: Issuer)
    requires SetupIsFair(c) && Sound(c, s) && WellFormed(iss)
    ensures Sound(c, Apply(c, s, PutIssuer(iss)))
  {
    LatchedStaysRight(c, s, Apply(c, s, PutIssuer(iss)));
  }

  lemma EditKeepsSound(c: Setup, s: State, step: Step)
    requires SetupIsFair(c) && Sound(c, s) && Enabled(c, s, step)
    requires step.DeleteIssuer? || step.ReadOne?
    ensures Sound(c, Apply(c, s, step))
  {
    LatchedStaysRight(c, s, Apply(c, s, step));
  }

  /** No step, not even one that loses an event, can make a permanent verdict wrong. */
  lemma StepKeepsSound(c: Setup, s: State, step: Step)
    requires SetupIsFair(c) && Sound(c, s) && Enabled(c, s, step)
    ensures Sound(c, Apply(c, s, step))
  {
    match step
    case Start(id) => LaunchKeepsSound(c, s, Apply(c, s, step), id);
    case Finish(id) => FinishKeepsSound(c, s, id);
    case PutIssuer(iss) => PutKeepsSound(c, s, iss);
    case WriteSecret(_, _) => SecretChangeKeepsSound(c, s, step);
    case DeleteSecret(_) => SecretChangeKeepsSound(c, s, step);
    case DeleteIssuer(_) => EditKeepsSound(c, s, step);
    case ReadOne(_, _, _) => EditKeepsSound(c, s, step);
    case Resync(_) => QueueingKeepsSound(c, s, step);
    case Restart => QueueingKeepsSound(c, s, step);
    case _ => EventKeepsSound(c, s, step);
  }

  lemma OtherStepsAreSafe(c: Setup, s: State, step: Step, id: IssuerId)
    requires Enabled(c, s, step) && id in s.issuers && Safe(c, s, id) && id in Apply(c, s, step).issuers
    requires step.PutIssuer? || step.DeleteIssuer? || step.Resync? || step.ReadOne? || step.Restart?
    ensures Safe(c, Apply(c, s, step), id)
  {
    if !step.Restart? && !(step.PutIssuer? && id == IdOf(step.issuer)) && !(step.ReadOne? && id == step.id) {
      UntouchedStaysSafe(c, s, Apply(c, s, step), id);
    }
  }

  lemma NewsIsSafe(c: Setup, s: State, step: Step, id: IssuerId)
    requires WellFormedState(s) && Enabled(c, s, step) && id in s.issuers && Safe(c, s, id)
    requires step.WriteSecret? || step.DeleteSecret? || step.Deliver?
    ensures Safe(c, Apply(c, s, step), id)
  {
    match step
    case WriteSecret(k, data) => SecretChangeIsSafe(c, s, k, s.secrets[k := data], id);
    case DeleteSecret(k) => SecretChangeIsSafe(c, s, k, s.secrets - {k}, id);
    case Deliver(kind, k, items) => DeliveryIsSafe(c, s, kind, k, items, id);
  }

  /** One step and one issuer: it stays safe exactly if the step does not lose the last word for it. */
  lemma StepIsSafeIff(c: Setup, s: State, step: Step, id: IssuerId)
    requires Sound(c, s) && Enabled(c, s, step) && SafeIfStored(c, s, id)
    ensures SafeIfStored(c, Apply(c, s, step), id) <==> !LosesLastWord(c, s, step, id)
  {
    if id in s.issuers && id in Apply(c, s, step).issuers {
      if step.ListFails? {
        ListFailureIsSafeIff(c, s, step.kind, step.key, id);
      } else if step.WriteSecret? || step.DeleteSecret? || step.Deliver? {
        NewsIsSafe(c, s, step, id);
      } else if step.Start? {
        StartIsSafe(c, s, step.id, id);
      } else if step.Finish? {
        FinishIsSafe(c, s, step.id, id);
      } else {
        OtherStepsAreSafe(c, s, step, id);
      }
    } else if id !in s.issuers {
      IssuersComeQueued(c, s, step, id);
    }
  }

  /** An issuer that appears is queued. */
  lemma IssuersComeQueued(c: Setup, s: State, step: Step, id: IssuerId)
    requires Enabled(c, s, step) && id !in s.issuers
    ensures id in Apply(c, s, step).issuers ==> id in Apply(c, s, step).queue
  {
  }

  /** A step breaks the invariant exactly when it loses the last word for some issuer. */
  lemma LosingTheLastWordIsTheHazard(c: Setup, s: State, step: Step)
    requires SetupIsFair(c) && Inv(c, s) && Enabled(c, s, step)
    ensures Inv(c, Apply(c, s, step)) <==> !exists id :: LosesLastWord(c, s, step, id)
  {
    StepKeepsSound(c, s, step);
    forall id ensures SafeIfStored(c, Apply(c, s, step), id) <==> !LosesLastWord(c, s, step, id) {
      assert SafeIfStored(c, s, id);
      StepIsSafeIff(c, s, step, id);
    }
  }

  // ---------------------------------------------------------------- all runs

  /** A controller that has just started: every issuer is queued and nothing is recorded. */
  ghost predicate Init(s: State) {
    && WellFormedState(s)
    && s.queue == s.issuers.Keys && s.status == map[] && s.flights == map[] && s.events == multiset{}
    && forall k :: k in s.secrets ==> k.namespace != ""
  }

  ghost predicate IsRun(c: Setup, states: seq<State>, steps: seq<Step>) {
    && |states| == |steps| + 1
    && Init(states[0])
    && forall i :: 0 <= i < |steps| ==> Enabled(c, states[i], steps[i]) && states[i + 1] == Apply(c, states[i], steps[i])
  }

  lemma {:induction false} RunKeepsSound(c: Setup, states: seq<State>, steps: seq<Step>, n: nat)
    requires SetupIsFair(c) && IsRun(c, states, steps) && n < |states|
    ensures Sound(c, states[n])
  {
    if n > 0 {
      RunKeepsSound(c, states, steps, n - 1);
      StepKeepsSound(c, states[n - 1], steps[n - 1]);
    }
  }

  /** From state `m`, where the issuer is queued or not stored, up to state `n` no step loses the last word for it. */
  ghost predicate KeepsLastWord(c: Setup, states: seq<State>, steps: seq<Step>, m: nat, n: nat, id: IssuerId)
    requires |states| == |steps| + 1
  {
    && m <= n < |states|
    && (id in states[m].issuers ==> id in states[m].queue)
    && forall i :: m <= i < n ==> !LosesLastWord(c, states[i], steps[i], id)
  }

  lemma StepOfRunIsSafe(c: Setup, states: seq<State>, steps: seq<Step>, n: nat, id: IssuerId)
    requires IsRun(c, states, steps) && n < |steps|
    requires Sound(c, states[n]) && SafeIfStored(c, states[n], id) && !LosesLastWord(c, states[n], steps[n], id)
    ensures SafeIfStored(c, states[n + 1], id)
  {
    StepIsSafeIff(c, states[n], steps[n], id);
  }

  lemma {:induction false} RunKeepsSafe(c: Setup, states: seq<State>, steps: seq<Step>, m: nat, n: nat, id: IssuerId)
    requires SetupIsFair(c) && IsRun(c, states, steps) && KeepsLastWord(c, states, steps, m, n, id)
    ensures SafeIfStored(c, states[n], id)
  {
    if m < n {
      assert KeepsLastWord(c, states, steps, m, n - 1, id);
      RunKeepsSafe(c, states, steps, m, n - 1, id);
      RunKeepsSound(c, states, steps, n - 1);
      assert !LosesLastWord(c, states[n - 1], steps[n - 1], id);
      StepOfRunIsSafe(c, states, steps, n - 1, id);
    }
  }

  /** Nothing is going to look at this issuer again: no request, no running check, no event on a Secret it names. */
  ghost predicate AtRest(c: Setup, s: State, id: IssuerId)
    requires id in s.issuers
  {
    && id !in s.queue && id !in s.flights
    && forall k :: Watches(c.o, s.issuers[id].issuer, k) ==> (id.kind, k) !in s.events
  }

  /**
   Latch agreement, for each issuer by itself: if no step has lost the last word for it since some moment at which it
   was queued, such as the start of the run, then at rest it carries a verdict about its current spec which is exactly
   what Check would answer now. It is Ready exactly when Check succeeds, and it never rests on a retryable error.
   */
  lemma LatchAgrees(c: Setup, states: seq<State>, steps: seq<Step>, m: nat, n: nat, id: IssuerId)
    requires SetupIsFair(c) && IsRun(c, states, steps) && KeepsLastWord(c, states, steps, m, n, id)
    requires id in states[n].issuers && !IgnoreIssuer(states[n].issuers[id].issuer) && AtRest(c, states[n], id)
    ensures id in states[n].status
    ensures states[n].status[id].revision == states[n].issuers[id].revision
    ensures states[n].status[id].verdict == VerdictNow(c, states[n], id)
    ensures states[n].status[id].verdict.None? || IsPermanent(states[n].status[id].verdict)
  {
    RunKeepsSafe(c, states, steps, m, n, id);
  }

  /** At the start of a run every stored issuer is queued, so the moment above can always be chosen. */
  lemma StartIsSuchAMoment(c: Setup, states: seq<State>, steps: seq<Step>, n: nat, id: IssuerId)
    requires IsRun(c, states, steps) && n < |states|
    requires forall i :: 0 <= i < n ==> !LosesLastWord(c, states[i], steps[i], id)
    ensures KeepsLastWord(c, states, steps, 0, n, id)
  {
  }

  // ---------------------------------------------------------------- what a lost last word leads to

  /**
   An issuer without a running check is at rest at once and not settled. With a running check it is so as soon as
   that check ends, unless another event is on its way, the check is to be retried, or its answer is right by chance.
   */
  lemma LostWordLeavesWrongVerdict(c: Setup, s: State, step: Step, id: IssuerId)
    requires Enabled(c, s, step) && LosesLastWord(c, s, step, id)
    ensures var s' := Apply(c, s, step);
            && id in s'.issuers
            && (id !in s.flights ==> AtRest(c, s', id) && !Settled(c, s', id))
            && (id in s.flights && Enabled(c, s', Finish(id)) && !EventPending(c, s', id) ==>
                  var done, verdict := Apply(c, s', Finish(id)), FlightVerdict(c, s.flights[id]);
                  && id in done.issuers
                  && (verdict == VerdictNow(c, s, id) || IsRetried(verdict) || (AtRest(c, done, id) && !Settled(c, done, id))))
  {
    var s' := Apply(c, s, step);
    assert s'.queue == s.queue;
    assert (step.kind, step.key) !in s'.events;
    assert forall e :: e in s'.events ==> e in s.events;
  }

  predicate IsRetried(verdict: Option<GoError>) {
    verdict.Some? && !IsPermanent(verdict)
  }

  ghost predicate ChangesSecret(step: Step, k: ObjectKey) {
    (step.WriteSecret? || step.DeleteSecret?) && step.key == k
  }

  /**
   In every setup, any issuer at rest can be made wrong: change one of its Secrets so that Check would answer
   otherwise than recorded, and let the listing fail. The issuer is at rest again and carries the old verdict.
   */
  lemma AnyLostEventBreaksAgreement(c: Setup, s: State, change: Step, k: ObjectKey, id: IssuerId)
    requires WellFormedState(s) && id in s.issuers && AtRest(c, s, id) && Settled(c, s, id)
    requires ChangesSecret(change, k) && Enabled(c, s, change) && Watches(c.o, s.issuers[id].issuer, k)
    requires VerdictNow(c, Apply(c, s, change), id) != s.status[id].verdict
    ensures var changed, lost := Apply(c, s, change), ListFails(id.kind, k);
            && Enabled(c, changed, lost) && LosesLastWord(c, changed, lost, id)
            && var s' := Apply(c, changed, lost);
               && id in s'.issuers && AtRest(c, s', id)
               && id in s'.status && s'.status[id] == s.status[id] && s'.status[id].verdict != VerdictNow(c, s', id)
  {
    var changed := Apply(c, s, change);
    assert s.events[(id.kind, k)] == 0;
    EventsReachBoth(id.kind, k);
    LostWordLeavesWrongVerdict(c, changed, ListFails(id.kind, k), id);
  }

  // ---------------------------------------------------------------- such a run

  const SETUP: Setup := Setup(Options("cert-manager", false, true), SUNNY)

  const TOKEN_KEY: ObjectKey := ObjectKey("team", "vault-token")

  const TOKEN_ISSUER: Issuer :=
    Issuer(IssuerKind, "team", "vault",
           Some(VaultIssuer(VaultAuth(Some(SecretKeySelector("vault-token", "token")), None, None, None, None),
                            "https://vault", "", "pki/sign/role", "", "", None, None, None)))

  const ID: IssuerId := IssuerId(IssuerKind, "team", "vault")

  function Started(): State {
    State(map[TOKEN_KEY := map["token" := "s.1"]], map[ID := Stored(TOKEN_ISSUER, 0)], 1, map[], {ID}, map[], multiset{})
  }

  lemma TokenVerdict(r: Reader)
    ensures Verdict(SETUP, r, TOKEN_ISSUER) ==
            match r(AuthSlot, TOKEN_KEY)
            case Err(e) => Some(Wrapped(CLIENT_INIT_FAILED, e))
            case Ok(data) => if "token" in data then None
                             else Some(Wrapped(CLIENT_INIT_FAILED, Plain(NO_DATA)))
    ensures forall e :: e in CheckLog(SETUP.o, SETUP.env, r, TOKEN_ISSUER) && e.ReadSecret? ==> e.slot == AuthSlot && e.key == TOKEN_KEY
  {
    var v := TOKEN_ISSUER.vault.value;
    assert PRECEDENCE[0] == TokenMethod && Select(PRECEDENCE, v.auth) == Some(TokenMethod);
    AcceptedIffUsable(v);
    assert IsSet(v.auth, TokenMethod);
    assert NewConfig(SUNNY, r, "team", v) == Traced([], Ok(Dial("https://vault", None, [], "")));
  }

  function Running(): State {
    Started().(queue := {}, flights := map[ID := Flight(Stored(TOKEN_ISSUER, 0), map[])])
  }

  function HasRead(): State {
    Started().(queue := {}, flights := map[ID := Flight(Stored(TOKEN_ISSUER, 0),
                                                        map[(AuthSlot, TOKEN_KEY) := Some(map["token" := "s.1"])])])
  }

  function Ready(): State {
    Started().(queue := {}, status := map[ID := Status(0, None)])
  }

  function Deleted(): State {
    Ready().(secrets := map[], events := EventsOf(TOKEN_KEY))
  }

  function Forgotten(): State {
    Ready().(secrets := map[], events := multiset{(ClusterIssuerKind, TOKEN_KEY)})
  }

  lemma StartedIsInitial()
    ensures Init(Started())
  {
  }

  lemma CheckStarts()
    ensures Leads(SETUP, Started(), Start(ID), Running())
    ensures Leads(SETUP, Running(), ReadOne(ID, AuthSlot, TOKEN_KEY), HasRead())
  {
  }

  lemma CheckPasses()
    ensures Leads(SETUP, HasRead(), Finish(ID), Ready())
  {
    var f := HasRead().flights[ID];
    TokenVerdict(SeenReader(f.seen));
    assert FlightVerdict(SETUP, f).None?;
    assert HasRead().flights - {ID} == map[];
  }

  lemma SecretIsForgotten()
    ensures Leads(SETUP, Ready(), DeleteSecret(TOKEN_KEY), Deleted())
    ensures Leads(SETUP, Deleted(), ListFails(IssuerKind, TOKEN_KEY), Forgotten())
  {
    assert Ready().secrets - {TOKEN_KEY} == map[];
    assert EventsOf(TOKEN_KEY) - multiset{(IssuerKind, TOKEN_KEY)} == multiset{(ClusterIssuerKind, TOKEN_KEY)};
    assert RequestsFor(SETUP.o, IssuerKind, TOKEN_KEY, Err(Plain("list failed"))) == [];
  }

  lemma ForgottenIsWrong()
    ensures var last := Forgotten();
            && ID in last.issuers && AtRest(SETUP, last, ID)
            && ID in last.status && last.status[ID].revision == last.issuers[ID].revision
            && last.status[ID].verdict.None? && VerdictNow(SETUP, last, ID).Some?
  {
    TokenVerdict(StoreReader(Forgotten().secrets));
  }

  ghost predicate Leads(c: Setup, s: State, step: Step, s': State) {
    Enabled(c, s, step) && Apply(c, s, step) == s'
  }

  lemma {:induction false} RunExtends(c: Setup, states: seq<State>, steps: seq<Step>, step: Step, s': State)
    requires IsRun(c, states, steps) && Leads(c, states[|states| - 1], step, s')
    ensures IsRun(c, states + [s'], steps + [step])
  {
    var longer, all := states + [s'], steps + [step];
    forall i | 0 <= i < |all|
      ensures Enabled(c, longer[i], all[i]) && longer[i + 1] == Apply(c, longer[i], all[i])
    {
      if i < |steps| {
        assert longer[i] == states[i] && longer[i + 1] == states[i + 1] && all[i] == steps[i];
      }
    }
  }

  /** One lost event is enough: the token Secret is deleted, the listing fails, and the issuer rests at Ready. */
  lemma LostEventBreaksAgreement() returns (states: seq<State>, steps: seq<Step>)
    ensures IsRun(SETUP, states, steps)
    ensures var last := states[|states| - 1];
            && ID in last.issuers && AtRest(SETUP, last, ID)
            && ID in last.status && last.status[ID].revision == last.issuers[ID].revision
            && last.status[ID].verdict.None? && VerdictNow(SETUP, last, ID).Some?
  {
    CheckStarts();
    CheckPasses();
    SecretIsForgotten();
    ForgottenIsWrong();
    StartedIsInitial();
    states, steps := FiveSteps(SETUP, Started(), Start(ID), Running(), ReadOne(ID, AuthSlot, TOKEN_KEY), HasRead(), Finish(ID),
                               Ready(), DeleteSecret(TOKEN_KEY), Deleted(), ListFails(IssuerKind, TOKEN_KEY), Forgotten());
  }

  lemma FiveSteps(c: Setup, s0: State, a: Step, s1: State, b: Step, s2: State, d: Step, s3: State, e: Step, s4: State,
                  f: Step, s5: State) returns (states: seq<State>, steps: seq<Step>)
    requires Init(s0)
    requires Leads(c, s0, a, s1) && Leads(c, s1, b, s2) && Leads(c, s2, d, s3) && Leads(c, s3, e, s4) && Leads(c, s4, f, s5)
    ensures IsRun(c, states, steps) && states[|states| - 1] == s5
  {
    states, steps := OneMore(c, [s0], [], a, s1);
    states, steps := OneMore(c, states, steps, b, s2);
    states, steps := OneMore(c, states, steps, d, s3);
    states, steps := OneMore(c, states, steps, e, s4);
    states, steps := OneMore(c, states, steps, f, s5);
  }

  lemma OneMore(c: Setup, states: seq<State>, steps: seq<Step>, step: Step, s': State) returns (states': seq<State>, steps': seq<Step>)
    requires IsRun(c, states, steps) && Leads(c, states[|states| - 1], step, s')
    ensures IsRun(c, states', steps') && states'[|states'| - 1] == s'
  {
    RunExtends(c, states, steps, step, s');
    states', steps' := states + [s'], steps + [step];
  }
}

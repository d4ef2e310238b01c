/**
  The shutdown request handoff of bot_utils/shutdown_control.py.

  One publisher process replaces the target file; consumer threads of one bot
  process move it to a private claim file, read the claim, and either finish it
  or put it back.  `_PENDING_CLAIMS`, `_CLAIM_EPOCHS` and the in-process lock
  are the fields `pending`, `epoch` and `lock`.  Each publication creates a new
  file, so a request is identified by its publication number, which also plays
  the role of the (st_dev, st_ino) identity the code compares; a file that gets
  the identity of a removed one between the two looks is not considered.

  The file system may complete an operation and still raise.  Every step of the
  protocol is an Action; `Next` says what it does, and the class at the end
  carries out the same steps by mutating its fields.
 */
module ShutdownControl {
  import opened Wrappers

  type Request = nat
  type ClaimPath = nat
  type Tid = nat

  datatype Pending = Pending(path: ClaimPath, epoch: nat)

  /** Where one consumer thread is inside `consume_shutdown_request`. */
  datatype Phase =
    | Idle
    | Locked(path: ClaimPath, seen: Option<Request>)
    | Reading(path: ClaimPath, epoch: nat, obsolete: Option<ClaimPath>)
    | Retrying(path: ClaimPath, epoch: nat)
    | Restoring(path: ClaimPath, epoch: nat, attempt: nat)
    | Discarding(path: ClaimPath)

  datatype State = State(
    target: Option<Request>,
    claims: map<ClaimPath, Request>,
    pending: Option<Pending>,
    epoch: nat,
    lock: Option<Tid>,
    consumers: map<Tid, Phase>,
    used: set<ClaimPath>,
    published: nat,
    acquired: seq<Request>,
    delivered: seq<Request>,
    rejected: set<Request>)

  const INIT := State(None, map[], None, 0, None, map[], {}, 0, [], [], {})

  /**
    `os.replace(target, claimed)`: it moves, or it raises with or without effect.
    Then the claim's identity is read, and that may raise as well.
   */
  datatype RenameOutcome = Moved | RenameRaised(effect: bool, notFound: bool, readable: bool)

  /**
    `os.link(claimed, target)`: create-only, and it too may raise after taking
    effect.  When it then raises that the file exists, it ends as `Linked` does.
   */
  datatype LinkOutcome = Linked | LinkExists | LinkRaised(effect: bool, retryable: bool)

  /** Reading and checking a claim: it is a valid request, an unusable one, or the read was interrupted. */
  datatype ReadResult = Valid | Invalid | Interrupted

  datatype Action =
    | Publish
    | BeginConsume(t: Tid, path: ClaimPath)
    | Rename(t: Tid, moved: RenameOutcome)
    | DropObsolete(t: Tid, removed: bool)
    | Read(t: Tid, result: ReadResult)
    | BeginRestore(t: Tid)
    | Link(t: Tid, linked: LinkOutcome)
    | Discard(t: Tid, removed: bool)

  function PhaseOf(s: State, t: Tid): Phase {
    if t in s.consumers then s.consumers[t] else Idle
  }

  predicate Enabled(s: State, a: Action) {
    match a
    case Publish => true
    case BeginConsume(t, path) => s.lock.None? && PhaseOf(s, t).Idle? && path !in s.used
    case Rename(t, o) =>
      && PhaseOf(s, t).Locked?
      && (o.Moved? || o.effect ==> s.target.Some?)
      // a rename without effect reports a missing source only when it is missing
      && (o.RenameRaised? && o.notFound && !o.effect ==> s.target.None?)
    case DropObsolete(t, _) => PhaseOf(s, t).Reading? && PhaseOf(s, t).obsolete.Some?
    case Read(t, result) => PhaseOf(s, t).Reading? && (result.Interrupted? || PhaseOf(s, t).obsolete.None?)
    case BeginRestore(t) => s.lock.None? && PhaseOf(s, t).Retrying?
    case Link(t, o) =>
      && PhaseOf(s, t).Restoring?
      && PhaseOf(s, t).path in s.claims
      && (o.Linked? ==> s.target.None?)
      && (o.LinkExists? ==> s.target.Some?)
      && (o.LinkRaised? && o.effect ==> s.target.None?)
    case Discard(t, _) => PhaseOf(s, t).Discarding?
  }

  function Goto(s: State, t: Tid, p: Phase): State {
    s.(consumers := s.consumers[t := p])
  }

  function Unlink(s: State, path: ClaimPath, removed: bool): State {
    if removed then s.(claims := s.claims - {path}) else s
  }

  /** `os.replace` returned: a new generation, which supersedes whatever was pending. */
  function Acquire(s: State, t: Tid): State
    requires PhaseOf(s, t).Locked? && s.target.Some?
  {
    var path := PhaseOf(s, t).path;
    Goto(s.(lock := None, target := None, claims := s.claims[path := s.target.value], epoch := s.epoch + 1,
            acquired := s.acquired + [s.target.value], pending := None),
         t,
         Reading(path, s.epoch + 1, if s.pending.Some? then Some(s.pending.value.path) else None))
  }

  /** `os.replace` raised, but the claim is the very file seen at the target: park it as pending. */
  function Adopt(s: State, t: Tid): State
    requires PhaseOf(s, t).Locked? && s.target.Some?
  {
    var path := PhaseOf(s, t).path;
    Goto(s.(lock := None, target := None, claims := s.claims[path := s.target.value], epoch := s.epoch + 1,
            acquired := s.acquired + [s.target.value], pending := Some(Pending(path, s.epoch + 1))),
         t,
         if s.pending.Some? then Discarding(s.pending.value.path) else Idle)
  }

  /** What a rename that raised has done to the files: nothing, or the move itself. */
  function Moves(s: State, t: Tid, effect: bool): State
    requires PhaseOf(s, t).Locked? && (effect ==> s.target.Some?)
  {
    if effect then
      s.(lock := None, target := None, claims := s.claims[PhaseOf(s, t).path := s.target.value])
    else
      s.(lock := None)
  }

  /** `FileNotFoundError` with a pending claim: take that claim over instead. */
  function TakePending(s: State, t: Tid, effect: bool): State
    requires PhaseOf(s, t).Locked? && (effect ==> s.target.Some?) && s.pending.Some?
  {
    Goto(Moves(s, t, effect).(pending := None), t,
         Reading(s.pending.value.path, s.pending.value.epoch, None))
  }

  function GiveUp(s: State, t: Tid, effect: bool): State
    requires PhaseOf(s, t).Locked? && (effect ==> s.target.Some?)
  {
    Goto(Moves(s, t, effect), t, Idle)
  }

  /** The branch taken under the lock once the rename has returned or raised. */
  function AfterRename(s: State, t: Tid, o: RenameOutcome): State
    requires PhaseOf(s, t).Locked? && (o.Moved? || o.effect ==> s.target.Some?)
  {
    if o.Moved? then Acquire(s, t)
    else if !o.readable then GiveUp(s, t, o.effect)
    else if o.effect && PhaseOf(s, t).seen == s.target then Adopt(s, t)
    else if o.notFound && s.pending.Some? then TakePending(s, t, o.effect)
    else GiveUp(s, t, o.effect)
  }

  /** `_restore_claim_for_retry` leaves its lock having restored or been superseded. */
  function Settle(s: State, t: Tid): State
    requires PhaseOf(s, t).Retrying? || PhaseOf(s, t).Restoring?
  {
    var p := PhaseOf(s, t);
    Goto(s.(lock := None, pending := if s.pending == Some(Pending(p.path, p.epoch)) then None else s.pending),
         t, Discarding(p.path))
  }

  /** The link put the claim back at the target. */
  function Relink(s: State, t: Tid): State
    requires PhaseOf(s, t).Restoring? && PhaseOf(s, t).path in s.claims
  {
    s.(target := Some(s.claims[PhaseOf(s, t).path]))
  }

  /** Both attempts failed: the claim itself becomes the authoritative copy. */
  function Park(s: State, t: Tid): State
    requires PhaseOf(s, t).Restoring?
  {
    var p := PhaseOf(s, t);
    Goto(s.(lock := None, pending := Some(Pending(p.path, p.epoch))), t, Idle)
  }

  function AfterLink(s: State, t: Tid, o: LinkOutcome): State
    requires PhaseOf(s, t).Restoring? && PhaseOf(s, t).path in s.claims
  {
    var Restoring(path, epoch, attempt) := PhaseOf(s, t);
    match o
    case Linked => Settle(Relink(s, t), t)
    case LinkExists => Settle(s, t)
    case LinkRaised(effect, retryable) =>
      var s1 := if effect then Relink(s, t) else s;
      if retryable && attempt == 0 then Goto(s1, t, Restoring(path, epoch, 1)) else Park(s1, t)
  }

  /** A request that was read to its end is finished; an interrupted one has to be put back. */
  function AfterRead(s: State, t: Tid, result: ReadResult): State
    requires PhaseOf(s, t).Reading?
  {
    var Reading(path, epoch, _) := PhaseOf(s, t);
    if result.Interrupted? then Goto(s, t, Retrying(path, epoch))
    else if path !in s.claims then s
    else if result.Valid? then Goto(s.(delivered := s.delivered + [s.claims[path]]), t, Discarding(path))
    else Goto(s.(rejected := s.rejected + {s.claims[path]}), t, Discarding(path))
  }

  function Next(s: State, a: Action): State {
    if !Enabled(s, a) then s else
    match a
    case Publish => s.(target := Some(s.published + 1), published := s.published + 1)
    case BeginConsume(t, path) => Goto(s.(lock := Some(t), used := s.used + {path}), t, Locked(path, s.target))
    case Rename(t, o) => AfterRename(s, t, o)
    case DropObsolete(t, removed) =>
      var Reading(path, epoch, obsolete) := PhaseOf(s, t);
      Goto(Unlink(s, obsolete.value, removed), t, Reading(path, epoch, None))
    case Read(t, result) => AfterRead(s, t, result)
    case BeginRestore(t) =>
      var Retrying(path, epoch) := PhaseOf(s, t);
      if s.epoch != epoch then Settle(s, t)
      else Goto(s.(lock := Some(t)), t, Restoring(path, epoch, 0))
    case Link(t, o) => AfterLink(s, t, o)
    case Discard(t, removed) => Goto(Unlink(s, PhaseOf(s, t).path, removed), t, Idle)
  }

  function Run(s: State, actions: seq<Action>): State
    decreases |actions|
  {
    if actions == [] then s else Run(Next(s, actions[0]), actions[1..])
  }

  // ---------------------------------------------------------------- custody

  predicate Live(p: Phase) {
    p.Reading? || p.Retrying? || p.Restoring?
  }

  predicate InSection(p: Phase) {
    p.Locked? || p.Restoring?
  }

  /** The claim file a consumer phase works on. */
  function ClaimOf(p: Phase): Option<ClaimPath> {
    if p.Idle? then None else Some(p.path)
  }

  /** The superseded claim file a reader still has to unlink. */
  function StaleOf(p: Phase): Option<ClaimPath> {
    if p.Reading? then p.obsolete else None
  }

  predicate Done(s: State, r: Request) {
    r in s.delivered || r in s.rejected
  }

  /** The request a consumer has taken and neither finished nor given back. */
  function HeldBy(s: State, t: Tid): Option<Request> {
    var p := PhaseOf(s, t);
    if Live(p) && p.path in s.claims then Some(s.claims[p.path]) else None
  }

  function PendingRequest(s: State): Option<Request> {
    if s.pending.Some? && s.pending.value.path in s.claims then Some(s.claims[s.pending.value.path]) else None
  }

  /** The request can still be delivered: it is at the target, pending, or in a consumer's hands. */
  ghost predicate Placed(s: State, r: Request) {
    s.target == Some(r) || PendingRequest(s) == Some(r) || exists t: Tid :: HeldBy(s, t) == Some(r)
  }

  ghost predicate NewestSafe(s: State) {
    s.published == 0 || Done(s, s.published) || Placed(s, s.published)
  }

  // -------------------------------------------------------------- invariant

  /** The last generation acquired is that request or a newer one. */
  predicate Overtaken(s: State, r: Request) {
    s.acquired != [] && r <= s.acquired[|s.acquired| - 1]
  }

  /** Generations are acquired in publish order, and the target never falls behind them. */
  ghost predicate Ordered(s: State) {
    && |s.acquired| == s.epoch
    && (forall i :: 0 <= i < |s.acquired| ==> 0 < s.acquired[i] <= s.published)
    && (forall i, j :: 0 <= i < j < |s.acquired| ==> s.acquired[i] <= s.acquired[j])
    && (s.target.Some? ==> 0 < s.target.value <= s.published)
    && (s.target.Some? && s.epoch > 0 ==> s.acquired[s.epoch - 1] <= s.target.value)
    && (forall r: Request :: r in s.delivered ==> Overtaken(s, r))
    && (forall r: Request :: r in s.rejected ==> Overtaken(s, r))
  }

  ghost predicate PendingCurrent(s: State) {
    s.pending.Some? ==>
      && s.pending.value.epoch == s.epoch > 0
      && s.epoch <= |s.acquired|
      && PendingRequest(s) == Some(s.acquired[s.epoch - 1])
  }

  /** A consumer's claim is the generation it acquired; an older one is strictly older. */
  ghost predicate Backed(s: State, t: Tid) {
    var p := PhaseOf(s, t);
    Live(p) ==>
      && 0 < p.epoch <= s.epoch <= |s.acquired|
      && HeldBy(s, t) == Some(s.acquired[p.epoch - 1])
      && (p.epoch < s.epoch ==> s.acquired[p.epoch - 1] < s.acquired[s.epoch - 1])
      && (p.Restoring? ==> p.epoch == s.epoch)
  }

  ghost predicate AllLiveBacked(s: State) {
    forall t: Tid :: Backed(s, t)
  }

  ghost predicate LockHeld(s: State) {
    && (forall t: Tid :: InSection(PhaseOf(s, t)) ==> s.lock.Some? && s.lock.value == t)
    && (s.lock.Some? ==> InSection(PhaseOf(s, s.lock.value)))
  }

  ghost predicate IsUsed(s: State, path: Option<ClaimPath>) {
    path.Some? ==> path.value in s.used
  }

  ghost predicate PathsUsed(s: State) {
    && s.claims.Keys <= s.used
    && (s.pending.Some? ==> s.pending.value.path in s.used)
    && (forall t: Tid :: IsUsed(s, ClaimOf(PhaseOf(s, t))) && IsUsed(s, StaleOf(PhaseOf(s, t))))
  }

  ghost predicate Apart(a: Option<ClaimPath>, b: Option<ClaimPath>) {
    a.Some? ==> a != b
  }

  /** No claim file is named twice, so an unlink never removes a claim somebody still needs. */
  ghost predicate PathsDistinct(s: State) {
    && (forall t: Tid, u: Tid :: t != u ==> Apart(ClaimOf(PhaseOf(s, t)), ClaimOf(PhaseOf(s, u))))
    && (forall t: Tid, u: Tid :: Apart(ClaimOf(PhaseOf(s, t)), StaleOf(PhaseOf(s, u))))
    && (forall t: Tid, u: Tid :: t != u ==> Apart(StaleOf(PhaseOf(s, t)), StaleOf(PhaseOf(s, u))))
    && (s.pending.Some? ==> forall t: Tid ::
          && ClaimOf(PhaseOf(s, t)) != Some(s.pending.value.path)
          && StaleOf(PhaseOf(s, t)) != Some(s.pending.value.path))
    && (forall t: Tid :: PhaseOf(s, t).Locked? ==> PhaseOf(s, t).path !in s.claims)
  }

  /** One request is never in two hands; only an ambiguous link leaves it in a hand and at the target. */
  ghost predicate Exclusive(s: State) {
    && (forall t: Tid, u: Tid :: t != u && HeldBy(s, t).Some? ==> HeldBy(s, t) != HeldBy(s, u))
    && (forall t: Tid :: HeldBy(s, t).Some? ==> HeldBy(s, t) != PendingRequest(s))
    && (forall t: Tid :: HeldBy(s, t).Some? && HeldBy(s, t) == s.target ==> PhaseOf(s, t).Restoring?)
  }

  ghost predicate NotDone(s: State, r: Option<Request>) {
    r.Some? ==> r.value !in s.delivered && r.value !in s.rejected
  }

  ghost predicate DoneIsFinal(s: State) {
    && NotDone(s, s.target)
    && NotDone(s, PendingRequest(s))
    && (forall t: Tid :: NotDone(s, HeldBy(s, t)))
    && (forall i, j :: 0 <= i < j < |s.delivered| ==> s.delivered[i] != s.delivered[j])
    && (forall r :: r in s.delivered ==> r !in s.rejected)
  }

  /** While one consumer is inside its claim section only the publisher can change the target. */
  ghost predicate SeenTarget(s: State) {
    forall t: Tid :: PhaseOf(s, t).Locked? && PhaseOf(s, t).seen != s.target ==>
      && s.target == Some(s.published)
      && PendingRequest(s) != s.target
      && (forall u: Tid :: HeldBy(s, u) != s.target)
  }

  /** Which thread is inside the lock, and which claim files are whose. */
  ghost predicate PathInv(s: State) {
    LockHeld(s) && PathsUsed(s) && PathsDistinct(s)
  }

  /** In what order requests were taken, and which generation each claim is. */
  ghost predicate OrderInv(s: State) {
    Ordered(s) && PendingCurrent(s) && AllLiveBacked(s)
  }

  /** Where each request is. */
  ghost predicate CustodyInv(s: State) {
    OrderInv(s) && Exclusive(s) && DoneIsFinal(s) && SeenTarget(s)
  }

  ghost predicate Inv(s: State) {
    PathInv(s) && CustodyInv(s)
  }

  // ------------------------------------------------------------- the theorems

  lemma {:induction false} RunKeepsInv(s: State, actions: seq<Action>)
    requires Inv(s)
    ensures Inv(Run(s, actions))
    decreases |actions|
  {
    if actions != [] {
      StepKeepsInv(s, actions[0]);
      RunKeepsInv(Next(s, actions[0]), actions[1..]);
    }
  }

  lemma InitInv()
    ensures Inv(INIT)
  {
    forall t: Tid ensures PhaseOf(INIT, t) == Idle && HeldBy(INIT, t) == None && Backed(INIT, t) {}
  }

  /** Over every interleaving, no request is delivered twice, nor delivered and rejected. */
  lemma NeverDeliveredTwice(actions: seq<Action>)
    ensures var s := Run(INIT, actions);
            && (forall i, j :: 0 <= i < j < |s.delivered| ==> s.delivered[i] != s.delivered[j])
            && (forall r :: r in s.delivered ==> r !in s.rejected)
  {
    InitInv();
    RunKeepsInv(INIT, actions);
  }

  // ---- what was read, told from the claims alone

  /** The request in the claim that a step reads, and how that read ends. */
  function ReadBy(s: State, a: Action): seq<(Request, ReadResult)> {
    if a.Read? && Enabled(s, a) && HeldBy(s, a.t).Some? then [(HeldBy(s, a.t).value, a.result)] else []
  }

  /** Every read of a claim in a run. */
  function Reads(s: State, actions: seq<Action>): seq<(Request, ReadResult)>
    decreases |actions|
  {
    if actions == [] then [] else ReadBy(s, actions[0]) + Reads(Next(s, actions[0]), actions[1..])
  }

  /** After a read to its end no request is read again. */
  ghost predicate EndsOnce(log: seq<(Request, ReadResult)>) {
    forall i, j :: 0 <= i < j < |log| && !log[i].1.Interrupted? ==> log[i].0 != log[j].0
  }

  /**
    Over every interleaving, the requests delivered are exactly those whose claim
    some consumer read and found valid, and the requests rejected exactly those
    whose claim was read and found invalid; each is read to its end once.
   */
  lemma ReadsDecide(actions: seq<Action>)
    ensures var s, log := Run(INIT, actions), Reads(INIT, actions);
            && (forall r: Request :: r in s.delivered <==> (r, Valid) in log)
            && (forall r: Request :: r in s.rejected <==> (r, Invalid) in log)
            && EndsOnce(log)
  {
    InitInv();
    ReadsAreRecorded(INIT, actions);
    ReadToTheEndOnce(INIT, actions);
  }

  lemma StepRecordsItsRead(s: State, a: Action)
    ensures var s', read := Next(s, a), ReadBy(s, a);
            && (forall r: Request :: r in s'.delivered <==> r in s.delivered || (r, Valid) in read)
            && (forall r: Request :: r in s'.rejected <==> r in s.rejected || (r, Invalid) in read)
  {
  }

  lemma {:induction false} ReadsAreRecorded(s: State, actions: seq<Action>)
    ensures var s', log := Run(s, actions), Reads(s, actions);
            && (forall r: Request :: r in s'.delivered <==> r in s.delivered || (r, Valid) in log)
            && (forall r: Request :: r in s'.rejected <==> r in s.rejected || (r, Invalid) in log)
    decreases |actions|
  {
    if actions != [] {
      StepRecordsItsRead(s, actions[0]);
      ReadsAreRecorded(Next(s, actions[0]), actions[1..]);
    }
  }

  lemma {:induction false} DoneIsNotReadAgain(s: State, actions: seq<Action>, r: Request)
    requires Inv(s) && Done(s, r)
    ensures forall i :: 0 <= i < |Reads(s, actions)| ==> Reads(s, actions)[i].0 != r
    decreases |actions|
  {
    if actions != [] {
      var a := actions[0];
      StepKeepsInv(s, a);
      StepRecordsItsRead(s, a);
      DoneIsNotReadAgain(Next(s, a), actions[1..], r);
      assert a.Read? ==> NotDone(s, HeldBy(s, a.t));
    }
  }

  lemma EndsOnceMore(read: seq<(Request, ReadResult)>, later: seq<(Request, ReadResult)>)
    requires |read| <= 1 && EndsOnce(later)
    requires read != [] && !read[0].1.Interrupted? ==> forall j :: 0 <= j < |later| ==> later[j].0 != read[0].0
    ensures EndsOnce(read + later)
  {
    var log := read + later;
    forall i, j | 0 <= i < j < |log| && !log[i].1.Interrupted? ensures log[i].0 != log[j].0 {
      assert log[j] == later[j - |read|];
      assert i >= |read| ==> log[i] == later[i - |read|];
    }
  }

  lemma {:induction false} ReadToTheEndOnce(s: State, actions: seq<Action>)
    requires Inv(s)
    ensures EndsOnce(Reads(s, actions))
    decreases |actions|
  {
    if actions != [] {
      var a := actions[0];
      StepKeepsInv(s, a);
      ReadToTheEndOnce(Next(s, a), actions[1..]);
      var read := ReadBy(s, a);
      if read != [] && !a.result.Interrupted? {
        StepRecordsItsRead(s, a);
        assert read[0] in read;
        DoneIsNotReadAgain(Next(s, a), actions[1..], read[0].0);
      }
      EndsOnceMore(read, Reads(Next(s, a), actions[1..]));
    }
  }

  /** Over every interleaving, a request is in at most one consumer's hands, and then it is not pending. */
  lemma HeldByOneConsumer(actions: seq<Action>, t: Tid, u: Tid)
    requires var s := Run(INIT, actions); HeldBy(s, t).Some?
    ensures var s := Run(INIT, actions);
            && (HeldBy(s, t) == HeldBy(s, u) ==> t == u)
            && PendingRequest(s) != HeldBy(s, t)
  {
    InitInv();
    RunKeepsInv(INIT, actions);
  }

  /** Generations are acquired in publish order, and what is pending is always the last one acquired. */
  lemma GenerationsNeverGoBack(actions: seq<Action>)
    ensures var s := Run(INIT, actions);
            && |s.acquired| == s.epoch
            && (forall i, j :: 0 <= i < j < |s.acquired| ==> s.acquired[i] <= s.acquired[j])
            && (s.pending.Some? ==> s.pending.value.epoch == s.epoch > 0
                                    && PendingRequest(s) == Some(s.acquired[s.epoch - 1]))
  {
    InitInv();
    RunKeepsInv(INIT, actions);
  }

  /** Whatever a restore puts back at the target is the last generation acquired, never an older one. */
  lemma RestoreIsNeverStale(actions: seq<Action>, t: Tid, o: LinkOutcome)
    requires Enabled(Run(INIT, actions), Link(t, o))
    requires o.Linked? || (o.LinkRaised? && o.effect)
    ensures var s := Run(INIT, actions);
            && 0 < s.epoch == |s.acquired|
            && Next(s, Link(t, o)).target == Some(s.acquired[s.epoch - 1])
  {
    InitInv();
    RunKeepsInv(INIT, actions);
    assert Backed(Run(INIT, actions), t);
  }

  /**
    The one step that loses the newest request: the rename takes effect but
    raises, and the moved file is not recognised as the one seen at the target,
    because its identity cannot be read or because the publisher replaced the
    target in between.  Only a parked copy of the same request still helps.
   */
  predicate Orphans(s: State, a: Action) {
    && Enabled(s, a) && a.Rename? && a.moved.RenameRaised? && a.moved.effect
    && (!a.moved.readable || PhaseOf(s, a.t).seen != s.target)
    && PendingRequest(s) != s.target
  }

  /** A step keeps the newest request deliverable exactly when it does not orphan it. */
  lemma NewestSurvivesStep(s: State, a: Action)
    requires Inv(s) && NewestSafe(s)
    ensures NewestSafe(Next(s, a)) <==> !Orphans(s, a)
  {
    if Enabled(s, a) {
      match a
      case Publish =>
      case Rename(t, o) => RenameKeepsNewest(s, t, o);
      case BeginRestore(t) => BeginRestoreKeepsNewest(s, t);
      case Read(t, result) => ReadKeepsNewest(s, t, result);
      case Link(t, o) => LinkKeepsNewest(s, t, o);
      case _ => QuietKeepsNewest(s, a);
    }
  }

  /** No consumer's step brings a request back into a place it was not in. */
  lemma NothingComesBack(s: State, a: Action, r: Request)
    requires Inv(s) && !a.Publish? && !Placed(s, r) && !Done(s, r)
    ensures !Placed(Next(s, a), r) && !Done(Next(s, a), r)
  {
    if Enabled(s, a) {
      var s' := Next(s, a);
      StepTouchesNobody(s, a);
      assert Backed(s, a.t);
      assert HeldBy(s', a.t) in {None, HeldBy(s, a.t), s.target, PendingRequest(s)};
      assert PendingRequest(s') in {None, HeldBy(s, a.t), s.target, PendingRequest(s)};
      forall u: Tid ensures HeldBy(s', u) != Some(r) {
        assert u != a.t ==> HeldBy(s', u) == HeldBy(s, u);
      }
    }
  }

  lemma StepTouchesNobody(s: State, a: Action)
    requires Inv(s) && Enabled(s, a) && !a.Publish?
    ensures OthersUntouched(s, Next(s, a), a.t)
  {
    if a.Rename? {
      RenameStaysInLane(s, a.t, a.moved);
      LaneKeepsPaths(s, Next(s, a), a.t);
    } else if a.Link? {
      LinkTouchesNobody(s, a.t, a.linked);
    } else if a.Read? {
      ReadStaysInLane(s, a.t, a.result);
      LaneKeepsPaths(s, Next(s, a), a.t);
    } else {
      PlainStepStaysInLane(s, a);
      LaneKeepsPaths(s, Next(s, a), a.t);
    }
  }

  /** Whether the newest request was orphaned after it was published; `lost` says so of the start. */
  ghost predicate Orphaned(s: State, actions: seq<Action>, lost: bool)
    decreases |actions|
  {
    if actions == [] then lost
    else Orphaned(Next(s, actions[0]), actions[1..], !actions[0].Publish? && (lost || Orphans(s, actions[0])))
  }

  lemma StepDecidesTheNewest(s: State, a: Action)
    requires Inv(s)
    ensures NewestSafe(Next(s, a)) <==> a.Publish? || (NewestSafe(s) && !Orphans(s, a))
  {
    if NewestSafe(s) {
      NewestSurvivesStep(s, a);
    } else if !a.Publish? {
      NothingComesBack(s, a, s.published);
    }
  }

  /**
    Conservation of the newest request, over every interleaving: it has been
    delivered or rejected, or is still at the target, pending, or in a
    consumer's hands, exactly when no step since its publication orphaned it.
   */
  lemma {:induction false} NewestIsConserved(s: State, actions: seq<Action>)
    requires Inv(s)
    ensures NewestSafe(Run(s, actions)) <==> !Orphaned(s, actions, !NewestSafe(s))
    decreases |actions|
  {
    if actions != [] {
      StepKeepsInv(s, actions[0]);
      StepDecidesTheNewest(s, actions[0]);
      NewestIsConserved(Next(s, actions[0]), actions[1..]);
    }
  }

  lemma RunOfThree(s: State, a: Action, b: Action, c: Action)
    ensures Run(s, [a, b, c]) == Next(Next(Next(s, a), b), c)
  {
    var s1 := Next(s, a);
    var s2 := Next(s1, b);
    assert [a, b, c][1..] == [b, c] && [b, c][1..] == [c];
    assert Run(s2, [c]) == Next(s2, c);
    assert Run(s1, [b, c]) == Run(s2, [c]);
  }

  /** It happens: the only request is published after the target was looked at, and its move is not recognised. */
  lemma AmbushLosesTheNewest()
    ensures var s := Run(INIT, [BeginConsume(1, 7), Publish, Rename(1, RenameRaised(true, false, true))]);
            s.published == 1 && !NewestSafe(s)
  {
    RunOfThree(INIT, BeginConsume(1, 7), Publish, Rename(1, RenameRaised(true, false, true)));
    var s := Next(Next(Next(INIT, BeginConsume(1, 7)), Publish), Rename(1, RenameRaised(true, false, true)));
    forall t: Tid ensures HeldBy(s, t) == None {}
  }

  /** It also happens without a race, when the identity of the moved file cannot be read. */
  lemma UnreadableClaimLosesTheNewest()
    ensures var s := Run(INIT, [Publish, BeginConsume(1, 7), Rename(1, RenameRaised(true, false, false))]);
            s.published == 1 && !NewestSafe(s)
  {
    RunOfThree(INIT, Publish, BeginConsume(1, 7), Rename(1, RenameRaised(true, false, false)));
    var s := Next(Next(Next(INIT, Publish), BeginConsume(1, 7)), Rename(1, RenameRaised(true, false, false)));
    forall t: Tid ensures HeldBy(s, t) == None {}
  }

  // --------------------------------------------------------------- the program

  datatype RenameFault = RenameWorks | RenameFails(effect: bool, notFound: bool, readable: bool)

  datatype LinkFault = LinkWorks | LinkFails(effect: bool, retryable: bool)

  /** What `os.replace` reports; a source that is really missing always raises FileNotFoundError. */
  function RenameResult(target: Option<Request>, fault: RenameFault): RenameOutcome {
    match fault
    case RenameWorks => if target.Some? then Moved else RenameRaised(false, true, true)
    case RenameFails(effect, notFound, readable) =>
      var e := effect && target.Some?;
      RenameRaised(e, notFound && (e || target.None?), readable)
  }

  function LinkResult(target: Option<Request>, fault: LinkFault): LinkOutcome {
    if target.Some? then LinkExists
    else match fault
      case LinkWorks => Linked
      case LinkFails(effect, retryable) => LinkRaised(effect, retryable)
  }

  function Raced(s: State, race: bool): State {
    if race then Next(s, Publish) else s
  }

  function ClaimRun(s: State, t: Tid, path: ClaimPath, race: bool, fault: RenameFault): State {
    var s1 := Raced(Next(s, BeginConsume(t, path)), race);
    Next(s1, Rename(t, RenameResult(s1.target, fault)))
  }

  function LinkRun(s: State, t: Tid, race: bool, fault: LinkFault): State {
    var s1 := Raced(s, race);
    Next(s1, Link(t, LinkResult(s1.target, fault)))
  }

  function RestoreRun(s: State, t: Tid, races: seq<bool>, faults: seq<LinkFault>): State
    requires |races| == |faults| == 2
  {
    var s0 := Next(s, BeginRestore(t));
    if !PhaseOf(s0, t).Restoring? then s0 else
    var s1 := LinkRun(s0, t, races[0], faults[0]);
    if !PhaseOf(s1, t).Restoring? then s1 else
    LinkRun(s1, t, races[1], faults[1])
  }

  function FinishRun(s: State, t: Tid, read: ReadResult, staleGone: bool, claimGone: bool): State {
    var s1 := if PhaseOf(s, t).Reading? && PhaseOf(s, t).obsolete.Some? then Next(s, DropObsolete(t, staleGone)) else s;
    var s2 := Next(s1, Read(t, read));
    if read.Interrupted? then s2 else Next(s2, Discard(t, claimGone))
  }

  /** Every program below is a run of the protocol, so it keeps the invariant. */
  lemma ProgramsKeepInv(s: State, t: Tid, path: ClaimPath, races: seq<bool>, fault: RenameFault, faults: seq<LinkFault>,
                        read: ReadResult, staleGone: bool, claimGone: bool)
    requires Inv(s) && |races| == |faults| == 2
    ensures Inv(ClaimRun(s, t, path, races[0], fault))
    ensures Inv(RestoreRun(s, t, races, faults))
    ensures Inv(FinishRun(s, t, read, staleGone, claimGone))
  {
    ClaimRunKeepsInv(s, t, path, races[0], fault);
    StepKeepsInv(s, BeginRestore(t));
    var s0 := Next(s, BeginRestore(t));
    LinkRunKeepsInv(s0, t, races[0], faults[0]);
    LinkRunKeepsInv(LinkRun(s0, t, races[0], faults[0]), t, races[1], faults[1]);
    FinishRunKeepsInv(s, t, read, staleGone, claimGone);
  }

  /** Out of the restore lock: the claim was put back or superseded, or it is what is pending. */
  ghost predicate RestoreOver(s: State, t: Tid, path: ClaimPath, epoch: nat) {
    && s.lock.None?
    && (|| PhaseOf(s, t) == Discarding(path)
        || (PhaseOf(s, t).Idle? && s.pending == Some(Pending(path, epoch))))
  }

  lemma LinkEnds(s: State, t: Tid, race: bool, fault: LinkFault)
    requires PhaseOf(s, t).Restoring? && PhaseOf(s, t).path in s.claims
    ensures var s' := LinkRun(s, t, race, fault);
            var p := PhaseOf(s, t);
            && s'.claims == s.claims
            && (|| (p.attempt == 0 && PhaseOf(s', t) == p.(attempt := 1))
                || RestoreOver(s', t, p.path, p.epoch))
  {
  }

  /** The rename raised, but the moved file is the one that was seen at the target. */
  predicate Recognised(s: State, t: Tid, o: RenameOutcome) {
    PhaseOf(s, t).Locked? && o.RenameRaised? && o.effect && o.readable && PhaseOf(s, t).seen == s.target
  }

  /**
    What a rename leads to.  A new generation is taken exactly when the rename
    returned or its file was recognised, and it supersedes what was parked;
    otherwise a missing source lets a parked claim be taken over, and nothing
    else happens.
   */
  lemma RenameDecides(s: State, t: Tid, o: RenameOutcome)
    requires Enabled(s, Rename(t, o))
    ensures var s', path := Next(s, Rename(t, o)), PhaseOf(s, t).path;
            var parked := if s.pending.Some? then Some(s.pending.value.path) else None;
            && s'.epoch == s.epoch + (if o.Moved? || Recognised(s, t, o) then 1 else 0)
            && (if o.Moved? then s'.pending.None? && PhaseOf(s', t) == Reading(path, s'.epoch, parked)
                else if Recognised(s, t, o) then
                  && s'.pending == Some(Pending(path, s'.epoch))
                  && PhaseOf(s', t) == (if parked.Some? then Discarding(parked.value) else Idle)
                else if o.readable && o.notFound && parked.Some? then
                  s'.pending.None? && PhaseOf(s', t) == Reading(parked.value, s.pending.value.epoch, None)
                else s'.pending == s.pending && PhaseOf(s', t) == Idle)
  {
  }

  /** However the link attempts end, the lock is free and the claim is restored, superseded or pending. */
  lemma RestoreEnds(s: State, t: Tid, races: seq<bool>, faults: seq<LinkFault>)
    requires Enabled(s, BeginRestore(t)) && PhaseOf(s, t).path in s.claims && |races| == |faults| == 2
    ensures RestoreOver(RestoreRun(s, t, races, faults), t, PhaseOf(s, t).path, PhaseOf(s, t).epoch)
  {
    var s0 := Next(s, BeginRestore(t));
    if PhaseOf(s0, t).Restoring? {
      LinkEnds(s0, t, races[0], faults[0]);
      var s1 := LinkRun(s0, t, races[0], faults[0]);
      if PhaseOf(s1, t).Restoring? {
        LinkEnds(s1, t, races[1], faults[1]);
      }
    }
  }

  /** The module's state and its files; the publisher may act between any two file operations. */
  class ControlPlane {
    var target: Option<Request>
    var claims: map<ClaimPath, Request>
    var pending: Option<Pending>
    var claimEpoch: nat
    var lock: Option<Tid>
    var consumers: map<Tid, Phase>
    var used: set<ClaimPath>
    var published: nat
    var acquired: seq<Request>
    var delivered: seq<Request>
    var rejected: set<Request>

    ghost function View(): State
      reads this
    {
      State(target, claims, pending, claimEpoch, lock, consumers, used, published, acquired, delivered, rejected)
    }

    constructor ()
      ensures View() == INIT
    {
      target, claims, pending, claimEpoch, lock := None, map[], None, 0, None;
      consumers, used, published := map[], {}, 0;
      acquired, delivered, rejected := [], [], {};
    }

    method PublishRequest()
      modifies this
      ensures View() == Next(old(View()), Publish)
      ensures target == Some(published) && published == old(published) + 1 && claims == old(claims)
    {
      published := published + 1;
      target := Some(published);
    }

    /** The identity of the target is read under the lock, before the rename. */
    method StatTarget(t: Tid, path: ClaimPath)
      requires Enabled(View(), BeginConsume(t, path))
      modifies this
      ensures View() == Next(old(View()), BeginConsume(t, path))
      ensures lock == Some(t) && PhaseOf(View(), t) == Locked(path, target) && target == old(target)
    {
      lock, used, consumers := Some(t), used + {path}, consumers[t := Locked(path, target)];
    }

    /** `os.replace(target, claimed)` and the branch it leads to. */
    method ReplaceTarget(t: Tid, outcome: RenameOutcome)
      requires Enabled(View(), Rename(t, outcome))
      modifies this
      ensures View() == Next(old(View()), Rename(t, outcome))
      // the lock is free, and the file has moved exactly when the rename took effect
      ensures var moved, path := outcome.Moved? || outcome.effect, PhaseOf(old(View()), t).path;
              && lock.None? && target == (if moved then None else old(target))
              && claims == (if moved then old(claims)[path := old(target).value] else old(claims))
    {
      var Locked(path, seen) := consumers[t];
      var moved: Option<Request> := None;
      if outcome.Moved? || outcome.effect {
        moved, target, claims := target, None, claims[path := target.value];
      }
      if outcome.Moved? || (outcome.readable && moved.Some? && moved == seen) {
        var superseded := pending;
        claimEpoch, acquired := claimEpoch + 1, acquired + [moved.value];
        if outcome.Moved? {
          pending := None;
          consumers := consumers[t := Reading(path, claimEpoch,
              if superseded.Some? then Some(superseded.value.path) else None)];
        } else {
          pending := Some(Pending(path, claimEpoch));
          consumers := consumers[t := if superseded.Some? then Discarding(superseded.value.path) else Idle];
        }
      } else if outcome.readable && outcome.notFound && pending.Some? {
        consumers := consumers[t := Reading(pending.value.path, pending.value.epoch, None)];
        pending := None;
      } else {
        consumers := consumers[t := Idle];
      }
      lock := None;
    }

    /** The section of `consume_shutdown_request` under `_PENDING_CLAIMS_LOCK`. */
    method ClaimTarget(t: Tid, path: ClaimPath, race: bool, fault: RenameFault)
      requires Enabled(View(), BeginConsume(t, path))
      modifies this
      ensures View() == ClaimRun(old(View()), t, path, race, fault)
    {
      StatTarget(t, path);
      if race {
        PublishRequest();
      }
      ReplaceTarget(t, RenameResult(target, fault));
    }

    method DropStale(t: Tid, removed: bool)
      requires Enabled(View(), DropObsolete(t, removed))
      modifies this
      ensures View() == Next(old(View()), DropObsolete(t, removed))
      ensures claims == old(claims) - (if removed then {PhaseOf(old(View()), t).obsolete.value} else {})
      ensures PhaseOf(View(), t) == PhaseOf(old(View()), t).(obsolete := None)
    {
      var Reading(path, epoch, obsolete) := consumers[t];
      if removed {
        claims := claims - {obsolete.value};
      }
      consumers := consumers[t := Reading(path, epoch, None)];
    }

    /** Reading and checking the claim decides whether it is delivered, rejected, or to be put back. */
    method ReadClaim(t: Tid, read: ReadResult)
      requires PhaseOf(View(), t).Reading? && PhaseOf(View(), t).obsolete.None?
      requires PhaseOf(View(), t).path in claims
      modifies this
      ensures View() == Next(old(View()), Read(t, read))
      ensures var request := old(claims[PhaseOf(View(), t).path]);
              && delivered == old(delivered) + (if read.Valid? then [request] else [])
              && rejected == old(rejected) + (if read.Invalid? then {request} else {})
      ensures var p := PhaseOf(old(View()), t);
              PhaseOf(View(), t) == if read.Interrupted? then Retrying(p.path, p.epoch) else Discarding(p.path)
    {
      var Reading(path, epoch, _) := consumers[t];
      match read
      case Valid =>
        delivered, consumers := delivered + [claims[path]], consumers[t := Discarding(path)];
      case Invalid =>
        rejected, consumers := rejected + {claims[path]}, consumers[t := Discarding(path)];
      case Interrupted =>
        consumers := consumers[t := Retrying(path, epoch)];
    }

    method DiscardClaim(t: Tid, removed: bool)
      requires Enabled(View(), Discard(t, removed))
      modifies this
      ensures View() == Next(old(View()), Discard(t, removed))
      ensures claims == old(claims) - (if removed then {PhaseOf(old(View()), t).path} else {})
      ensures PhaseOf(View(), t).Idle?
    {
      if removed {
        claims := claims - {consumers[t].path};
      }
      consumers := consumers[t := Idle];
    }

    method FinishClaim(t: Tid, read: ReadResult, staleGone: bool, claimGone: bool)
      requires PhaseOf(View(), t).Reading? && PhaseOf(View(), t).path in claims
      requires PhaseOf(View(), t).obsolete != Some(PhaseOf(View(), t).path)
      modifies this
      ensures View() == FinishRun(old(View()), t, read, staleGone, claimGone)
      ensures var p := PhaseOf(old(View()), t);
              PhaseOf(View(), t) == if read.Interrupted? then Retrying(p.path, p.epoch) else Idle
      ensures var p := PhaseOf(old(View()), t);
              claims == old(claims) - (if staleGone && p.obsolete.Some? then {p.obsolete.value} else {})
                                    - (if claimGone && !read.Interrupted? then {p.path} else {})
      ensures var request := old(claims[PhaseOf(View(), t).path]);
              && delivered == old(delivered) + (if read.Valid? then [request] else [])
              && rejected == old(rejected) + (if read.Invalid? then {request} else {})
    {
      if consumers[t].obsolete.Some? {
        DropStale(t, staleGone);
      }
      ReadClaim(t, read);
      if !read.Interrupted? {
        DiscardClaim(t, claimGone);
      }
    }

    method LockForRestore(t: Tid)
      requires Enabled(View(), BeginRestore(t))
      modifies this
      ensures View() == Next(old(View()), BeginRestore(t))
      ensures var p := PhaseOf(old(View()), t);
              if claimEpoch == p.epoch then lock == Some(t) && PhaseOf(View(), t) == Restoring(p.path, p.epoch, 0)
              else
                && lock.None? && PhaseOf(View(), t) == Discarding(p.path)
                && pending == if old(pending) == Some(Pending(p.path, p.epoch)) then None else old(pending)
    {
      var Retrying(path, epoch) := consumers[t];
      if claimEpoch != epoch {
        if pending == Some(Pending(path, epoch)) {
          pending := None;
        }
        consumers := consumers[t := Discarding(path)];
      } else {
        lock, consumers := Some(t), consumers[t := Restoring(path, epoch, 0)];
      }
    }

    /** One `os.link` attempt and what the loop does with its outcome. */
    method LinkClaim(t: Tid, outcome: LinkOutcome)
      requires Enabled(View(), Link(t, outcome))
      modifies this
      ensures View() == Next(old(View()), Link(t, outcome))
      ensures var p := PhaseOf(old(View()), t);
              && target == (if outcome.Linked? || (outcome.LinkRaised? && outcome.effect) then Some(claims[p.path])
                            else old(target))
              && (if !outcome.LinkRaised? then
                    && lock.None? && PhaseOf(View(), t) == Discarding(p.path)
                    && pending == (if old(pending) == Some(Pending(p.path, p.epoch)) then None else old(pending))
                  else if outcome.retryable && p.attempt == 0 then
                    lock == old(lock) && PhaseOf(View(), t) == Restoring(p.path, p.epoch, 1) && pending == old(pending)
                  else lock.None? && PhaseOf(View(), t).Idle? && pending == Some(Pending(p.path, p.epoch)))
    {
      var Restoring(path, epoch, attempt) := consumers[t];
      if outcome.Linked? || (outcome.LinkRaised? && outcome.effect) {
        target := Some(claims[path]);
      }
      if !outcome.LinkRaised? {
        if pending == Some(Pending(path, epoch)) {
          pending := None;
        }
        lock, consumers := None, consumers[t := Discarding(path)];
      } else if outcome.retryable && attempt == 0 {
        consumers := consumers[t := Restoring(path, epoch, 1)];
      } else {
        lock, pending, consumers := None, Some(Pending(path, epoch)), consumers[t := Idle];
      }
    }

    /** `_restore_claim_for_retry`: link the claim back, or be superseded, or park it as pending. */
    method RestoreClaim(t: Tid, races: seq<bool>, faults: seq<LinkFault>)
      requires Enabled(View(), BeginRestore(t)) && PhaseOf(View(), t).path in claims
      requires |races| == |faults| == 2
      modifies this
      ensures View() == RestoreRun(old(View()), t, races, faults)
      ensures RestoreOver(View(), t, PhaseOf(old(View()), t).path, PhaseOf(old(View()), t).epoch)
    {
      RestoreEnds(View(), t, races, faults);
      LockForRestore(t);
      ghost var s0 := View();
      var attempt := 0;
      while attempt < 2 && t in consumers && consumers[t].Restoring?
        invariant attempt <= 2
        invariant PhaseOf(View(), t).Restoring? ==> PhaseOf(View(), t).path in claims
        invariant attempt == 0 ==> View() == s0
        invariant attempt == 1 ==> PhaseOf(s0, t).Restoring? && View() == LinkRun(s0, t, races[0], faults[0])
        invariant attempt == 2 ==>
          var s1 := LinkRun(s0, t, races[0], faults[0]);
          PhaseOf(s0, t).Restoring? && PhaseOf(s1, t).Restoring? && View() == LinkRun(s1, t, races[1], faults[1])
      {
        if races[attempt] {
          PublishRequest();
        }
        LinkClaim(t, LinkResult(target, faults[attempt]));
        attempt := attempt + 1;
      }
    }
  }

  // --------------------------------------- why each step keeps the invariant

  /** A step of `t` moves no other consumer and leaves the claims the others hold alone. */
  ghost predicate OthersUntouched(s: State, s': State, t: Tid) {
    && (forall u: Tid :: u != t ==> PhaseOf(s', u) == PhaseOf(s, u))
    && (forall u: Tid :: u != t ==> HeldBy(s', u) == HeldBy(s, u))
  }

  function PendingPath(s: State): Option<ClaimPath> {
    if s.pending.Some? then Some(s.pending.value.path) else None
  }

  /** A claim file that `t` may name after its step: one it named before, the pending one, or a new one. */
  predicate MayName(s: State, t: Tid, path: Option<ClaimPath>) {
    path.Some? ==>
      path == ClaimOf(PhaseOf(s, t)) || path == StaleOf(PhaseOf(s, t)) || path == PendingPath(s)
          || path.value !in s.used
  }

  /** The files that `t` and the pending entry name after its step are used, and no two are the same. */
  ghost predicate NamesApart(s: State, t: Tid) {
    var claim, stale, pending := ClaimOf(PhaseOf(s, t)), StaleOf(PhaseOf(s, t)), PendingPath(s);
    && IsUsed(s, claim) && IsUsed(s, stale) && IsUsed(s, pending)
    && Apart(claim, stale) && Apart(pending, claim) && Apart(pending, stale)
    && (PhaseOf(s, t).Locked? ==> claim.value !in s.claims)
  }

  /** A step of `t` moves nobody else, and it renames, links and unlinks only files it may name. */
  ghost predicate StaysInLane(s: State, s': State, t: Tid) {
    && (forall u: Tid :: u != t ==> PhaseOf(s', u) == PhaseOf(s, u))
    && s.used <= s'.used && s'.claims.Keys <= s'.used
    && (forall path: ClaimPath :: !MayName(s, t, Some(path)) ==>
          (path in s'.claims <==> path in s.claims) && (path in s.claims ==> s'.claims[path] == s.claims[path]))
    && MayName(s, t, ClaimOf(PhaseOf(s', t))) && MayName(s, t, StaleOf(PhaseOf(s', t)))
        && MayName(s, t, PendingPath(s'))
    && NamesApart(s', t)
    && (InSection(PhaseOf(s', t)) ==> s.lock.None? || s.lock.value == t)
    && s'.lock == if InSection(PhaseOf(s', t)) then Some(t) else if InSection(PhaseOf(s, t)) then None else s.lock
  }

  /** So nobody can unlink or overwrite a claim that another consumer still needs. */
  lemma LaneKeepsPaths(s: State, s': State, t: Tid)
    requires PathInv(s) && OrderInv(s) && StaysInLane(s, s', t)
    ensures PathInv(s') && OthersUntouched(s, s', t)
  {
    forall u: Tid | u != t ensures HeldBy(s', u) == HeldBy(s, u) {
      assert Backed(s, u);
      if Live(PhaseOf(s, u)) {
        assert !MayName(s, t, ClaimOf(PhaseOf(s, u)));
      }
    }
  }

  lemma NewGenerationIsBacked(s: State, s': State, t: Tid, u: Tid)
    requires Inv(s) && PhaseOf(s, t).Locked? && s.target.Some?
    requires s' in [Acquire(s, t), Adopt(s, t)] && OthersUntouched(s, s', t)
    ensures Backed(s', u)
  {
    assert Backed(s, u);
  }

  lemma NewGenerationKeepsOrder(s: State, s': State, t: Tid)
    requires Inv(s) && PhaseOf(s, t).Locked? && s.target.Some?
    requires s' in [Acquire(s, t), Adopt(s, t)] && OthersUntouched(s, s', t)
    ensures OrderInv(s')
  {
    NewGenerationIsNewest(s, s', t);
    forall u: Tid ensures Backed(s', u) {
      NewGenerationIsBacked(s, s', t, u);
    }
  }

  lemma NewGenerationIsNewest(s: State, s': State, t: Tid)
    requires Inv(s) && PhaseOf(s, t).Locked? && s.target.Some?
    requires s' in [Acquire(s, t), Adopt(s, t)]
    ensures Ordered(s') && PendingCurrent(s')
  {
  }

  lemma NewGenerationKeepsCustody(s: State, s': State, t: Tid)
    requires Inv(s) && PhaseOf(s, t).Locked? && s.target.Some?
    requires s' in [Acquire(s, t), Adopt(s, t)] && OthersUntouched(s, s', t)
    ensures CustodyInv(s')
  {
    NewGenerationKeepsOrder(s, s', t);
  }

  lemma TakePendingKeepsOrder(s: State, s': State, t: Tid, effect: bool)
    requires Inv(s)
    requires PhaseOf(s, t).Locked? && s.pending.Some?
    requires if effect then s.target.Some? && PhaseOf(s, t).seen != s.target else s.target.None?
    requires s' == TakePending(s, t, effect) && OthersUntouched(s, s', t)
    ensures OrderInv(s') && HeldBy(s', t) == PendingRequest(s)
  {
    forall u: Tid ensures Backed(s', u) {
      assert Backed(s, u);
    }
  }

  lemma TakePendingKeepsCustody(s: State, s': State, t: Tid, effect: bool)
    requires Inv(s)
    requires PhaseOf(s, t).Locked? && s.pending.Some?
    requires if effect then s.target.Some? && PhaseOf(s, t).seen != s.target else s.target.None?
    requires s' == TakePending(s, t, effect) && OthersUntouched(s, s', t)
    ensures CustodyInv(s')
  {
    TakePendingKeepsOrder(s, s', t, effect);
  }

  /** `u` holds after the step what it held before, or nothing. */
  ghost predicate HandShrinks(s: State, s': State, u: Tid) {
    var p, p' := PhaseOf(s, u), PhaseOf(s', u);
    && (Live(p') ==> Live(p) && p'.epoch == p.epoch && HeldBy(s', u) == HeldBy(s, u))
    && (p'.Restoring? ==> p'.epoch == s.epoch)
    && (p.Restoring? && HeldBy(s', u).Some? && HeldBy(s', u) == s'.target ==> p'.Restoring?)
    && (p'.Locked? ==> p'.seen == s'.target || (p' == p && s'.target == s.target))
  }

  /** No place gains a request; at most one request is finished, and it leaves every place. */
  ghost predicate Shrinks(s: State, s': State) {
    && (s'.target == s.target || s'.target == None)
    && ((s'.pending == s.pending && PendingRequest(s') == PendingRequest(s)) || s'.pending == None)
    && s'.epoch == s.epoch && s'.published == s.published && s'.acquired == s.acquired
    && (forall u: Tid :: HandShrinks(s, s', u))
    && (|| (s'.delivered == s.delivered && s'.rejected == s.rejected)
        || exists r: Request :: Finishes(s, s', r))
  }

  ghost predicate Finishes(s: State, s': State, r: Request) {
    && Overtaken(s, r) && NotDone(s, Some(r))
    && (|| (s'.delivered == s.delivered + [r] && s'.rejected == s.rejected)
        || (s'.delivered == s.delivered && s'.rejected == s.rejected + {r}))
    && s'.target != Some(r) && PendingRequest(s') != Some(r)
    && (forall u: Tid :: HeldBy(s', u) != Some(r))
  }

  lemma ShrinkKeepsOrder(s: State, s': State)
    requires CustodyInv(s) && Shrinks(s, s')
    ensures OrderInv(s')
  {
    forall u: Tid ensures Backed(s', u) {
      assert Backed(s, u) && HandShrinks(s, s', u);
    }
  }

  lemma ShrinkKeepsCustody(s: State, s': State)
    requires CustodyInv(s) && Shrinks(s, s')
    ensures CustodyInv(s')
  {
    ShrinkKeepsOrder(s, s');
    forall u: Tid
      ensures HeldBy(s', u).Some? ==> HeldBy(s', u) == HeldBy(s, u)
      ensures HeldBy(s', u).Some? && HeldBy(s', u) == s'.target ==> PhaseOf(s', u).Restoring?
      ensures PhaseOf(s', u).Locked? ==>
                PhaseOf(s', u).seen == s'.target || (PhaseOf(s, u) == PhaseOf(s', u) && s.target == s'.target)
    {
      assert Backed(s, u) && HandShrinks(s, s', u);
    }
  }

  lemma OneHandShrinks(s: State, s': State, t: Tid)
    requires OthersUntouched(s, s', t) && HandShrinks(s, s', t)
    requires s'.target == s.target || (s'.target == None && forall u: Tid :: u != t ==> !InSection(PhaseOf(s, u)))
    requires AllLiveBacked(s)
    requires forall u: Tid :: u != t && HeldBy(s, u).Some? && HeldBy(s, u) == s.target ==> PhaseOf(s, u).Restoring?
    ensures forall u: Tid :: HandShrinks(s, s', u)
  {
    forall u: Tid ensures HandShrinks(s, s', u) {
      assert Backed(s, u);
    }
  }

  /** A step whose outcome does not depend on a rename or a link. */
  predicate PlainStep(a: Action) {
    !a.Publish? && !a.Rename? && !a.Link? && !a.Read?
  }

  lemma ReadStaysInLane(s: State, t: Tid, result: ReadResult)
    requires PathInv(s) && Enabled(s, Read(t, result))
    ensures StaysInLane(s, AfterRead(s, t, result), t)
  {
  }

  lemma ReadFinishes(s: State, t: Tid, result: ReadResult)
    requires Inv(s) && Enabled(s, Read(t, result)) && !result.Interrupted?
    requires OthersUntouched(s, AfterRead(s, t, result), t)
    ensures HeldBy(s, t).Some? && Finishes(s, AfterRead(s, t, result), HeldBy(s, t).value)
  {
    assert Backed(s, t) && NotDone(s, HeldBy(s, t));
  }

  lemma ReadShrinks(s: State, t: Tid, result: ReadResult)
    requires Inv(s) && Enabled(s, Read(t, result))
    ensures StaysInLane(s, AfterRead(s, t, result), t) && Shrinks(s, AfterRead(s, t, result))
  {
    var s' := AfterRead(s, t, result);
    assert Backed(s, t);
    ReadStaysInLane(s, t, result);
    LaneKeepsPaths(s, s', t);
    OneHandShrinks(s, s', t);
    if !result.Interrupted? {
      ReadFinishes(s, t, result);
    }
  }

  lemma PlainStepStaysInLane(s: State, a: Action)
    requires PathInv(s) && Enabled(s, a) && PlainStep(a)
    ensures StaysInLane(s, Next(s, a), a.t)
  {
  }

  lemma PlainStepShrinks(s: State, a: Action)
    requires Inv(s) && Enabled(s, a) && PlainStep(a)
    ensures Shrinks(s, Next(s, a))
  {
    var s' := Next(s, a);
    assert Backed(s, a.t);
    PlainStepStaysInLane(s, a);
    LaneKeepsPaths(s, Next(s, a), a.t);
    OneHandShrinks(s, s', a.t);
  }

  lemma GiveUpShrinks(s: State, t: Tid, effect: bool)
    requires Inv(s) && PhaseOf(s, t).Locked? && (effect ==> s.target.Some?)
    ensures Shrinks(s, GiveUp(s, t, effect))
  {
    LaneKeepsPaths(s, GiveUp(s, t, effect), t);
    OneHandShrinks(s, GiveUp(s, t, effect), t);
  }

  lemma RenameStaysInLane(s: State, t: Tid, o: RenameOutcome)
    requires PathInv(s) && Enabled(s, Rename(t, o))
    ensures StaysInLane(s, Next(s, Rename(t, o)), t)
  {
  }

  lemma RenameKeepsInv(s: State, t: Tid, o: RenameOutcome)
    requires Inv(s) && Enabled(s, Rename(t, o))
    ensures Inv(Next(s, Rename(t, o)))
  {
    var s' := Next(s, Rename(t, o));
    RenameStaysInLane(s, t, o);
    LaneKeepsPaths(s, s', t);
    if o.Moved? || (o.readable && o.effect && PhaseOf(s, t).seen == s.target) {
      NewGenerationKeepsCustody(s, s', t);
    } else if o.readable && o.notFound && s.pending.Some? {
      TakePendingKeepsCustody(s, s', t, o.effect);
    } else {
      GiveUpShrinks(s, t, o.effect);
      ShrinkKeepsCustody(s, s');
    }
  }

  lemma RelinkKeepsInv(s: State, t: Tid)
    requires Inv(s) && PhaseOf(s, t).Restoring? && PhaseOf(s, t).path in s.claims && s.target.None?
    ensures Inv(Relink(s, t))
  {
    LaneKeepsPaths(s, Relink(s, t), t);
    assert Backed(s, t);
    forall u: Tid ensures Backed(Relink(s, t), u) {
      assert Backed(s, u);
    }
  }

  lemma SettleKeepsInv(s: State, t: Tid)
    requires Inv(s) && PhaseOf(s, t).Restoring? && s.target.Some?
    ensures Inv(Settle(s, t))
  {
    LaneKeepsPaths(s, Settle(s, t), t);
    assert Backed(s, t);
    OneHandShrinks(s, Settle(s, t), t);
    ShrinkKeepsCustody(s, Settle(s, t));
  }

  lemma RetryLinkKeepsInv(s: State, t: Tid)
    requires Inv(s) && PhaseOf(s, t).Restoring?
    ensures Inv(Goto(s, t, Restoring(PhaseOf(s, t).path, PhaseOf(s, t).epoch, 1)))
  {
    var s' := Goto(s, t, Restoring(PhaseOf(s, t).path, PhaseOf(s, t).epoch, 1));
    LaneKeepsPaths(s, s', t);
    assert Backed(s, t);
    OneHandShrinks(s, s', t);
    ShrinkKeepsCustody(s, s');
  }

  lemma ParkKeepsInv(s: State, t: Tid)
    requires Inv(s) && PhaseOf(s, t).Restoring?
    ensures Inv(Park(s, t))
  {
    LaneKeepsPaths(s, Park(s, t), t);
    assert Backed(s, t);
    forall u: Tid ensures Backed(Park(s, t), u) {
      assert Backed(s, u);
    }
  }

  lemma LinkKeepsInv(s: State, t: Tid, o: LinkOutcome)
    requires Inv(s) && Enabled(s, Link(t, o))
    ensures Inv(Next(s, Link(t, o)))
  {
    var s1 := if o.Linked? || (o.LinkRaised? && o.effect) then Relink(s, t) else s;
    if s1 != s {
      RelinkKeepsInv(s, t);
    }
    if !o.LinkRaised? {
      SettleKeepsInv(s1, t);
    } else if o.retryable && PhaseOf(s, t).attempt == 0 {
      RetryLinkKeepsInv(s1, t);
    } else {
      ParkKeepsInv(s1, t);
    }
  }

  lemma PublishMovesNobody(s: State)
    requires PathInv(s)
    ensures var s' := Next(s, Publish);
            && PathInv(s')
            && PendingRequest(s') == PendingRequest(s)
            && (forall u: Tid :: PhaseOf(s', u) == PhaseOf(s, u) && HeldBy(s', u) == HeldBy(s, u))
  {
    var s' := Next(s, Publish);
    assert forall u: Tid :: PhaseOf(s', u) == PhaseOf(s, u) && HeldBy(s', u) == HeldBy(s, u);
  }

  lemma PublishKeepsInv(s: State)
    requires Inv(s)
    ensures Inv(Next(s, Publish))
  {
    var s' := Next(s, Publish);
    PublishMovesNobody(s);
    forall u: Tid ensures Backed(s', u) && HeldBy(s', u) != s'.target {
      assert Backed(s, u);
    }
  }

  lemma StepKeepsInv(s: State, a: Action)
    requires Inv(s)
    ensures Inv(Next(s, a))
  {
    if !Enabled(s, a) {
    } else if a.Publish? {
      PublishKeepsInv(s);
    } else if a.Rename? {
      RenameKeepsInv(s, a.t, a.moved);
    } else if a.Link? {
      LinkKeepsInv(s, a.t, a.linked);
    } else if a.Read? {
      ReadShrinks(s, a.t, a.result);
      LaneKeepsPaths(s, Next(s, a), a.t);
      ShrinkKeepsCustody(s, Next(s, a));
    } else {
      PlainStepStaysInLane(s, a);
      LaneKeepsPaths(s, Next(s, a), a.t);
      PlainStepShrinks(s, a);
      ShrinkKeepsCustody(s, Next(s, a));
    }
  }

  lemma ClaimRunKeepsInv(s: State, t: Tid, path: ClaimPath, race: bool, fault: RenameFault)
    requires Inv(s)
    ensures Inv(ClaimRun(s, t, path, race, fault))
  {
    var s1 := Next(s, BeginConsume(t, path));
    StepKeepsInv(s, BeginConsume(t, path));
    StepKeepsInv(s1, Publish);
    StepKeepsInv(Raced(s1, race), Rename(t, RenameResult(Raced(s1, race).target, fault)));
  }

  lemma LinkRunKeepsInv(s: State, t: Tid, race: bool, fault: LinkFault)
    requires Inv(s)
    ensures Inv(LinkRun(s, t, race, fault))
  {
    StepKeepsInv(s, Publish);
    StepKeepsInv(Raced(s, race), Link(t, LinkResult(Raced(s, race).target, fault)));
  }

  lemma FinishRunKeepsInv(s: State, t: Tid, read: ReadResult, staleGone: bool, claimGone: bool)
    requires Inv(s)
    ensures Inv(FinishRun(s, t, read, staleGone, claimGone))
  {
    StepKeepsInv(s, DropObsolete(t, staleGone));
    var s1 := if PhaseOf(s, t).Reading? && PhaseOf(s, t).obsolete.Some? then Next(s, DropObsolete(t, staleGone)) else s;
    StepKeepsInv(s1, Read(t, read));
    StepKeepsInv(Next(s1, Read(t, read)), Discard(t, claimGone));
  }

  // --------------------------------- why only an orphaned rename loses the newest

  lemma StillHeld(s: State, s': State, r: Request, t: Tid)
    requires Placed(s, r) && OthersUntouched(s, s', t)
    requires s.target == Some(r) ==> Placed(s', r) || Done(s', r)
    requires PendingRequest(s) == Some(r) ==> Placed(s', r) || Done(s', r)
    requires HeldBy(s, t) == Some(r) ==> Placed(s', r) || Done(s', r)
    ensures Placed(s', r) || Done(s', r)
  {
    if s.target != Some(r) && PendingRequest(s) != Some(r) {
      var u: Tid :| HeldBy(s, u) == Some(r);
      assert u != t ==> HeldBy(s', u) == Some(r);
    }
  }

  /** A target that is left is the newest request, unless that is already lost. */
  lemma TargetIsNewest(s: State)
    requires Inv(s) && NewestSafe(s) && s.target.Some?
    ensures s.target.value == s.published
  {
    if Placed(s, s.published) && s.target != Some(s.published) && PendingRequest(s) != Some(s.published) {
      var u: Tid :| HeldBy(s, u) == Some(s.published);
      assert Backed(s, u);
    }
  }

  lemma OrphanIsLost(s: State, t: Tid, o: RenameOutcome)
    requires Inv(s) && NewestSafe(s) && Orphans(s, Rename(t, o))
    ensures !NewestSafe(Next(s, Rename(t, o)))
  {
    var s' := Next(s, Rename(t, o));
    TargetIsNewest(s);
    assert NotDone(s, s.target);
    RenameStaysInLane(s, t, o);
    LaneKeepsPaths(s, s', t);
    if o.readable && o.notFound && s.pending.Some? {
      assert HeldBy(s', t) == PendingRequest(s);
    } else {
      assert PendingRequest(s') == PendingRequest(s);
    }
    forall u: Tid ensures HeldBy(s', u) != s.target {
      assert HeldBy(s, u) == s.target ==> PhaseOf(s, u).Restoring?;
      assert u != t ==> HeldBy(s', u) == HeldBy(s, u);
    }
  }

  /** An unrecognised move of a request that is also parked as pending does no harm. */
  lemma ParkedCopySurvives(s: State, t: Tid, o: RenameOutcome)
    requires Inv(s) && NewestSafe(s) && Enabled(s, Rename(t, o)) && o.RenameRaised? && o.effect && !o.readable
    requires PendingRequest(s) == s.target
    ensures NewestSafe(Next(s, Rename(t, o)))
  {
    var s' := Next(s, Rename(t, o));
    TargetIsNewest(s);
    RenameStaysInLane(s, t, o);
    LaneKeepsPaths(s, s', t);
    assert PendingRequest(s') == PendingRequest(s);
  }

  lemma AcquireKeepsNewest(s: State, t: Tid)
    requires Inv(s) && NewestSafe(s) && PhaseOf(s, t).Locked? && s.target.Some?
    ensures NewestSafe(Acquire(s, t)) && NewestSafe(Adopt(s, t))
  {
    TargetIsNewest(s);
    assert HeldBy(Acquire(s, t), t) == s.target == PendingRequest(Adopt(s, t));
  }

  lemma RenameWithoutEffectKeepsNewest(s: State, t: Tid, o: RenameOutcome)
    requires Inv(s) && NewestSafe(s) && Enabled(s, Rename(t, o)) && o.RenameRaised? && !o.effect
    ensures NewestSafe(Next(s, Rename(t, o)))
  {
    var s' := Next(s, Rename(t, o));
    RenameStaysInLane(s, t, o);
    LaneKeepsPaths(s, s', t);
    if o.readable && o.notFound && s.pending.Some? {
      assert HeldBy(s', t) == PendingRequest(s);
    } else {
      assert PendingRequest(s') == PendingRequest(s);
    }
    if Placed(s, s.published) {
      StillHeld(s, s', s.published, t);
    }
  }

  lemma RenameKeepsNewest(s: State, t: Tid, o: RenameOutcome)
    requires Inv(s) && NewestSafe(s) && Enabled(s, Rename(t, o))
    ensures NewestSafe(Next(s, Rename(t, o))) <==> !Orphans(s, Rename(t, o))
  {
    if Orphans(s, Rename(t, o)) {
      OrphanIsLost(s, t, o);
    } else if o.RenameRaised? && !o.effect {
      RenameWithoutEffectKeepsNewest(s, t, o);
    } else if o.RenameRaised? && !o.readable {
      ParkedCopySurvives(s, t, o);
    } else {
      AcquireKeepsNewest(s, t);
    }
  }

  lemma BeginRestoreKeepsNewest(s: State, t: Tid)
    requires Inv(s) && NewestSafe(s) && Enabled(s, BeginRestore(t))
    ensures NewestSafe(Next(s, BeginRestore(t)))
  {
    var s' := Next(s, BeginRestore(t));
    PlainStepStaysInLane(s, BeginRestore(t));
    LaneKeepsPaths(s, s', t);
    assert Backed(s, t);
    if s.epoch != PhaseOf(s, t).epoch {
      assert HeldBy(s, t).value < s.acquired[s.epoch - 1] <= s.published;
      assert s'.pending == s.pending;
    } else {
      assert HeldBy(s', t) == HeldBy(s, t);
    }
    assert PendingRequest(s') == PendingRequest(s);
    if Placed(s, s.published) {
      StillHeld(s, s', s.published, t);
    }
  }

  lemma LinkKeepsNewest(s: State, t: Tid, o: LinkOutcome)
    requires Inv(s) && NewestSafe(s) && Enabled(s, Link(t, o))
    ensures NewestSafe(Next(s, Link(t, o)))
  {
    var s' := Next(s, Link(t, o));
    var n := s.published;
    assert Backed(s, t);
    assert HeldBy(s, t).Some? && HeldBy(s, t) == Some(s.acquired[s.epoch - 1]);
    LinkTouchesNobody(s, t, o);
    assert s.pending.None?;
    if HeldBy(s, t) == Some(n) && s'.target != Some(n) {
      assert PendingRequest(s') == Some(n) || HeldBy(s', t) == Some(n);
    }
    if Placed(s, n) {
      StillHeld(s, s', n, t);
    }
  }

  lemma LinkTouchesNobody(s: State, t: Tid, o: LinkOutcome)
    requires Inv(s) && Enabled(s, Link(t, o))
    ensures OthersUntouched(s, Next(s, Link(t, o)), t)
  {
  }

  lemma ReadKeepsNewest(s: State, t: Tid, result: ReadResult)
    requires Inv(s) && NewestSafe(s) && Enabled(s, Read(t, result))
    ensures NewestSafe(Next(s, Read(t, result)))
  {
    var s' := AfterRead(s, t, result);
    ReadStaysInLane(s, t, result);
    LaneKeepsPaths(s, s', t);
    if result.Interrupted? {
      assert HeldBy(s', t) == HeldBy(s, t);
    } else {
      ReadFinishes(s, t, result);
    }
    if Placed(s, s.published) {
      StillHeld(s, s', s.published, t);
    }
  }

  lemma QuietKeepsNewest(s: State, a: Action)
    requires Inv(s) && NewestSafe(s) && Enabled(s, a)
    requires PlainStep(a) && !a.BeginRestore?
    ensures NewestSafe(Next(s, a))
  {
    var s' := Next(s, a);
    assert Backed(s, a.t);
    PlainStepStaysInLane(s, a);
    LaneKeepsPaths(s, Next(s, a), a.t);
    assert a.DropObsolete? ==> HeldBy(s', a.t) == HeldBy(s, a.t);
    if Placed(s, s.published) {
      StillHeld(s, s', s.published, a.t);
    }
  }
}

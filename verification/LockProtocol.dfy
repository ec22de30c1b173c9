/** The lock and the cancellation tokens under threads: any number of callers of `acquire`, of
    processes that register a termination callback, and of callers of `cancel`, interleaved step by
    step. A step reads or sets the event of one token, or is a stretch of code under one mutex. */
module LockProtocol {
  import opened Wrappers
  import opened HostLock
  import opened Cancellation

  type Host = string
  type Tid = nat
  type TokenId = nat
  type Cid = nat

  /** Who registers a callback: a caller of `acquire`, whose callback wakes the waiters of its host,
      or the owner of a process, whose callback stops that process. */
  datatype Client = Waiter(host: Host, kind: Kind) | Process

  datatype PC =
    | Start                     // about to register, or to take the condition when there is no token
    | Appending                 // inside `register` with the token lock, having read the event unset
    | CallingNow                // registered too late: about to run its own callback
    | Wanting                   // about to take the condition
    | Checking                  // with the condition, about to evaluate the predicate
    | Blocked                   // with the condition, the predicate was false, about to sleep
    | Asleep
    | Notified                  // woken, about to take the condition back
    | Deciding                  // with the condition, `wait_for` has returned
    | Leaving(admitted: bool)   // with the condition, about to unregister
    | Holding                   // a waiter inside the `with` body, or a process running
    | Finished

  datatype Thread = Thread(client: Client, token: Option<TokenId>, pc: PC)

  datatype CancelPC = Testing | Setting | Swapping | Calling(rest: seq<Tid>) | Returned(won: bool)

  datatype Canceller = Canceller(token: TokenId, pc: CancelPC)

  datatype Token = Token(event: bool, callbacks: seq<Tid>, owner: Option<Tid>)

  datatype Cell = Cell(vars: HostVars, owner: Option<Tid>)

  datatype State = State(hosts: map<Host, Cell>, tokens: map<TokenId, Token>,
                         threads: map<Tid, Thread>, cancellers: map<Cid, Canceller>,
                         runs: map<Tid, nat>)  // how often each callback has run

  // ----- where a thread is -----

  predicate On(th: Thread, h: Host) {
    th.client.Waiter? && th.client.host == h
  }

  predicate InMonitor(pc: PC) {
    pc.Checking? || pc.Blocked? || pc.Deciding? || pc.Leaving?
  }

  /** Between the registering of its callback and the unregistering. */
  predicate Registered(th: Thread) {
    match th.pc
    case Start | Appending | CallingNow | Finished => false
    case Holding => th.client.Process?
    case _ => true
  }

  /** Inside `wait_for`, or just out of it and not yet let in or turned away. */
  predicate Waiting(pc: PC) {
    pc.Checking? || pc.Blocked? || pc.Asleep? || pc.Notified? || pc.Deciding?
  }

  predicate Holds(th: Thread) {
    th.client.Waiter? && (th.pc.Holding? || th.pc == Leaving(true))
  }

  predicate Cancelled(s: State, th: Thread) {
    th.token.Some? && th.token.value in s.tokens && s.tokens[th.token.value].event
  }

  ghost function HoldersOf(s: State, h: Host): map<nat, Kind> {
    map t | t in s.threads && On(s.threads[t], h) && Holds(s.threads[t]) :: s.threads[t].client.kind
  }

  ghost function WritersWaiting(s: State, h: Host): set<nat> {
    set t | t in s.threads && On(s.threads[t], h) && s.threads[t].client.kind.WRITE? && Waiting(s.threads[t].pc)
  }

  /** The ids in a state name something in it. */
  ghost predicate Typed(s: State) {
    && (forall t :: t in s.threads ==> ThreadTyped(s, s.threads[t]))
    && (forall c :: c in s.cancellers ==> s.cancellers[c].token in s.tokens)
    && s.runs.Keys == s.threads.Keys
  }

  ghost predicate ThreadTyped(s: State, th: Thread) {
    && (th.client.Waiter? ==> th.client.host in s.hosts)
    && (th.token.Some? ==> th.token.value in s.tokens)
    && (th.client.Process? ==> th.token.Some? && !Waiting(th.pc) && !InMonitor(th.pc) && !th.pc.Wanting?)
    && (th.token.None? ==> !th.pc.Appending? && !th.pc.CallingNow?)
  }

  // ----- the steps -----

  datatype Step =
    | Register(t: Tid)      // `register` up to the test of the event
    | Append(t: Tid)        // the rest of `register`
    | RunNow(t: Tid)        // `call_now`
    | Enter(t: Tid)         // take the condition
    | Check(t: Tid)         // evaluate the predicate
    | Sleep(t: Tid)         // queue up and let go of the condition
    | Wake(t: Tid)          // take the condition back
    | Decide(t: Tid)        // the `if cancelled()` after `wait_for`
    | Unregister(t: Tid)    // `unregister`, and let go of the condition
    | Release(t: Tid)       // leave the `with` body, or end the process
    | CancelTest(c: Cid)
    | CancelSet(c: Cid)
    | CancelSwap(c: Cid)
    | CancelCall(c: Cid)
    | CancelReturn(c: Cid)

  function SetPC(s: State, t: Tid, pc: PC): State
    requires t in s.threads
  {
    s.(threads := s.threads[t := s.threads[t].(pc := pc)])
  }

  function SetCell(s: State, h: Host, cell: Cell): State {
    s.(hosts := s.hosts[h := cell])
  }

  function SetToken(s: State, k: TokenId, token: Token): State {
    s.(tokens := s.tokens[k := token])
  }

  function SetCanceller(s: State, c: Cid, pc: CancelPC): State
    requires c in s.cancellers
  {
    s.(cancellers := s.cancellers[c := s.cancellers[c].(pc := pc)])
  }

  /** `notify_all` on the condition of host h. */
  function Notify(s: State, h: Host): State {
    s.(threads := map t | t in s.threads ::
      if On(s.threads[t], h) && s.threads[t].pc.Asleep? then s.threads[t].(pc := Notified) else s.threads[t])
  }

  predicate CallbackFree(s: State, t: Tid) {
    t in s.threads && (s.threads[t].client.Waiter? ==>
      s.threads[t].client.host in s.hosts && s.hosts[s.threads[t].client.host].owner.None?)
  }

  /** Run the callback of t: `wake_waiter` takes the condition of its host, which must be free. */
  function RunCallback(s: State, t: Tid): State
    requires t in s.threads && t in s.runs
  {
    var s' := s.(runs := s.runs[t := s.runs[t] + 1]);
    if s.threads[t].client.Waiter? then Notify(s', s.threads[t].client.host) else s'
  }

  predicate TokenFree(s: State, th: Thread) {
    th.token.Some? ==> th.token.value in s.tokens && s.tokens[th.token.value].owner.None?
  }

  predicate HostFree(s: State, th: Thread) {
    th.client.Waiter? && th.client.host in s.hosts && s.hosts[th.client.host].owner.None?
  }

  predicate Enabled(s: State, step: Step) {
    match step
    case Register(t) => t in s.threads && s.threads[t].pc.Start? && TokenFree(s, s.threads[t])
    case Append(t) => t in s.threads && s.threads[t].pc.Appending? && s.threads[t].token.Some?
                      && s.threads[t].token.value in s.tokens
    case RunNow(t) => t in s.threads && s.threads[t].pc.CallingNow? && CallbackFree(s, t) && t in s.runs
    case Enter(t) => t in s.threads && s.threads[t].pc.Wanting? && HostFree(s, s.threads[t])
    case Check(t) => t in s.threads && s.threads[t].pc.Checking? && s.threads[t].client.Waiter?
                     && s.threads[t].client.host in s.hosts
    case Sleep(t) => t in s.threads && s.threads[t].pc.Blocked? && s.threads[t].client.Waiter?
                     && s.threads[t].client.host in s.hosts
    case Wake(t) => t in s.threads && s.threads[t].pc.Notified? && HostFree(s, s.threads[t])
    case Decide(t) => t in s.threads && s.threads[t].pc.Deciding? && s.threads[t].client.Waiter?
                      && s.threads[t].client.host in s.hosts
    case Unregister(t) => t in s.threads && s.threads[t].pc.Leaving? && s.threads[t].client.Waiter?
                          && s.threads[t].client.host in s.hosts && TokenFree(s, s.threads[t])
    case Release(t) => t in s.threads && s.threads[t].pc.Holding?
                       && (if s.threads[t].client.Waiter? then HostFree(s, s.threads[t])
                           else TokenFree(s, s.threads[t]))
    case CancelTest(c) => c in s.cancellers && s.cancellers[c].pc.Testing? && s.cancellers[c].token in s.tokens
    case CancelSet(c) => c in s.cancellers && s.cancellers[c].pc.Setting? && s.cancellers[c].token in s.tokens
    case CancelSwap(c) => c in s.cancellers && s.cancellers[c].pc.Swapping? && s.cancellers[c].token in s.tokens
                          && s.tokens[s.cancellers[c].token].owner.None?
    case CancelCall(c) => c in s.cancellers && s.cancellers[c].pc.Calling? && s.cancellers[c].pc.rest != []
                          && CallbackFree(s, s.cancellers[c].pc.rest[0]) && s.cancellers[c].pc.rest[0] in s.runs
    case CancelReturn(c) => c in s.cancellers && s.cancellers[c].pc == Calling([])
  }

  /** `unregister` of t's callback. */
  function Drop(s: State, t: Tid): State
    requires t in s.threads && TokenFree(s, s.threads[t])
  {
    var th := s.threads[t];
    if th.token.None? then s
    else var token := s.tokens[th.token.value];
      SetToken(s, th.token.value, token.(callbacks := Without(token.callbacks, t)))
  }

  /** Where a client goes on after `register`. */
  function Onward(client: Client): PC {
    if client.Waiter? then Wanting else Holding
  }

  /** The thread that takes the step, if it is not a canceller. */
  function Actor(step: Step): Option<Tid> {
    match step
    case CancelTest(_) | CancelSet(_) | CancelSwap(_) | CancelCall(_) | CancelReturn(_) => None
    case _ => Some(step.t)
  }

  function NextPC(s: State, step: Step): PC
    requires Enabled(s, step) && Actor(step).Some?
  {
    var th := s.threads[step.t];
    match step
    case Register(_) =>
      if th.token.None? then Wanting else if s.tokens[th.token.value].event then CallingNow else Appending
    case Append(_) => Onward(th.client)
    case RunNow(_) => Onward(th.client)
    case Enter(_) => Checking
    case Check(_) =>
      if Cancelled(s, th) || s.hosts[th.client.host].vars.Open(th.client.kind) then Deciding else Blocked
    case Sleep(_) => Asleep
    case Wake(_) => Checking
    case Decide(_) => Leaving(!Cancelled(s, th))
    case Unregister(_) => if th.pc.admitted then Holding else Finished
    case Release(_) => Finished
  }

  function NextVars(s: State, step: Step): HostVars
    requires Enabled(s, step) && (step.Enter? || step.Decide? || (step.Release? && s.threads[step.t].client.Waiter?))
  {
    var client := s.threads[step.t].client;
    var vars := s.hosts[client.host].vars;
    if step.Enter? then vars.Enter(client.kind)
    else if step.Release? then vars.Release(client.kind)
    else if Cancelled(s, s.threads[step.t]) then vars.Abandon(client.kind)
    else vars.Admit(client.kind)
  }

  function Move(s: State, step: Step): State
    requires Enabled(s, step) && Actor(step).Some?
  {
    SetPC(s, step.t, NextPC(s, step))
  }

  function Apply(s: State, step: Step): State
    requires Enabled(s, step)
  {
    match step
    case Register(t) =>
      var th := s.threads[t];
      if th.token.None? || s.tokens[th.token.value].event then Move(s, step)
      else SetToken(Move(s, step), th.token.value, s.tokens[th.token.value].(owner := Some(t)))
    case Append(t) =>
      var k := s.threads[t].token.value;
      SetToken(Move(s, step), k, Token(s.tokens[k].event, s.tokens[k].callbacks + [t], None))
    case RunNow(t) => RunCallback(Move(s, step), t)
    case Enter(t) => SetCell(Move(s, step), s.threads[t].client.host, Cell(NextVars(s, step), Some(t)))
    case Check(t) => Move(s, step)
    case Sleep(t) =>
      var h := s.threads[t].client.host;
      SetCell(Move(s, step), h, s.hosts[h].(owner := None))
    case Wake(t) =>
      var h := s.threads[t].client.host;
      SetCell(Move(s, step), h, s.hosts[h].(owner := Some(t)))
    case Decide(t) =>
      var h := s.threads[t].client.host;
      var s' := SetCell(Move(s, step), h, s.hosts[h].(vars := NextVars(s, step)));
      if s.threads[t].client.kind.WRITE? then Notify(s', h) else s'
    case Unregister(t) =>
      var h := s.threads[t].client.host;
      SetCell(Drop(Move(s, step), t), h, s.hosts[h].(owner := None))
    case Release(t) =>
      if s.threads[t].client.Process? then Drop(Move(s, step), t)
      else var h := s.threads[t].client.host;
        Notify(SetCell(Move(s, step), h, s.hosts[h].(vars := NextVars(s, step))), h)
    case CancelTest(c) =>
      SetCanceller(s, c, if s.tokens[s.cancellers[c].token].event then Returned(false) else Setting)
    case CancelSet(c) =>
      var k := s.cancellers[c].token;
      SetToken(SetCanceller(s, c, Swapping), k, s.tokens[k].(event := true))
    case CancelSwap(c) =>
      var k := s.cancellers[c].token;
      SetToken(SetCanceller(s, c, Calling(s.tokens[k].callbacks)), k, s.tokens[k].(callbacks := []))
    case CancelCall(c) =>
      var rest := s.cancellers[c].pc.rest;
      RunCallback(SetCanceller(s, c, Calling(rest[1..])), rest[0])
    case CancelReturn(c) => SetCanceller(s, c, Returned(true))
  }

  ghost predicate Init(s: State) {
    && Typed(s)
    && (forall h :: h in s.hosts ==> s.hosts[h] == Cell(UNLOCKED, None))
    && (forall k :: k in s.tokens ==> s.tokens[k] == Token(false, [], None))
    && (forall t :: t in s.threads ==> s.threads[t].pc == Start && s.runs[t] == 0)
    && (forall c :: c in s.cancellers ==> s.cancellers[c].pc == Testing)
  }

  /** A run: states joined by enabled steps, from an initial one. */
  ghost predicate Run(states: seq<State>, steps: seq<Step>) {
    && |states| == |steps| + 1
    && Init(states[0])
    && forall i :: 0 <= i < |steps| ==> Enabled(states[i], steps[i]) && states[i + 1] == Apply(states[i], steps[i])
  }

  // ----- the invariant, one thread, host, token or canceller at a time -----

  /** A thread inside a mutex owns it. */
  ghost predicate ThreadOwns(s: State, t: Tid) {
    t in s.threads ==>
      && ThreadTyped(s, s.threads[t])
      && (InMonitor(s.threads[t].pc) ==> s.hosts[s.threads[t].client.host].owner == Some(t))
      && (s.threads[t].pc.Appending? ==> s.tokens[s.threads[t].token.value].owner == Some(t))
  }

  /** The owner of a condition is inside it. */
  ghost predicate HostOwned(s: State, h: Host) {
    h in s.hosts && s.hosts[h].owner.Some? ==>
      var t := s.hosts[h].owner.value;
      t in s.threads && On(s.threads[t], h) && InMonitor(s.threads[t].pc)
  }

  /** The owner of a token lock is inside `register`. */
  ghost predicate TokenOwned(s: State, k: TokenId) {
    k in s.tokens && s.tokens[k].owner.Some? ==>
      var t := s.tokens[k].owner.value;
      t in s.threads && s.threads[t].token == Some(k) && s.threads[t].pc.Appending?
  }

  ghost predicate Mutexes(s: State) {
    && s.runs.Keys == s.threads.Keys
    && (forall c {:trigger s.cancellers[c]} :: c in s.cancellers ==> s.cancellers[c].token in s.tokens)
    && (forall t {:trigger ThreadOwns(s, t)} :: ThreadOwns(s, t))
    && (forall h {:trigger HostOwned(s, h)} :: HostOwned(s, h))
    && (forall k {:trigger TokenOwned(s, k)} :: TokenOwned(s, k))
  }

  /** The variables of a host count its holders and its waiting writers. */
  ghost predicate HostCounted(s: State, h: Host) {
    h in s.hosts ==> Counted(s.hosts[h].vars, HoldersOf(s, h), WritersWaiting(s, h))
  }

  predicate GuardOpen(s: State, th: Thread) {
    th.client.Waiter? && th.client.host in s.hosts && s.hosts[th.client.host].vars.Open(th.client.kind)
  }

  /** A thread that sleeps, or is about to, has its guard shut; one let through uncancelled, open. */
  ghost predicate Guarded(s: State, t: Tid) {
    t in s.threads ==>
      && (s.threads[t].pc.Blocked? || s.threads[t].pc.Asleep? ==> !GuardOpen(s, s.threads[t]))
      && (s.threads[t].pc.Deciding? && !Cancelled(s, s.threads[t]) ==> GuardOpen(s, s.threads[t]))
  }

  ghost predicate InList(s: State, k: TokenId, t: Tid) {
    k in s.tokens && t in s.tokens[k].callbacks
  }

  /** Canceller c still has the callback of t to run. */
  ghost predicate Calls(s: State, c: Cid, t: Tid) {
    c in s.cancellers && s.cancellers[c].pc.Calling? && t in s.cancellers[c].pc.rest
  }

  /** The callback of t is still to run, from the list of its token or by a canceller that took it. */
  ghost predicate Pending(s: State, t: Tid) {
    && t in s.threads && s.threads[t].token.Some?
    && (InList(s, s.threads[t].token.value, t) || exists c :: Calls(s, c, t))
  }

  /** While its token is not cancelled a registered callback is in the list; a thread that sleeps,
      or is about to, still has its callback to come. */
  ghost predicate Wakeable(s: State, t: Tid) {
    t in s.threads && s.threads[t].token.Some? ==>
      && (s.threads[t].pc.CallingNow? ==> Cancelled(s, s.threads[t]))
      && (Registered(s.threads[t]) && !Cancelled(s, s.threads[t]) ==> InList(s, s.threads[t].token.value, t))
      && (s.threads[t].pc.Blocked? || s.threads[t].pc.Asleep? ==> Pending(s, t))
  }

  ghost predicate Distinct(q: seq<Tid>) {
    forall i, j :: 0 <= i < j < |q| ==> q[i] != q[j]
  }

  predicate Early(pc: PC) {
    pc.Start? || pc.Appending? || pc.CallingNow?
  }

  /** Has registered its callback, which has not run. */
  ghost predicate Armed(s: State, t: Tid, k: TokenId) {
    t in s.threads && s.threads[t].token == Some(k) && !Early(s.threads[t].pc) && t in s.runs && s.runs[t] == 0
  }

  /** A callback is in one place at most: still to be registered, in the list of its token, with one
      canceller, or already run. */
  ghost predicate ListedOnce(s: State, k: TokenId, t: Tid) {
    InList(s, k, t) ==> Armed(s, t, k)
  }

  ghost predicate CalledOnce(s: State, c: Cid, t: Tid) {
    Calls(s, c, t) ==> Armed(s, t, s.cancellers[c].token) && !InList(s, s.cancellers[c].token, t)
  }

  ghost predicate CalledByOne(s: State, c: Cid, d: Cid, t: Tid) {
    Calls(s, c, t) && Calls(s, d, t) ==> c == d
  }

  ghost predicate RunOnce(s: State, t: Tid) {
    t in s.threads && t in s.runs ==> s.runs[t] <= if Early(s.threads[t].pc) then 0 else 1
  }

  /** Has set the event of its token. */
  predicate HasSet(pc: CancelPC) {
    pc.Swapping? || pc.Calling? || pc == Returned(true)
  }

  predicate HasSwapped(pc: CancelPC) {
    pc.Calling? || pc == Returned(true)
  }

  ghost predicate SetBy(s: State, c: Cid, k: TokenId) {
    c in s.cancellers && s.cancellers[c].token == k && HasSet(s.cancellers[c].pc)
  }

  /** A set event was set by a canceller, and once one has swapped the list stays empty. */
  ghost predicate TokenSet(s: State, k: TokenId) {
    k in s.tokens ==>
      s.tokens[k].event ==> exists c :: SetBy(s, c, k)
  }

  ghost predicate TokenDistinct(s: State, k: TokenId) {
    k in s.tokens ==> Distinct(s.tokens[k].callbacks)
  }

  ghost predicate CancellerSet(s: State, c: Cid) {
    c in s.cancellers && s.cancellers[c].token in s.tokens ==>
      var token := s.tokens[s.cancellers[c].token];
      && (HasSet(s.cancellers[c].pc) ==> token.event)
      && (HasSwapped(s.cancellers[c].pc) ==> token.callbacks == [] && token.owner.None?)
      && (s.cancellers[c].pc.Calling? ==> Distinct(s.cancellers[c].pc.rest))
  }

  ghost predicate Inv(s: State) {
    && Mutexes(s)
    && (forall h {:trigger HostCounted(s, h)} :: HostCounted(s, h))
    && (forall t {:trigger Guarded(s, t)} :: Guarded(s, t))
    && (forall t {:trigger Wakeable(s, t)} :: Wakeable(s, t))
    && (forall k, t {:trigger ListedOnce(s, k, t)} :: ListedOnce(s, k, t))
    && (forall c, t {:trigger CalledOnce(s, c, t)} :: CalledOnce(s, c, t))
    && (forall c, d, t {:trigger CalledByOne(s, c, d, t)} :: CalledByOne(s, c, d, t))
    && (forall t {:trigger RunOnce(s, t)} :: RunOnce(s, t))
    && (forall k {:trigger TokenSet(s, k)} :: TokenSet(s, k))
    && (forall k {:trigger TokenDistinct(s, k)} :: TokenDistinct(s, k))
    && (forall c {:trigger CancellerSet(s, c)} :: CancellerSet(s, c))
  }

  // ----- what a step does, one thread, host, token or canceller at a time -----

  /** A step moves its own thread; others it can at most wake. */
  ghost predicate ThreadAfter(s: State, s': State, step: Step, u: Tid)
    requires Enabled(s, step)
  {
    && (u in s'.threads <==> u in s.threads)
    && (u in s.threads ==>
         if Actor(step) == Some(u) then s'.threads[u] == s.threads[u].(pc := NextPC(s, step))
         else || s'.threads[u] == s.threads[u]
              || (s.threads[u].pc.Asleep? && s'.threads[u] == s.threads[u].(pc := Notified)))
  }

  /** The host whose variables a step may change. */
  predicate Touches(s: State, step: Step, h: Host) {
    (step.Enter? || step.Decide? || step.Release?) && step.t in s.threads && On(s.threads[step.t], h)
  }

  /** The steps that wake everyone asleep on a host: those that can open a guard, and its callbacks. */
  predicate Wakes(s: State, step: Step, h: Host)
    requires Enabled(s, step)
  {
    || (Touches(s, step, h) && (step.Release? || (step.Decide? && s.threads[step.t].client.kind.WRITE?)))
    || (step.RunNow? && On(s.threads[step.t], h))
    || (step.CancelCall? && On(s.threads[s.cancellers[step.c].pc.rest[0]], h))
  }

  /** A step changes the variables of the host it touches. */
  ghost predicate VarsAfter(s: State, s': State, step: Step, h: Host)
    requires Enabled(s, step)
  {
    && (h in s'.hosts <==> h in s.hosts)
    && (h in s.hosts ==> s'.hosts[h].vars == if Touches(s, step, h) then NextVars(s, step) else s.hosts[h].vars)
  }

  ghost predicate AwakeAfter(s: State, s': State, step: Step, u: Tid)
    requires Enabled(s, step)
  {
    u in s.threads && Actor(step) != Some(u) && s.threads[u].client.Waiter?
      && Wakes(s, step, s.threads[u].client.host) ==>
      u in s'.threads && !s'.threads[u].pc.Asleep?
  }

  /** Events are only ever set. */
  ghost predicate EventAfter(s: State, s': State, step: Step, k: TokenId)
    requires Enabled(s, step)
  {
    && (k in s'.tokens <==> k in s.tokens)
    && (k in s.tokens ==>
         (s'.tokens[k].event <==> s.tokens[k].event || (step.CancelSet? && s.cancellers[step.c].token == k)))
  }

  /** How the list of a token changes. */
  ghost predicate ListAfter(s: State, s': State, step: Step, k: TokenId, t: Tid)
    requires Enabled(s, step)
  {
    InList(s', k, t) <==>
      match step
      case Append(u) => InList(s, k, t) || (t == u && s.threads[t].token == Some(k))
      case Unregister(u) => InList(s, k, t) && !(t == u && s.threads[u].token == Some(k))
      case Release(u) => InList(s, k, t) && !(t == u && s.threads[u].client.Process? && s.threads[u].token == Some(k))
      case CancelSwap(c) => InList(s, k, t) && s.cancellers[c].token != k
      case _ => InList(s, k, t)
  }

  /** How what a canceller has to call changes. */
  ghost predicate CallsAfter(s: State, s': State, step: Step, c: Cid, t: Tid)
    requires Enabled(s, step)
  {
    Calls(s', c, t) <==>
      match step
      case CancelSwap(d) => Calls(s, c, t) || (c == d && InList(s, s.cancellers[d].token, t))
      case CancelCall(d) => Calls(s, c, t) && !(c == d && t == s.cancellers[d].pc.rest[0])
      case _ => Calls(s, c, t)
  }

  predicate RunsCallback(s: State, step: Step, t: Tid)
    requires Enabled(s, step)
  {
    step == RunNow(t) || (step.CancelCall? && s.cancellers[step.c].pc.rest[0] == t)
  }

  ghost predicate RunsAfter(s: State, s': State, step: Step, t: Tid)
    requires Enabled(s, step)
  {
    && (t in s'.runs <==> t in s.runs)
    && (t in s.runs ==> s'.runs[t] == s.runs[t] + if RunsCallback(s, step, t) then 1 else 0)
  }

  /** A canceller keeps its token; a step moves its own canceller only. */
  ghost predicate CancellerAfter(s: State, s': State, step: Step, c: Cid)
    requires Enabled(s, step)
  {
    && (c in s'.cancellers <==> c in s.cancellers)
    && (c in s.cancellers ==>
         && s'.cancellers[c].token == s.cancellers[c].token
         && (Actor(step).Some? || step.c != c ==> s'.cancellers[c] == s.cancellers[c])
         && (s'.cancellers[c].pc.Setting? <==>
              || (s.cancellers[c].pc.Setting? && step != CancelSet(c))
              || (step == CancelTest(c) && !s.tokens[s.cancellers[c].token].event))
         && (HasSet(s'.cancellers[c].pc) <==> HasSet(s.cancellers[c].pc) || step == CancelSet(c))
         && (HasSwapped(s'.cancellers[c].pc) <==> HasSwapped(s.cancellers[c].pc) || step == CancelSwap(c)))
  }

  ghost predicate Effect(s: State, s': State, step: Step)
    requires Enabled(s, step)
  {
    && (forall u {:trigger ThreadAfter(s, s', step, u)} :: ThreadAfter(s, s', step, u))
    && (forall h {:trigger VarsAfter(s, s', step, h)} :: VarsAfter(s, s', step, h))
    && (forall u {:trigger AwakeAfter(s, s', step, u)} :: AwakeAfter(s, s', step, u))
    && (forall k {:trigger EventAfter(s, s', step, k)} :: EventAfter(s, s', step, k))
    && (forall k, t {:trigger ListAfter(s, s', step, k, t)} :: ListAfter(s, s', step, k, t))
    && (forall c, t {:trigger CallsAfter(s, s', step, c, t)} :: CallsAfter(s, s', step, c, t))
    && (forall t {:trigger RunsAfter(s, s', step, t)} :: RunsAfter(s, s', step, t))
    && (forall c {:trigger CancellerAfter(s, s', step, c)} :: CancellerAfter(s, s', step, c))
  }

  lemma ThreadEffect(s: State, step: Step, u: Tid)
    requires Mutexes(s) && Enabled(s, step)
    ensures ThreadAfter(s, Apply(s, step), step, u)
  {
  }

  lemma VarsEffect(s: State, step: Step, h: Host)
    requires Mutexes(s) && Enabled(s, step)
    ensures VarsAfter(s, Apply(s, step), step, h)
  {
  }

  lemma AwakeEffect(s: State, step: Step, u: Tid)
    requires Mutexes(s) && Enabled(s, step)
    ensures AwakeAfter(s, Apply(s, step), step, u)
  {
  }

  lemma EventEffect(s: State, step: Step, k: TokenId)
    requires Mutexes(s) && Enabled(s, step)
    ensures EventAfter(s, Apply(s, step), step, k)
  {
  }

  lemma WithoutIs(q: seq<Tid>, t: Tid)
    requires Distinct(q)
    ensures Distinct(Without(q, t))
    ensures forall u :: u in Without(q, t) <==> u in q && u != t
  {
    if q != [] {
      WithoutIs(q[1..], t);
      assert q == [q[0]] + q[1..] && q[0] !in q[1..];
    }
  }

  lemma ListEffect(s: State, step: Step, k: TokenId, t: Tid)
    requires Inv(s) && Enabled(s, step)
    ensures ListAfter(s, Apply(s, step), step, k, t)
  {
    if Actor(step).None? {
      CancellerLists(s, step, k, t);
    } else if (step.Unregister? || step.Release?) && k in s.tokens {
      assert TokenDistinct(s, k);
      WithoutIs(s.tokens[k].callbacks, step.t);
    }
  }

  lemma CancellerLists(s: State, step: Step, k: TokenId, t: Tid)
    requires Mutexes(s) && Enabled(s, step) && Actor(step).None?
    ensures ListAfter(s, Apply(s, step), step, k, t)
  {
  }

  lemma CallsEffect(s: State, step: Step, c: Cid, t: Tid)
    requires Inv(s) && Enabled(s, step)
    ensures CallsAfter(s, Apply(s, step), step, c, t)
  {
    if step.CancelCall? && c == step.c {
      assert CancellerSet(s, c);
      var rest := s.cancellers[c].pc.rest;
      assert rest == [rest[0]] + rest[1..];
    }
  }

  lemma RunsEffect(s: State, step: Step, t: Tid)
    requires Mutexes(s) && Enabled(s, step)
    ensures RunsAfter(s, Apply(s, step), step, t)
  {
  }

  lemma CancellerEffect(s: State, step: Step, c: Cid)
    requires Mutexes(s) && Enabled(s, step)
    ensures CancellerAfter(s, Apply(s, step), step, c)
  {
    if Actor(step).Some? { CancellersStay(s, step); } else { CancellerMoves(s, step, c); }
  }

  lemma CancellersStay(s: State, step: Step)
    requires Mutexes(s) && Enabled(s, step) && Actor(step).Some?
    ensures Apply(s, step).cancellers == s.cancellers
  {
  }

  lemma CancellerMoves(s: State, step: Step, c: Cid)
    requires Mutexes(s) && Enabled(s, step) && Actor(step).None?
    ensures CancellerAfter(s, Apply(s, step), step, c)
  {
  }

  lemma Effects(s: State, step: Step)
    requires Inv(s) && Enabled(s, step)
    ensures Effect(s, Apply(s, step), step)
  {
    var s' := Apply(s, step);
    forall u {:trigger ThreadAfter(s, s', step, u)} ensures ThreadAfter(s, s', step, u) { ThreadEffect(s, step, u); }
    forall h {:trigger VarsAfter(s, s', step, h)} ensures VarsAfter(s, s', step, h) { VarsEffect(s, step, h); }
    forall u {:trigger AwakeAfter(s, s', step, u)} ensures AwakeAfter(s, s', step, u) { AwakeEffect(s, step, u); }
    forall k {:trigger EventAfter(s, s', step, k)} ensures EventAfter(s, s', step, k) { EventEffect(s, step, k); }
    forall k, t {:trigger ListAfter(s, s', step, k, t)} ensures ListAfter(s, s', step, k, t) {
      ListEffect(s, step, k, t);
    }
    forall c, t {:trigger CallsAfter(s, s', step, c, t)} ensures CallsAfter(s, s', step, c, t) {
      CallsEffect(s, step, c, t);
    }
    forall t {:trigger RunsAfter(s, s', step, t)} ensures RunsAfter(s, s', step, t) { RunsEffect(s, step, t); }
    forall c {:trigger CancellerAfter(s, s', step, c)} ensures CancellerAfter(s, s', step, c) {
      CancellerEffect(s, step, c);
    }
  }

  // ----- every step keeps the invariant -----

  lemma ThreadOwnsSelf(s: State, step: Step)
    requires Mutexes(s) && Enabled(s, step) && Actor(step).Some?
    ensures ThreadOwns(Apply(s, step), step.t)
  {
    if step.Enter? || step.Check? || step.Sleep? || step.Wake? || step.Decide? {
      WaiterOwnsSelf(s, step);
    } else {
      CallerOwnsSelf(s, step);
    }
  }

  lemma WaiterOwnsSelf(s: State, step: Step)
    requires Mutexes(s) && Enabled(s, step)
    requires step.Enter? || step.Check? || step.Sleep? || step.Wake? || step.Decide?
    ensures ThreadOwns(Apply(s, step), step.t)
  {
    assert ThreadOwns(s, step.t);
  }

  lemma CallerOwnsSelf(s: State, step: Step)
    requires Mutexes(s) && Enabled(s, step)
    requires step.Register? || step.Append? || step.RunNow? || step.Unregister? || step.Release?
    ensures ThreadOwns(Apply(s, step), step.t)
  {
    assert ThreadOwns(s, step.t);
  }

  lemma ThreadOwnsOther(s: State, step: Step, u: Tid)
    requires Mutexes(s) && Enabled(s, step) && Actor(step) != Some(u)
    ensures ThreadOwns(Apply(s, step), u)
  {
    ThreadEffect(s, step, u);
    if Actor(step).Some? { CallerLeavesOwners(s, step, u); } else { CancellerLeavesOwners(s, step, u); }
  }

  lemma CallerLeavesOwners(s: State, step: Step, u: Tid)
    requires Mutexes(s) && Enabled(s, step) && Actor(step).Some? && step.t != u
    requires ThreadAfter(s, Apply(s, step), step, u)
    ensures ThreadOwns(Apply(s, step), u)
  {
    assert ThreadOwns(s, u) && ThreadOwns(s, step.t);
  }

  lemma CancellerLeavesOwners(s: State, step: Step, u: Tid)
    requires Mutexes(s) && Enabled(s, step) && Actor(step).None?
    requires ThreadAfter(s, Apply(s, step), step, u)
    ensures ThreadOwns(Apply(s, step), u)
  {
    assert ThreadOwns(s, u);
  }

  /** Who is inside the condition of host h after a step. */
  function NextOwner(s: State, step: Step, h: Host): Option<Tid>
    requires Enabled(s, step) && h in s.hosts
  {
    match step
    case Enter(t) => if On(s.threads[t], h) then Some(t) else s.hosts[h].owner
    case Wake(t) => if On(s.threads[t], h) then Some(t) else s.hosts[h].owner
    case Sleep(t) => if On(s.threads[t], h) then None else s.hosts[h].owner
    case Unregister(t) => if On(s.threads[t], h) then None else s.hosts[h].owner
    case _ => s.hosts[h].owner
  }

  lemma OwnerAfter(s: State, step: Step, h: Host)
    requires Mutexes(s) && Enabled(s, step)
    ensures h in Apply(s, step).hosts <==> h in s.hosts
    ensures h in s.hosts ==> Apply(s, step).hosts[h].owner == NextOwner(s, step, h)
  {
    if Actor(step).Some? { OwnerAfterCaller(s, step, h); } else { HostsStay(s, step); }
  }

  lemma OwnerAfterCaller(s: State, step: Step, h: Host)
    requires Mutexes(s) && Enabled(s, step) && Actor(step).Some?
    ensures h in Apply(s, step).hosts <==> h in s.hosts
    ensures h in s.hosts ==> Apply(s, step).hosts[h].owner == NextOwner(s, step, h)
  {
    if step.Enter? || step.Check? || step.Sleep? || step.Wake? || step.Decide? {
      OwnerAfterWaiter(s, step, h);
    } else {
      assert ThreadOwns(s, step.t);
    }
  }

  lemma OwnerAfterWaiter(s: State, step: Step, h: Host)
    requires Mutexes(s) && Enabled(s, step)
    requires step.Enter? || step.Check? || step.Sleep? || step.Wake? || step.Decide?
    ensures h in Apply(s, step).hosts <==> h in s.hosts
    ensures h in s.hosts ==> Apply(s, step).hosts[h].owner == NextOwner(s, step, h)
  {
  }

  lemma HostsStay(s: State, step: Step)
    requires Mutexes(s) && Enabled(s, step) && Actor(step).None?
    ensures Apply(s, step).hosts == s.hosts
  {
  }

  lemma HostOwnedStep(s: State, s': State, step: Step, h: Host)
    requires Mutexes(s) && Enabled(s, step) && Effect(s, s', step)
    requires h in s'.hosts <==> h in s.hosts
    requires h in s.hosts ==> s'.hosts[h].owner == NextOwner(s, step, h)
    ensures HostOwned(s', h)
  {
    assert HostOwned(s, h);
    if Actor(step).Some? {
      assert ThreadOwns(s, step.t);
    }
    if h in s'.hosts && s'.hosts[h].owner.Some? {
      assert ThreadAfter(s, s', step, s'.hosts[h].owner.value);
    }
  }

  lemma TokenOwnedStep(s: State, step: Step, k: TokenId)
    requires Mutexes(s) && Enabled(s, step)
    ensures TokenOwned(Apply(s, step), k)
  {
    if Actor(step).Some? { TokenOwnedByCaller(s, step, k); } else { TokenOwnedByCanceller(s, step, k); }
  }

  lemma TokenOwnedByCaller(s: State, step: Step, k: TokenId)
    requires Mutexes(s) && Enabled(s, step) && Actor(step).Some?
    ensures TokenOwned(Apply(s, step), k)
  {
    assert TokenOwned(s, k) && ThreadOwns(s, step.t);
  }

  lemma TokenOwnedByCanceller(s: State, step: Step, k: TokenId)
    requires Mutexes(s) && Enabled(s, step) && Actor(step).None?
    ensures TokenOwned(Apply(s, step), k)
  {
    assert TokenOwned(s, k);
  }

  /** A guard that is shut can only be opened by a release or by a writer leaving its wait. */
  lemma ShutStays(v: HostVars, kind: Kind, other: Kind)
    requires !v.Open(kind) && v.readers >= 0 && v.waitingWriters >= 0
    ensures !v.Enter(other).Open(kind)
    ensures !other.WRITE? ==> !v.Abandon(other).Open(kind) && !v.Admit(other).Open(kind)
  {
  }

  lemma Nonnegative(s: State, h: Host)
    requires HostCounted(s, h) && h in s.hosts
    ensures s.hosts[h].vars.readers >= 0 && s.hosts[h].vars.waitingWriters >= 0
  {
  }

  lemma GuardedStep(s: State, s': State, step: Step, u: Tid)
    requires Inv(s) && Enabled(s, step) && Effect(s, s', step)
    ensures Guarded(s', u)
  {
    assert ThreadOwns(s, u) && Guarded(s, u) && ThreadAfter(s, s', step, u) && AwakeAfter(s, s', step, u);
    if u in s.threads && s.threads[u].client.Waiter? {
      var h := s.threads[u].client.host;
      assert VarsAfter(s, s', step, h);
      if s.threads[u].token.Some? {
        assert EventAfter(s, s', step, s.threads[u].token.value);
      }
      if Touches(s, step, h) && step.t != u {
        assert ThreadOwns(s, step.t) && HostCounted(s, h);
        if !GuardOpen(s, s.threads[u]) {
          Nonnegative(s, h);
          ShutStays(s.hosts[h].vars, s.threads[u].client.kind, s.threads[step.t].client.kind);
        }
      }
    }
  }

  lemma PendingStep(s: State, s': State, step: Step, u: Tid)
    requires Inv(s) && Enabled(s, step) && Effect(s, s', step)
    requires Pending(s, u) && (s.threads[u].pc.Blocked? || s.threads[u].pc.Asleep?)
    requires u in s'.threads && (s'.threads[u].pc.Blocked? || s'.threads[u].pc.Asleep?)
    ensures Pending(s', u)
  {
    var k := s.threads[u].token.value;
    assert ThreadOwns(s, u) && ThreadAfter(s, s', step, u) && AwakeAfter(s, s', step, u);
    if InList(s, k, u) {
      assert ListAfter(s, s', step, k, u);
      if step.CancelSwap? {
        assert CallsAfter(s, s', step, step.c, u);
      }
    } else {
      var c :| Calls(s, c, u);
      assert CallsAfter(s, s', step, c, u);
    }
  }

  lemma WakeableStep(s: State, s': State, step: Step, u: Tid)
    requires Inv(s) && Enabled(s, step) && Effect(s, s', step)
    ensures Wakeable(s', u)
  {
    assert ThreadOwns(s, u) && Wakeable(s, u) && ThreadAfter(s, s', step, u);
    if u in s.threads && s.threads[u].token.Some? {
      var k := s.threads[u].token.value;
      assert EventAfter(s, s', step, k) && ListAfter(s, s', step, k, u);
      if step.CancelSwap? {
        assert CancellerSet(s, step.c);
      }
      if s'.threads[u].pc.Blocked? || s'.threads[u].pc.Asleep? {
        if s.threads[u].pc.Blocked? || s.threads[u].pc.Asleep? {
          PendingStep(s, s', step, u);
        } else {
          assert step == Check(u) && InList(s', k, u);
        }
      }
    }
  }

  lemma StandingAfter(s: State, s': State, step: Step, u: Tid)
    requires Enabled(s, step) && ThreadOwns(s, u) && ThreadAfter(s, s', step, u)
    ensures u in s'.threads <==> u in s.threads
    ensures u in s.threads ==> s'.threads[u].client == s.threads[u].client
    ensures u in s.threads ==>
              (Holds(s'.threads[u]) <==>
               if step == Decide(u) then !Cancelled(s, s.threads[u])
               else Holds(s.threads[u]) && step != Release(u))
    ensures u in s.threads ==>
              (Waiting(s'.threads[u].pc) <==> step == Enter(u) || (Waiting(s.threads[u].pc) && step != Decide(u)))
    ensures step == Decide(u) || step == Enter(u) ==>
              u in s.threads && !Holds(s.threads[u]) && s.threads[u].client.Waiter?
  {
  }

  lemma HoldersAfter(s: State, s': State, step: Step, h: Host)
    requires Enabled(s, step) && forall u {:trigger ThreadOwns(s, u)} :: ThreadOwns(s, u)
    requires forall u {:trigger ThreadAfter(s, s', step, u)} :: ThreadAfter(s, s', step, u)
    ensures HoldersOf(s', h) ==
            if !Touches(s, step, h) || step.Enter? then HoldersOf(s, h)
            else if step.Release? then HoldersOf(s, h) - {step.t}
            else if Cancelled(s, s.threads[step.t]) then HoldersOf(s, h)
            else HoldersOf(s, h)[step.t := s.threads[step.t].client.kind]
  {
    var before, after := HoldersOf(s, h), HoldersOf(s', h);
    forall u
      ensures u in after <==>
              if Touches(s, step, h) && step == Decide(u) then !Cancelled(s, s.threads[u])
              else u in before && !(Touches(s, step, h) && step == Release(u))
      ensures u in after ==> after[u] == s.threads[u].client.kind
    {
      assert ThreadOwns(s, u) && ThreadAfter(s, s', step, u);
      StandingAfter(s, s', step, u);
    }
  }

  lemma WaitersAfter(s: State, s': State, step: Step, h: Host)
    requires Enabled(s, step) && forall u {:trigger ThreadOwns(s, u)} :: ThreadOwns(s, u)
    requires forall u {:trigger ThreadAfter(s, s', step, u)} :: ThreadAfter(s, s', step, u)
    ensures WritersWaiting(s', h) ==
            if !Touches(s, step, h) || step.Release? then WritersWaiting(s, h)
            else if step.Decide? then WritersWaiting(s, h) - {step.t}
            else if s.threads[step.t].client.kind.WRITE? then WritersWaiting(s, h) + {step.t}
            else WritersWaiting(s, h)
  {
    var before, after := WritersWaiting(s, h), WritersWaiting(s', h);
    forall u
      ensures u in after <==>
              || (Touches(s, step, h) && step == Enter(u) && s.threads[u].client.kind.WRITE?)
              || (u in before && !(Touches(s, step, h) && step == Decide(u)))
    {
      assert ThreadOwns(s, u) && ThreadAfter(s, s', step, u);
      StandingAfter(s, s', step, u);
    }
  }

  lemma HostCountedStep(s: State, s': State, step: Step, h: Host)
    requires Inv(s) && Enabled(s, step) && Effect(s, s', step)
    ensures HostCounted(s', h)
  {
    assert HostCounted(s, h) && VarsAfter(s, s', step, h);
    HoldersAfter(s, s', step, h);
    WaitersAfter(s, s', step, h);
    if h in s.hosts && Touches(s, step, h) {
      assert ThreadOwns(s, step.t) && Guarded(s, step.t);
      TouchKeepsCounts(s, step, h);
    }
  }

  lemma TouchKeepsCounts(s: State, step: Step, h: Host)
    requires Enabled(s, step) && h in s.hosts && Touches(s, step, h)
    requires HostCounted(s, h) && ThreadOwns(s, step.t) && Guarded(s, step.t)
    ensures var H, W, t, kind := HoldersOf(s, h), WritersWaiting(s, h), step.t, s.threads[step.t].client.kind;
            Counted(NextVars(s, step),
                    if step.Enter? then H else if step.Release? then H - {t}
                    else if Cancelled(s, s.threads[t]) then H else H[t := kind],
                    if step.Release? then W else if step.Decide? then W - {t}
                    else if kind.WRITE? then W + {t} else W)
  {
    CountedTouch(s.hosts[h].vars, HoldersOf(s, h), WritersWaiting(s, h), step, s.threads[step.t].client.kind,
                 Cancelled(s, s.threads[step.t]));
  }

  /** The four ways a caller changes the variables of its host keep the counts. */
  lemma CountedTouch(vars: HostVars, H: map<nat, Kind>, W: set<nat>, step: Step, kind: Kind, cancelled: bool)
    requires Counted(vars, H, W) && (step.Enter? || step.Decide? || step.Release?)
    requires step.Enter? ==> step.t !in W
    requires step.Release? ==> step.t in H && H[step.t] == kind
    requires step.Decide? ==> step.t !in H && (kind.WRITE? <==> step.t in W) && (cancelled || vars.Open(kind))
    ensures step.Enter? ==> Counted(vars.Enter(kind), H, if kind.WRITE? then W + {step.t} else W)
    ensures step.Release? ==> Counted(vars.Release(kind), H - {step.t}, W)
    ensures step.Decide? ==>
              if cancelled then Counted(vars.Abandon(kind), H, W - {step.t})
              else Counted(vars.Admit(kind), H[step.t := kind], W - {step.t})
  {
    if step.Enter? {
      CountedEnter(vars, H, W, step.t, kind);
    } else if step.Release? {
      CountedRelease(vars, H, W, step.t);
    } else if cancelled {
      CountedAbandon(vars, H, W, step.t, kind);
    } else {
      CountedAdmit(vars, H, W, step.t, kind);
    }
  }

  lemma ListedOnceStep(s: State, s': State, step: Step, k: TokenId, t: Tid)
    requires Inv(s) && Enabled(s, step) && Effect(s, s', step)
    ensures ListedOnce(s', k, t)
  {
    assert ListedOnce(s, k, t) && ListAfter(s, s', step, k, t) && ThreadAfter(s, s', step, t)
           && RunsAfter(s, s', step, t);
    if t in s.threads {
      assert ThreadOwns(s, t) && RunOnce(s, t) && t in s.runs;
      if step.CancelCall? {
        assert Calls(s, step.c, t) <==> t in s.cancellers[step.c].pc.rest;
        assert CalledOnce(s, step.c, t);
      }
    }
  }

  lemma CalledOnceStep(s: State, s': State, step: Step, c: Cid, t: Tid)
    requires Inv(s) && Enabled(s, step) && Effect(s, s', step)
    ensures CalledOnce(s', c, t)
  {
    assert CalledOnce(s, c, t) && CallsAfter(s, s', step, c, t) && CancellerAfter(s, s', step, c);
    assert ThreadAfter(s, s', step, t) && RunsAfter(s, s', step, t);
    if Calls(s', c, t) {
      var k := s.cancellers[c].token;
      assert ListedOnce(s, k, t) && ListAfter(s, s', step, k, t);
      if step.CancelCall? {
        assert CalledByOne(s, c, step.c, t);
      }
    }
  }

  lemma CalledByOneStep(s: State, s': State, step: Step, c: Cid, d: Cid, t: Tid)
    requires Inv(s) && Enabled(s, step) && Effect(s, s', step)
    ensures CalledByOne(s', c, d, t)
  {
    assert CalledByOne(s, c, d, t) && CalledOnce(s, c, t) && CalledOnce(s, d, t);
    assert CallsAfter(s, s', step, c, t) && CallsAfter(s, s', step, d, t);
    if step.CancelSwap? {
      assert ListedOnce(s, s.cancellers[step.c].token, t);
    }
  }

  lemma RunOnceStep(s: State, s': State, step: Step, t: Tid)
    requires Inv(s) && Enabled(s, step) && Effect(s, s', step)
    ensures RunOnce(s', t)
  {
    assert RunOnce(s, t) && ThreadAfter(s, s', step, t) && RunsAfter(s, s', step, t);
    if step.CancelCall? {
      assert CalledOnce(s, step.c, t);
      assert Calls(s, step.c, s.cancellers[step.c].pc.rest[0]);
    }
  }

  lemma TokenSetStep(s: State, s': State, step: Step, k: TokenId)
    requires Inv(s) && Enabled(s, step) && Effect(s, s', step)
    ensures TokenSet(s', k)
  {
    assert TokenSet(s, k) && EventAfter(s, s', step, k);
    if k in s.tokens && s'.tokens[k].event {
      if s.tokens[k].event {
        var c :| SetBy(s, c, k);
        assert CancellerAfter(s, s', step, c);
        assert SetBy(s', c, k);
      } else {
        assert CancellerAfter(s, s', step, step.c);
        assert SetBy(s', step.c, k);
      }
    }
  }

  /** The list of token k after a step. */
  function NextList(s: State, step: Step, k: TokenId): seq<Tid>
    requires Enabled(s, step) && k in s.tokens
  {
    var q := s.tokens[k].callbacks;
    match step
    case Append(t) => if s.threads[t].token == Some(k) then q + [t] else q
    case Unregister(t) => if s.threads[t].token == Some(k) then Without(q, t) else q
    case Release(t) => if s.threads[t].client.Process? && s.threads[t].token == Some(k) then Without(q, t) else q
    case CancelSwap(c) => if s.cancellers[c].token == k then [] else q
    case _ => q
  }

  lemma ListIs(s: State, step: Step, k: TokenId)
    requires Mutexes(s) && Enabled(s, step)
    ensures k in Apply(s, step).tokens <==> k in s.tokens
    ensures k in s.tokens ==> Apply(s, step).tokens[k].callbacks == NextList(s, step, k)
  {
    if Actor(step).Some? { ListOfCaller(s, step, k); } else { ListOfCanceller(s, step, k); }
  }

  lemma ListOfCaller(s: State, step: Step, k: TokenId)
    requires Mutexes(s) && Enabled(s, step) && Actor(step).Some?
    ensures k in Apply(s, step).tokens <==> k in s.tokens
    ensures k in s.tokens ==> Apply(s, step).tokens[k].callbacks == NextList(s, step, k)
  {
    assert ThreadOwns(s, step.t);
  }

  lemma ListOfCanceller(s: State, step: Step, k: TokenId)
    requires Mutexes(s) && Enabled(s, step) && Actor(step).None?
    ensures k in Apply(s, step).tokens <==> k in s.tokens
    ensures k in s.tokens ==> Apply(s, step).tokens[k].callbacks == NextList(s, step, k)
  {
  }

  lemma NextListDistinct(s: State, step: Step, k: TokenId)
    requires Inv(s) && Enabled(s, step) && k in s.tokens
    ensures Distinct(NextList(s, step, k))
  {
    assert TokenDistinct(s, k);
    match step
    case Append(t) =>
      assert ThreadOwns(s, t) && ListedOnce(s, k, t);
    case Unregister(t) => WithoutIs(s.tokens[k].callbacks, t);
    case Release(t) => WithoutIs(s.tokens[k].callbacks, t);
    case _ =>
  }

  lemma TokenDistinctStep(s: State, step: Step, k: TokenId)
    requires Inv(s) && Enabled(s, step)
    ensures TokenDistinct(Apply(s, step), k)
  {
    ListIs(s, step, k);
    if k in s.tokens {
      NextListDistinct(s, step, k);
    }
  }

  lemma CancellerSetStep(s: State, step: Step, c: Cid)
    requires Inv(s) && Enabled(s, step)
    ensures CancellerSet(Apply(s, step), c)
  {
    assert CancellerSet(s, c);
    CancellerEffect(s, step, c);
    if c in s.cancellers {
      var k := s.cancellers[c].token;
      EventEffect(s, step, k);
      assert TokenDistinct(s, k);
      if step.Append? || step.Register? {
        assert ThreadOwns(s, step.t);
      }
    }
  }

  lemma {:induction false} InvStep(s: State, step: Step)
    requires Inv(s) && Enabled(s, step)
    ensures Inv(Apply(s, step))
  {
    var s' := Apply(s, step);
    Effects(s, step);
    MutexesStep(s, step);
    forall h {:trigger HostCounted(s', h)} ensures HostCounted(s', h) { HostCountedStep(s, s', step, h); }
    forall t {:trigger Guarded(s', t)} ensures Guarded(s', t) { GuardedStep(s, s', step, t); }
    forall t {:trigger Wakeable(s', t)} ensures Wakeable(s', t) { WakeableStep(s, s', step, t); }
    forall k: TokenId, t: Tid {:trigger ListedOnce(s', k, t)} ensures ListedOnce(s', k, t) {
      ListedOnceStep(s, s', step, k, t);
    }
    forall c: Cid, t: Tid {:trigger CalledOnce(s', c, t)} ensures CalledOnce(s', c, t) {
      CalledOnceStep(s, s', step, c, t);
    }
    forall c: Cid, d: Cid, t: Tid {:trigger CalledByOne(s', c, d, t)} ensures CalledByOne(s', c, d, t) {
      CalledByOneStep(s, s', step, c, d, t);
    }
    forall t {:trigger RunOnce(s', t)} ensures RunOnce(s', t) { RunOnceStep(s, s', step, t); }
    forall k {:trigger TokenSet(s', k)} ensures TokenSet(s', k) { TokenSetStep(s, s', step, k); }
    forall k {:trigger TokenDistinct(s', k)} ensures TokenDistinct(s', k) { TokenDistinctStep(s, step, k); }
    forall c {:trigger CancellerSet(s', c)} ensures CancellerSet(s', c) { CancellerSetStep(s, step, c); }
  }

  lemma MutexesStep(s: State, step: Step)
    requires Inv(s) && Enabled(s, step) && Effect(s, Apply(s, step), step)
    ensures Mutexes(Apply(s, step))
  {
    var s' := Apply(s, step);
    forall t: Tid ensures t in s'.runs <==> t in s'.threads {
      assert ThreadAfter(s, s', step, t) && RunsAfter(s, s', step, t);
      assert t in s.runs <==> t in s.threads;
    }
    forall c: Cid {:trigger s'.cancellers[c]} | c in s'.cancellers ensures s'.cancellers[c].token in s'.tokens {
      assert CancellerAfter(s, s', step, c) && EventAfter(s, s', step, s.cancellers[c].token);
    }
    forall t: Tid {:trigger ThreadOwns(s', t)} ensures ThreadOwns(s', t) {
      if Actor(step) == Some(t) { ThreadOwnsSelf(s, step); } else { ThreadOwnsOther(s, step, t); }
    }
    forall h {:trigger HostOwned(s', h)} ensures HostOwned(s', h) {
      OwnerAfter(s, step, h);
      HostOwnedStep(s, s', step, h);
    }
    forall k: TokenId {:trigger TokenOwned(s', k)} ensures TokenOwned(s', k) { TokenOwnedStep(s, step, k); }
  }

  lemma InvInit(s: State)
    requires Init(s)
    ensures Inv(s)
  {
    forall h {:trigger HostCounted(s, h)} ensures HostCounted(s, h) {
      assert HoldersOf(s, h) == map[] && WritersWaiting(s, h) == {};
    }
  }

  lemma {:induction false} InvRun(states: seq<State>, steps: seq<Step>, i: nat)
    requires Run(states, steps) && i < |states|
    ensures Inv(states[i])
  {
    if i == 0 {
      InvInit(states[0]);
    } else {
      InvRun(states, steps, i - 1);
      InvStep(states[i - 1], steps[i - 1]);
    }
  }

  /** Step i of a run, as its effects. */
  lemma RunStep(states: seq<State>, steps: seq<Step>, i: nat)
    requires Run(states, steps) && i < |steps|
    ensures Inv(states[i]) && Enabled(states[i], steps[i]) && Effect(states[i], states[i + 1], steps[i])
  {
    InvRun(states, steps, i);
    Effects(states[i], steps[i]);
  }
}

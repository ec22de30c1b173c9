/** The per-host reader/writer lock: the variables of one `_HostState`, the effect of each of its
    critical sections, and the class that updates them in place. */
module HostLock {
  import opened Text

  datatype Kind = READ | HEAVY_READ | WRITE

  /** The four variables guarded by the condition, and what each critical section does to them. */
  datatype HostVars = HostVars(readers: int, heavy: bool, writer: bool, waitingWriters: int) {
    /** The lock half of the `wait_for` predicate of a caller of this kind. */
    predicate Open(kind: Kind) {
      match kind
      case WRITE => !writer && !heavy && readers == 0
      case HEAVY_READ => !writer && !heavy && waitingWriters == 0
      case READ => !writer && waitingWriters == 0
    }

    /** From taking the condition to the first evaluation of the predicate. */
    function Enter(kind: Kind): HostVars {
      if kind.WRITE? then this.(waitingWriters := waitingWriters + 1) else this
    }

    /** From the return of `wait_for` to the unregistering, when the caller is let in. */
    function Admit(kind: Kind): HostVars {
      match kind
      case WRITE => this.(writer := true, waitingWriters := waitingWriters - 1)
      case HEAVY_READ => this.(heavy := true, readers := readers + 1)
      case READ => this.(readers := readers + 1)
    }

    /** The same stretch when the caller was cancelled. */
    function Abandon(kind: Kind): HostVars {
      if kind.WRITE? then this.(waitingWriters := waitingWriters - 1) else this
    }

    function Release(kind: Kind): HostVars {
      match kind
      case WRITE => this.(writer := false)
      case HEAVY_READ => this.(readers := readers - 1, heavy := false)
      case READ => this.(readers := readers - 1)
    }
  }

  const UNLOCKED := HostVars(0, false, false, 0)

  ghost function Sharing(holders: map<nat, Kind>): set<nat> {
    set t | t in holders && !holders[t].WRITE?
  }

  ghost function Of(holders: map<nat, Kind>, kind: Kind): set<nat> {
    set t | t in holders && holders[t] == kind
  }

  /** The variables count the holders (caller -> mode it holds) and the writers inside their wait. */
  ghost predicate Counted(v: HostVars, holders: map<nat, Kind>, waiting: set<nat>) {
    && v.readers == |Sharing(holders)|
    && |Of(holders, HEAVY_READ)| == (if v.heavy then 1 else 0)
    && |Of(holders, WRITE)| == (if v.writer then 1 else 0)
    && (v.writer ==> v.readers == 0)
    && v.waitingWriters == |waiting|
  }

  lemma CountedEnter(v: HostVars, holders: map<nat, Kind>, waiting: set<nat>, t: nat, kind: Kind)
    requires Counted(v, holders, waiting) && t !in waiting
    ensures Counted(v.Enter(kind), holders, if kind.WRITE? then waiting + {t} else waiting)
  {
  }

  lemma CountedAbandon(v: HostVars, holders: map<nat, Kind>, waiting: set<nat>, t: nat, kind: Kind)
    requires Counted(v, holders, waiting) && (kind.WRITE? <==> t in waiting)
    ensures Counted(v.Abandon(kind), holders, waiting - {t})
  {
    assert kind.WRITE? || waiting - {t} == waiting;
  }

  /** Letting a caller in through an open guard keeps the counts, and with them mutual exclusion. */
  lemma CountedAdmit(v: HostVars, holders: map<nat, Kind>, waiting: set<nat>, t: nat, kind: Kind)
    requires Counted(v, holders, waiting) && (kind.WRITE? <==> t in waiting)
    requires t !in holders && v.Open(kind)
    ensures Counted(v.Admit(kind), holders[t := kind], waiting - {t})
  {
    SharingWith(holders, t, kind);
    OfWith(holders, t, kind, WRITE);
    OfWith(holders, t, kind, HEAVY_READ);
    assert kind.WRITE? || waiting - {t} == waiting;
  }

  lemma OfWith(holders: map<nat, Kind>, t: nat, kind: Kind, other: Kind)
    requires t !in holders
    ensures |Of(holders[t := kind], other)| == |Of(holders, other)| + if kind == other then 1 else 0
  {
    if kind == other {
      assert Of(holders[t := kind], other) == Of(holders, other) + {t};
    } else {
      assert Of(holders[t := kind], other) == Of(holders, other);
    }
  }

  lemma SharingWith(holders: map<nat, Kind>, t: nat, kind: Kind)
    requires t !in holders
    ensures |Sharing(holders[t := kind])| == |Sharing(holders)| + if kind.WRITE? then 0 else 1
  {
    if kind.WRITE? {
      assert Sharing(holders[t := kind]) == Sharing(holders);
    } else {
      assert Sharing(holders[t := kind]) == Sharing(holders) + {t};
    }
  }

  lemma CountedRelease(v: HostVars, holders: map<nat, Kind>, waiting: set<nat>, t: nat)
    requires Counted(v, holders, waiting) && t in holders
    ensures Counted(v.Release(holders[t]), holders - {t}, waiting)
  {
    var kind := holders[t];
    var after := holders - {t};
    assert Sharing(after) == Sharing(holders) - {t};
    assert Of(after, WRITE) == Of(holders, WRITE) - {t};
    assert Of(after, HEAVY_READ) == Of(holders, HEAVY_READ) - {t};
    assert t in Of(holders, kind);
    assert kind.WRITE? || t in Sharing(holders);
  }

  /** What the counts mean: the flags name their holders exactly, a writer is alone, and a heavy
      reader is a reader, so the `not self.heavy` test in the writer's guard decides nothing. */
  lemma CountedMeans(v: HostVars, holders: map<nat, Kind>, waiting: set<nat>)
    requires Counted(v, holders, waiting)
    ensures v.writer <==> exists t :: t in holders && holders[t] == WRITE
    ensures v.heavy <==> exists t :: t in holders && holders[t] == HEAVY_READ
    ensures forall t, u :: t in holders && u in holders && holders[t] == WRITE ==> t == u
    ensures forall t, u :: t in holders && u in holders
                           && holders[t] == HEAVY_READ && holders[u] == HEAVY_READ ==>
                             t == u
    ensures v.Open(WRITE) <==> !v.writer && v.readers == 0
    ensures holders == map[] <==> !v.writer && v.readers == 0
    ensures waiting == {} <==> v.waitingWriters == 0
  {
    var W, H, S := Of(holders, WRITE), Of(holders, HEAVY_READ), Sharing(holders);
    assert H <= S;
    assert v.writer <==> W != {};
    assert v.heavy <==> H != {};
    assert v.readers == 0 <==> S == {};
    forall t, u | t in holders && u in holders && holders[t] == WRITE
      ensures t == u
    {
      assert t in W;
      assert u in W || u in S;
      Singleton(W, t, u);
    }
    forall t, u | t in holders && u in holders && holders[t] == HEAVY_READ && holders[u] == HEAVY_READ
      ensures t == u
    {
      assert t in H && u in H;
      Singleton(H, t, u);
    }
    assert W != {} <==> exists t :: t in holders && holders[t] == WRITE by {
      if W != {} { var t :| t in W; }
      if t :| t in holders && holders[t] == WRITE { assert t in W; }
    }
    assert H != {} <==> exists t :: t in holders && holders[t] == HEAVY_READ by {
      if H != {} { var t :| t in H; }
      if t :| t in holders && holders[t] == HEAVY_READ { assert t in H; }
    }
    if holders != map[] {
      var t :| t in holders;
      assert t in W || t in S;
    }
  }

  /** When each guard opens, told by holders and waiting writers: a writer waits for every holder, a
      heavy reader for those that are not plain readers, a reader for a writer; readers also wait for
      the writers that wait. */
  lemma OpenMeans(v: HostVars, holders: map<nat, Kind>, waiting: set<nat>)
    requires Counted(v, holders, waiting)
    ensures v.Open(WRITE) <==> holders == map[]
    ensures v.Open(HEAVY_READ) <==> waiting == {} && forall t :: t in holders ==> holders[t] == READ
    ensures v.Open(READ) <==> waiting == {} && forall t :: t in holders ==> holders[t] != WRITE
  {
    CountedMeans(v, holders, waiting);
  }

  lemma Singleton(s: set<nat>, t: nat, u: nat)
    requires |s| <= 1 && t in s
    ensures u in s ==> u == t
  {
    assert |s - {t}| == 0;
  }

  /** `_HostState`. Its `acquire` is cut where `wait_for` lets go of the condition: `Enter`, then
      `Ready` for each evaluation of the predicate, then `Leave` once it has returned. The ghost
      fields say who holds the lock and which writers are waiting. */
  class HostState {
    var readers: int
    var heavy: bool
    var writer: bool
    var waitingWriters: int
    ghost var holders: map<nat, Kind>
    ghost var waiting: set<nat>

    ghost predicate Valid()
      reads this
    {
      Counted(Vars(), holders, waiting)
    }

    function Vars(): HostVars
      reads this
    {
      HostVars(readers, heavy, writer, waitingWriters)
    }

    constructor ()
      ensures Valid() && Vars() == UNLOCKED && holders == map[] && waiting == {}
    {
      readers, heavy, writer, waitingWriters := 0, false, false, 0;
      holders, waiting := map[], {};
    }

    method Enter(kind: Kind, ghost who: nat)
      requires Valid() && who !in waiting
      modifies this
      ensures Valid() && Vars() == old(Vars()).Enter(kind)
      ensures holders == old(holders)
      ensures waiting == if kind.WRITE? then old(waiting) + {who} else old(waiting)
    {
      CountedEnter(Vars(), holders, waiting, who, kind);
      if kind == WRITE {
        waitingWriters := waitingWriters + 1;
        waiting := waiting + {who};
      }
    }

    method Ready(kind: Kind, cancelled: bool) returns (ready: bool)
      requires Valid()
      ensures ready <==> cancelled || Vars().Open(kind)
      ensures !cancelled && kind.WRITE? ==> (ready <==> holders == map[])
      ensures !cancelled && kind.HEAVY_READ? ==>
                (ready <==> waiting == {} && forall t :: t in holders ==> holders[t] == READ)
      ensures !cancelled && kind.READ? ==>
                (ready <==> waiting == {} && forall t :: t in holders ==> holders[t] != WRITE)
    {
      OpenMeans(Vars(), holders, waiting);
      ready := cancelled || match kind
                            case WRITE => !writer && !heavy && readers == 0
                            case HEAVY_READ => !writer && !heavy && waitingWriters == 0
                            case READ => !writer && waitingWriters == 0;
    }

    method Leave(kind: Kind, cancelled: bool, ghost who: nat) returns (admitted: bool)
      requires Valid() && who !in holders && (kind.WRITE? <==> who in waiting)
      requires cancelled || Vars().Open(kind)
      modifies this
      ensures Valid() && admitted == !cancelled
      ensures Vars() == if cancelled then old(Vars()).Abandon(kind) else old(Vars()).Admit(kind)
      ensures holders == if cancelled then old(holders) else old(holders)[who := kind]
      ensures waiting == old(waiting) - {who}
    {
      if cancelled {
        CountedAbandon(Vars(), holders, waiting, who, kind);
      } else {
        CountedAdmit(Vars(), holders, waiting, who, kind);
        holders := holders[who := kind];
      }
      waiting := waiting - {who};
      admitted := !cancelled;
      match kind {
        case WRITE =>
          if !cancelled {
            writer := true;
          }
          waitingWriters := waitingWriters - 1;
        case HEAVY_READ =>
          if !cancelled {
            heavy := true;
            readers := readers + 1;
          }
        case READ =>
          if !cancelled {
            readers := readers + 1;
          }
      }
    }

    method Release(kind: Kind, ghost who: nat)
      requires Valid() && who in holders && holders[who] == kind
      modifies this
      ensures Valid() && Vars() == old(Vars()).Release(kind)
      ensures holders == old(holders) - {who} && waiting == old(waiting)
    {
      CountedRelease(Vars(), holders, waiting, who);
      holders := holders - {who};
      if kind == WRITE {
        writer := false;
      } else {
        readers := readers - 1;
        if kind == HEAVY_READ {
          heavy := false;
        }
      }
    }
  }

  /** `HostLockManager`: one state per host, created at its first use. */
  class HostLockManager {
    var states: map<string, HostState>

    ghost predicate Valid()
      reads this, states.Values
    {
      && (forall name :: name in states ==> states[name].Valid())
      && (forall name, other :: name in states && other in states && name != other ==> states[name] != states[other])
    }

    constructor ()
      ensures Valid() && states == map[]
    {
      states := map[];
    }

    /** The dictionary lookup at the head of `acquire`. */
    method StateFor(host: string) returns (state: HostState)
      requires Valid()
      modifies this`states
      ensures Valid() && Fold(host) in states && states[Fold(host)] == state
      ensures Fold(host) in old(states) ==> states == old(states)
      ensures Fold(host) !in old(states) ==>
                fresh(state) && states == old(states)[Fold(host) := state] && state.Vars() == UNLOCKED
    {
      var created := new HostState();
      var key := Fold(host);
      if key !in states {
        states := states[key := created];
      }
      state := states[key];
    }
  }

  /** Two names share a lock exactly if they differ in case only. */
  lemma SameLock(m: HostLockManager, host: string, other: string)
    requires m.Valid() && Fold(host) in m.states && Fold(other) in m.states
    ensures m.states[Fold(host)] == m.states[Fold(other)] <==> Fold(host) == Fold(other)
  {
  }
}

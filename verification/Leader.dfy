/** Leader election over one Redis key with a time to live and a separate epoch counter: any number of
    processes, interleaved at the granularity of their Redis commands. */
module Leader {
  import opened Domain

  type Node = int

  datatype Lock = Lock(owner: Node, expires: Time)

  datatype Redis = Redis(now: Time, lock: Option<Lock>, counter: nat)

  /** The key is there and carries this process's token. */
  predicate Holds(rd: Redis, i: Node) {
    rd.lock.Some? && rd.lock.value.owner == i && rd.now < rd.lock.value.expires
  }

  predicate Free(rd: Redis) { rd.lock.None? || rd.lock.value.expires <= rd.now }

  /** SET NX PX. */
  function SetNx(rd: Redis, i: Node, ttl: Time): Redis {
    if Free(rd) then rd.(lock := Some(Lock(i, rd.now + ttl))) else rd
  }

  /** The renewal script: PEXPIRE if the token matches. */
  function Extend(rd: Redis, i: Node, ttl: Time): Redis {
    if Holds(rd, i) then rd.(lock := Some(Lock(i, rd.now + ttl))) else rd
  }

  /** The release script: DEL if the token matches. */
  function Delete(rd: Redis, i: Node): Redis {
    if Holds(rd, i) then rd.(lock := None) else rd
  }

  /** One process. `won` is the gap between the answer to SET and the answer to INCR; `leaving` the one
      between the release script and the clearing of the flag. `term` is the index of its latest win. */
  datatype Local = Local(isLeader: bool, epoch: nat, beating: bool, won: bool, leaving: bool, alive: bool, term: nat)

  const FRESH := Local(false, 0, false, false, false, true, 0)

  datatype Stamp = Stamp(epoch: nat, inLease: bool)

  /** History: a successful SET NX, the time the key then stays owned, and the epoch it was given. */
  datatype Win = Win(owner: Node, from: Time, until: Time, stamp: Option<Stamp>)

  datatype State = State(rd: Redis, ttl: Time, nodes: map<Node, Local>, wins: seq<Win>)

  datatype Step =
    | Tick(to: Time)
    | TrySet(i: Node)
    | Incr(i: Node)
    | IncrLost(i: Node, counted: bool)
    | Beat(i: Node)
    | StrayBeat(i: Node)
    | Verify(i: Node)
    | Release(i: Node)
    | Left(i: Node)
    | Crash(i: Node)

  ghost predicate Init(s: State) {
    && s.rd.lock.None? && s.rd.counter == 0 && s.wins == [] && 0.0 < s.ttl
    && forall i :: i in s.nodes ==> s.nodes[i] == FRESH
  }

  predicate Enabled(s: State, e: Step) {
    if e.Tick? then s.rd.now <= e.to
    else
      e.i in s.nodes
      && (e.StrayBeat? || s.nodes[e.i].alive)
      && match e
         case TrySet(i) => !s.nodes[i].isLeader && !s.nodes[i].won
         case Incr(i) => s.nodes[i].won
         case IncrLost(i, _) => s.nodes[i].won
         case Beat(i) => s.nodes[i].beating && s.nodes[i].isLeader
         case Verify(i) => s.nodes[i].isLeader
         case Release(i) => s.nodes[i].isLeader && !s.nodes[i].leaving
         case Left(i) => s.nodes[i].leaving
         case _ => true
  }

  function Put(s: State, i: Node, n: Local): State { s.(nodes := s.nodes[i := n]) }

  /** The owned time of the last win ends at `t`. */
  function EndLast(wins: seq<Win>, t: Time): seq<Win> {
    if wins == [] then [] else wins[|wins| - 1 := wins[|wins| - 1].(until := t)]
  }

  function StampWin(wins: seq<Win>, a: nat, stamp: Stamp): seq<Win> {
    if a < |wins| then wins[a := wins[a].(stamp := Some(stamp))] else wins
  }

  function Won(n: Local, term: nat): Local { n.(won := true, term := term) }

  function Crowned(n: Local, epoch: nat): Local { n.(epoch := epoch, isLeader := true, beating := true, won := false) }

  function Deposed(n: Local): Local { n.(isLeader := false, beating := false) }

  function Apply(s: State, e: Step): State
    requires Enabled(s, e)
  {
    match e
    case Tick(to) => s.(rd := s.rd.(now := to))
    case TrySet(i) =>
      if !Free(s.rd) then s
      else
        Put(s.(rd := SetNx(s.rd, i, s.ttl), wins := s.wins + [Win(i, s.rd.now, s.rd.now + s.ttl, None)]),
            i, Won(s.nodes[i], |s.wins|))
    case Incr(i) =>
      var epoch := s.rd.counter + 1;
      Put(s.(rd := s.rd.(counter := epoch), wins := StampWin(s.wins, s.nodes[i].term, Stamp(epoch, Holds(s.rd, i)))),
          i, Crowned(s.nodes[i], epoch))
    case IncrLost(i, counted) =>
      Put(s.(rd := s.rd.(counter := if counted then s.rd.counter + 1 else s.rd.counter)), i, s.nodes[i].(won := false))
    case Beat(i) =>
      if Holds(s.rd, i) then s.(rd := Extend(s.rd, i, s.ttl), wins := EndLast(s.wins, s.rd.now + s.ttl))
      else Put(s, i, Deposed(s.nodes[i]))
    case StrayBeat(i) =>
      if Holds(s.rd, i) then s.(rd := Extend(s.rd, i, s.ttl), wins := EndLast(s.wins, s.rd.now + s.ttl)) else s
    case Verify(i) => if Holds(s.rd, i) then s else Put(s, i, Deposed(s.nodes[i]))
    case Release(i) =>
      Put(s.(rd := Delete(s.rd, i), wins := if Holds(s.rd, i) then EndLast(s.wins, s.rd.now) else s.wins),
          i, s.nodes[i].(beating := false, leaving := true))
    case Left(i) => Put(s, i, s.nodes[i].(isLeader := false, leaving := false))
    case Crash(i) => Put(s, i, s.nodes[i].(alive := false, beating := false))
  }

  ghost predicate Trace(ss: seq<State>, es: seq<Step>) {
    && |ss| == |es| + 1 && Init(ss[0])
    && forall k :: 0 <= k < |es| ==> Enabled(ss[k], es[k]) && ss[k + 1] == Apply(ss[k], es[k])
  }

  // ---------- the invariant ----------

  ghost predicate Disjoint(wins: seq<Win>) {
    && (forall a :: 0 <= a < |wins| ==> wins[a].from <= wins[a].until)
    && (forall a, b :: 0 <= a < b < |wins| ==> wins[a].until <= wins[b].from)
  }

  /** The key, while it is there, is the last win; before, every win is over. */
  ghost predicate LockIsLastWin(rd: Redis, wins: seq<Win>) {
    && (forall a :: 0 <= a < |wins| ==> wins[a].from <= rd.now)
    && (if rd.lock.Some? then wins != [] && wins[|wins| - 1].owner == rd.lock.value.owner && wins[|wins| - 1].until == rd.lock.value.expires
        else forall a :: 0 <= a < |wins| ==> wins[a].until <= rd.now)
  }

  ghost predicate NodeOk(i: Node, n: Local, wins: seq<Win>) {
    && (forall a :: 0 <= a < |wins| && wins[a].owner == i ==> a <= n.term)
    && (n.won ==> !n.isLeader && n.term < |wins| && wins[n.term].owner == i && wins[n.term].stamp.None?)
    && (n.isLeader ==>
          n.term < |wins| && wins[n.term].owner == i && wins[n.term].stamp.Some? && wins[n.term].stamp.value.epoch == n.epoch)
  }

  predicate Stamped(w: Win) { w.stamp.Some? }

  ghost predicate StampsOk(counter: nat, wins: seq<Win>) {
    && (forall a :: 0 <= a < |wins| && Stamped(wins[a]) ==> 1 <= wins[a].stamp.value.epoch <= counter)
    && (forall a, b :: 0 <= a < |wins| && 0 <= b < |wins| && a != b && Stamped(wins[a]) && Stamped(wins[b]) ==>
          wins[a].stamp.value.epoch != wins[b].stamp.value.epoch)
    && (forall a, b :: 0 <= a < b < |wins| && Stamped(wins[a]) && Stamped(wins[b]) && wins[a].stamp.value.inLease ==>
          wins[a].stamp.value.epoch < wins[b].stamp.value.epoch)
  }

  ghost predicate Inv(s: State) {
    && 0.0 < s.ttl && Disjoint(s.wins) && LockIsLastWin(s.rd, s.wins) && StampsOk(s.rd.counter, s.wins)
    && (forall a :: 0 <= a < |s.wins| ==> s.wins[a].owner in s.nodes)
    && (forall i :: i in s.nodes ==> NodeOk(i, s.nodes[i], s.wins))
  }

  lemma TrySetKeeps(s: State, i: Node)
    requires Inv(s) && Enabled(s, TrySet(i))
    ensures Inv(Apply(s, TrySet(i)))
  {
    hide StampsOk, NodeOk;
    var s' := Apply(s, TrySet(i));
    if Free(s.rd) {
      NewWinStamps(s.rd.counter, s.wins, s'.wins[|s.wins|]);
      forall k | k in s'.nodes ensures NodeOk(k, s'.nodes[k], s'.wins) {
        NewWinNode(k, s.nodes[k], s.wins, s'.wins[|s.wins|]);
      }
    }
  }

  lemma NewWinStamps(counter: nat, wins: seq<Win>, w: Win)
    requires StampsOk(counter, wins) && w.stamp.None?
    ensures StampsOk(counter, wins + [w])
  {
  }

  lemma NewWinNode(k: Node, n: Local, wins: seq<Win>, w: Win)
    requires NodeOk(k, n, wins) && w.stamp.None? && (k == w.owner ==> !n.isLeader)
    ensures NodeOk(k, if k == w.owner then Won(n, |wins|) else n, wins + [w])
  {
  }

  lemma StampKeeps(counter: nat, wins: seq<Win>, a: nat, inLease: bool)
    requires StampsOk(counter, wins) && a < |wins| && wins[a].stamp.None? && (inLease ==> a == |wins| - 1)
    ensures StampsOk(counter + 1, StampWin(wins, a, Stamp(counter + 1, inLease)))
  {
  }

  lemma StampNode(k: Node, n: Local, wins: seq<Win>, a: nat, stamp: Stamp, i: Node, n': Local)
    requires NodeOk(k, n, wins) && a < |wins| && wins[a].stamp.None? && wins[a].owner == i
    requires if k == i then a == n.term && n' == Crowned(n, stamp.epoch) else n' == n
    ensures NodeOk(k, n', StampWin(wins, a, stamp))
  {
  }

  lemma IncrKeeps(s: State, i: Node)
    requires Inv(s) && Enabled(s, Incr(i))
    ensures Inv(Apply(s, Incr(i)))
  {
    hide StampsOk;
    var s' := Apply(s, Incr(i));
    var a, stamp := s.nodes[i].term, Stamp(s.rd.counter + 1, Holds(s.rd, i));
    assert NodeOk(i, s.nodes[i], s.wins);
    StampKeeps(s.rd.counter, s.wins, a, stamp.inLease);
    forall k | k in s'.nodes ensures NodeOk(k, s'.nodes[k], s'.wins) {
      StampNode(k, s.nodes[k], s.wins, a, stamp, i, s'.nodes[k]);
    }
  }

  lemma EndLastKeeps(counter: nat, wins: seq<Win>, t: Time)
    requires wins != [] && wins[|wins| - 1].from <= t && Disjoint(wins) && StampsOk(counter, wins)
    ensures Disjoint(EndLast(wins, t)) && StampsOk(counter, EndLast(wins, t))
  {
  }

  lemma EndLastNode(k: Node, n: Local, wins: seq<Win>, t: Time)
    requires NodeOk(k, n, wins)
    ensures NodeOk(k, n, EndLast(wins, t))
  {
  }

  /** The steps that move the end of the last win. */
  lemma LeaseKeeps(s: State, e: Step)
    requires Inv(s) && Enabled(s, e) && (e.Beat? || e.StrayBeat? || e.Release?) && Holds(s.rd, e.i)
    ensures Inv(Apply(s, e))
  {
    hide StampsOk, NodeOk;
    var s' := Apply(s, e);
    assert forall a :: 0 <= a < |s.wins| ==> s'.wins[a].owner == s.wins[a].owner && s'.wins[a].from == s.wins[a].from;
    var t := if e.Release? then s.rd.now else s.rd.now + s.ttl;
    EndLastKeeps(s.rd.counter, s.wins, t);
    forall k | k in s'.nodes ensures NodeOk(k, s'.nodes[k], s'.wins) {
      EndLastNode(k, s.nodes[k], s.wins, t);
      LocalNode(k, s.nodes[k], s'.nodes[k], s'.wins);
    }
  }

  lemma LocalNode(k: Node, n: Local, n': Local, wins: seq<Win>)
    requires NodeOk(k, n, wins) && n'.term == n.term && n'.epoch == n.epoch
    requires (n'.isLeader ==> n.isLeader) && (n'.won ==> n.won)
    ensures NodeOk(k, n', wins)
  {
  }

  /** The steps that change only a process, the clock or the counter. */
  lemma LocalKeeps(s: State, e: Step)
    requires Inv(s) && Enabled(s, e) && !e.TrySet? && !e.Incr?
    requires e.Beat? || e.StrayBeat? || e.Release? ==> !Holds(s.rd, e.i)
    ensures Inv(Apply(s, e))
  {
    hide NodeOk, Disjoint;
    var s' := Apply(s, e);
    forall k | k in s'.nodes ensures NodeOk(k, s'.nodes[k], s'.wins) {
      LocalNode(k, s.nodes[k], s'.nodes[k], s.wins);
    }
  }

  lemma Keeps(s: State, e: Step)
    requires Inv(s) && Enabled(s, e)
    ensures Inv(Apply(s, e))
  {
    hide Inv, Apply, Enabled;
    match e
    case TrySet(i) => TrySetKeeps(s, i);
    case Incr(i) => IncrKeeps(s, i);
    case Beat(i) => if Holds(s.rd, i) { LeaseKeeps(s, e); } else { LocalKeeps(s, e); }
    case StrayBeat(i) => if Holds(s.rd, i) { LeaseKeeps(s, e); } else { LocalKeeps(s, e); }
    case Release(i) => if Holds(s.rd, i) { LeaseKeeps(s, e); } else { LocalKeeps(s, e); }
    case _ => LocalKeeps(s, e);
  }

  lemma {:induction false} Always(ss: seq<State>, es: seq<Step>, k: nat)
    requires Trace(ss, es) && k < |ss|
    ensures Inv(ss[k])
  {
    if k > 0 {
      hide Inv, Apply, Enabled;
      Always(ss, es, k - 1);
      Keeps(ss[k - 1], es[k - 1]);
    }
  }

  // ---------- the theorems ----------

  /** The owned times of two wins never overlap. */
  lemma OwnershipIsDisjoint(ss: seq<State>, es: seq<Step>, k: nat, a: nat, b: nat)
    requires Trace(ss, es) && k < |ss| && a < b < |ss[k].wins|
    ensures ss[k].wins[a].from <= ss[k].wins[a].until <= ss[k].wins[b].from <= ss[k].wins[b].until
  {
    Always(ss, es, k);
  }

  /** Only the clock and the holder's own release end its lease; nobody else's command touches it, and it is
      only ever prolonged. */
  lemma LeaseIsTheHolders(s: State, e: Step, i: Node)
    requires Enabled(s, e) && 0.0 < s.ttl && Holds(s.rd, i)
    requires e.Tick? ==> e.to < s.rd.lock.value.expires
    requires !(e.Release? && e.i == i)
    ensures var s' := Apply(s, e);
      && Holds(s'.rd, i)
      && (s'.rd.lock == s.rd.lock || ((e.Beat? || e.StrayBeat?) && e.i == i && s'.rd.lock.value.expires == s.rd.now + s.ttl))
  {
  }

  /** verify_still_leader answers True. */
  predicate PassesVerify(s: State, i: Node) {
    i in s.nodes && s.nodes[i].alive && s.nodes[i].isLeader && Holds(s.rd, i)
  }

  /** Whoever passes is inside its own latest win, which is the latest of all, and carries the epoch of that win:
      every other stamp given in its lease is smaller. In one state nobody else passes. */
  lemma VerifiedLeader(ss: seq<State>, es: seq<Step>, k: nat, i: Node)
    requires Trace(ss, es) && k < |ss| && PassesVerify(ss[k], i)
    ensures var s := ss[k]; var a := |s.wins| - 1;
      && a >= 0 && s.wins[a].owner == i && s.wins[a].from <= s.rd.now < s.wins[a].until
      && s.wins[a].stamp.Some? && s.wins[a].stamp.value.epoch == s.nodes[i].epoch
      && (forall b :: 0 <= b < a && Stamped(s.wins[b]) && s.wins[b].stamp.value.inLease ==>
            s.wins[b].stamp.value.epoch < s.nodes[i].epoch)
      && (forall j :: PassesVerify(s, j) ==> j == i)
  {
    Always(ss, es, k);
    assert NodeOk(i, ss[k].nodes[i], ss[k].wins);
  }

  // ---------- acquiring, keeping and losing the key ----------

  /** SET NX takes the key exactly when no process holds it, for one time to live; otherwise it changes nothing. */
  lemma AcquiresIff(s: State, i: Node)
    requires Enabled(s, TrySet(i)) && 0.0 < s.ttl
    ensures var s' := Apply(s, TrySet(i));
      if forall k :: !Holds(s.rd, k) then
        Holds(s'.rd, i) && s'.rd.lock.value.expires == s.rd.now + s.ttl && s'.nodes[i].won && !s'.nodes[i].isLeader
      else s' == s
  {
    if s.rd.lock.Some? {
      assert Free(s.rd) <==> !Holds(s.rd, s.rd.lock.value.owner);
    }
  }

  /** A renewal by the holder gives the key one time to live from now; the answer takes the flag and the heartbeat down exactly when
      the key is not its own. So does a verification's. */
  lemma BeatAndVerify(s: State, e: Step, i: Node)
    requires Enabled(s, e) && (e == Beat(i) || e == Verify(i)) && 0.0 < s.ttl
    ensures var n, s' := s.nodes[i], Apply(s, e);
      && (Holds(s.rd, i) && e == Beat(i) ==> Holds(s'.rd, i) && s'.rd.lock.value.expires == s.rd.now + s.ttl)
      && (e == Verify(i) || !Holds(s.rd, i) ==> s'.rd == s.rd)
      && (s'.nodes[i].isLeader <==> Holds(s.rd, i))
      && (if Holds(s.rd, i) then s'.nodes[i] == n else !s'.nodes[i].beating)
  {
  }

  /** A release by the holder frees the key at once, and changes nothing at the server otherwise; then the flag goes down. */
  lemma ReleaseFrees(s: State, i: Node)
    requires Enabled(s, Release(i))
    ensures var s1 := Apply(s, Release(i)); var s2 := Apply(s1, Left(i));
      && (if Holds(s.rd, i) then forall k :: !Holds(s1.rd, k) else s1.rd == s.rd)
      && !s1.nodes[i].beating && s1.nodes[i].leaving
      && s2.rd == s1.rd && !s2.nodes[i].isLeader && !s2.nodes[i].leaving
  {
  }

  /** A process that has become leader and is not about to leave has its heartbeat. */
  predicate BeatsIfLeading(n: Local) { n.alive && n.isLeader && !n.leaving ==> n.beating }

  ghost predicate LeadersBeat(s: State) { forall i :: i in s.nodes ==> BeatsIfLeading(s.nodes[i]) }

  lemma LeadersBeatStep(s: State, e: Step)
    requires Enabled(s, e) && LeadersBeat(s)
    ensures LeadersBeat(Apply(s, e))
  {
  }

  lemma {:induction false} LeadersBeatAlways(ss: seq<State>, es: seq<Step>, k: nat)
    requires Trace(ss, es) && k < |ss|
    ensures LeadersBeat(ss[k])
  {
    if k > 0 {
      hide LeadersBeat, Apply, Enabled;
      LeadersBeatAlways(ss, es, k - 1);
      LeadersBeatStep(ss[k - 1], es[k - 1]);
    }
  }

  /** In every reachable state the next turn of the heartbeat can be taken by every process that leads, lives and is not leaving. */
  lemma LeaderCanBeat(ss: seq<State>, es: seq<Step>, k: nat, i: Node)
    requires Trace(ss, es) && k < |ss| && i in ss[k].nodes
    requires ss[k].nodes[i].alive && ss[k].nodes[i].isLeader && !ss[k].nodes[i].leaving
    ensures ss[k].nodes[i].beating && Enabled(ss[k], Beat(i))
  {
    LeadersBeatAlways(ss, es, k);
    assert BeatsIfLeading(ss[k].nodes[i]);
  }

  /** From step k to step k', the clock never reaches the end of the lease as it then is, and `i` neither releases nor crashes. */
  ghost predicate BeatsInTime(ss: seq<State>, es: seq<Step>, k: nat, k': nat, i: Node) {
    forall t :: k <= t < k' && t < |es| && t < |ss| ==>
      && es[t] != Release(i) && es[t] != Crash(i)
      && (es[t].Tick? ==> ss[t].rd.lock.Some? && es[t].to < ss[t].rd.lock.value.expires)
  }

  lemma StaysLeaderStep(s: State, e: Step, i: Node)
    requires Enabled(s, e) && Inv(s) && PassesVerify(s, i) && !s.nodes[i].leaving && e != Release(i) && e != Crash(i)
    requires e.Tick? ==> e.to < s.rd.lock.value.expires
    ensures PassesVerify(Apply(s, e), i) && !Apply(s, e).nodes[i].leaving && Apply(s, e).nodes[i].epoch == s.nodes[i].epoch
  {
    hide StampsOk, Disjoint, LockIsLastWin;
    assert NodeOk(i, s.nodes[i], s.wins);
  }

  /** A leader that beats before each expiry is deposed by nobody: it keeps the key, its flag and its epoch whatever the others do. */
  lemma {:induction false} BeatingLeaderStays(ss: seq<State>, es: seq<Step>, k: nat, k': nat, i: Node)
    requires Trace(ss, es) && k <= k' < |ss| && PassesVerify(ss[k], i) && !ss[k].nodes[i].leaving && BeatsInTime(ss, es, k, k', i)
    ensures PassesVerify(ss[k'], i) && !ss[k'].nodes[i].leaving && ss[k'].nodes[i].epoch == ss[k].nodes[i].epoch
    decreases k'
  {
    hide Apply, Enabled, PassesVerify, Inv;
    if k < k' {
      BeatingLeaderStays(ss, es, k, k' - 1, i);
      Always(ss, es, k' - 1);
      StaysLeaderStep(ss[k' - 1], es[k' - 1], i);
    } else {
      Known(ss[k], i);
    }
  }

  lemma Known(s: State, i: Node)
    requires PassesVerify(s, i)
    ensures i in s.nodes
  {
  }

  // ---------- after a refusal ----------

  /** If the process leads, or is about to, it does so by a win that is not among the first `n`. */
  predicate LeadsAfter(s: State, i: Node, n: nat) {
    i in s.nodes && (s.nodes[i].isLeader || s.nodes[i].won ==> n <= s.nodes[i].term)
  }

  lemma LeadsAfterStep(s: State, e: Step, i: Node, n: nat)
    requires Enabled(s, e) && LeadsAfter(s, i, n) && n <= |s.wins|
    ensures LeadsAfter(Apply(s, e), i, n) && n <= |Apply(s, e).wins|
  {
  }

  lemma {:induction false} LeadsAfterAlong(ss: seq<State>, es: seq<Step>, k: nat, k': nat, i: Node, n: nat)
    requires Trace(ss, es) && k <= k' < |ss| && LeadsAfter(ss[k], i, n) && n <= |ss[k].wins|
    ensures LeadsAfter(ss[k'], i, n) && n <= |ss[k'].wins|
    decreases k'
  {
    hide Enabled, Apply, LeadsAfter;
    if k < k' {
      LeadsAfterAlong(ss, es, k, k' - 1, i, n);
      LeadsAfterStep(ss[k' - 1], es[k' - 1], i, n);
    }
  }

  /** A process whose flag went down, by a refused verification, a failed heartbeat or a release, passes no verification
      until it has won the key again: the win it then leads by came later. */
  lemma NoPassBeforeNextWin(ss: seq<State>, es: seq<Step>, k: nat, k': nat, i: Node)
    requires Trace(ss, es) && k < k' < |ss| && i in ss[k].nodes && i in ss[k + 1].nodes
    requires ss[k].nodes[i].isLeader && !ss[k + 1].nodes[i].isLeader && PassesVerify(ss[k'], i)
    ensures |ss[k].wins| < |ss[k'].wins|
    ensures var w := ss[k'].wins[|ss[k'].wins| - 1];
      w.owner == i && w.from <= ss[k'].rd.now < w.until && w.stamp.Some? && w.stamp.value.epoch == ss[k'].nodes[i].epoch
  {
    Always(ss, es, k);
    DownIsNotWon(ss[k], es[k], i);
    LeadsAfterAlong(ss, es, k + 1, k', i, |ss[k].wins|);
    VerifiedLeader(ss, es, k', i);
    Always(ss, es, k');
    assert NodeOk(i, ss[k'].nodes[i], ss[k'].wins);
    hide Apply, Enabled;
  }

  lemma DownIsNotWon(s: State, e: Step, i: Node)
    requires Inv(s) && Enabled(s, e) && i in s.nodes && s.nodes[i].isLeader && !Apply(s, e).nodes[i].isLeader
    ensures LeadsAfter(Apply(s, e), i, |s.wins|) && |Apply(s, e).wins| == |s.wins|
  {
    hide StampsOk, Disjoint, LockIsLastWin;
    assert NodeOk(i, s.nodes[i], s.wins);
  }

  /** An epoch is given to at most one win, and wins stamped inside their lease have smaller epochs than all later ones. */
  lemma EpochsFollowWins(ss: seq<State>, es: seq<Step>, k: nat, a: nat, b: nat)
    requires Trace(ss, es) && k < |ss| && a < b < |ss[k].wins| && Stamped(ss[k].wins[a]) && Stamped(ss[k].wins[b])
    ensures ss[k].wins[a].stamp.value.epoch != ss[k].wins[b].stamp.value.epoch
    ensures ss[k].wins[a].stamp.value.inLease ==> ss[k].wins[a].stamp.value.epoch < ss[k].wins[b].stamp.value.epoch
  {
    Always(ss, es, k);
  }

  /** The epoch an INCR gives exceeds every epoch given so far; so it breaks the order of wins exactly when a
      later win has been stamped already, which inside the lease cannot be. */
  lemma IncrBreaksOrderIff(ss: seq<State>, es: seq<Step>, k: nat, i: Node)
    requires Trace(ss, es) && k < |es| && es[k] == Incr(i)
    ensures var wins, a, s' := ss[k].wins, ss[k].nodes[i].term, ss[k + 1];
      && a < |wins| == |s'.wins| && Stamped(s'.wins[a]) && s'.wins[a].stamp.value.epoch == s'.nodes[i].epoch
      && (forall b :: 0 <= b < |wins| && Stamped(wins[b]) ==> wins[b].stamp.value.epoch < s'.nodes[i].epoch)
      && (Holds(ss[k].rd, i) ==> a == |wins| - 1)
      && ((exists b :: a < b < |wins| && Stamped(s'.wins[b]) && s'.wins[b].stamp.value.epoch < s'.wins[a].stamp.value.epoch)
          <==> (exists b :: a < b < |wins| && Stamped(wins[b])))
  {
    Always(ss, es, k);
    assert NodeOk(i, ss[k].nodes[i], ss[k].wins);
    var wins, a, wins' := ss[k].wins, ss[k].nodes[i].term, ss[k + 1].wins;
    assert forall b :: 0 <= b < |wins| && b != a ==> wins'[b] == wins[b];
    if b :| a < b < |wins| && Stamped(wins[b]) {
      assert Stamped(wins'[b]) && wins'[b].stamp.value.epoch < wins'[a].stamp.value.epoch;
    }
  }

  /** Two processes, and an INCR that lands after its lease: the first win ends up with the larger epoch,
      and its process believes it leads until it asks. */
  lemma LateIncrInverts() returns (ss: seq<State>, es: seq<Step>)
    ensures Trace(ss, es)
    ensures var s := ss[|ss| - 1];
      && |s.wins| == 2 && s.wins[0].owner == 1 && s.wins[1].owner == 2
      && Stamped(s.wins[0]) && Stamped(s.wins[1]) && s.wins[1].stamp.value.epoch < s.wins[0].stamp.value.epoch
      && 1 in s.nodes && 2 in s.nodes && s.nodes[1].isLeader && s.nodes[2].isLeader && !PassesVerify(s, 1) && PassesVerify(s, 2)
  {
    var s0 := State(Redis(0.0, None, 0), 10.0, map[1 := FRESH, 2 := FRESH], []);
    var s1 := Apply(s0, TrySet(1));
    var s2 := Apply(s1, Tick(10.0));
    var s3 := Apply(s2, TrySet(2));
    var s4 := Apply(s3, Incr(2));
    var s5 := Apply(s4, Incr(1));
    ss := [s0, s1, s2, s3, s4, s5];
    es := [TrySet(1), Tick(10.0), TrySet(2), Incr(2), Incr(1)];
  }
}

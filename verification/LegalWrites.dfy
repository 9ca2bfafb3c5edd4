/** Under the lease assumption every status write is one the table lists, also a write of the status a row has already. */
module LegalWrites {
  import opened Domain
  import opened Tables
  import opened Protocol
  import opened Safety
  import opened Payments
  import opened Leases
  import opened Outcome
  import opened Zombies
  import M = StateMachine

  lemma NoZombies(m: Mode, s: Sys, l: Label, r: RunId, b: RunStatus)
    requires m.leases && Leased(s) && Enabled(m, s, l) && r in s.db.runs
    ensures !ZombieWrites(s, l, r, b)
  {
    hide Sound, Booked, Tidy, Tracked, RecOk;
    if l.Exec? && Finishes(l.x) {
      FreshInLease(s.db, l.w, s.execs[l.w]);
    }
  }

  lemma NoLateBurials(m: Mode, s: Sys, l: Label, r: RunId, b: RunStatus)
    requires Leased(s) && Enabled(m, s, l) && r in s.db.runs
    ensures !BuriesFinished(s, l, r, b)
  {
    hide Sound, PayInv, LeaseInv, EarlierFailed, PaidRows, DeadRows, Tracked, ExecOk;
    if l.Rec? && s.recs[l.w].Holding? {
      assert RecOk(s.db, l.w, s.recs[l.w]);
    }
  }

  /** With leases: every status that any step writes to a row is a transition that the table lists for the row's status. */
  lemma EveryWriteIsListed(m: Mode, ss: seq<Sys>, ls: seq<Label>, i: nat, r: RunId, b: RunStatus)
    requires m.leases && Trace(m, ss, ls) && i < |ls| && r in ss[i].db.runs && Writes(ss[i], ls[i], r, b)
    ensures b in M.Targets(ss[i].db.runs[r].status) && b != Pending
    ensures r in ss[i + 1].db.runs && ss[i + 1].db.runs[r].status == b
  {
    hide Leased, Apply, Enabled, Writes, ZombieWrites, BuriesFinished;
    LeasedAlways(m, ss, ls, i);
    ForbiddenWriteIff(m, ss, ls, i, r, b);
    NoZombies(m, ss[i], ls[i], r, b);
    NoLateBurials(m, ss[i], ls[i], r, b);
    WritesAreAll(m, ss, ls, i, r, b);
    NeverWritesPending(ss[i], ls[i], r, b);
  }

  lemma NeverWritesPending(s: Sys, l: Label, r: RunId, b: RunStatus)
    requires Writes(s, l, r, b)
    ensures b != Pending
  {
  }
}

/** Where every activated user comes from, told by the steps of the run. */
module ActivationTrace {
  import opened Wrappers
  import opened Schema
  import opened StoreOps
  import opened Activation

  /** The state before step m; every prefix of a run is a run. */
  ghost function StateAt(w: Activations, ls: seq<Label>, m: nat): Activations
    requires m <= |ls|
  {
    match Run(w, ls[..m])
    case None => w
    case Some(v) => v
  }

  lemma {:induction false} Stepped(w: Activations, ls: seq<Label>, m: nat)
    requires Run(w, ls).Some? && m < |ls|
    ensures Run(w, ls[..m]).Some? && Run(w, ls[..m + 1]).Some?
    ensures Step(StateAt(w, ls, m), ls[m]) == Some(StateAt(w, ls, m + 1))
  {
    hide Step;
    var n := |ls| - 1;
    if m == n {
      assert ls[..m + 1] == ls;
    } else {
      Stepped(w, ls[..n], m);
      assert ls[..n][..m] == ls[..m] && ls[..n][..m + 1] == ls[..m + 1];
    }
  }

  /** Step f looked this invite up: it was open in the tables then, and gave the contact's email and name. */
  ghost predicate LooksUp(db: Tables, l: Label, thread: nat, found: Lookup) {
    && l.Look? && l.thread == thread && l.tid == found.tid && l.contact == found.contact
    && HasInvite(db, found.tid, found.contact, l.token, l.now)
    && found.email == db.contacts[found.contact].email && found.name == db.contacts[found.contact].name
  }

  lemma StepLooks(w: Activations, l: Label, thread: nat)
    requires Step(w, l).Some? && thread in Step(w, l).value.pending
    ensures
      var v := Step(w, l).value;
      || LooksUp(w.db, l, thread, v.pending[thread])
      || (thread in w.pending && v.pending[thread] == w.pending[thread])
  {
    hide After, Exec, InContext;
  }

  lemma {:induction false} LookupOf(w: Activations, ls: seq<Label>, n: nat, thread: nat) returns (f: nat)
    requires Run(w, ls).Some? && w.pending == map[] && n <= |ls| && thread in StateAt(w, ls, n).pending
    ensures f < n && LooksUp(StateAt(w, ls, f).db, ls[f], thread, StateAt(w, ls, n).pending[thread])
  {
    assert ls[..0] == [] && StateAt(w, ls, 0) == w;
    hide Run, Step, LooksUp;
    Stepped(w, ls, n - 1);
    StepLooks(StateAt(w, ls, n - 1), ls[n - 1], thread);
    if LooksUp(StateAt(w, ls, n - 1).db, ls[n - 1], thread, StateAt(w, ls, n).pending[thread]) {
      f := n - 1;
    } else {
      f := LookupOf(w, ls, n - 1, thread);
    }
  }

  /** Step n is the transaction of this lookup, and does just what it should. */
  ghost predicate Commits(was: Activations, after: Activations, l: Label, found: Lookup, s: Success) {
    && l.Commit? && l.thread in was.pending && was.pending[l.thread] == found
    && s == Success(found.contact, l.userId) && l.userId !in was.db.users
    && after.db == was.db.(
         users := was.db.users[l.userId := User(found.tid, found.email, l.hash, found.name, "user", l.now, None)],
         contacts :=
           if found.contact in was.db.contacts && was.db.contacts[found.contact].tenantId == found.tid then
             was.db.contacts[found.contact :=
               was.db.contacts[found.contact].(userId := Some(l.userId), inviteToken := None)]
           else was.db.contacts)
  }

  lemma StepSucceeds(w: Activations, l: Label)
    requires Step(w, l).Some?
    ensures
      var v := Step(w, l).value;
      || v.successes == w.successes
      || (l.Commit? && l.thread in w.pending && |v.successes| == |w.successes| + 1
          && v.successes[..|w.successes|] == w.successes
          && Commits(w, v, l, w.pending[l.thread], v.successes[|w.successes|]))
  {
    hide After, InContext, Invited;
    if l.Commit? && l.thread in w.pending && l.userId !in w.db.users {
      CommitsExactly(w.db, w.pending[l.thread], l.userId, l.hash, l.now);
    }
    hide Exec;
  }

  ghost predicate CommitsAt(w: Activations, ls: seq<Label>, n: nat, s: Success) {
    && n < |ls| && ls[n].Commit? && ls[n].thread in StateAt(w, ls, n).pending
    && Commits(StateAt(w, ls, n), StateAt(w, ls, n + 1), ls[n], StateAt(w, ls, n).pending[ls[n].thread], s)
  }

  lemma OneMoreSuccess(w: Activations, ls: seq<Label>, m: nat)
    requires Run(w, ls).Some? && m < |ls|
    ensures
      var was, after := StateAt(w, ls, m).successes, StateAt(w, ls, m + 1).successes;
      || after == was
      || (|after| == |was| + 1 && after[..|was|] == was && CommitsAt(w, ls, m, after[|was|]))
  {
    hide Run, Step, Commits;
    Stepped(w, ls, m);
    StepSucceeds(StateAt(w, ls, m), ls[m]);
    hide StateAt;
  }

  lemma NothingYet(w: Activations, ls: seq<Label>)
    requires w.successes == []
    ensures StateAt(w, ls, 0).successes == []
  {
    assert ls[..0] == [];
    hide Step;
  }

  lemma {:induction false} SucceededAt(w: Activations, ls: seq<Label>, m: nat, k: nat) returns (n: nat)
    requires Run(w, ls).Some? && w.successes == [] && m <= |ls| && k < |StateAt(w, ls, m).successes|
    ensures n < m && CommitsAt(w, ls, n, StateAt(w, ls, m).successes[k])
  {
    NothingYet(w, ls);
    hide Run, CommitsAt, StateAt;
    OneMoreSuccess(w, ls, m - 1);
    var was, after := StateAt(w, ls, m - 1).successes, StateAt(w, ls, m).successes;
    if k < |was| {
      assert after[..|was|][k] == was[k] == after[k];
      n := SucceededAt(w, ls, m - 1, k);
    } else {
      n := m - 1;
    }
  }

  /**
   * Behind every activation of a run there are a lookup f, at which the contact's invite was open and not yet used, and
   * the transaction n of the same request: it stored a user with the contact's tenant, email and name as of f, the hash
   * of n, the role "user" and no reset token, linked the contact to it if it was still there and ended its invite, and
   * changed nothing else.
   */
  lemma ActivationsTrace(w: Activations, ls: seq<Label>, k: nat) returns (found: Lookup, f: nat, n: nat)
    requires Run(w, ls).Some? && w.pending == map[] && w.successes == [] && k < |Run(w, ls).value.successes|
    ensures f < n < |ls| && ls[n].Commit? && LooksUp(StateAt(w, ls, f).db, ls[f], ls[n].thread, found)
    ensures Commits(StateAt(w, ls, n), StateAt(w, ls, n + 1), ls[n], found, Run(w, ls).value.successes[k])
  {
    assert ls[..|ls|] == ls;
    hide Step, LooksUp;
    n := SucceededAt(w, ls, |ls|, k);
    hide Run, Commits;
    found := StateAt(w, ls, n).pending[ls[n].thread];
    f := LookupOf(w, ls, n, ls[n].thread);
  }
}

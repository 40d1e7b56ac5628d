/**
 The provisioning program against the step system: an uninterrupted call is a sequence
 of the system's steps, so what holds of every run holds of the program.
 */
module ProvisionSteps {
  import opened Basics
  import opened ProvisionTicket
  import opened ProvisionStore
  import opened ProvisionProtocol

  /** Call number k takes these steps, one after the other. */
  ghost predicate Takes(domain: string, s: State, k: nat, steps: seq<CallStep>, s': State)
    decreases |steps|
  {
    if steps == [] then s' == s
    else Can(domain, s, Call(k, steps[0])) && Takes(domain, Do(domain, s, Call(k, steps[0])), k, steps[1..], s')
  }

  /** One step more. */
  lemma {:induction false} ThenTakes(domain: string, s: State, k: nat, steps: seq<CallStep>, s': State, t: CallStep)
    requires Takes(domain, s, k, steps, s') && Can(domain, s', Call(k, t))
    ensures Takes(domain, s, k, steps + [t], Do(domain, s', Call(k, t)))
    decreases |steps|
  {
    hide Can, Do;
    if steps == [] {
      assert [t][1..] == [];
    } else {
      ThenTakes(domain, Do(domain, s, Call(k, steps[0])), k, steps[1..], s', t);
      assert (steps + [t])[0] == steps[0] && (steps + [t])[1..] == steps[1..] + [t];
    }
  }

  /** The state with these tables while call number k is in this phase. */
  function Meanwhile(s: State, k: nat, db: Tables, p: Phase): State
    requires k < |s.calls|
  {
    State(db, s.calls[k := p], s.grants)
  }

  /** The state with these tables once call number k has answered. */
  function Answered(s: State, k: nat, db: Tables, stRef: string, jti: string, response: Response): State
    requires k < |s.calls|
  {
    State(db, s.calls[k := Idle], s.grants + GrantsOf(stRef, jti, response))
  }

  /** A step that leaves the call under way. */
  lemma Goes(domain: string, s: State, k: nat, db: Tables, p: Phase, t: CallStep)
    requires k < |s.calls| && CanCall(domain, Meanwhile(s, k, db, p), p, t)
    ensures var x := Meanwhile(s, k, db, p);
      var (db', q, grants) := DoCall(domain, x, p, t);
      Can(domain, x, Call(k, t)) && Do(domain, x, Call(k, t)) == State(db', s.calls[k := q], s.grants + grants)
  {
    var x := Meanwhile(s, k, db, p);
    assert x.calls[k] == p;
    var (db', q, grants) := DoCall(domain, x, p, t);
    assert x.calls[k := q] == s.calls[k := q];
    hide CanCall, DoCall;
  }

  /** Up to the claim of the ticket. */
  lemma ClaimSteps(domain: string, s: State, k: nat, stRef: string, jti: string, f: Faults) returns (steps: seq<CallStep>, s': State)
    requires k < |s.calls| && s.calls[k].Idle? && AcceptedRef(stRef)
    ensures Takes(domain, s, k, steps, s')
    ensures s' == if jti in s.db.used || !f.claimApplied then s
                  else Meanwhile(s, k, s.db.(used := s.db.used + {jti}), if f.claimAnswered then Claimed(stRef, jti) else Idle)
  {
    hide AcceptedRef;
    assert s == Meanwhile(s, k, s.db, Idle);
    steps := [Receive(stRef, jti)];
    Goes(domain, s, k, s.db, Idle, steps[0]);
    ThenTakes(domain, s, k, [], s, steps[0]);
    assert [] + steps == steps;
    var x := Meanwhile(s, k, s.db, Verified(stRef, jti));
    assert s.grants + [] == s.grants;
    assert Takes(domain, s, k, steps, x);
    var t := Claim(f.claimApplied, f.claimAnswered);
    Goes(domain, s, k, s.db, Verified(stRef, jti), t);
    ThenTakes(domain, s, k, steps, x, t);
    steps := steps + [t];
    s' := Do(domain, x, Call(k, t));
  }

  /** The lookup of an existing link. */
  lemma LookSteps(domain: string, s: State, k: nat, db: Tables, stRef: string, jti: string, fails: bool, steps0: seq<CallStep>)
    returns (steps: seq<CallStep>, s': State)
    requires k < |s.calls| && Takes(domain, s, k, steps0, Meanwhile(s, k, db, Claimed(stRef, jti)))
    ensures Takes(domain, s, k, steps, s')
    ensures s' == if fails || stRef !in db.links then Meanwhile(s, k, db, Missing(stRef, jti))
                  else Answered(s, k, db, stRef, jti, Answer(db.links[stRef]))
  {
    var x := Meanwhile(s, k, db, Claimed(stRef, jti));
    Goes(domain, s, k, db, Claimed(stRef, jti), Look(fails));
    ThenTakes(domain, s, k, steps0, x, Look(fails));
    steps, s' := steps0 + [Look(fails)], Do(domain, x, Call(k, Look(fails)));
    assert s.grants + [] == s.grants;
    hide Takes;
  }

  /** From no link to a user, or to none. */
  lemma UserSteps(domain: string, s: State, k: nat, db: Tables, stRef: string, jti: string, uid: nat, id: Option<nat>, f: Faults,
                  steps0: seq<CallStep>)
    returns (steps: seq<CallStep>, s': State)
    requires k < |s.calls| && AcceptedRef(stRef) && uid !in db.users
    requires Takes(domain, s, k, steps0, Meanwhile(s, k, db, Missing(stRef, jti)))
    requires Obtains(db.users, UsersAfter(db.users, uid, EmailFor(stRef, domain), stRef, f), id, uid, EmailFor(stRef, domain), stRef, f)
    ensures Takes(domain, s, k, steps, s')
    ensures var db' := db.(users := UsersAfter(db.users, uid, EmailFor(stRef, domain), stRef, f));
      s' == Meanwhile(s, k, db', if id.Some? then Have(stRef, jti, id.value) else Idle)
  {
    var x := Meanwhile(s, k, db, Missing(stRef, jti));
    var t := Create(uid, f.createApplied, f.createAnswered);
    hide AcceptedRef, EmailFor, Takes;
    Goes(domain, s, k, db, Missing(stRef, jti), t);
    ThenTakes(domain, s, k, steps0, x, t);
    steps, s' := steps0 + [t], Do(domain, x, Call(k, t));
    assert s.grants + [] == s.grants;
    var db' := db.(users := UsersAfter(db.users, uid, EmailFor(stRef, domain), stRef, f));
    if !(f.createApplied && f.createAnswered && EmailFree(db.users, EmailFor(stRef, domain))) {
      assert s' == Meanwhile(s, k, db', Taken(stRef, jti));
      var u := if id.Some? then Find(id.value) else FindNone(f.findFails);
      Goes(domain, s, k, db', Taken(stRef, jti), u);
      ThenTakes(domain, s, k, steps, s', u);
      steps, s' := steps + [u], Do(domain, s', Call(k, u));
    }
  }

  /** From a user to the answer. */
  lemma LinkSteps(domain: string, s: State, k: nat, db: Tables, stRef: string, jti: string, id: nat, f: Faults, steps0: seq<CallStep>)
    returns (steps: seq<CallStep>, s': State)
    requires k < |s.calls| && Takes(domain, s, k, steps0, Meanwhile(s, k, db, Have(stRef, jti, id)))
    ensures Takes(domain, s, k, steps, s')
    ensures var db' := if f.linkApplied then db.(links := Upserted(db.links, stRef, id)) else db;
      s' == Answered(s, k, db', stRef, jti, Selected(db'.links, stRef, f.selectFails))
  {
    hide Takes, Upserted;
    var db' := if f.linkApplied then db.(links := Upserted(db.links, stRef, id)) else db;
    var x, y := Meanwhile(s, k, db, Have(stRef, jti, id)), Meanwhile(s, k, db', Linked(stRef, jti));
    assert s.grants + [] == s.grants;
    Goes(domain, s, k, db, Have(stRef, jti, id), Upsert(f.linkApplied));
    ThenTakes(domain, s, k, steps0, x, Upsert(f.linkApplied));
    steps := steps0 + [Upsert(f.linkApplied)];
    Goes(domain, s, k, db', Linked(stRef, jti), Select(f.selectFails));
    ThenTakes(domain, s, k, steps, y, Select(f.selectFails));
    steps, s' := steps + [Select(f.selectFails)], Do(domain, y, Call(k, Select(f.selectFails)));
  }

  /** An uninterrupted call of the program is a sequence of steps of the system, with the same tables and the same answer in the end. */
  lemma ProgramTakesSteps(
    domain: string, s: State, k: nat, t': Tables, response: Response, stRef: string, jti: string, uid: nat, f: Faults)
    returns (steps: seq<CallStep>)
    requires k < |s.calls| && s.calls[k].Idle? && AcceptedRef(stRef) && uid !in s.db.users
    requires Serves(s.db, t', response, domain, stRef, jti, uid, f)
    ensures Takes(domain, s, k, steps, Answered(s, k, t', stRef, jti, response))
  {
    var t := s.db;
    hide AcceptedRef, EmailFor, EmailFree, Upserted, Takes, Adoptable, UsersAfter;
    var m: State;
    steps, m := ClaimSteps(domain, s, k, stRef, jti, f);
    assert s.grants + [] == s.grants && s.calls[k := Idle] == s.calls;
    if !(jti in t.used || !f.claimApplied || !f.claimAnswered) {
      var db := t.(used := t.used + {jti});
      steps, m := LookSteps(domain, s, k, db, stRef, jti, f.lookFails, steps);
      if f.lookFails || stRef !in t.links {
        var email := EmailFor(stRef, domain);
        var users := UsersAfter(t.users, uid, email, stRef, f);
        if t'.links == t.links && response == Failed && Obtains(t.users, users, None, uid, email, stRef, f) {
          steps, m := UserSteps(domain, s, k, db, stRef, jti, uid, None, f, steps);
        } else {
          var id :| Obtains(t.users, users, Some(id), uid, email, stRef, f)
            && t'.links == (if f.linkApplied then Upserted(t.links, stRef, id) else t.links)
            && response == Selected(t'.links, stRef, f.selectFails);
          steps, m := UserSteps(domain, s, k, db, stRef, jti, uid, Some(id), f, steps);
          steps, m := LinkSteps(domain, s, k, db.(users := users), stRef, jti, id, f, steps);
        }
      }
    }
    assert m == Answered(s, k, t', stRef, jti, response);
  }
}

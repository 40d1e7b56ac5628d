/**
 Concurrent provisioning: any number of calls, each step of each call atomic, any
 call stopping anywhere, other people signing up, links being disabled and enabled.
 All granted answers for one handle name one user, and two handles never share one.
 */
module ProvisionProtocol {
  import opened Basics
  import opened Base64Url
  import opened ProvisionTicket
  import opened ProvisionStore

  datatype Phase =
    | Idle
    | Verified(stRef: string, jti: string)
    | Claimed(stRef: string, jti: string)
    | Missing(stRef: string, jti: string)            // no link seen
    | Taken(stRef: string, jti: string)              // no user created
    | Have(stRef: string, jti: string, uid: nat)
    | Linked(stRef: string, jti: string)

  datatype Grant = Grant(stRef: string, jti: string, uid: nat)

  datatype State = State(db: Tables, calls: seq<Phase>, grants: seq<Grant>)

  datatype CallStep =
    | Receive(stRef: string, jti: string)
    | Claim(applied: bool, answered: bool)
    | Look(fails: bool)
    | Create(uid: nat, applied: bool, answered: bool)
    | Find(uid: nat)
    | FindNone(fails: bool)
    | Upsert(applied: bool)
    | Select(fails: bool)
    | Stop

  datatype Step =
    | Call(k: nat, step: CallStep)
    | SignUp(uid: nat, email: string)
    | SetActive(stRef: string, active: bool)

  ghost predicate CanCall(domain: string, s: State, p: Phase, t: CallStep) {
    match t
    case Receive(stRef, _) => p.Idle? && AcceptedRef(stRef)
    case Claim(_, _) => p.Verified?
    case Look(_) => p.Claimed?
    case Create(uid, _, _) => p.Missing? && AcceptedRef(p.stRef) && uid !in s.db.users
    case Find(uid) => p.Taken? && AcceptedRef(p.stRef) && Adoptable(s.db.users, uid, EmailFor(p.stRef, domain), p.stRef)
    case FindNone(fails) =>
      p.Taken? && AcceptedRef(p.stRef) && (fails || forall uid :: !Adoptable(s.db.users, uid, EmailFor(p.stRef, domain), p.stRef))
    case Upsert(_) => p.Have?
    case Select(_) => p.Linked?
    case Stop => true
  }

  /** Tables, phase and grants after a call's step. */
  ghost function DoCall(domain: string, s: State, p: Phase, t: CallStep): (Tables, Phase, seq<Grant>)
    requires CanCall(domain, s, p, t)
  {
    var db := s.db;
    match t
    case Receive(stRef, jti) => (db, Verified(stRef, jti), [])
    case Claim(applied, answered) =>
      if p.jti in db.used || !applied then (db, Idle, [])
      else (db.(used := db.used + {p.jti}), if answered then Claimed(p.stRef, p.jti) else Idle, [])
    case Look(fails) =>
      if fails || p.stRef !in db.links then (db, Missing(p.stRef, p.jti), [])
      else (db, Idle, GrantsOf(p.stRef, p.jti, Answer(db.links[p.stRef])))
    case Create(uid, applied, answered) =>
      var email := EmailFor(p.stRef, domain);
      var free := EmailFree(db.users, email);
      (if applied then db.(users := Created(db.users, uid, email, p.stRef)) else db,
       if applied && answered && free then Have(p.stRef, p.jti, uid) else Taken(p.stRef, p.jti), [])
    case Find(uid) => (db, Have(p.stRef, p.jti, uid), [])
    case FindNone(_) => (db, Idle, [])
    case Upsert(applied) =>
      (if applied then db.(links := Upserted(db.links, p.stRef, p.uid)) else db, Linked(p.stRef, p.jti), [])
    case Select(fails) => (db, Idle, GrantsOf(p.stRef, p.jti, Selected(db.links, p.stRef, fails)))
    case Stop => (db, Idle, [])
  }

  function GrantsOf(stRef: string, jti: string, r: Response): seq<Grant> {
    if r.Granted? then [Grant(stRef, jti, r.uid)] else []
  }

  ghost predicate Can(domain: string, s: State, t: Step) {
    match t
    case Call(k, step) => k < |s.calls| && CanCall(domain, s, s.calls[k], step)
    case SignUp(uid, email) => uid !in s.db.users && EmailFree(s.db.users, email)
    case SetActive(stRef, _) => stRef in s.db.links
  }

  ghost function Do(domain: string, s: State, t: Step): State
    requires Can(domain, s, t)
  {
    match t
    case Call(k, step) =>
      var (db, p, grants) := DoCall(domain, s, s.calls[k], step);
      State(db, s.calls[k := p], s.grants + grants)
    case SignUp(uid, email) => s.(db := s.db.(users := s.db.users[uid := User(email, None)]))
    case SetActive(stRef, active) => s.(db := s.db.(links := s.db.links[stRef := s.db.links[stRef].(active := active)]))
  }

  ghost predicate Init(s: State) {
    s.db == Tables({}, map[], map[]) && s.grants == [] && forall k :: 0 <= k < |s.calls| ==> s.calls[k].Idle?
  }

  datatype Run = Run(states: seq<State>, steps: seq<Step>)

  ghost predicate IsRun(domain: string, r: Run) {
    && |r.states| == |r.steps| + 1 && Init(r.states[0])
    && forall i :: 0 <= i < |r.steps| ==> Can(domain, r.states[i], r.steps[i]) && r.states[i + 1] == Do(domain, r.states[i], r.steps[i])
  }

  // ── Users ───────────────────────────────────────────────────────────────

  /** A shadow user has its handle's email, and no two users share one. */
  ghost predicate UsersFit(domain: string, users: map<nat, User>) {
    && (forall u :: u in users && users[u].stRef.Some? ==>
          AcceptedRef(users[u].stRef.value) && users[u].email == EmailFor(users[u].stRef.value, domain))
    && (forall u, v :: u in users && v in users && u != v ==> Lowered(users[u].email) != Lowered(users[v].email))
  }

  ghost predicate Shadow(users: map<nat, User>, uid: nat, stRef: string) {
    uid in users && users[uid].stRef == Some(stRef)
  }

  ghost predicate LinksFit(db: Tables) {
    forall st :: st in db.links ==> Shadow(db.users, db.links[st].uid, st)
  }

  ghost predicate CallFits(db: Tables, p: Phase) {
    && (!p.Idle? ==> AcceptedRef(p.stRef))
    && (p.Have? ==> Shadow(db.users, p.uid, p.stRef))
  }

  ghost predicate GrantFits(links: map<string, Link>, g: Grant) {
    g.stRef in links && links[g.stRef].uid == g.uid
  }

  ghost predicate Inv(domain: string, s: State) {
    && UsersFit(domain, s.db.users) && LinksFit(s.db)
    && (forall k :: 0 <= k < |s.calls| ==> CallFits(s.db, s.calls[k]))
    && (forall k :: 0 <= k < |s.grants| ==> GrantFits(s.db.links, s.grants[k]))
  }

  // ── What a step does to the tables ──────────────────────────────────────

  /** Users and links are never removed; a user never changes, a link never names another user. */
  ghost predicate Grows(a: Tables, b: Tables) {
    && (forall u :: u in a.users ==> u in b.users && b.users[u] == a.users[u])
    && (forall st :: st in a.links ==> st in b.links && b.links[st].uid == a.links[st].uid)
    && a.used <= b.used
  }

  lemma TablesGrow(domain: string, s: State, t: Step)
    requires Can(domain, s, t)
    ensures Grows(s.db, Do(domain, s, t).db)
  {
    hide EmailFree, AcceptedRef, EmailFor, Lowered;
  }

  lemma UsersFitKept(domain: string, s: State, t: Step)
    requires Can(domain, s, t) && UsersFit(domain, s.db.users)
    ensures UsersFit(domain, Do(domain, s, t).db.users)
  {
    hide AcceptedRef, EmailFor, Lowered;
  }

  lemma CallKeepsFit(domain: string, s: State, p: Phase, t: CallStep)
    requires CanCall(domain, s, p, t) && CallFits(s.db, p) && LinksFit(s.db)
    ensures CallFits(DoCall(domain, s, p, t).0, DoCall(domain, s, p, t).1)
    ensures LinksFit(DoCall(domain, s, p, t).0)
    ensures forall k :: 0 <= k < |DoCall(domain, s, p, t).2| ==> GrantFits(DoCall(domain, s, p, t).0.links, DoCall(domain, s, p, t).2[k])
  {
    hide AcceptedRef, EmailFor, Lowered, UidFree;
  }

  lemma FitsLater(a: Tables, b: Tables, p: Phase)
    requires Grows(a, b) && CallFits(a, p)
    ensures CallFits(b, p)
  {}

  lemma InvKept(domain: string, s: State, t: Step)
    requires Can(domain, s, t) && Inv(domain, s)
    ensures Inv(domain, Do(domain, s, t))
  {
    TablesGrow(domain, s, t);
    UsersFitKept(domain, s, t);
    if t.Call? {
      CallKeepsFit(domain, s, s.calls[t.k], t.step);
    }
    hide AcceptedRef, EmailFor, DoCall, UsersFit, CallFits, EmailFree;
    var s' := Do(domain, s, t);
    forall k | 0 <= k < |s'.calls|
      ensures CallFits(s'.db, s'.calls[k])
    {
      if !(t.Call? && t.k == k) {
        FitsLater(s.db, s'.db, s.calls[k]);
      }
    }
  }

  lemma {:induction false} InvAlways(domain: string, r: Run, n: nat)
    requires IsRun(domain, r) && n < |r.states|
    ensures Inv(domain, r.states[n])
  {
    if n == 0 {
    } else {
      InvAlways(domain, r, n - 1);
      InvKept(domain, r.states[n - 1], r.steps[n - 1]);
    }
  }

  // ── Results ─────────────────────────────────────────────────────────────

  /** Granted answers name the same user exactly when they are for the same handle. */
  lemma OneUserPerHandle(domain: string, r: Run, n: nat, j: nat, k: nat)
    requires IsRun(domain, r) && n < |r.states| && j < |r.states[n].grants| && k < |r.states[n].grants|
    ensures r.states[n].grants[j].stRef == r.states[n].grants[k].stRef <==> r.states[n].grants[j].uid == r.states[n].grants[k].uid
  {
    InvAlways(domain, r, n);
    var s := r.states[n];
    assert GrantFits(s.db.links, s.grants[j]) && GrantFits(s.db.links, s.grants[k]);
    hide IsRun, UsersFit, CallFits;
  }

  /** The UNIQUE constraint on linked users never refuses a link. */
  lemma LinkNeverConflicts(domain: string, r: Run, n: nat, k: nat)
    requires IsRun(domain, r) && n < |r.states| && k < |r.states[n].calls| && r.states[n].calls[k].Have?
    requires r.states[n].calls[k].stRef !in r.states[n].db.links
    ensures UidFree(r.states[n].db.links, r.states[n].calls[k].uid)
  {
    InvAlways(domain, r, n);
    var s := r.states[n];
    assert CallFits(s.db, s.calls[k]);
    hide IsRun, UsersFit;
  }

  /** Nobody else has signed up with the handle's email. */
  ghost predicate NotSquatted(domain: string, users: map<nat, User>, stRef: string)
    requires AcceptedRef(stRef)
  {
    forall u :: u in users && users[u].stRef.None? ==> Lowered(users[u].email) != Lowered(EmailFor(stRef, domain))
  }

  /** Whoever holds an accepted handle's email is nobody but that handle's own shadow user. */
  lemma EmailHolder(domain: string, users: map<nat, User>, stRef: string)
    requires UsersFit(domain, users) && AcceptedRef(stRef) && NotSquatted(domain, users, stRef)
    ensures EmailFree(users, EmailFor(stRef, domain)) || exists u :: Adoptable(users, u, EmailFor(stRef, domain), stRef)
  {
    var email := EmailFor(stRef, domain);
    if u :| u in users && Lowered(users[u].email) == Lowered(email) {
      var other := users[u].stRef.value;
      LoweredTwice("st-" + Hex(B64urlToBytes(stRef).value) + "@" + domain);
      LoweredTwice("st-" + Hex(B64urlToBytes(other).value) + "@" + domain);
      EmailIsInjective(other, stRef, domain);
      assert Adoptable(users, u, email, stRef);
    }
  }

  lemma LoweredTwice(s: string)
    ensures Lowered(Lowered(s)) == Lowered(s)
  {}

  /**
   No accepted handle is locked out: in any state of any run, a call with a new
   ticket that meets no faults is granted a user, or told that the link is disabled.
   */
  lemma NobodyIsLockedOut(domain: string, r: Run, n: nat, t': Tables, response: Response, stRef: string, jti: string, uid: nat)
    requires IsRun(domain, r) && n < |r.states| && AcceptedRef(stRef) && NotSquatted(domain, r.states[n].db.users, stRef)
    requires jti !in r.states[n].db.used && uid !in r.states[n].db.users
    requires Serves(r.states[n].db, t', response, domain, stRef, jti, uid, NONE)
    ensures stRef in t'.links
    ensures response == if t'.links[stRef].active then Granted(t'.links[stRef].uid) else Disabled
    ensures response.Disabled? ==> stRef in r.states[n].db.links
  {
    InvAlways(domain, r, n);
    var db := r.states[n].db;
    if stRef !in db.links {
      EmailHolder(domain, db.users, stRef);
      hide IsRun, EmailFor, AcceptedRef, EmailFree, NotSquatted, UsersFit, CallFits;
      var email := EmailFor(stRef, domain);
      assert forall id :: Adoptable(t'.users, id, email, stRef) ==> Shadow(t'.users, id, stRef);
      assert !Obtains(db.users, t'.users, None, uid, email, stRef, NONE);
      var id :| Obtains(db.users, t'.users, Some(id), uid, email, stRef, NONE) && t'.links == Upserted(db.links, stRef, id);
      assert UidFree(db.links, id) by {
        assert forall st :: st in db.links ==> Shadow(db.users, db.links[st].uid, st);
      }
    }
  }

  // ── Tickets ─────────────────────────────────────────────────────────────

  predicate Spends(p: Phase) {
    p.Claimed? || p.Missing? || p.Taken? || p.Have? || p.Linked?
  }

  ghost predicate SpentOnce(s: State) {
    && (forall k :: 0 <= k < |s.calls| && Spends(s.calls[k]) ==> s.calls[k].jti in s.db.used)
    && (forall j, k :: 0 <= j < k < |s.calls| && Spends(s.calls[j]) && Spends(s.calls[k]) ==> s.calls[j].jti != s.calls[k].jti)
    && (forall g :: 0 <= g < |s.grants| ==> s.grants[g].jti in s.db.used)
    && (forall k, g :: 0 <= k < |s.calls| && Spends(s.calls[k]) && 0 <= g < |s.grants| ==> s.calls[k].jti != s.grants[g].jti)
    && (forall f, g :: 0 <= f < g < |s.grants| ==> s.grants[f].jti != s.grants[g].jti)
  }

  lemma CallSpends(domain: string, s: State, p: Phase, t: CallStep)
    requires CanCall(domain, s, p, t)
    ensures var (db, q, grants) := DoCall(domain, s, p, t);
      && (Spends(q) ==> (Spends(p) && q.jti == p.jti) || (p.Verified? && q.jti == p.jti && p.jti !in s.db.used))
      && (Spends(q) ==> grants == [] && (p.Verified? ==> q.jti in db.used))
      && |grants| <= 1 && (|grants| == 1 ==> Spends(p) && grants[0].jti == p.jti && q.Idle?)
  {
    hide AcceptedRef, EmailFor, EmailFree, UidFree;
  }

  lemma SpentOnceKept(domain: string, s: State, t: Step)
    requires Can(domain, s, t) && SpentOnce(s)
    ensures SpentOnce(Do(domain, s, t))
  {
    TablesGrow(domain, s, t);
    if t.Call? {
      CallSpends(domain, s, s.calls[t.k], t.step);
    }
    hide DoCall, CanCall, EmailFree;
  }

  lemma {:induction false} SpentOnceAlways(domain: string, r: Run, n: nat)
    requires IsRun(domain, r) && n < |r.states|
    ensures SpentOnce(r.states[n])
  {
    if n == 0 {
    } else {
      SpentOnceAlways(domain, r, n - 1);
      SpentOnceKept(domain, r.states[n - 1], r.steps[n - 1]);
    }
  }

  /** A ticket is granted at most once. */
  lemma OneGrantPerTicket(domain: string, r: Run, n: nat, j: nat, k: nat)
    requires IsRun(domain, r) && n < |r.states| && j < |r.states[n].grants| && k < |r.states[n].grants|
    requires r.states[n].grants[j].jti == r.states[n].grants[k].jti
    ensures j == k
  {
    SpentOnceAlways(domain, r, n);
  }
}

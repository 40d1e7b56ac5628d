/**
 Identity provisioning: the tables it works on, one call as a program, and what a
 call without faults achieves. A uid stands for a fresh identifier the
 authentication service generates.
 */
module ProvisionStore {
  import opened Basics
  import opened Base64Url
  import opened ProvisionTicket

  // ── The synthetic email ─────────────────────────────────────────────────

  function Lowered(s: string): string {
    Mapped(s, Lower)
  }

  function EmailFor(stRef: string, domain: string): string
    requires AcceptedRef(stRef)
  {
    Lowered("st-" + Hex(B64urlToBytes(stRef).value) + "@" + domain)
  }

  lemma HexIsLower(bs: seq<Byte>)
    ensures Lowered(Hex(bs)) == Hex(bs)
  {
    HexAt(bs);
    var h := Hex(bs);
    forall k | 0 <= k < |h|
      ensures Lower(h[k]) == h[k]
    {
      assert k == 2 * (k / 2) || k == 2 * (k / 2) + 1;
    }
  }

  lemma EmailParts(stRef: string, domain: string)
    requires AcceptedRef(stRef)
    ensures EmailFor(stRef, domain) == Lowered("st-") + Hex(B64urlToBytes(stRef).value) + Lowered("@" + domain)
    ensures |B64urlToBytes(stRef).value| == 32 && |Hex(B64urlToBytes(stRef).value)| == 64
  {
    RefBytes(stRef);
    var bs := B64urlToBytes(stRef).value;
    HexIsLower(bs);
    HexAt(bs);
    hide Hex, B64urlToBytes, AcceptedRef, Lower;
    LoweredParts("st-", Hex(bs), "@" + domain);
  }

  lemma RefBytes(stRef: string)
    requires AcceptedRef(stRef)
    ensures |B64urlToBytes(stRef).value| == 32
  {
    DecodingIs(stRef);
    hide B64urlToBytes, Unpack, Canonical;
    UnpackLength(UrlValues(stRef));
  }

  lemma LoweredParts(a: string, b: string, c: string)
    ensures Lowered(a + b + c) == Lowered(a) + Lowered(b) + Lowered(c)
  {}

  /** Two accepted handles never share an email, so none can lock another out. */
  lemma EmailIsInjective(s: string, t: string, domain: string)
    requires AcceptedRef(s) && AcceptedRef(t) && EmailFor(s, domain) == EmailFor(t, domain)
    ensures s == t
  {
    EmailParts(s, domain);
    EmailParts(t, domain);
    var a, b := B64urlToBytes(s).value, B64urlToBytes(t).value;
    assert EmailFor(s, domain)[3..67] == Hex(a);
    assert EmailFor(t, domain)[3..67] == Hex(b);
    UnhexHex(a);
    UnhexHex(b);
    hide Hex, EmailFor;
    DecodingIsInjective(s, t);
  }

  // ── Tables ──────────────────────────────────────────────────────────────

  /** stRef: the handle a shadow user was created for; None for anyone else. */
  datatype User = User(email: string, stRef: Option<string>)

  datatype Link = Link(uid: nat, active: bool)

  datatype Tables = Tables(used: set<string>, users: map<nat, User>, links: map<string, Link>)

  /** Emails are unique, letter case aside. */
  ghost predicate EmailFree(users: map<nat, User>, email: string) {
    forall uid :: uid in users ==> Lowered(users[uid].email) != Lowered(email)
  }

  /** The user a lookup by email may adopt: a shadow user of this very handle. */
  predicate Adoptable(users: map<nat, User>, uid: nat, email: string, stRef: string) {
    uid in users && Lowered(users[uid].email) == Lowered(email) && users[uid].stRef == Some(stRef)
  }

  ghost predicate UidFree(links: map<string, Link>, uid: nat) {
    forall st :: st in links ==> links[st].uid != uid
  }

  /** ON CONFLICT (st_ref) DO NOTHING; a UNIQUE conflict on the user is an error that changes nothing. */
  ghost function Upserted(links: map<string, Link>, stRef: string, uid: nat): map<string, Link> {
    if stRef in links || !UidFree(links, uid) then links else links[stRef := Link(uid, true)]
  }

  ghost function Created(users: map<nat, User>, uid: nat, email: string, stRef: string): map<nat, User> {
    if EmailFree(users, email) then users[uid := User(email, Some(stRef))] else users
  }

  // ── One call ────────────────────────────────────────────────────────────

  datatype Response = Granted(uid: nat) | TicketUsed | Disabled | Failed

  /** Which requests reach the database, and which answers come back. */
  datatype Faults = Faults(
    claimApplied: bool, claimAnswered: bool,
    lookFails: bool,
    createApplied: bool, createAnswered: bool,
    findFails: bool,
    linkApplied: bool,
    selectFails: bool
  )

  const NONE := Faults(true, true, false, true, true, false, true, false)

  function Answer(link: Link): Response {
    if link.active then Granted(link.uid) else Disabled
  }

  function Selected(links: map<string, Link>, stRef: string, fails: bool): Response {
    if fails || stRef !in links then Failed else Answer(links[stRef])
  }

  class Directory {
    const domain: string
    var used: set<string>
    var users: map<nat, User>
    var links: map<string, Link>

    constructor (domain: string)
      ensures this.domain == domain && Now() == Tables({}, map[], map[])
    {
      this.domain := domain;
      used, users, links := {}, map[], map[];
    }

    function Now(): Tables
      reads this
    {
      Tables(used, users, links)
    }

    method EmailTaken(email: string) returns (taken: bool)
      ensures taken <==> !EmailFree(users, email)
    {
      var rest := users.Keys;
      taken := false;
      while rest != {}
        invariant rest <= users.Keys
        invariant forall uid :: uid in users && uid !in rest ==> Lowered(users[uid].email) != Lowered(email)
        decreases |rest|
      {
        var uid :| uid in rest;
        if Lowered(users[uid].email) == Lowered(email) {
          return true;
        }
        rest := rest - {uid};
      }
    }

    method CreateUser(uid: nat, email: string, stRef: string, applied: bool, answered: bool) returns (id: Option<nat>)
      requires uid !in users
      modifies this`users
      ensures users == if applied then Created(old(users), uid, email, stRef) else old(users)
      ensures id == if applied && answered && EmailFree(old(users), email) then Some(uid) else None
    {
      id := None;
      if applied {
        var taken := EmailTaken(email);
        if !taken {
          users := users[uid := User(email, Some(stRef))];
          id := if answered then Some(uid) else None;
        }
      }
    }

    method FindByEmail(email: string, stRef: string, fails: bool) returns (id: Option<nat>)
      ensures id.Some? ==> !fails && Adoptable(users, id.value, email, stRef)
      ensures id.None? && !fails ==> forall uid :: !Adoptable(users, uid, email, stRef)
    {
      id := None;
      if fails {
        return;
      }
      var found := set uid | uid in users && Adoptable(users, uid, email, stRef);
      if found != {} {
        var uid :| uid in found;
        id := Some(uid);
      } else {
        forall uid
          ensures !Adoptable(users, uid, email, stRef)
        {
          assert uid !in found;
        }
      }
    }

    method UpsertLink(stRef: string, uid: nat, applied: bool)
      modifies this`links
      ensures links == if applied then Upserted(old(links), stRef, uid) else old(links)
    {
      if applied {
        var taken := set st | st in links && links[st].uid == uid;
        if stRef !in links && taken == {} {
          forall st | st in links
            ensures links[st].uid != uid
          {
            assert st !in taken;
          }
          links := links[stRef := Link(uid, true)];
        } else if stRef !in links {
          var st :| st in taken;
          assert !UidFree(links, uid);
        }
      }
    }

    /** The user for a handle: created now, or adopted from an earlier, interrupted call. */
    method ObtainUser(stRef: string, uid: nat, f: Faults) returns (id: Option<nat>)
      requires AcceptedRef(stRef) && uid !in users
      modifies this`users
      ensures users == UsersAfter(old(users), uid, EmailFor(stRef, domain), stRef, f)
      ensures Obtains(old(users), users, id, uid, EmailFor(stRef, domain), stRef, f)
    {
      var email := EmailFor(stRef, domain);
      id := CreateUser(uid, email, stRef, f.createApplied, f.createAnswered);
      if id.None? {
        id := FindByEmail(email, stRef, f.findFails);
      }
    }

    method LinkUser(stRef: string, id: nat, f: Faults) returns (response: Response)
      modifies this`links
      ensures links == if f.linkApplied then Upserted(old(links), stRef, id) else old(links)
      ensures response == Selected(links, stRef, f.selectFails)
    {
      UpsertLink(stRef, id, f.linkApplied);
      response := if !f.selectFails && stRef in links then Answer(links[stRef]) else Failed;
    }

    /** One verified ticket; uid is the identifier a new user would get. */
    method Provision(stRef: string, jti: string, uid: nat, f: Faults) returns (response: Response)
      requires AcceptedRef(stRef) && uid !in users
      modifies this
      ensures Serves(old(Now()), Now(), response, domain, stRef, jti, uid, f)
    {
      hide EmailFor, Upserted, Created, Obtains, AcceptedRef;
      if jti in used || !f.claimApplied {
        return TicketUsed;
      }
      used := used + {jti};
      if !f.claimAnswered {
        return TicketUsed;
      }
      if !f.lookFails && stRef in links {
        return Answer(links[stRef]);
      }
      var id := ObtainUser(stRef, uid, f);
      if id.None? {
        return Failed;
      }
      response := LinkUser(stRef, id.value, f);
      assert Obtains(old(users), users, Some(id.value), uid, EmailFor(stRef, domain), stRef, f);
    }
  }

  ghost function UsersAfter(users: map<nat, User>, uid: nat, email: string, stRef: string, f: Faults): map<nat, User> {
    if f.createApplied then Created(users, uid, email, stRef) else users
  }

  /** The user a call goes on with, if any: the one it created, or one it may adopt. */
  ghost predicate Obtains(users: map<nat, User>, users': map<nat, User>, id: Option<nat>, uid: nat, email: string, stRef: string, f: Faults) {
    if f.createApplied && f.createAnswered && EmailFree(users, email) then id == Some(uid)
    else match id
      case Some(i) => !f.findFails && Adoptable(users', i, email, stRef)
      case None => f.findFails || forall i :: !Adoptable(users', i, email, stRef)
  }

  /** Before and after of a call. */
  ghost predicate Serves(t: Tables, t': Tables, response: Response, domain: string, stRef: string, jti: string, uid: nat, f: Faults)
    requires AcceptedRef(stRef)
  {
    if jti in t.used || !f.claimApplied then t' == t && response == TicketUsed
    else
      && t'.used == t.used + {jti}
      && if !f.claimAnswered then t'.users == t.users && t'.links == t.links && response == TicketUsed
         else if !f.lookFails && stRef in t.links then t'.users == t.users && t'.links == t.links && response == Answer(t.links[stRef])
         else
           && t'.users == UsersAfter(t.users, uid, EmailFor(stRef, domain), stRef, f)
           && ((t'.links == t.links && response == Failed
                && Obtains(t.users, t'.users, None, uid, EmailFor(stRef, domain), stRef, f))
               || (exists id ::
                     && Obtains(t.users, t'.users, Some(id), uid, EmailFor(stRef, domain), stRef, f)
                     && t'.links == (if f.linkApplied then Upserted(t.links, stRef, id) else t.links)
                     && response == Selected(t'.links, stRef, f.selectFails)))
  }

  // ── What a call comes to ────────────────────────────────────────────────

  /** A user created for this handle, under its email whatever the letter case. */
  predicate ShadowOf(u: User, email: string, stRef: string) {
    u.stRef.Some? && u.stRef.value == stRef && Lowered(u.email) == Lowered(email)
  }

  /** Nobody has the email. */
  ghost predicate Unused(users: map<nat, User>, email: string) {
    !exists u :: u in users && Lowered(users[u].email) == Lowered(email)
  }

  /** The ticket is taken exactly if it was new and its claim went through; a claim without an answer ends the call all the same. */
  lemma ClaimComesTo(t: Tables, t': Tables, response: Response, domain: string, stRef: string, jti: string, uid: nat, f: Faults)
    requires AcceptedRef(stRef) && Serves(t, t', response, domain, stRef, jti, uid, f)
    ensures t'.used == if f.claimApplied then t.used + {jti} else t.used
    ensures response == TicketUsed <==> jti in t.used || !f.claimApplied || !f.claimAnswered
    ensures response == TicketUsed ==> t'.users == t.users && t'.links == t.links
  {
    hide AcceptedRef, EmailFor, EmailFree, UidFree, Adoptable;
    assert jti in t.used ==> t.used + {jti} == t.used;
  }

  /** A linked handle that is found gets its user, or is told the link is disabled; nothing is written. */
  lemma LinkedComesTo(t: Tables, t': Tables, response: Response, domain: string, stRef: string, jti: string, uid: nat, f: Faults)
    requires AcceptedRef(stRef) && Serves(t, t', response, domain, stRef, jti, uid, f) && response != TicketUsed
    requires !f.lookFails && stRef in t.links
    ensures response == if t.links[stRef].active then Granted(t.links[stRef].uid) else Disabled
    ensures t'.users == t.users && t'.links == t.links
  {
    hide AcceptedRef, EmailFor, EmailFree, UidFree, Adoptable;
  }

  /**
   Any other handle gets a new user exactly if the request arrives and nobody has its email.
   With a user to link, it gets a link exactly if that request arrives and neither the handle
   nor the user is linked; the answer is what is then read.
   */
  lemma NewComesTo(t: Tables, t': Tables, response: Response, domain: string, stRef: string, jti: string, uid: nat, f: Faults)
    returns (id: Option<nat>)
    requires AcceptedRef(stRef) && Serves(t, t', response, domain, stRef, jti, uid, f) && response != TicketUsed
    requires f.lookFails || stRef !in t.links
    ensures t'.users == if f.createApplied && Unused(t.users, EmailFor(stRef, domain))
                        then t.users[uid := User(EmailFor(stRef, domain), Some(stRef))] else t.users
    ensures id.None? ==> NobodyThere(t, t', EmailFor(stRef, domain), stRef, f) && t'.links == t.links && response == Failed
    ensures id.Some? ==> id.value in t'.users && ShadowOf(t'.users[id.value], EmailFor(stRef, domain), stRef)
    ensures id.Some? && f.findFails ==> id.value == uid && f.createApplied && f.createAnswered && Unused(t.users, EmailFor(stRef, domain))
    ensures id.Some? ==>
      t'.links == if f.linkApplied && stRef !in t.links && (forall st :: st in t.links ==> t.links[st].uid != id.value)
                  then t.links[stRef := Link(id.value, true)] else t.links
    ensures id.Some? ==>
      response == if f.selectFails || stRef !in t'.links then Failed
                  else if t'.links[stRef].active then Granted(t'.links[stRef].uid) else Disabled
  {
    hide AcceptedRef, EmailFor, Lowered;
    var email := EmailFor(stRef, domain);
    assert Unused(t.users, email) <==> EmailFree(t.users, email);
    id := None;
    if !(t'.links == t.links && response == Failed && Obtains(t.users, t'.users, None, uid, email, stRef, f)) {
      var i :| Obtains(t.users, t'.users, Some(i), uid, email, stRef, f)
        && t'.links == (if f.linkApplied then Upserted(t.links, stRef, i) else t.links)
        && response == Selected(t'.links, stRef, f.selectFails);
      id := Some(i);
    } else {
      forall u | u in t'.users && !f.findFails
        ensures !ShadowOf(t'.users[u], email, stRef)
      {
        assert !Adoptable(t'.users, u, email, stRef);
      }
    }
  }

  /** No answer that names a new user, and no user the lookup could adopt. */
  ghost predicate NobodyThere(t: Tables, t': Tables, email: string, stRef: string, f: Faults) {
    && !(f.createApplied && f.createAnswered && Unused(t.users, email))
    && (f.findFails || forall u :: u in t'.users ==> !ShadowOf(t'.users[u], email, stRef))
  }
}

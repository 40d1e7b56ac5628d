/**
 The signed ticket between the two systems. HMAC-SHA256 under the shared key is a
 parameter, verified by equality; JSON stringify and parse are parameters too,
 assumed to be inverse where a lemma says so.
 */
module ProvisionTicket {
  import opened Basics
  import opened Base64Url

  datatype Action =
    | CreateBot | ConnectCredential | ProvisionUser | ReadStatus | PauseBot
    | ArmBot | ValidateCredential | ReadProposals | ApproveOrder | RejectOrder

  datatype Env = Testnet | Mainnet

  /** A parsed ticket; a field that is missing or not of its type is None. */
  datatype Payload = Payload(
    user: Option<string>,
    action: Option<Action>,
    jti: Option<string>,
    exp: Option<real>,
    bot: Option<string>,
    exchange: Option<string>,
    env: Option<Env>,
    stRef: Option<string>
  )

  const MAX_TTL: real := 300.0

  /** The platform functions a ticket is made with. */
  datatype Platform = Platform(
    mac: string -> seq<Byte>,
    stringify: Payload -> seq<Byte>,
    parse: seq<Byte> -> Option<Payload>
  )

  // ── Signing ─────────────────────────────────────────────────────────────

  function Body(m: Platform, p: Payload): string {
    BytesToB64url(m.stringify(p))
  }

  function SignTicket(m: Platform, p: Payload): string {
    Body(m, p) + "." + Hex(m.mac(Body(m, p)))
  }

  // ── Verifying ───────────────────────────────────────────────────────────

  /** Position of the first dot, or -1. */
  function DotAt(s: string): (i: int)
    ensures -1 <= i < |s|
    ensures i >= 0 ==> s[i] == '.' && '.' !in s[..i]
    ensures i == -1 ==> '.' !in s
  {
    if s == "" then -1
    else if s[0] == '.' then 0
    else if DotAt(s[1..]) == -1 then -1
    else 1 + DotAt(s[1..])
  }

  predicate Filled(f: Option<string>) {
    f.Some? && f.value != ""
  }

  /** A handle of 32 bytes, in the one spelling that decodes to them. */
  predicate AcceptedRef(s: string) {
    |s| == 43 && UrlString(s) && Canonical(s)
  }

  predicate Fresh(p: Payload, now: real) {
    p.exp.Some? && p.exp.value >= now && p.exp.value - now <= MAX_TTL
  }

  predicate Bound(p: Payload, expected: Action) {
    p.jti.Some? && |p.jti.value| >= 8 && p.action == Some(expected)
  }

  /** Default-deny checks of the fields the action needs. */
  predicate FieldsFit(p: Payload, expected: Action) {
    if expected == ProvisionUser then p.stRef.Some? && AcceptedRef(p.stRef.value)
    else
      && Filled(p.user)
      && (expected == ConnectCredential ==> Filled(p.bot) && Filled(p.exchange) && p.env.Some?)
      && (expected in {PauseBot, ArmBot, ValidateCredential} ==> Filled(p.bot))
  }

  function VerifyTicket(m: Platform, ticket: string, now: real, expected: Action): Option<Payload> {
    var dot := DotAt(ticket);
    if dot <= 0 then None
    else
      var body, sigHex := ticket[..dot], ticket[dot + 1..];
      if |sigHex| != 64 || !HexString(sigHex) then None
      else if m.mac(body) != Unhex(sigHex) then None
      else
        match B64urlToBytes(body)
        case None => None
        case Some(bytes) =>
          match m.parse(bytes)
          case None => None
          case Some(p) =>
            if !Fresh(p, now) then None
            else if !Bound(p, expected) then None
            else if !FieldsFit(p, expected) then None
            else Some(p)
  }

  // ── What a ticket carries ───────────────────────────────────────────────

  /** What the platform must do for one payload: parsing undoes stringifying, the text is not empty, its MAC has 32 bytes. */
  predicate Carries(m: Platform, p: Payload) {
    m.parse(m.stringify(p)) == Some(p) && m.stringify(p) != [] && |m.mac(Body(m, p))| == 32
  }

  lemma {:induction false} FirstDot(body: string, rest: string)
    requires '.' !in body
    ensures DotAt(body + "." + rest) == |body|
  {
    var s := body + "." + rest;
    if body == "" {
      assert s[0] == '.';
    } else {
      assert s[0] == body[0] && body[0] in body;
      assert s[1..] == body[1..] + "." + rest;
      FirstDot(body[1..], rest);
    }
  }

  lemma EmptyDecodes()
    ensures B64urlToBytes("") == Some([])
  {
    DecodingIs("");
    assert UrlValues("") == [];
  }

  lemma EncodedNotEmpty(bs: seq<Byte>)
    requires bs != []
    ensures BytesToB64url(bs) != "" && '.' !in BytesToB64url(bs)
  {
    DecodeEncode(bs);
    EmptyDecodes();
    hide BytesToB64url, B64urlToBytes;
  }

  lemma TicketParts(m: Platform, p: Payload)
    requires Carries(m, p)
    ensures var t := SignTicket(m, p); var body := Body(m, p);
      && DotAt(t) == |body| > 0 && t[..|body|] == body && t[|body| + 1..] == Hex(m.mac(body))
  {
    hide BytesToB64url;
    var body := Body(m, p);
    EncodedNotEmpty(m.stringify(p));
    FirstDot(body, Hex(m.mac(body)));
    assert SignTicket(m, p)[..|body|] == body;
  }

  /** Verification returns exactly the signed payload, and does so exactly when the payload is fresh, bound to the action and complete. */
  lemma SignThenVerify(m: Platform, p: Payload, now: real, expected: Action)
    requires Carries(m, p)
    ensures VerifyTicket(m, SignTicket(m, p), now, expected) ==
      if Fresh(p, now) && Bound(p, expected) && FieldsFit(p, expected) then Some(p) else None
  {
    TicketParts(m, p);
    UnhexHex(m.mac(Body(m, p)));
    HexAt(m.mac(Body(m, p)));
    DecodeEncode(m.stringify(p));
    hide BytesToB64url, B64urlToBytes, Hex, Unhex, DotAt;
  }

  /** The handles accepted are exactly the encodings of 32 bytes. */
  lemma AcceptedRefIff(s: string)
    ensures AcceptedRef(s) <==> exists bs: seq<Byte> :: |bs| == 32 && BytesToB64url(bs) == s
  {
    if UrlString(s) {
      DecodingIs(s);
      if |s| == 43 {
        UnpackLength(UrlValues(s));
      }
    }
    hide Unpack, Pack;
    if AcceptedRef(s) {
      var bs := B64urlToBytes(s).value;
      assert |bs| == 32 && BytesToB64url(bs) == s;
    }
    forall bs: seq<Byte> | |bs| == 32 && BytesToB64url(bs) == s
      ensures AcceptedRef(s)
    {
      DecodeEncode(bs);
      EncodedLength(bs);
    }
  }

  lemma EncodedLength(bs: seq<Byte>)
    requires |bs| == 32
    ensures |BytesToB64url(bs)| == 43
  {
    EncodingIs(bs);
    PackLength(bs);
  }

  /** What a verified ticket carries, action by action: nothing an action needs may be missing. */
  lemma VerifiedIsComplete(m: Platform, ticket: string, now: real, expected: Action)
    requires VerifyTicket(m, ticket, now, expected).Some?
    ensures var p := VerifyTicket(m, ticket, now, expected).value;
      && p.exp.Some? && now <= p.exp.value <= now + 300.0
      && p.action == Some(expected) && p.jti.Some? && |p.jti.value| >= 8
      && (if expected == ProvisionUser then p.stRef.Some? && exists bs: seq<Byte> :: |bs| == 32 && BytesToB64url(bs) == p.stRef.value
          else p.user.Some? && p.user.value != "")
      && (expected in {ConnectCredential, PauseBot, ArmBot, ValidateCredential} ==> p.bot.Some? && p.bot.value != "")
      && (expected == ConnectCredential ==> p.exchange.Some? && p.exchange.value != "" && p.env.Some?)
  {
    if expected == ProvisionUser {
      AcceptedRefIff(VerifyTicket(m, ticket, now, expected).value.stRef.value);
    }
    hide BytesToB64url, B64urlToBytes, Unhex, DotAt, AcceptedRef;
  }

  /** And nothing more is asked: a signed payload that carries this verifies. */
  lemma CompleteVerifies(m: Platform, p: Payload, now: real, expected: Action)
    requires Carries(m, p)
    requires p.exp.Some? && now <= p.exp.value <= now + 300.0
    requires p.action == Some(expected) && p.jti.Some? && |p.jti.value| >= 8
    requires
      if expected == ProvisionUser then p.stRef.Some? && exists bs: seq<Byte> :: |bs| == 32 && BytesToB64url(bs) == p.stRef.value
      else p.user.Some? && p.user.value != ""
    requires expected in {ConnectCredential, PauseBot, ArmBot, ValidateCredential} ==> p.bot.Some? && p.bot.value != ""
    requires expected == ConnectCredential ==> p.exchange.Some? && p.exchange.value != "" && p.env.Some?
    ensures VerifyTicket(m, SignTicket(m, p), now, expected) == Some(p)
  {
    SignThenVerify(m, p, now, expected);
    if expected == ProvisionUser {
      AcceptedRefIff(p.stRef.value);
    }
    hide BytesToB64url, SignTicket, VerifyTicket, AcceptedRef, Carries;
  }

  /** A ticket that verifies carries its body's MAC; if that body was signed, it carries the payload signed. */
  lemma VerifiedMeansSigned(m: Platform, ticket: string, now: real, expected: Action, signed: Payload)
    requires VerifyTicket(m, ticket, now, expected).Some?
    ensures var dot := DotAt(ticket); dot > 0 && m.mac(ticket[..dot]) == Unhex(ticket[dot + 1..]) && |ticket| == dot + 65
    ensures Carries(m, signed) && ticket[..DotAt(ticket)] == Body(m, signed) ==>
      VerifyTicket(m, ticket, now, expected) == Some(signed)
  {
    DecodeEncode(m.stringify(signed));
    hide BytesToB64url, B64urlToBytes, Unhex, DotAt;
  }

  /** One ticket serves one action. */
  lemma BoundToOneAction(m: Platform, ticket: string, now: real, later: real, a: Action, b: Action)
    requires VerifyTicket(m, ticket, now, a).Some? && VerifyTicket(m, ticket, later, b).Some?
    ensures a == b && VerifyTicket(m, ticket, now, a) == VerifyTicket(m, ticket, later, b)
    ensures later <= now + MAX_TTL
  {}

  /** What provisioning can rely on. */
  lemma ProvisionTicketHasRef(m: Platform, ticket: string, now: real)
    requires VerifyTicket(m, ticket, now, ProvisionUser).Some?
    ensures var p := VerifyTicket(m, ticket, now, ProvisionUser).value;
      && p.stRef.Some? && AcceptedRef(p.stRef.value) && p.jti.Some?
      && B64urlToBytes(p.stRef.value).Some? && |B64urlToBytes(p.stRef.value).value| == 32
  {
    var s := VerifyTicket(m, ticket, now, ProvisionUser).value.stRef.value;
    DecodingIs(s);
    hide B64urlToBytes, Unpack;
    UnpackLength(UrlValues(s));
  }

  // ── A platform that carries them ────────────────────────────────────────

  /** An expiry on a whole second, or none. */
  predicate WholeSeconds(p: Payload) {
    p.exp.Some? ==> p.exp.value >= 0.0 && p.exp.value == p.exp.value.Floor as real
  }

  /** n ones and a zero. */
  function Tally(n: nat): (bs: seq<Byte>)
    ensures bs != []
  {
    if n == 0 then [0] else [1] + Tally(n - 1)
  }

  function Letters(s: string): (bs: seq<Byte>)
    ensures bs != []
  {
    if s == "" then [0] else [1] + Tally(s[0] as int) + Letters(s[1..])
  }

  function Field(f: Option<string>): (bs: seq<Byte>)
    ensures bs != []
  {
    match f
    case None => [0]
    case Some(s) => [1] + Letters(s)
  }

  function ActionCode(a: Option<Action>): nat {
    match a
    case None => 0
    case Some(CreateBot) => 1
    case Some(ConnectCredential) => 2
    case Some(ProvisionUser) => 3
    case Some(ReadStatus) => 4
    case Some(PauseBot) => 5
    case Some(ArmBot) => 6
    case Some(ValidateCredential) => 7
    case Some(ReadProposals) => 8
    case Some(ApproveOrder) => 9
    case Some(RejectOrder) => 10
  }

  function EnvCode(e: Option<Env>): nat {
    match e
    case None => 0
    case Some(Testnet) => 1
    case Some(Mainnet) => 2
  }

  function ExpCode(e: Option<real>): nat
    requires e.Some? ==> e.value >= 0.0
  {
    if e.None? then 0 else e.value.Floor + 1
  }

  /** The strings of a payload, one after the other. */
  function Strings(p: Payload): seq<Byte> {
    Field(p.user) + (Field(p.jti) + (Field(p.bot) + (Field(p.exchange) + Field(p.stRef))))
  }

  /** A prefix code of payloads. */
  function Text(p: Payload): seq<Byte>
    requires WholeSeconds(p)
  {
    Tally(ActionCode(p.action)) + (Tally(EnvCode(p.env)) + (Tally(ExpCode(p.exp)) + Strings(p)))
  }

  lemma {:induction false} TallyCancels(a: nat, b: nat, x: seq<Byte>, y: seq<Byte>)
    requires Tally(a) + x == Tally(b) + y
    ensures a == b && x == y
  {
    var s, t := Tally(a) + x, Tally(b) + y;
    assert s[0] == Tally(a)[0] && t[0] == Tally(b)[0];
    if a > 0 && b > 0 {
      assert s[1..] == Tally(a - 1) + x && t[1..] == Tally(b - 1) + y;
      TallyCancels(a - 1, b - 1, x, y);
    } else {
      assert a == b;
      assert s[1..] == x && t[1..] == y;
    }
  }

  lemma {:induction false} LettersCancel(a: string, b: string, x: seq<Byte>, y: seq<Byte>)
    requires Letters(a) + x == Letters(b) + y
    ensures a == b && x == y
  {
    var s, t := Letters(a) + x, Letters(b) + y;
    assert s[0] == Letters(a)[0] && t[0] == Letters(b)[0];
    if a != "" && b != "" {
      var restA, restB := Letters(a[1..]) + x, Letters(b[1..]) + y;
      assert s[1..] == Tally(a[0] as int) + restA && t[1..] == Tally(b[0] as int) + restB;
      TallyCancels(a[0] as int, b[0] as int, restA, restB);
      LettersCancel(a[1..], b[1..], x, y);
      assert a == [a[0]] + a[1..] && b == [b[0]] + b[1..];
    } else {
      assert a == b;
      assert s[1..] == x && t[1..] == y;
    }
  }

  lemma FieldOfSome(f: string, x: seq<Byte>)
    ensures Field(Some(f)) + x == [1] + (Letters(f) + x)
  {
    hide Letters;
  }

  lemma FieldCancels(a: Option<string>, b: Option<string>, x: seq<Byte>, y: seq<Byte>)
    requires Field(a) + x == Field(b) + y
    ensures a == b && x == y
  {
    hide Letters;
    var s, t := Field(a) + x, Field(b) + y;
    assert s[0] == Field(a)[0] && t[0] == Field(b)[0];
    if a.Some? {
      FieldOfSome(a.value, x);
      FieldOfSome(b.value, y);
      hide Field;
      assert s[1..] == Letters(a.value) + x && t[1..] == Letters(b.value) + y;
      LettersCancel(a.value, b.value, x, y);
    } else {
      assert s[1..] == x && t[1..] == y;
    }
  }

  lemma CodesTell(p: Payload, q: Payload)
    requires WholeSeconds(p) && WholeSeconds(q)
    ensures ActionCode(p.action) == ActionCode(q.action) ==> p.action == q.action
    ensures EnvCode(p.env) == EnvCode(q.env) ==> p.env == q.env
    ensures ExpCode(p.exp) == ExpCode(q.exp) ==> p.exp == q.exp
  {}

  lemma StringsTell(p: Payload, q: Payload)
    requires Strings(p) == Strings(q)
    ensures p.user == q.user && p.jti == q.jti && p.bot == q.bot && p.exchange == q.exchange && p.stRef == q.stRef
  {
    hide Field;
    var p5, q5 := Field(p.exchange) + Field(p.stRef), Field(q.exchange) + Field(q.stRef);
    var p4, q4 := Field(p.bot) + p5, Field(q.bot) + q5;
    FieldCancels(p.user, q.user, Field(p.jti) + p4, Field(q.jti) + q4);
    FieldCancels(p.jti, q.jti, p4, q4);
    FieldCancels(p.bot, q.bot, p5, q5);
    FieldCancels(p.exchange, q.exchange, Field(p.stRef), Field(q.stRef));
    assert Field(p.stRef) + [] == Field(q.stRef) + [];
    FieldCancels(p.stRef, q.stRef, [], []);
  }

  lemma TextTells(p: Payload, q: Payload)
    requires WholeSeconds(p) && WholeSeconds(q) && Text(p) == Text(q)
    ensures p == q
  {
    hide Tally, Strings, ActionCode, EnvCode, ExpCode;
    var p1, q1 := Tally(ExpCode(p.exp)) + Strings(p), Tally(ExpCode(q.exp)) + Strings(q);
    var p0, q0 := Tally(EnvCode(p.env)) + p1, Tally(EnvCode(q.env)) + q1;
    TallyCancels(ActionCode(p.action), ActionCode(q.action), p0, q0);
    TallyCancels(EnvCode(p.env), EnvCode(q.env), p1, q1);
    TallyCancels(ExpCode(p.exp), ExpCode(q.exp), Strings(p), Strings(q));
    CodesTell(p, q);
    StringsTell(p, q);
  }

  /** The payload a text stands for. */
  ghost function Reading(bs: seq<Byte>): Option<Payload> {
    if exists p: Payload :: WholeSeconds(p) && Text(p) == bs then
      var p: Payload :| WholeSeconds(p) && Text(p) == bs;
      Some(p)
    else None
  }

  ghost function Example(): Platform {
    Platform(s => seq(32, _ => 0), p => if WholeSeconds(p) then Text(p) else [], bs => Reading(bs))
  }

  /** What the lemmas about tickets ask of a platform can be had: one platform carries every payload that expires on a whole second. */
  lemma APlatformCarriesAll() returns (m: Platform)
    ensures forall p :: WholeSeconds(p) ==> Carries(m, p)
  {
    m := Example();
    forall p: Payload | WholeSeconds(p)
      ensures Carries(m, p)
    {
      assert Reading(Text(p)).Some?;
      TextTells(p, Reading(Text(p)).value);
      assert m.stringify(p) == Text(p);
      hide Tally, Strings;
    }
  }
}

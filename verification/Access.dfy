/** Remote access: clients, authorization requests and codes, and tokens, over every run of
registration, consent, exchange, rotation and revocation. Token, code and pair values are opaque
and fresh; the clock is a parameter. */
module Access {
  import opened Options

  /** The shared key of the basic mode, a dynamically registered OAuth client, or a compatibility client. */
  datatype ClientId = BasicId | Registered(n: nat) | CompatId(n: nat)

  datatype ClientKind = OAuth | Compat | Basic

  datatype Client = Client(kind: ClientKind, full: bool, approved: bool, revoked: bool, created: nat)

  datatype TokenKind = AccessKind | RefreshKind | CompatKind | BasicKind

  /** `origin` is the authorization code a pair descends from: history that no operation reads. */
  datatype Token = Token(kind: TokenKind, client: ClientId, scopes: seq<string>, resource: string,
                         expires: Option<nat>, pair: nat, revoked: bool, origin: Option<nat>)

  datatype Grant = Grant(client: ClientId, scopes: seq<string>, resource: string, expires: nat)

  /** `next` is the next unused opaque value. */
  datatype Access = Access(clients: map<ClientId, Client>, tokens: map<nat, Token>, requests: map<nat, Grant>,
                           codes: map<nat, Grant>, enabled: bool, advanced: bool, next: nat, now: nat)

  const ACCESS_TOKEN_SECONDS: nat := 3600
  const REFRESH_TOKEN_SECONDS: nat := 30 * 86400
  const AUTH_CODE_SECONDS: nat := 300
  const AUTH_REQUEST_SECONDS: nat := 600
  const STALE_REGISTRATION_SECONDS: nat := 86400
  const MAX_PENDING_CLIENTS: nat := 100
  const MEMORY_SCOPE := "memory:read"
  const KB_SCOPE := "kb:read"
  const BASIC_SCOPE := "basic:read"

  // ----- Reads

  predicate ClientLive(a: Access, id: ClientId) {
    id in a.clients && !a.clients[id].revoked
  }

  predicate TokenLive(a: Access, t: nat) {
    t in a.tokens && !a.tokens[t].revoked
  }

  /** A token row that neither it nor its client has been revoked for, and that has not expired. */
  predicate Usable(a: Access, t: nat) {
    TokenLive(a, t) && ClientLive(a, a.tokens[t].client) && (a.tokens[t].expires.Some? ==> a.now <= a.tokens[t].expires.value)
  }

  /** Presented as a bearer token: the client's kind must fit the current mode. */
  predicate Accepts(a: Access, t: nat) {
    && a.enabled && Usable(a, t) && !a.tokens[t].kind.RefreshKind?
    && (a.clients[a.tokens[t].client].kind.Basic? <==> !a.advanced)
  }

  predicate AdvancedOn(a: Access) {
    a.enabled && a.advanced
  }

  predicate LoadsRefresh(a: Access, t: nat, id: ClientId) {
    AdvancedOn(a) && Usable(a, t) && a.tokens[t].kind.RefreshKind? && a.tokens[t].client == id
  }

  /** The client is known as an OAuth client. */
  predicate OAuthLive(a: Access, id: ClientId) {
    ClientLive(a, id) && a.clients[id].kind.OAuth?
  }

  predicate LoadsCode(a: Access, c: nat, id: ClientId) {
    AdvancedOn(a) && OAuthLive(a, id) && c in a.codes && a.codes[c].client == id
  }

  // ----- Writes

  function PairRevoked(tokens: map<nat, Token>, pair: nat): map<nat, Token> {
    map t | t in tokens :: if tokens[t].pair == pair then tokens[t].(revoked := true) else tokens[t]
  }

  function ClientTokensRevoked(tokens: map<nat, Token>, id: ClientId): map<nat, Token> {
    map t | t in tokens :: if tokens[t].client == id then tokens[t].(revoked := true) else tokens[t]
  }

  predicate HasTokens(a: Access, id: ClientId) {
    exists t :: t in a.tokens && a.tokens[t].client == id
  }

  predicate StaleRegistration(a: Access, id: ClientId)
    requires id in a.clients
  {
    var c := a.clients[id];
    c.kind.OAuth? && !c.approved && c.created + STALE_REGISTRATION_SECONDS < a.now && !HasTokens(a, id)
  }

  function Purged(a: Access): map<ClientId, Client> {
    map id | id in a.clients && !StaleRegistration(a, id) :: a.clients[id]
  }

  function Pending(clients: map<ClientId, Client>): set<ClientId> {
    set id | id in clients && clients[id].kind.OAuth? && !clients[id].approved && !clients[id].revoked
  }

  /** Registering a known id again updates its row and lifts its revocation; its tokens stay revoked. */
  function Registering(a: Access, n: nat, full: bool): Access {
    var purged, id := Purged(a), Registered(n);
    if !AdvancedOn(a) || |Pending(purged)| >= MAX_PENDING_CLIENTS then a
    else a.(clients := purged[id := if id in purged then purged[id].(full := full, revoked := false)
                                    else Client(OAuth, full, false, false, a.now)])
  }

  function Requesting(a: Access, id: ClientId, scopes: seq<string>, resource: string): Access {
    if !AdvancedOn(a) || !OAuthLive(a, id) then a
    else
      var kept := map r | r in a.requests && a.requests[r].expires >= a.now :: a.requests[r];
      a.(requests := kept[a.next := Grant(id, scopes, resource, a.now + AUTH_REQUEST_SECONDS)], next := a.next + 1)
  }

  predicate RequestOpen(a: Access, r: nat) {
    r in a.requests && a.requests[r].expires >= a.now && ClientLive(a, a.requests[r].client)
  }

  function Approving(a: Access, r: nat): Access {
    if !RequestOpen(a, r) then a
    else
      var g := a.requests[r];
      a.(requests := a.requests - {r},
         codes := a.codes[a.next := g.(expires := a.now + AUTH_CODE_SECONDS)],
         clients := a.clients[g.client := a.clients[g.client].(approved := true, full := MEMORY_SCOPE in g.scopes)],
         next := a.next + 1)
  }

  function Denying(a: Access, r: nat): Access {
    if RequestOpen(a, r) then a.(requests := a.requests - {r}) else a
  }

  /** A new access and refresh token pair. */
  function Issuing(a: Access, id: ClientId, scopes: seq<string>, resource: string, origin: Option<nat>): Access {
    var pair := a.next;
    a.(tokens := a.tokens[pair + 1 := Token(AccessKind, id, scopes, resource, Some(a.now + ACCESS_TOKEN_SECONDS), pair, false, origin)]
                         [pair + 2 := Token(RefreshKind, id, scopes, resource, Some(a.now + REFRESH_TOKEN_SECONDS), pair, false, origin)],
       next := pair + 3)
  }

  /** A new token that does not expire, of the basic key or a compatibility client. */
  function Keying(a: Access, kind: TokenKind, id: ClientId, scope: string): Access {
    a.(tokens := a.tokens[a.next := Token(kind, id, [scope], scope, None, a.next, false, None)], next := a.next + 1)
  }

  /** The code is used up before the tokens are issued. */
  function Exchanging(a: Access, c: nat, id: ClientId): Access {
    if !LoadsCode(a, c, id) then a
    else Issuing(a.(codes := a.codes - {c}), id, a.codes[c].scopes, a.codes[c].resource, Some(c))
  }

  /** The exchange of a refresh token loaded before, possibly long before. */
  function ExchangingLoaded(a: Access, loaded: Token, id: ClientId, scopes: seq<string>): Access {
    if !AdvancedOn(a) then a
    else Issuing(a.(tokens := PairRevoked(a.tokens, loaded.pair)), id, scopes, loaded.resource, loaded.origin)
  }

  /** Loading and exchanging in one step. */
  function Refreshing(a: Access, t: nat, id: ClientId, scopes: seq<string>): Access {
    if LoadsRefresh(a, t, id) then ExchangingLoaded(a, a.tokens[t], id, scopes) else a
  }

  predicate BasicExists(a: Access) {
    ClientLive(a, BasicId) && a.clients[BasicId].kind.Basic?
  }

  predicate HasLiveToken(a: Access, id: ClientId) {
    exists t :: t in a.tokens && a.tokens[t].client == id && !a.tokens[t].revoked
  }

  /** The store with the basic client's row, made anew or renewed. */
  function WithBasic(a: Access): Access {
    var created := if BasicId in a.clients then a.clients[BasicId].created else a.now;
    a.(clients := a.clients[BasicId := Client(Basic, false, true, false, created)])
  }

  function CreatingBasic(a: Access): Access {
    if BasicExists(a) && HasLiveToken(a, BasicId) then a
    else Keying(WithBasic(a), BasicKind, BasicId, BASIC_SCOPE)
  }

  /** All tokens of the client are revoked before the new one is made. */
  function Rotated(a: Access, kind: TokenKind, id: ClientId, scope: string): Access {
    Keying(a.(tokens := ClientTokensRevoked(a.tokens, id)), kind, id, scope)
  }

  function RotatingBasic(a: Access): Access {
    if BasicExists(a) then Rotated(a, BasicKind, BasicId, BASIC_SCOPE) else a
  }

  function TierScope(full: bool): string {
    if full then MEMORY_SCOPE else KB_SCOPE
  }

  /** The store with the row of a new compatibility client. */
  function WithCompat(a: Access, full: bool): Access {
    a.(clients := a.clients[CompatId(a.next) := Client(Compat, full, true, false, a.now)], next := a.next + 1)
  }

  function CreatingCompat(a: Access, full: bool): Access {
    Keying(WithCompat(a, full), CompatKind, CompatId(a.next), TierScope(full))
  }

  function RotatingCompat(a: Access, id: ClientId): Access {
    if ClientLive(a, id) && a.clients[id].kind.Compat? then Rotated(a, CompatKind, id, TierScope(a.clients[id].full)) else a
  }

  function RevokingClient(a: Access, id: ClientId): Access {
    if id !in a.clients then a
    else a.(clients := a.clients[id := a.clients[id].(revoked := true)], tokens := ClientTokensRevoked(a.tokens, id),
            requests := map r | r in a.requests && a.requests[r].client != id :: a.requests[r],
            codes := map c | c in a.codes && a.codes[c].client != id :: a.codes[c])
  }

  /** Leaving the advanced mode drops what is pending. */
  function Moding(a: Access, enabled: bool, advanced: bool): Access {
    var b := if !advanced && a.advanced then a.(requests := map[], codes := map[]) else a;
    b.(enabled := enabled, advanced := advanced)
  }

  datatype Step =
    | Register(n: nat, full: bool)
    | Authorize(client: ClientId, scopes: seq<string>, resource: string)
    | Approve(request: nat)
    | Deny(request: nat)
    | ExchangeCode(code: nat, client: ClientId)
    | Refresh(token: nat, client: ClientId, scopes: seq<string>)
    | RevokePair(pair: nat)
    | CreateBasic
    | RotateBasic
    | CreateCompat(full: bool)
    | RotateCompat(client: ClientId)
    | RevokeClient(client: ClientId)
    | SetMode(enabled: bool, advanced: bool)
    | Tick(seconds: nat)

  function Apply(a: Access, step: Step): Access {
    match step
    case Register(n, full) => Registering(a, n, full)
    case Authorize(id, scopes, resource) => Requesting(a, id, scopes, resource)
    case Approve(r) => Approving(a, r)
    case Deny(r) => Denying(a, r)
    case ExchangeCode(c, id) => Exchanging(a, c, id)
    case Refresh(t, id, scopes) => Refreshing(a, t, id, scopes)
    case RevokePair(pair) => a.(tokens := PairRevoked(a.tokens, pair))
    case CreateBasic => CreatingBasic(a)
    case RotateBasic => RotatingBasic(a)
    case CreateCompat(full) => CreatingCompat(a, full)
    case RotateCompat(id) => RotatingCompat(a, id)
    case RevokeClient(id) => RevokingClient(a, id)
    case SetMode(enabled, advanced) => Moding(a, enabled, advanced)
    case Tick(seconds) => a.(now := a.now + seconds)
  }

  function Run(a: Access, steps: seq<Step>): Access {
    if steps == [] then a else Apply(Run(a, steps[..|steps| - 1]), steps[|steps| - 1])
  }

  const START := Access(map[], map[], map[], map[], false, false, 0, 0)

  // ----- Values are fresh, and rows fit each other

  /** The step may issue tokens. */
  predicate Issues(step: Step) {
    step.ExchangeCode? || step.Refresh? || step.CreateBasic? || step.RotateBasic? || step.CreateCompat? || step.RotateCompat?
  }

  predicate NewCompat(a: Access, id: ClientId) {
    id.CompatId? && id.n >= a.next
  }

  /** All values in use are older than `next`. */
  ghost predicate Fresh(a: Access) {
    && (forall t :: t in a.tokens ==> t < a.next && a.tokens[t].pair < a.next)
    && (forall t :: t in a.tokens && a.tokens[t].origin.Some? ==> a.tokens[t].origin.value < a.next)
    && (forall c :: c in a.codes ==> c < a.next)
    && (forall id :: id in a.clients ==> !NewCompat(a, id))
  }

  lemma IssuingFresh(a: Access, id: ClientId, scopes: seq<string>, resource: string, origin: Option<nat>)
    requires Fresh(a) && (origin.Some? ==> origin.value < a.next)
    ensures Fresh(Issuing(a, id, scopes, resource, origin))
  {
  }

  lemma KeyingFresh(a: Access, kind: TokenKind, id: ClientId, scope: string)
    requires Fresh(a)
    ensures Fresh(Keying(a, kind, id, scope))
  {
  }

  lemma ExchangeFresh(a: Access, c: nat, id: ClientId)
    requires Fresh(a)
    ensures Fresh(Exchanging(a, c, id)) && a.next <= Exchanging(a, c, id).next
  {
    if LoadsCode(a, c, id) {
      IssuingFresh(a.(codes := a.codes - {c}), id, a.codes[c].scopes, a.codes[c].resource, Some(c));
    }
  }

  lemma RefreshFresh(a: Access, t: nat, id: ClientId, scopes: seq<string>)
    requires Fresh(a)
    ensures Fresh(Refreshing(a, t, id, scopes)) && a.next <= Refreshing(a, t, id, scopes).next
  {
    if LoadsRefresh(a, t, id) {
      IssuingFresh(a.(tokens := PairRevoked(a.tokens, a.tokens[t].pair)), id, scopes, a.tokens[t].resource, a.tokens[t].origin);
    }
  }

  lemma CreateBasicFresh(a: Access)
    requires Fresh(a)
    ensures Fresh(CreatingBasic(a)) && a.next <= CreatingBasic(a).next
  {
    KeyingFresh(WithBasic(a), BasicKind, BasicId, BASIC_SCOPE);
  }

  lemma RotatedFresh(a: Access, kind: TokenKind, id: ClientId, scope: string)
    requires Fresh(a)
    ensures Fresh(Rotated(a, kind, id, scope)) && a.next <= Rotated(a, kind, id, scope).next
  {
    KeyingFresh(a.(tokens := ClientTokensRevoked(a.tokens, id)), kind, id, scope);
  }

  lemma CreateCompatFresh(a: Access, full: bool)
    requires Fresh(a)
    ensures Fresh(CreatingCompat(a, full)) && a.next <= CreatingCompat(a, full).next
  {
    assert Fresh(WithCompat(a, full));
    KeyingFresh(WithCompat(a, full), CompatKind, CompatId(a.next), TierScope(full));
  }

  lemma RegisteringFresh(a: Access, n: nat, full: bool)
    requires Fresh(a)
    ensures Fresh(Registering(a, n, full))
  {
  }

  lemma ApprovingFresh(a: Access, r: nat)
    requires Fresh(a)
    ensures Fresh(Approving(a, r))
  {
  }

  lemma RevokingClientFresh(a: Access, id: ClientId)
    requires Fresh(a)
    ensures Fresh(RevokingClient(a, id))
  {
  }

  lemma IssuingStepKeepsFresh(a: Access, step: Step)
    requires Fresh(a) && Issues(step)
    ensures Fresh(Apply(a, step)) && a.next <= Apply(a, step).next
  {
    match step {
      case ExchangeCode(c, id) => ExchangeFresh(a, c, id);
      case Refresh(t, id, scopes) => RefreshFresh(a, t, id, scopes);
      case CreateBasic => CreateBasicFresh(a);
      case RotateBasic => RotatedFresh(a, BasicKind, BasicId, BASIC_SCOPE);
      case CreateCompat(full) => CreateCompatFresh(a, full);
      case RotateCompat(id) => RotatedFresh(a, CompatKind, id, TierScope(id in a.clients && a.clients[id].full));
    }
  }

  lemma OtherStepKeepsFresh(a: Access, step: Step)
    requires Fresh(a) && !Issues(step)
    ensures Fresh(Apply(a, step)) && a.next <= Apply(a, step).next
  {
    match step {
      case Register(n, full) => RegisteringFresh(a, n, full);
      case Approve(r) => ApprovingFresh(a, r);
      case RevokeClient(id) => RevokingClientFresh(a, id);
      case Authorize(id, scopes, resource) =>
      case RevokePair(pair) =>
      case _ =>
    }
  }

  lemma StepKeepsFresh(a: Access, step: Step)
    requires Fresh(a)
    ensures Fresh(Apply(a, step)) && a.next <= Apply(a, step).next
  {
    if Issues(step) {
      IssuingStepKeepsFresh(a, step);
    } else {
      OtherStepKeepsFresh(a, step);
    }
  }

  // ----- Revocation is final

  /** Every token of `before` is still there, unchanged except that it may have been revoked. */
  ghost predicate OnlyRevoked(before: map<nat, Token>, after: map<nat, Token>) {
    forall t :: t in before ==>
      t in after && (after[t] == before[t] || after[t] == before[t].(revoked := true))
  }

  lemma IssuingOnlyRevokes(before: map<nat, Token>, a: Access, id: ClientId, scopes: seq<string>, resource: string, origin: Option<nat>)
    requires OnlyRevoked(before, a.tokens) && forall t :: t in before ==> t < a.next
    ensures OnlyRevoked(before, Issuing(a, id, scopes, resource, origin).tokens)
  {
  }

  lemma KeyingOnlyRevokes(before: map<nat, Token>, a: Access, kind: TokenKind, id: ClientId, scope: string)
    requires OnlyRevoked(before, a.tokens) && forall t :: t in before ==> t < a.next
    ensures OnlyRevoked(before, Keying(a, kind, id, scope).tokens)
  {
  }

  lemma ExchangeOnlyRevokes(a: Access, c: nat, id: ClientId)
    requires Fresh(a)
    ensures OnlyRevoked(a.tokens, Exchanging(a, c, id).tokens)
  {
    if LoadsCode(a, c, id) {
      IssuingOnlyRevokes(a.tokens, a.(codes := a.codes - {c}), id, a.codes[c].scopes, a.codes[c].resource, Some(c));
    }
  }

  lemma RefreshOnlyRevokes(a: Access, t: nat, id: ClientId, scopes: seq<string>)
    requires Fresh(a)
    ensures OnlyRevoked(a.tokens, Refreshing(a, t, id, scopes).tokens)
  {
    if LoadsRefresh(a, t, id) {
      var b := a.(tokens := PairRevoked(a.tokens, a.tokens[t].pair));
      IssuingOnlyRevokes(a.tokens, b, id, scopes, a.tokens[t].resource, a.tokens[t].origin);
    }
  }

  lemma RotatedOnlyRevokes(a: Access, kind: TokenKind, id: ClientId, scope: string)
    requires Fresh(a)
    ensures OnlyRevoked(a.tokens, Rotated(a, kind, id, scope).tokens)
  {
    KeyingOnlyRevokes(a.tokens, a.(tokens := ClientTokensRevoked(a.tokens, id)), kind, id, scope);
  }

  lemma IssuingStepOnlyRevokes(a: Access, step: Step)
    requires Fresh(a) && Issues(step)
    ensures OnlyRevoked(a.tokens, Apply(a, step).tokens)
  {
    match step {
      case ExchangeCode(c, id) => ExchangeOnlyRevokes(a, c, id);
      case Refresh(t, id, scopes) => RefreshOnlyRevokes(a, t, id, scopes);
      case CreateBasic => KeyingOnlyRevokes(a.tokens, WithBasic(a), BasicKind, BasicId, BASIC_SCOPE);
      case CreateCompat(full) => KeyingOnlyRevokes(a.tokens, WithCompat(a, full), CompatKind, CompatId(a.next), TierScope(full));
      case RotateBasic => RotatedOnlyRevokes(a, BasicKind, BasicId, BASIC_SCOPE);
      case RotateCompat(id) => RotatedOnlyRevokes(a, CompatKind, id, TierScope(id in a.clients && a.clients[id].full));
    }
  }

  lemma OtherStepOnlyRevokes(a: Access, step: Step)
    requires Fresh(a) && !Issues(step)
    ensures OnlyRevoked(a.tokens, Apply(a, step).tokens)
  {
    match step {
      case RevokePair(pair) =>
      case RevokeClient(id) =>
      case _ =>
    }
  }

  lemma StepOnlyRevokes(a: Access, step: Step)
    requires Fresh(a)
    ensures OnlyRevoked(a.tokens, Apply(a, step).tokens)
  {
    if Issues(step) {
      IssuingStepOnlyRevokes(a, step);
    } else {
      OtherStepOnlyRevokes(a, step);
    }
  }

  lemma {:induction false} RunOnlyRevokes(a: Access, steps: seq<Step>)
    requires Fresh(a)
    ensures Fresh(Run(a, steps)) && a.next <= Run(a, steps).next && OnlyRevoked(a.tokens, Run(a, steps).tokens)
  {
    if steps != [] {
      var n := |steps| - 1;
      RunOnlyRevokes(a, steps[..n]);
      StepKeepsFresh(Run(a, steps[..n]), steps[n]);
      StepOnlyRevokes(Run(a, steps[..n]), steps[n]);
    }
  }

  /** A revoked token is never loaded again, neither as a bearer token nor for refreshing, whatever
  happens afterwards; registering its client again does not bring it back. */
  lemma {:induction false} RevokedNeverLoads(a: Access, steps: seq<Step>, t: nat, id: ClientId)
    requires Fresh(a) && t in a.tokens && a.tokens[t].revoked
    ensures !Accepts(Run(a, steps), t) && !LoadsRefresh(Run(a, steps), t, id)
  {
    RunOnlyRevokes(a, steps);
  }

  /** After a client was revoked, no token it had then is ever loaded again. */
  lemma {:induction false} RevokedClientStaysOut(a: Access, id: ClientId, steps: seq<Step>, t: nat, as_: ClientId)
    requires Fresh(a) && id in a.clients && t in a.tokens && a.tokens[t].client == id
    ensures var e := Run(RevokingClient(a, id), steps); !Accepts(e, t) && !LoadsRefresh(e, t, as_)
  {
    StepKeepsFresh(a, RevokeClient(id));
    RevokedNeverLoads(RevokingClient(a, id), steps, t, as_);
  }

  // ----- A code is exchanged at most once

  /** How often a run exchanges code c for tokens. */
  function Exchanges(a: Access, steps: seq<Step>, c: nat): nat {
    if steps == [] then 0
    else
      var n := |steps| - 1;
      Exchanges(a, steps[..n], c) + if ExchangesNow(Run(a, steps[..n]), steps[n], c) then 1 else 0
  }

  predicate ExchangesNow(a: Access, step: Step, c: nat) {
    step.ExchangeCode? && step.code == c && LoadsCode(a, c, step.client)
  }

  /** The code is outstanding, or not yet issued. */
  predicate Ahead(a: Access, c: nat) {
    c in a.codes || c >= a.next
  }

  lemma StepKeepsAhead(a: Access, step: Step, c: nat)
    requires Fresh(a)
    ensures Ahead(Apply(a, step), c) ==> Ahead(a, c) && !ExchangesNow(a, step, c)
    ensures ExchangesNow(a, step, c) ==> Ahead(a, c)
  {
  }

  /** Section 4.1.2 of RFC 6749: over every run a code is exchanged at most once, and a code that was
  used up before the run never. */
  lemma {:induction false} CodeExchangedOnce(a: Access, steps: seq<Step>, c: nat)
    requires Fresh(a)
    ensures Exchanges(a, steps, c) <= 1
    ensures Exchanges(a, steps, c) == 1 ==> Ahead(a, c) && !Ahead(Run(a, steps), c)
    ensures Ahead(Run(a, steps), c) ==> Ahead(a, c)
  {
    if steps != [] {
      var n := |steps| - 1;
      CodeExchangedOnce(a, steps[..n], c);
      RunOnlyRevokes(a, steps[..n]);
      StepKeepsAhead(Run(a, steps[..n]), steps[n], c);
    }
  }

  // ----- Tokens fit their clients

  function KindOfId(id: ClientId): ClientKind {
    match id
    case BasicId => Basic
    case Registered(_) => OAuth
    case CompatId(_) => Compat
  }

  function OwnerKind(kind: TokenKind): ClientKind {
    match kind
    case BasicKind => Basic
    case CompatKind => Compat
    case _ => OAuth
  }

  ghost predicate Owned(a: Access, t: nat)
    requires t in a.tokens
  {
    var tok := a.tokens[t];
    && tok.client in a.clients && OwnerKind(tok.kind) == KindOfId(tok.client)
    && (a.clients[tok.client].revoked ==> tok.revoked)
  }

  /** Clients have the kind of their id; every token belongs to a known client of its kind, and a
  revoked client has no live token. */
  ghost predicate Fits(a: Access) {
    && (forall id :: id in a.clients ==> a.clients[id].kind == KindOfId(id))
    && (forall t :: t in a.tokens ==> Owned(a, t))
  }

  lemma IssuingFits(a: Access, id: ClientId, scopes: seq<string>, resource: string, origin: Option<nat>)
    requires Fresh(a) && Fits(a) && OAuthLive(a, id)
    ensures Fits(Issuing(a, id, scopes, resource, origin))
  {
    assert forall t :: t in a.tokens ==> Owned(a, t);
  }

  lemma ExchangeKeepsFits(a: Access, c: nat, id: ClientId)
    requires Fresh(a) && Fits(a)
    ensures Fits(Exchanging(a, c, id))
  {
    if LoadsCode(a, c, id) {
      var b := a.(codes := a.codes - {c});
      SameTables(a, b);
      IssuingFits(b, id, a.codes[c].scopes, a.codes[c].resource, Some(c));
    }
  }

  lemma RefreshKeepsFits(a: Access, t: nat, id: ClientId, scopes: seq<string>)
    requires Fresh(a) && Fits(a)
    ensures Fits(Refreshing(a, t, id, scopes))
  {
    if LoadsRefresh(a, t, id) {
      assert Owned(a, t);
      var b := a.(tokens := PairRevoked(a.tokens, a.tokens[t].pair));
      RevokingPairFits(a, a.tokens[t].pair);
      IssuingFits(b, id, scopes, a.tokens[t].resource, a.tokens[t].origin);
    }
  }

  lemma KeyingFits(a: Access, kind: TokenKind, id: ClientId, scope: string)
    requires Fresh(a) && Fits(a) && ClientLive(a, id) && OwnerKind(kind) == KindOfId(id)
    ensures Fits(Keying(a, kind, id, scope))
  {
    assert forall t :: t in a.tokens ==> Owned(a, t);
  }

  lemma RotatedFits(a: Access, kind: TokenKind, id: ClientId, scope: string)
    requires Fresh(a) && Fits(a) && ClientLive(a, id) && OwnerKind(kind) == KindOfId(id)
    ensures Fits(Rotated(a, kind, id, scope))
  {
    var b := a.(tokens := ClientTokensRevoked(a.tokens, id));
    assert forall t :: t in a.tokens ==> Owned(a, t) && Owned(b, t);
    KeyingFits(b, kind, id, scope);
  }

  lemma CreateBasicFits(a: Access)
    requires Fresh(a) && Fits(a)
    ensures Fits(CreatingBasic(a))
  {
    var b := WithBasic(a);
    assert forall t :: t in a.tokens ==> Owned(a, t) && Owned(b, t);
    KeyingFits(b, BasicKind, BasicId, BASIC_SCOPE);
  }

  lemma CreateCompatFits(a: Access, full: bool)
    requires Fresh(a) && Fits(a)
    ensures Fits(CreatingCompat(a, full))
  {
    var b := WithCompat(a, full);
    assert forall t :: t in a.tokens ==> Owned(a, t) && Owned(b, t);
    KeyingFits(b, CompatKind, CompatId(a.next), TierScope(full));
  }

  lemma RegisteringFits(a: Access, n: nat, full: bool)
    requires Fits(a)
    ensures Fits(Registering(a, n, full))
  {
    assert forall t :: t in a.tokens ==> Owned(a, t);
  }

  lemma ApprovingFits(a: Access, r: nat)
    requires Fits(a)
    ensures Fits(Approving(a, r))
  {
    assert forall t :: t in a.tokens ==> Owned(a, t);
  }

  lemma RevokingPairFits(a: Access, pair: nat)
    requires Fits(a)
    ensures Fits(a.(tokens := PairRevoked(a.tokens, pair)))
  {
    assert forall t :: t in a.tokens ==> Owned(a, t);
  }

  lemma RevokingClientFits(a: Access, id: ClientId)
    requires Fits(a)
    ensures Fits(RevokingClient(a, id))
  {
    assert forall t :: t in a.tokens ==> Owned(a, t);
  }

  lemma SameTables(a: Access, b: Access)
    requires Fits(a) && b.clients == a.clients && b.tokens == a.tokens
    ensures Fits(b)
  {
    assert forall t :: t in a.tokens ==> Owned(a, t) && Owned(b, t);
  }

  lemma StepKeepsFits(a: Access, step: Step)
    requires Fresh(a) && Fits(a)
    ensures Fits(Apply(a, step))
  {
    match step {
      case Register(n, full) => RegisteringFits(a, n, full);
      case Approve(r) => ApprovingFits(a, r);
      case ExchangeCode(c, id) => ExchangeKeepsFits(a, c, id);
      case Refresh(t, id, scopes) => RefreshKeepsFits(a, t, id, scopes);
      case CreateBasic => CreateBasicFits(a);
      case RotateBasic => if BasicExists(a) { RotatedFits(a, BasicKind, BasicId, BASIC_SCOPE); }
      case CreateCompat(full) => CreateCompatFits(a, full);
      case RotateCompat(id) =>
        if ClientLive(a, id) && a.clients[id].kind.Compat? {
          RotatedFits(a, CompatKind, id, TierScope(a.clients[id].full));
        }
      case RevokePair(pair) => RevokingPairFits(a, pair);
      case RevokeClient(id) => RevokingClientFits(a, id);
      case _ => SameTables(a, Apply(a, step));
    }
  }

  /** A live key of the basic mode or of a compatibility client. */
  predicate LiveKey(tokens: map<nat, Token>, t: nat) {
    t in tokens && !tokens[t].revoked && !tokens[t].client.Registered?
  }

  predicate NoLiveKey(tokens: map<nat, Token>, id: ClientId) {
    forall t :: t in tokens ==> tokens[t].client == id ==> tokens[t].revoked
  }

  /** The basic client and each compatibility client have at most one live token. */
  ghost predicate OneKeyEach(tokens: map<nat, Token>) {
    forall t, u :: LiveKey(tokens, t) && LiveKey(tokens, u) && tokens[t].client == tokens[u].client ==> t == u
  }

  lemma RevokingKeepsOneKey(tokens: map<nat, Token>, pair: nat, id: ClientId)
    requires OneKeyEach(tokens)
    ensures OneKeyEach(PairRevoked(tokens, pair))
    ensures OneKeyEach(ClientTokensRevoked(tokens, id)) && NoLiveKey(ClientTokensRevoked(tokens, id), id)
  {
    var p, c := PairRevoked(tokens, pair), ClientTokensRevoked(tokens, id);
    assert forall t :: LiveKey(p, t) ==> LiveKey(tokens, t) && p[t] == tokens[t];
    assert forall t :: LiveKey(c, t) ==> LiveKey(tokens, t) && c[t] == tokens[t];
  }

  lemma AddingKeepsOneKey(tokens: map<nat, Token>, k: nat, tok: Token)
    requires OneKeyEach(tokens) && (tok.client.Registered? || NoLiveKey(tokens, tok.client))
    requires k !in tokens
    ensures OneKeyEach(tokens[k := tok])
  {
    var after := tokens[k := tok];
    assert forall t :: t != k ==> (LiveKey(after, t) <==> LiveKey(tokens, t));
  }

  lemma IssuingKeepsOneKey(a: Access, id: ClientId, scopes: seq<string>, resource: string, origin: Option<nat>)
    requires Fresh(a) && OneKeyEach(a.tokens) && id.Registered?
    ensures OneKeyEach(Issuing(a, id, scopes, resource, origin).tokens)
  {
    var access := Token(AccessKind, id, scopes, resource, Some(a.now + ACCESS_TOKEN_SECONDS), a.next, false, origin);
    var refresh := Token(RefreshKind, id, scopes, resource, Some(a.now + REFRESH_TOKEN_SECONDS), a.next, false, origin);
    AddingKeepsOneKey(a.tokens, a.next + 1, access);
    AddingKeepsOneKey(a.tokens[a.next + 1 := access], a.next + 2, refresh);
  }

  lemma ExchangesKeepOneKey(a: Access, c: nat, t: nat, id: ClientId, scopes: seq<string>)
    requires Fresh(a) && Fits(a) && OneKeyEach(a.tokens)
    ensures OneKeyEach(Exchanging(a, c, id).tokens) && OneKeyEach(Refreshing(a, t, id, scopes).tokens)
  {
    if LoadsCode(a, c, id) {
      IssuingKeepsOneKey(a.(codes := a.codes - {c}), id, a.codes[c].scopes, a.codes[c].resource, Some(c));
    }
    if LoadsRefresh(a, t, id) {
      assert Owned(a, t);
      RevokingKeepsOneKey(a.tokens, a.tokens[t].pair, id);
      IssuingKeepsOneKey(a.(tokens := PairRevoked(a.tokens, a.tokens[t].pair)), id, scopes, a.tokens[t].resource, a.tokens[t].origin);
    }
  }

  lemma KeyingKeepsOneKey(a: Access, kind: TokenKind, id: ClientId, scope: string)
    requires Fresh(a) && OneKeyEach(a.tokens) && NoLiveKey(a.tokens, id)
    ensures OneKeyEach(Keying(a, kind, id, scope).tokens)
  {
    AddingKeepsOneKey(a.tokens, a.next, Token(kind, id, [scope], scope, None, a.next, false, None));
  }

  lemma RotatedKeepsOneKey(a: Access, kind: TokenKind, id: ClientId, scope: string)
    requires Fresh(a) && OneKeyEach(a.tokens)
    ensures OneKeyEach(Rotated(a, kind, id, scope).tokens)
  {
    RevokingKeepsOneKey(a.tokens, 0, id);
    KeyingKeepsOneKey(a.(tokens := ClientTokensRevoked(a.tokens, id)), kind, id, scope);
  }

  lemma CreateBasicKeepsOneKey(a: Access)
    requires Fresh(a) && Fits(a) && OneKeyEach(a.tokens)
    ensures OneKeyEach(CreatingBasic(a).tokens)
  {
    if !(BasicExists(a) && HasLiveToken(a, BasicId)) {
      assert forall t :: t in a.tokens ==> Owned(a, t);
      KeyingKeepsOneKey(WithBasic(a), BasicKind, BasicId, BASIC_SCOPE);
    }
  }

  lemma CreateCompatKeepsOneKey(a: Access, full: bool)
    requires Fresh(a) && Fits(a) && OneKeyEach(a.tokens)
    ensures OneKeyEach(CreatingCompat(a, full).tokens)
  {
    var made := CompatId(a.next);
    assert NewCompat(a, made) && forall t :: t in a.tokens ==> Owned(a, t);
    assert Fresh(WithCompat(a, full));
    KeyingKeepsOneKey(WithCompat(a, full), CompatKind, made, TierScope(full));
  }

  lemma StepKeepsOneKey(a: Access, step: Step)
    requires Fresh(a) && Fits(a) && OneKeyEach(a.tokens)
    ensures OneKeyEach(Apply(a, step).tokens)
  {
    match step {
      case ExchangeCode(c, id) => ExchangesKeepOneKey(a, c, 0, id, []);
      case Refresh(t, id, scopes) => ExchangesKeepOneKey(a, 0, t, id, scopes);
      case CreateBasic => CreateBasicKeepsOneKey(a);
      case RotateBasic => RotatedKeepsOneKey(a, BasicKind, BasicId, BASIC_SCOPE);
      case CreateCompat(full) => CreateCompatKeepsOneKey(a, full);
      case RotateCompat(id) => RotatedKeepsOneKey(a, CompatKind, id, TierScope(id in a.clients && a.clients[id].full));
      case RevokePair(pair) => RevokingKeepsOneKey(a.tokens, pair, BasicId);
      case RevokeClient(id) => RevokingKeepsOneKey(a.tokens, 0, id);
      case _ => assert Apply(a, step).tokens == a.tokens;
    }
  }

  /** Over every run from the empty store: tokens fit their clients, a revoked client has no live
  token, and the basic client and each compatibility client have at most one. */
  lemma {:induction false} RunKeepsKeys(steps: seq<Step>)
    ensures var e := Run(START, steps); Fresh(e) && Fits(e) && OneKeyEach(e.tokens)
  {
    if steps != [] {
      var n := |steps| - 1;
      RunKeepsKeys(steps[..n]);
      StepKeepsFresh(Run(START, steps[..n]), steps[n]);
      StepKeepsFits(Run(START, steps[..n]), steps[n]);
      StepKeepsOneKey(Run(START, steps[..n]), steps[n]);
    }
  }

  /** Over every run: in the basic mode at most one token is accepted, the shared key; in the advanced
  mode the shared key is never accepted, and a compatibility client by one token at most. */
  lemma {:induction false} AcceptedFitsMode(steps: seq<Step>, t: nat, u: nat)
    requires Accepts(Run(START, steps), t) && Accepts(Run(START, steps), u)
    ensures var e := Run(START, steps);
      && (!e.advanced ==> e.tokens[t].kind.BasicKind? && t == u)
      && (e.advanced ==> !e.tokens[t].kind.BasicKind? && !e.tokens[t].client.BasicId?)
      && (e.tokens[t].kind.CompatKind? && e.tokens[t].client == e.tokens[u].client ==> t == u)
  {
    RunKeepsKeys(steps);
    var e := Run(START, steps);
    assert Owned(e, t) && Owned(e, u);
    assert e.tokens[t].client.BasicId? || e.tokens[t].client.CompatId? ==> LiveKey(e.tokens, t);
    assert e.tokens[u].client.BasicId? || e.tokens[u].client.CompatId? ==> LiveKey(e.tokens, u);
  }

  // ----- Refreshing

  /** All live tokens that descend from code c are of one pair. */
  ghost predicate OneFamily(tokens: map<nat, Token>, c: nat) {
    forall t, u :: Descends(tokens, t, c) && Descends(tokens, u, c) ==> tokens[t].pair == tokens[u].pair
  }

  predicate Descends(tokens: map<nat, Token>, t: nat, c: nat) {
    t in tokens && !tokens[t].revoked && tokens[t].origin == Some(c)
  }

  /** No token descends from a code that can still be exchanged. */
  ghost predicate Unspent(a: Access) {
    forall t :: t in a.tokens && a.tokens[t].origin.Some? ==> a.tokens[t].origin.value !in a.codes
  }

  /** A pair has one token of each kind. */
  ghost predicate PairsApart(tokens: map<nat, Token>) {
    forall t, u :: t in tokens && u in tokens && tokens[t].pair == tokens[u].pair && tokens[t].kind == tokens[u].kind ==> t == u
  }

  ghost predicate Families(a: Access) {
    Unspent(a) && PairsApart(a.tokens) && forall c :: OneFamily(a.tokens, c)
  }

  lemma WeakerKeepsFamilies(a: Access, b: Access)
    requires Families(a) && b.tokens.Keys == a.tokens.Keys && OnlyRevoked(a.tokens, b.tokens)
    requires forall c :: c in b.codes ==> c in a.codes
    ensures Families(b)
  {
    forall c
      ensures OneFamily(b.tokens, c)
    {
      assert OneFamily(a.tokens, c);
      assert forall t :: Descends(b.tokens, t, c) ==> Descends(a.tokens, t, c);
    }
  }

  /** A new pair keeps the families if nothing live descends from its origin, which is spent. */
  lemma IssuingKeepsFamilies(a: Access, id: ClientId, scopes: seq<string>, resource: string, origin: Option<nat>)
    requires Fresh(a) && Families(a)
    requires origin.Some? ==> origin.value !in a.codes && forall t :: !Descends(a.tokens, t, origin.value)
    ensures Families(Issuing(a, id, scopes, resource, origin))
  {
    var e := Issuing(a, id, scopes, resource, origin);
    forall c
      ensures OneFamily(e.tokens, c)
    {
      assert OneFamily(a.tokens, c);
      assert forall t :: t !in {a.next + 1, a.next + 2} ==> (Descends(e.tokens, t, c) <==> Descends(a.tokens, t, c));
    }
  }

  lemma KeyingKeepsFamilies(a: Access, kind: TokenKind, id: ClientId, scope: string)
    requires Fresh(a) && Families(a)
    ensures Families(Keying(a, kind, id, scope))
  {
    var e := Keying(a, kind, id, scope);
    forall c
      ensures OneFamily(e.tokens, c)
    {
      assert OneFamily(a.tokens, c);
      assert forall t :: Descends(e.tokens, t, c) <==> Descends(a.tokens, t, c);
    }
  }

  lemma ExchangeKeepsFamilies(a: Access, c: nat, id: ClientId)
    requires Fresh(a) && Families(a)
    ensures Families(Exchanging(a, c, id))
  {
    if LoadsCode(a, c, id) {
      var b := a.(codes := a.codes - {c});
      WeakerKeepsFamilies(a, b);
      IssuingKeepsFamilies(b, id, a.codes[c].scopes, a.codes[c].resource, Some(c));
    }
  }

  lemma RefreshKeepsFamilies(a: Access, t: nat, id: ClientId, scopes: seq<string>)
    requires Fresh(a) && Families(a)
    ensures Families(Refreshing(a, t, id, scopes))
  {
    if LoadsRefresh(a, t, id) {
      var loaded := a.tokens[t];
      var b := a.(tokens := PairRevoked(a.tokens, loaded.pair));
      WeakerKeepsFamilies(a, b);
      if loaded.origin.Some? {
        assert Descends(a.tokens, t, loaded.origin.value) && OneFamily(a.tokens, loaded.origin.value);
        assert forall u :: Descends(b.tokens, u, loaded.origin.value) ==> Descends(a.tokens, u, loaded.origin.value);
      }
      IssuingKeepsFamilies(b, id, scopes, loaded.resource, loaded.origin);
    }
  }

  lemma RotatedKeepsFamilies(a: Access, kind: TokenKind, id: ClientId, scope: string)
    requires Fresh(a) && Families(a)
    ensures Families(Rotated(a, kind, id, scope))
  {
    var b := a.(tokens := ClientTokensRevoked(a.tokens, id));
    WeakerKeepsFamilies(a, b);
    KeyingKeepsFamilies(b, kind, id, scope);
  }

  lemma CreatingKeepsFamilies(a: Access, full: bool)
    requires Fresh(a) && Families(a)
    ensures Families(CreatingBasic(a)) && Families(CreatingCompat(a, full))
  {
    WeakerKeepsFamilies(a, WithBasic(a));
    KeyingKeepsFamilies(WithBasic(a), BasicKind, BasicId, BASIC_SCOPE);
    WeakerKeepsFamilies(a, WithCompat(a, full));
    assert Fresh(WithCompat(a, full));
    KeyingKeepsFamilies(WithCompat(a, full), CompatKind, CompatId(a.next), TierScope(full));
  }

  lemma StepKeepsFamilies(a: Access, step: Step)
    requires Fresh(a) && Families(a)
    ensures Families(Apply(a, step))
  {
    match step {
      case ExchangeCode(c, id) => ExchangeKeepsFamilies(a, c, id);
      case Refresh(t, id, scopes) => RefreshKeepsFamilies(a, t, id, scopes);
      case CreateBasic => CreatingKeepsFamilies(a, false);
      case CreateCompat(full) => CreatingKeepsFamilies(a, full);
      case RotateBasic => RotatedKeepsFamilies(a, BasicKind, BasicId, BASIC_SCOPE);
      case RotateCompat(id) => RotatedKeepsFamilies(a, CompatKind, id, TierScope(id in a.clients && a.clients[id].full));
      case Approve(r) => assert Apply(a, step).tokens == a.tokens;
      case _ => WeakerKeepsFamilies(a, Apply(a, step));
    }
  }

  lemma {:induction false} RunKeepsFamilies(steps: seq<Step>)
    ensures Fresh(Run(START, steps)) && Families(Run(START, steps))
  {
    if steps != [] {
      var n := |steps| - 1;
      RunKeepsFamilies(steps[..n]);
      StepKeepsFresh(Run(START, steps[..n]), steps[n]);
      StepKeepsFamilies(Run(START, steps[..n]), steps[n]);
    }
  }

  /** Section 6 of RFC 6749 with rotation: over every run in which a refresh token is loaded and
  exchanged in one step, of all tokens that descend from one authorization code at most one refresh
  token and at most one access token are live, and they are of the same pair. */
  lemma {:induction false} OneLivePairPerCode(steps: seq<Step>, c: nat, t: nat, u: nat)
    requires Descends(Run(START, steps).tokens, t, c) && Descends(Run(START, steps).tokens, u, c)
    ensures var tokens := Run(START, steps).tokens;
      tokens[t].pair == tokens[u].pair && (tokens[t].kind == tokens[u].kind ==> t == u)
  {
    RunKeepsFamilies(steps);
    assert OneFamily(Run(START, steps).tokens, c);
  }

  /** A refresh token is good for one refresh: after it both tokens of its pair are dead for good. */
  lemma {:induction false} RefreshedOnce(a: Access, t: nat, id: ClientId, scopes: seq<string>, steps: seq<Step>, u: nat, as_: ClientId)
    requires Fresh(a) && LoadsRefresh(a, t, id) && u in a.tokens && a.tokens[u].pair == a.tokens[t].pair
    ensures var e := Run(Refreshing(a, t, id, scopes), steps); !Accepts(e, u) && !LoadsRefresh(e, u, as_)
  {
    StepKeepsFresh(a, Refresh(t, id, scopes));
    RevokedNeverLoads(Refreshing(a, t, id, scopes), steps, u, as_);
  }

  // ----- Loading and exchanging apart

  /** Every live token that descends from where t does is of the pair of t. */
  ghost predicate AloneInFamily(tokens: map<nat, Token>, t: nat)
    requires t in tokens
  {
    tokens[t].origin.Some? ==> forall u :: Descends(tokens, u, tokens[t].origin.value) ==> tokens[u].pair == tokens[t].pair
  }

  /** The exchange of a token loaded before. */
  function ExchangingLate(a: Access, t: nat, scopes: seq<string>): Access
    requires t in a.tokens
  {
    ExchangingLoaded(a, a.tokens[t], a.tokens[t].client, scopes)
  }

  lemma RevokedFamily(a: Access, t: nat)
    requires Families(a) && t in a.tokens && AloneInFamily(a.tokens, t) && a.tokens[t].origin.Some?
    ensures forall u :: !Descends(PairRevoked(a.tokens, a.tokens[t].pair), u, a.tokens[t].origin.value)
  {
    var b, c := PairRevoked(a.tokens, a.tokens[t].pair), a.tokens[t].origin.value;
    assert forall u :: Descends(b, u, c) ==> Descends(a.tokens, u, c);
  }

  /** The exchange does not look at the token again: it keeps the families apart if and only if, when it
  happens, no other pair of the same code is live. */
  lemma {:induction false} LateExchangeKeepsFamiliesIff(a: Access, t: nat, scopes: seq<string>)
    requires Fresh(a) && Families(a) && t in a.tokens
    ensures Families(ExchangingLate(a, t, scopes)) <==> !AdvancedOn(a) || AloneInFamily(a.tokens, t)
  {
    var loaded, e := a.tokens[t], ExchangingLate(a, t, scopes);
    if AdvancedOn(a) {
      if AloneInFamily(a.tokens, t) {
        var b := a.(tokens := PairRevoked(a.tokens, loaded.pair));
        WeakerKeepsFamilies(a, b);
        if loaded.origin.Some? {
          RevokedFamily(a, t);
        }
        IssuingKeepsFamilies(b, loaded.client, scopes, loaded.resource, loaded.origin);
      } else {
        var c := loaded.origin.value;
        var u :| Descends(a.tokens, u, c) && a.tokens[u].pair != loaded.pair;
        assert Descends(e.tokens, u, c) && e.tokens[u].pair == a.tokens[u].pair < a.next;
        assert Descends(e.tokens, a.next + 2, c) && e.tokens[a.next + 2].pair == a.next;
        assert !OneFamily(e.tokens, c);
      }
    }
  }

  /** It gives no live token to a revoked client if and only if the client is live when it happens. */
  lemma {:induction false} LateExchangeKeepsFitsIff(a: Access, t: nat, scopes: seq<string>)
    requires Fresh(a) && Fits(a) && t in a.tokens && a.tokens[t].kind.RefreshKind?
    ensures Fits(ExchangingLate(a, t, scopes)) <==> !AdvancedOn(a) || ClientLive(a, a.tokens[t].client)
  {
    var loaded, e := a.tokens[t], ExchangingLate(a, t, scopes);
    assert Owned(a, t);
    if AdvancedOn(a) {
      if ClientLive(a, loaded.client) {
        RevokingPairFits(a, loaded.pair);
        IssuingFits(a.(tokens := PairRevoked(a.tokens, loaded.pair)), loaded.client, scopes, loaded.resource, loaded.origin);
      } else {
        assert a.next + 2 in e.tokens && !Owned(e, a.next + 2);
      }
    }
  }

  lemma LateExchangeKeepsKeys(a: Access, t: nat, scopes: seq<string>)
    requires Fresh(a) && Fits(a) && OneKeyEach(a.tokens) && t in a.tokens && a.tokens[t].kind.RefreshKind?
    ensures var e := ExchangingLate(a, t, scopes); Fresh(e) && a.next <= e.next && OneKeyEach(e.tokens)
  {
    var loaded := a.tokens[t];
    assert Owned(a, t);
    RevokingKeepsOneKey(a.tokens, loaded.pair, loaded.client);
    var b := a.(tokens := PairRevoked(a.tokens, loaded.pair));
    IssuingFresh(b, loaded.client, scopes, loaded.resource, loaded.origin);
    IssuingKeepsOneKey(b, loaded.client, scopes, loaded.resource, loaded.origin);
  }

  /** Runs in which any time may pass between the two; `loaded` are the tokens loaded so far. */
  datatype LateStep = Now(step: Step) | Load(token: nat, client: ClientId) | Exchange(which: nat, scopes: seq<string>)

  datatype Late = Late(access: Access, loaded: seq<nat>)

  function ApplyLate(l: Late, step: LateStep): Late {
    match step
    case Now(s) => l.(access := Apply(l.access, s))
    case Load(t, id) => if LoadsRefresh(l.access, t, id) then l.(loaded := l.loaded + [t]) else l
    case Exchange(i, scopes) =>
      if i < |l.loaded| && l.loaded[i] in l.access.tokens then l.(access := ExchangingLate(l.access, l.loaded[i], scopes)) else l
  }

  function RunLate(steps: seq<LateStep>): Late {
    if steps == [] then Late(START, []) else ApplyLate(RunLate(steps[..|steps| - 1]), steps[|steps| - 1])
  }

  /** Loaded tokens stay in the table. */
  ghost predicate LoadedKnown(l: Late) {
    forall i :: 0 <= i < |l.loaded| ==> l.loaded[i] in l.access.tokens && l.access.tokens[l.loaded[i]].kind.RefreshKind?
  }

  lemma LateOnlyRevokes(a: Access, t: nat, scopes: seq<string>)
    requires Fresh(a) && t in a.tokens
    ensures OnlyRevoked(a.tokens, ExchangingLate(a, t, scopes).tokens) && Fresh(ExchangingLate(a, t, scopes))
  {
    var loaded := a.tokens[t];
    var b := a.(tokens := PairRevoked(a.tokens, loaded.pair));
    IssuingFresh(b, loaded.client, scopes, loaded.resource, loaded.origin);
    IssuingOnlyRevokes(a.tokens, b, loaded.client, scopes, loaded.resource, loaded.origin);
  }

  lemma StillKnown(l: Late, after: Access)
    requires LoadedKnown(l) && OnlyRevoked(l.access.tokens, after.tokens)
    ensures LoadedKnown(l.(access := after))
  {
  }

  lemma {:induction false} RunKeepsLoaded(steps: seq<LateStep>)
    ensures Fresh(RunLate(steps).access) && LoadedKnown(RunLate(steps))
  {
    if steps != [] {
      var n := |steps| - 1;
      RunKeepsLoaded(steps[..n]);
      var l := RunLate(steps[..n]);
      match steps[n] {
        case Now(s) =>
          StepKeepsFresh(l.access, s);
          StepOnlyRevokes(l.access, s);
          StillKnown(l, Apply(l.access, s));
        case Load(t, id) =>
        case Exchange(i, scopes) =>
          if i < |l.loaded| && l.loaded[i] in l.access.tokens {
            LateOnlyRevokes(l.access, l.loaded[i], scopes);
            StillKnown(l, ExchangingLate(l.access, l.loaded[i], scopes));
          }
      }
    }
  }

  /** The step exchanges a loaded token while the advanced mode is on. */
  predicate ExchangesLate(l: Late, step: LateStep) {
    step.Exchange? && step.which < |l.loaded| && l.loaded[step.which] in l.access.tokens && AdvancedOn(l.access)
  }

  ghost predicate ClientsLive(steps: seq<LateStep>) {
    steps == [] ||
    (var n := |steps| - 1; var l := RunLate(steps[..n]);
     ClientsLive(steps[..n]) && (ExchangesLate(l, steps[n]) ==> ClientLive(l.access, l.access.tokens[l.loaded[steps[n].which]].client)))
  }

  ghost predicate FitsThroughout(steps: seq<LateStep>) {
    Fits(RunLate(steps).access) && (steps == [] || FitsThroughout(steps[..|steps| - 1]))
  }

  lemma FitsAtEnd(steps: seq<LateStep>)
    requires FitsThroughout(steps)
    ensures Fits(RunLate(steps).access)
  {
  }

  lemma LateStepKeepsFitsIff(l: Late, step: LateStep)
    requires Fresh(l.access) && LoadedKnown(l) && Fits(l.access) && OneKeyEach(l.access.tokens)
    ensures OneKeyEach(ApplyLate(l, step).access.tokens)
    ensures Fits(ApplyLate(l, step).access) <==>
      (ExchangesLate(l, step) ==> ClientLive(l.access, l.access.tokens[l.loaded[step.which]].client))
  {
    match step {
      case Now(s) =>
        StepKeepsFits(l.access, s);
        StepKeepsOneKey(l.access, s);
      case Load(t, id) =>
      case Exchange(i, scopes) =>
        if i < |l.loaded| {
          LateExchangeKeepsFitsIff(l.access, l.loaded[i], scopes);
          LateExchangeKeepsKeys(l.access, l.loaded[i], scopes);
        }
    }
  }

  /** Over every run with loading and exchanging apart: no revoked client ever has a live token, and tokens
  fit their clients at every moment, if and only if every exchange finds its client still live; then the
  basic and each compatibility client also still have one live token at most. */
  lemma {:induction false} LateRunKeepsKeysIff(steps: seq<LateStep>)
    ensures FitsThroughout(steps) <==> ClientsLive(steps)
    ensures ClientsLive(steps) ==> OneKeyEach(RunLate(steps).access.tokens)
  {
    if steps != [] {
      var n := |steps| - 1;
      LateRunKeepsKeysIff(steps[..n]);
      RunKeepsLoaded(steps[..n]);
      if ClientsLive(steps[..n]) {
        FitsAtEnd(steps[..n]);
        LateStepKeepsFitsIff(RunLate(steps[..n]), steps[n]);
      }
    }
  }

  ghost predicate PairsAlone(steps: seq<LateStep>) {
    steps == [] ||
    (var n := |steps| - 1; var l := RunLate(steps[..n]);
     PairsAlone(steps[..n]) && (ExchangesLate(l, steps[n]) ==> AloneInFamily(l.access.tokens, l.loaded[steps[n].which])))
  }

  ghost predicate FamiliesThroughout(steps: seq<LateStep>) {
    Families(RunLate(steps).access) && (steps == [] || FamiliesThroughout(steps[..|steps| - 1]))
  }

  lemma FamiliesAtEnd(steps: seq<LateStep>)
    requires FamiliesThroughout(steps)
    ensures Families(RunLate(steps).access)
  {
  }

  lemma LateStepKeepsFamiliesIff(l: Late, step: LateStep)
    requires Fresh(l.access) && LoadedKnown(l) && Families(l.access)
    ensures Families(ApplyLate(l, step).access) <==>
      (ExchangesLate(l, step) ==> AloneInFamily(l.access.tokens, l.loaded[step.which]))
  {
    match step {
      case Now(s) => StepKeepsFamilies(l.access, s);
      case Load(t, id) =>
      case Exchange(i, scopes) =>
        if i < |l.loaded| {
          LateExchangeKeepsFamiliesIff(l.access, l.loaded[i], scopes);
        }
    }
  }

  /** ... and of the live tokens that descend from one code all are of one pair, at every moment, if and
  only if every exchange finds no other live pair of its code. */
  lemma {:induction false} LateRunKeepsFamiliesIff(steps: seq<LateStep>)
    ensures FamiliesThroughout(steps) <==> PairsAlone(steps)
  {
    if steps != [] {
      var n := |steps| - 1;
      LateRunKeepsFamiliesIff(steps[..n]);
      RunKeepsLoaded(steps[..n]);
      if PairsAlone(steps[..n]) {
        FamiliesAtEnd(steps[..n]);
        LateStepKeepsFamiliesIff(RunLate(steps[..n]), steps[n]);
      }
    }
  }

  /** So exchanging the same loaded token twice leaves two live refresh tokens of one code. */
  lemma LoadedOnceExchangedTwice(a: Access, t: nat, id: ClientId, scopes: seq<string>, c: nat)
    requires Fresh(a) && LoadsRefresh(a, t, id) && a.tokens[t].origin == Some(c)
    ensures var once := ExchangingLoaded(a, a.tokens[t], id, scopes);
      var twice := ExchangingLoaded(once, a.tokens[t], id, scopes);
      Descends(twice.tokens, a.next + 2, c) && Descends(twice.tokens, once.next + 2, c) && a.next + 2 != once.next + 2
  {
  }

  /** And a token loaded before its client is revoked can be exchanged after it: the revoked client then has
  a live token, which is accepted once the client registers again. */
  lemma {:induction false} LateExchangeOutlivesRevocation(a: Access, t: nat, n: nat, scopes: seq<string>, full: bool)
    requires Fresh(a) && Fits(a) && LoadsRefresh(a, t, Registered(n))
    ensures var revoked := RevokingClient(a, Registered(n));
      t in revoked.tokens &&
      var e := ExchangingLate(revoked, t, scopes);
      var again := Registering(e, n, full);
      && TokenLive(e, a.next + 1) && !Accepts(e, a.next + 1)
      && (|Pending(Purged(e))| < MAX_PENDING_CLIENTS ==> Accepts(again, a.next + 1))
  {
    var revoked := RevokingClient(a, Registered(n));
    assert Owned(a, t);
    var e := ExchangingLate(revoked, t, scopes);
    assert a.next + 1 in e.tokens && e.tokens[a.next + 1].client == Registered(n);
    assert HasTokens(e, Registered(n));
  }

  // ----- The store

  class AccessStore {
    var clients: map<ClientId, Client>
    var tokens: map<nat, Token>
    var requests: map<nat, Grant>
    var codes: map<nat, Grant>
    var enabled: bool
    var advanced: bool
    var next: nat
    var now: nat

    constructor ()
      ensures State() == START
    {
      clients, tokens, requests, codes := map[], map[], map[], map[];
      enabled, advanced, next, now := false, false, 0, 0;
    }

    function State(): Access
      reads this
    {
      Access(clients, tokens, requests, codes, enabled, advanced, next, now)
    }

    /** `None` when the caller gets an error: remote access is off, or too many registrations are pending. */
    method SaveOauthClient(n: nat, full: bool) returns (ok: bool)
      modifies `clients
      ensures State() == Registering(old(State()), n, full)
      ensures ok <==> AdvancedOn(old(State())) && |Pending(Purged(old(State())))| < MAX_PENDING_CLIENTS
    {
      if !enabled || !advanced {
        return false;
      }
      var kept := Purged(State());
      if |Pending(kept)| >= MAX_PENDING_CLIENTS {
        return false;
      }
      var id := Registered(n);
      if id in kept {
        clients := kept[id := kept[id].(full := full, revoked := false)];
      } else {
        clients := kept[id := Client(OAuth, full, false, false, now)];
      }
      return true;
    }

    method CreateAuthorizationRequest(id: ClientId, scopes: seq<string>, resource: string) returns (r: Option<nat>)
      modifies `requests, `next
      ensures State() == Requesting(old(State()), id, scopes, resource)
      ensures r.Some? <==> AdvancedOn(old(State())) && OAuthLive(old(State()), id)
      ensures r.Some? ==> RequestOpen(State(), r.value) && requests[r.value].client == id
    {
      if !AdvancedOn(State()) || !OAuthLive(State(), id) {
        return None;
      }
      requests := map q | q in requests && requests[q].expires >= now :: requests[q];
      requests := requests[next := Grant(id, scopes, resource, now + AUTH_REQUEST_SECONDS)];
      r := Some(next);
      next := next + 1;
    }

    method ApproveAuthorizationRequest(r: nat) returns (code: Option<nat>)
      modifies `requests, `codes, `clients, `next
      ensures State() == Approving(old(State()), r)
      ensures code == if RequestOpen(old(State()), r) then Some(old(next)) else None
    {
      if !RequestOpen(State(), r) {
        return None;
      }
      var g := requests[r];
      requests := requests - {r};
      codes := codes[next := Grant(g.client, g.scopes, g.resource, now + AUTH_CODE_SECONDS)];
      clients := clients[g.client := clients[g.client].(approved := true, full := MEMORY_SCOPE in g.scopes)];
      code := Some(next);
      next := next + 1;
    }

    method DenyAuthorizationRequest(r: nat) returns (ok: bool)
      modifies `requests
      ensures State() == Denying(old(State()), r) && ok == RequestOpen(old(State()), r)
    {
      ok := RequestOpen(State(), r);
      if ok {
        requests := requests - {r};
      }
    }

    method RevokePair(pair: nat)
      modifies `tokens
      ensures tokens == PairRevoked(old(tokens), pair)
    {
      tokens := map t | t in tokens :: if tokens[t].pair == pair then tokens[t].(revoked := true) else tokens[t];
    }

    method RevokeTokensOf(id: ClientId)
      modifies `tokens
      ensures tokens == ClientTokensRevoked(old(tokens), id)
    {
      tokens := map t | t in tokens :: if tokens[t].client == id then tokens[t].(revoked := true) else tokens[t];
    }

    method IssueOauthTokens(id: ClientId, scopes: seq<string>, resource: string, origin: Option<nat>) returns (access: nat, refresh: nat)
      modifies `tokens, `next
      ensures State() == Issuing(old(State()), id, scopes, resource, origin)
      ensures access == old(next) + 1 && refresh == old(next) + 2
    {
      var pair := next;
      access, refresh := pair + 1, pair + 2;
      tokens := tokens[access := Token(AccessKind, id, scopes, resource, Some(now + ACCESS_TOKEN_SECONDS), pair, false, origin)];
      tokens := tokens[refresh := Token(RefreshKind, id, scopes, resource, Some(now + REFRESH_TOKEN_SECONDS), pair, false, origin)];
      next := pair + 3;
    }

    /** The granted pair carries the scopes and the resource of the code. */
    method ExchangeAuthorizationCode(c: nat, id: ClientId) returns (pair: Option<(nat, nat)>)
      modifies `codes, `tokens, `next
      ensures State() == Exchanging(old(State()), c, id)
      ensures pair.Some? <==> LoadsCode(old(State()), c, id)
      ensures pair.Some? ==> pair.value.1 in tokens && tokens[pair.value.1].scopes == old(codes)[c].scopes && c !in codes
    {
      if !LoadsCode(State(), c, id) {
        return None;
      }
      var g := codes[c];
      codes := codes - {c};
      var access, refresh := IssueOauthTokens(id, g.scopes, g.resource, Some(c));
      return Some((access, refresh));
    }

    /** Loading and exchanging a refresh token; the old pair is revoked before the new one is issued. */
    method ExchangeRefreshToken(t: nat, id: ClientId, scopes: seq<string>) returns (pair: Option<(nat, nat)>)
      modifies `tokens, `next
      ensures State() == Refreshing(old(State()), t, id, scopes)
      ensures pair.Some? <==> LoadsRefresh(old(State()), t, id)
    {
      if !LoadsRefresh(State(), t, id) {
        return None;
      }
      var loaded := tokens[t];
      RevokePair(loaded.pair);
      var access, refresh := IssueOauthTokens(id, scopes, loaded.resource, loaded.origin);
      return Some((access, refresh));
    }

    method SaveKey(kind: TokenKind, id: ClientId, scope: string) returns (t: nat)
      modifies `tokens, `next
      ensures State() == Keying(old(State()), kind, id, scope) && t == old(next)
    {
      tokens := tokens[next := Token(kind, id, [scope], scope, None, next, false, None)];
      t := next;
      next := next + 1;
    }

    method CreateBasicToken() returns (t: Option<nat>)
      modifies `clients, `tokens, `next
      ensures State() == CreatingBasic(old(State()))
      ensures t.Some? <==> !(BasicExists(old(State())) && HasLiveToken(old(State()), BasicId))
    {
      if BasicExists(State()) && HasLiveToken(State(), BasicId) {
        return None;
      }
      var created := if BasicId in clients then clients[BasicId].created else now;
      clients := clients[BasicId := Client(Basic, false, true, false, created)];
      var made := SaveKey(BasicKind, BasicId, BASIC_SCOPE);
      return Some(made);
    }

    method RotateBasicToken() returns (t: Option<nat>)
      modifies `tokens, `next
      ensures State() == RotatingBasic(old(State())) && (t.Some? <==> BasicExists(old(State())))
    {
      if !BasicExists(State()) {
        return None;
      }
      RevokeTokensOf(BasicId);
      var made := SaveKey(BasicKind, BasicId, BASIC_SCOPE);
      return Some(made);
    }

    method CreateCompatClient(full: bool) returns (id: ClientId, t: nat)
      modifies `clients, `tokens, `next
      ensures State() == CreatingCompat(old(State()), full)
      ensures id == CompatId(old(next)) && t in tokens && tokens[t].client == id
    {
      id := CompatId(next);
      clients := clients[id := Client(Compat, full, true, false, now)];
      next := next + 1;
      t := SaveKey(CompatKind, id, TierScope(full));
    }

    method RotateCompatClient(id: ClientId) returns (t: Option<nat>)
      modifies `tokens, `next
      ensures State() == RotatingCompat(old(State()), id)
      ensures t.Some? <==> ClientLive(old(State()), id) && old(clients)[id].kind.Compat?
    {
      if id !in clients || clients[id].revoked || !clients[id].kind.Compat? {
        return None;
      }
      RevokeTokensOf(id);
      var made := SaveKey(CompatKind, id, TierScope(clients[id].full));
      return Some(made);
    }

    method RevokeClient(id: ClientId) returns (found: bool)
      modifies `clients, `tokens, `requests, `codes
      ensures State() == RevokingClient(old(State()), id) && found == (id in old(clients))
    {
      if id !in clients {
        return false;
      }
      clients := clients[id := clients[id].(revoked := true)];
      RevokeTokensOf(id);
      requests := map r | r in requests && requests[r].client != id :: requests[r];
      codes := map c | c in codes && codes[c].client != id :: codes[c];
      return true;
    }

    method ClearPendingOauth()
      modifies `requests, `codes
      ensures requests == map[] && codes == map[]
    {
      requests, codes := map[], map[];
    }

    method SetMode(on: bool, advancedMode: bool)
      modifies `enabled, `advanced, `requests, `codes
      ensures State() == Moding(old(State()), on, advancedMode)
    {
      var previous := advanced;
      enabled, advanced := on, advancedMode;
      if !advancedMode && previous {
        ClearPendingOauth();
      }
    }

    method LoadAccessToken(t: nat) returns (loaded: Option<Token>)
      ensures loaded == if Accepts(State(), t) then Some(tokens[t]) else None
    {
      if !enabled || !Usable(State(), t) || tokens[t].kind.RefreshKind? {
        return None;
      }
      var kind := clients[tokens[t].client].kind;
      if !advanced && !kind.Basic? {
        return None;
      }
      if advanced && kind.Basic? {
        return None;
      }
      return Some(tokens[t]);
    }
  }
}

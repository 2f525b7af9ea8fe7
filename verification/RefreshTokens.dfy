/**
 * Refresh-token rotation under concurrency: src/auth/auth.service.ts.
 *
 * Any number of refreshes are in flight. Each database call is one step, so
 * every interleaving of the calls is a run. Tokens are unforgeable ids; a
 * request starts once its signature has been accepted.
 */
module RefreshTokens {
  import opened Common

  datatype Token = Token(admin: string, expiresAt: nat, revokedAt: Option<nat>, replacedBy: Option<nat>)

  datatype Reason = InvalidToken | ExpiredToken | Reuse

  /** Where a refresh has got to; `won` remembers that it was the one to claim its token. */
  datatype Request =
    | Presented(token: nat, subject: string)
    | Found(token: nat, subject: string)
    | Claimed(token: nat, subject: string, replacement: nat)
    | Lost(token: nat, subject: string)
    | Excused(token: nat, subject: string)
    | Suspected(token: nat, subject: string)
    | Granted(token: nat, issued: nat, won: bool)
    | Denied(token: nat, reason: Reason)

  /** `used`: every id the generator has handed out. */
  datatype Sessions = Sessions(tokens: map<nat, Token>, requests: seq<Request>, used: set<nat>, now: nat)

  const REFRESH_TOKEN_TTL_MS: nat := 1_296_000_000
  const RACE_GRACE_MS: nat := 30_000

  datatype Step =
    | LoginStep(admin: string, newId: nat)
    | PresentStep(token: nat, subject: string)
    | AdvanceStep(request: nat, newId: nat)
    | LogoutStep(token: nat)
    | TickStep(ms: nat)

  predicate Live(s: Sessions, t: nat) {
    t in s.tokens && s.tokens[t].revokedAt.None?
  }

  /** A rotation seen within the grace window is a race, not a theft. */
  predicate WithinGrace(s: Sessions, t: nat) {
    && t in s.tokens && s.tokens[t].replacedBy.Some? && s.tokens[t].revokedAt.Some?
    && s.now - s.tokens[t].revokedAt.value < RACE_GRACE_MS
  }

  function NewToken(s: Sessions, admin: string): Token {
    Token(admin, s.now + REFRESH_TOKEN_TTL_MS, None, None)
  }

  function RevokedAll(tokens: map<nat, Token>, admin: string, now: nat): map<nat, Token> {
    map t | t in tokens :: if tokens[t].admin == admin && tokens[t].revokedAt.None? then tokens[t].(revokedAt := Some(now)) else tokens[t]
  }

  function WithRequest(s: Sessions, r: nat, request: Request): Sessions
    requires r < |s.requests|
  {
    s.(requests := s.requests[r := request])
  }

  // ── The database calls of one refresh ──────────────────────────────────

  function LookedUp(s: Sessions, r: nat): Sessions
    requires r < |s.requests| && s.requests[r].Presented?
  {
    var Presented(t, subject) := s.requests[r];
    if t !in s.tokens || s.tokens[t].admin != subject then WithRequest(s, r, Denied(t, InvalidToken))
    else if s.tokens[t].expiresAt < s.now then WithRequest(s, r, Denied(t, ExpiredToken))
    else WithRequest(s, r, Found(t, subject))
  }

  /** The conditional update: revocation and replacement become visible together, and only on a live token. */
  function Claiming(s: Sessions, r: nat, newId: nat): Sessions
    requires r < |s.requests| && s.requests[r].Found?
  {
    var Found(t, subject) := s.requests[r];
    var drawn := s.(used := s.used + {newId});
    if Live(s, t) then
      WithRequest(drawn.(tokens := s.tokens[t := s.tokens[t].(revokedAt := Some(s.now), replacedBy := Some(newId))]), r, Claimed(t, subject, newId))
    else WithRequest(drawn, r, Lost(t, subject))
  }

  function Rechecked(s: Sessions, r: nat): Sessions
    requires r < |s.requests| && s.requests[r].Lost?
  {
    var Lost(t, subject) := s.requests[r];
    WithRequest(s, r, if WithinGrace(s, t) then Excused(t, subject) else Suspected(t, subject))
  }

  function Issued(s: Sessions, r: nat, newId: nat): Sessions
    requires r < |s.requests| && (s.requests[r].Claimed? || s.requests[r].Excused?)
  {
    var request := s.requests[r];
    var id := if request.Claimed? then request.replacement else newId;
    WithRequest(s.(tokens := s.tokens[id := NewToken(s, request.subject)], used := s.used + {id}), r, Granted(request.token, id, request.Claimed?))
  }

  function FamilyRevoked(s: Sessions, r: nat): Sessions
    requires r < |s.requests| && s.requests[r].Suspected?
  {
    WithRequest(s.(tokens := RevokedAll(s.tokens, s.requests[r].subject, s.now)), r, Denied(s.requests[r].token, Reuse))
  }

  function Advanced(s: Sessions, r: nat, newId: nat): Sessions {
    if r >= |s.requests| || newId in s.used then s
    else
      match s.requests[r]
      case Presented(_, _) => LookedUp(s, r)
      case Found(_, _) => Claiming(s, r, newId)
      case Lost(_, _) => Rechecked(s, r)
      case Claimed(_, _, _) => Issued(s, r, newId)
      case Excused(_, _) => Issued(s, r, newId)
      case Suspected(_, _) => FamilyRevoked(s, r)
      case _ => s
  }

  function Next(s: Sessions, step: Step): Sessions {
    match step
    case LoginStep(admin, newId) =>
      if newId in s.used then s else s.(tokens := s.tokens[newId := NewToken(s, admin)], used := s.used + {newId})
    case PresentStep(t, subject) => s.(requests := s.requests + [Presented(t, subject)])
    case AdvanceStep(r, newId) => Advanced(s, r, newId)
    case LogoutStep(t) => if t in s.tokens then s.(tokens := s.tokens[t := s.tokens[t].(revokedAt := Some(s.now))]) else s
    case TickStep(ms) => s.(now := s.now + ms)
  }

  function Run(s: Sessions, steps: seq<Step>): Sessions {
    if steps == [] then s else Next(Run(s, steps[..|steps| - 1]), steps[|steps| - 1])
  }

  const Start: Sessions := Sessions(map[], [], {}, 0)

  // ── Invariants ─────────────────────────────────────────────────────────

  /** The request that claimed token t, with the replacement it wrote. */
  predicate Won(q: Request, t: nat, replacement: nat) {
    (q.Claimed? && q.token == t && q.replacement == replacement) || (q.Granted? && q.won && q.token == t && q.issued == replacement)
  }

  /** Some request holds the claim that token t's row records. */
  ghost predicate HasWinner(s: Sessions, t: nat)
    requires t in s.tokens && s.tokens[t].replacedBy.Some?
  {
    exists r :: 0 <= r < |s.requests| && Won(s.requests[r], t, s.tokens[t].replacedBy.value)
  }

  /** A row never says "replaced" without "revoked", its ids come from the generator, and its replacement has a winner. */
  ghost predicate TokenOk(s: Sessions, t: nat)
    requires t in s.tokens
  {
    && t in s.used
    && (s.tokens[t].replacedBy.Some? ==> s.tokens[t].revokedAt.Some? && s.tokens[t].replacedBy.value in s.used && HasWinner(s, t))
    && (s.tokens[t].revokedAt.Some? ==> s.tokens[t].revokedAt.value <= s.now)
  }

  /** A winner's replacement is what its token's row records; a loser's token really was revoked; a grant exists. */
  ghost predicate RequestOk(s: Sessions, q: Request) {
    match q
    case Presented(_, _) => true
    case Found(t, a) => t in s.tokens && s.tokens[t].admin == a
    case Claimed(t, a, n) => t in s.tokens && s.tokens[t].admin == a && s.tokens[t].replacedBy == Some(n) && n !in s.tokens
    case Lost(t, a) => t in s.tokens && s.tokens[t].admin == a && s.tokens[t].revokedAt.Some?
    case Excused(t, a) => t in s.tokens && s.tokens[t].admin == a && s.tokens[t].replacedBy.Some?
    case Suspected(t, a) => t in s.tokens && s.tokens[t].admin == a && s.tokens[t].revokedAt.Some?
    case Granted(t, n, won) =>
      && t in s.tokens && n in s.tokens && s.tokens[n].admin == s.tokens[t].admin
      && (if won then s.tokens[t].replacedBy == Some(n) else s.tokens[t].replacedBy.Some?)
    case Denied(_, _) => true
  }

  /** Two requests never carry the same replacement id. */
  ghost predicate Different(q1: Request, q2: Request) {
    forall t1, t2, n :: !(Won(q1, t1, n) && Won(q2, t2, n))
  }

  ghost predicate Inv(s: Sessions) {
    && (forall t :: t in s.tokens ==> TokenOk(s, t))
    && (forall r :: 0 <= r < |s.requests| ==> RequestOk(s, s.requests[r]))
    && (forall r1, r2 :: 0 <= r1 < r2 < |s.requests| ==> Different(s.requests[r1], s.requests[r2]))
  }

  /** Rows are never deleted, never un-revoked, and a recorded replacement never changes. */
  ghost predicate Grows(s: Sessions, s': Sessions) {
    && s.used <= s'.used && s.now <= s'.now
    && forall t :: t in s.tokens ==>
                     && t in s'.tokens && s'.tokens[t].admin == s.tokens[t].admin
                     && (s.tokens[t].revokedAt.Some? ==> s'.tokens[t].revokedAt.Some?)
                     && (s.tokens[t].replacedBy.Some? ==> s'.tokens[t].replacedBy == s.tokens[t].replacedBy)
  }

  /** Requests only move forward: a winner stays the winner of the same claim. */
  ghost predicate Continues(s: Sessions, s': Sessions) {
    && |s.requests| <= |s'.requests|
    && forall r :: 0 <= r < |s.requests| ==> forall t, n :: Won(s.requests[r], t, n) ==> Won(s'.requests[r], t, n)
  }

  lemma RequestKept(s: Sessions, s': Sessions, q: Request)
    requires Grows(s, s') && RequestOk(s, q)
    requires q.Claimed? ==> q.replacement !in s'.tokens
    ensures RequestOk(s', q)
  {
  }

  lemma TokenKept(s: Sessions, s': Sessions, t: nat)
    requires Grows(s, s') && Continues(s, s') && t in s.tokens && TokenOk(s, t)
    requires s'.tokens[t].replacedBy == s.tokens[t].replacedBy
    requires s'.tokens[t].revokedAt == s.tokens[t].revokedAt || s'.tokens[t].revokedAt == Some(s'.now)
    ensures TokenOk(s', t)
  {
    if s.tokens[t].replacedBy.Some? {
      var r :| 0 <= r < |s.requests| && Won(s.requests[r], t, s.tokens[t].replacedBy.value);
      assert Won(s'.requests[r], t, s'.tokens[t].replacedBy.value);
    }
  }

  /** A step on one request that touches no claim. */
  lemma OneRequestMoves(s: Sessions, s': Sessions, r: nat)
    requires Inv(s) && r < |s.requests| == |s'.requests| && s'.requests == s.requests[r := s'.requests[r]]
    requires Grows(s, s') && Continues(s, s')
    requires forall t :: t in s'.tokens ==> TokenOk(s', t)
    requires RequestOk(s', s'.requests[r])
    requires forall j :: 0 <= j < |s.requests| && j != r && s.requests[j].Claimed? ==> s.requests[j].replacement !in s'.tokens
    requires forall t, n :: Won(s'.requests[r], t, n) ==> Won(s.requests[r], t, n) || n !in s.used
    ensures Inv(s')
  {
    forall j | 0 <= j < |s'.requests| ensures RequestOk(s', s'.requests[j]) {
      if j != r {
        assert RequestOk(s, s.requests[j]);
        RequestKept(s, s', s.requests[j]);
      }
    }
    forall j, k | 0 <= j < k < |s'.requests| ensures Different(s'.requests[j], s'.requests[k]) {
      assert Different(s.requests[j], s.requests[k]);
      forall t1, t2, n ensures !(Won(s'.requests[j], t1, n) && Won(s'.requests[k], t2, n)) {
        if j != r { WinnersIdIsUsed(s, j, t1, n); }
        if k != r { WinnersIdIsUsed(s, k, t2, n); }
      }
    }
  }

  lemma WinnersIdIsUsed(s: Sessions, r: nat, t: nat, n: nat)
    requires Inv(s) && r < |s.requests|
    ensures Won(s.requests[r], t, n) ==> n in s.used && t in s.tokens && s.tokens[t].replacedBy == Some(n)
  {
    if Won(s.requests[r], t, n) {
      assert RequestOk(s, s.requests[r]) && TokenOk(s, t);
    }
  }

  lemma UnusedIsAbsent(s: Sessions, id: nat)
    requires Inv(s) && id !in s.used
    ensures id !in s.tokens
  {
    forall t | t in s.tokens ensures t != id { assert TokenOk(s, t); }
  }

  lemma ReadKeepsInv(s: Sessions, r: nat)
    requires Inv(s) && r < |s.requests|
    ensures s.requests[r].Presented? ==> Inv(LookedUp(s, r))
    ensures s.requests[r].Lost? ==> Inv(Rechecked(s, r))
  {
    assert RequestOk(s, s.requests[r]);
    var s' := if s.requests[r].Presented? then LookedUp(s, r) else if s.requests[r].Lost? then Rechecked(s, r) else s;
    forall j | 0 <= j < |s.requests| && s.requests[j].Claimed? ensures s.requests[j].replacement !in s'.tokens {
      assert RequestOk(s, s.requests[j]);
    }
    forall t | t in s'.tokens ensures TokenOk(s', t) { TokenKept(s, s', t); }
    OneRequestMoves(s, s', r);
  }

  lemma ClaimKeepsInv(s: Sessions, r: nat, newId: nat)
    requires Inv(s) && r < |s.requests| && s.requests[r].Found? && newId !in s.used
    ensures Inv(Claiming(s, r, newId))
  {
    var t, s' := s.requests[r].token, Claiming(s, r, newId);
    assert RequestOk(s, s.requests[r]);
    UnusedIsAbsent(s, newId);
    assert TokenOk(s, t);
    forall j | 0 <= j < |s.requests| && s.requests[j].Claimed? ensures s.requests[j].replacement !in s'.tokens {
      assert RequestOk(s, s.requests[j]);
    }
    forall u | u in s'.tokens ensures TokenOk(s', u) {
      if u == t && Live(s, t) {
        assert Won(s'.requests[r], t, newId);
      } else {
        TokenKept(s, s', u);
      }
    }
    OneRequestMoves(s, s', r);
  }

  lemma IssueKeepsInv(s: Sessions, r: nat, newId: nat)
    requires Inv(s) && r < |s.requests| && (s.requests[r].Claimed? || s.requests[r].Excused?) && newId !in s.used
    ensures Inv(Issued(s, r, newId))
  {
    var q, s' := s.requests[r], Issued(s, r, newId);
    var id := if q.Claimed? then q.replacement else newId;
    assert RequestOk(s, q) && TokenOk(s, q.token);
    UnusedIsAbsent(s, newId);
    forall j | 0 <= j < |s.requests| && j != r && s.requests[j].Claimed? ensures s.requests[j].replacement !in s'.tokens {
      assert RequestOk(s, s.requests[j]);
      assert Different(s.requests[if j < r then j else r], s.requests[if j < r then r else j]);
      WinnersIdIsUsed(s, j, s.requests[j].token, s.requests[j].replacement);
      assert Won(s.requests[j], s.requests[j].token, s.requests[j].replacement);
      if q.Claimed? { assert Won(q, q.token, q.replacement); }
    }
    forall u | u in s'.tokens ensures TokenOk(s', u) {
      if u != id { TokenKept(s, s', u); }
    }
    OneRequestMoves(s, s', r);
  }

  lemma RevokeKeepsInv(s: Sessions, r: nat)
    requires Inv(s) && r < |s.requests| && s.requests[r].Suspected?
    ensures Inv(FamilyRevoked(s, r))
  {
    var s' := FamilyRevoked(s, r);
    forall j | 0 <= j < |s.requests| && s.requests[j].Claimed? ensures s.requests[j].replacement !in s'.tokens {
      assert RequestOk(s, s.requests[j]);
    }
    forall u | u in s'.tokens ensures TokenOk(s', u) { TokenKept(s, s', u); }
    OneRequestMoves(s, s', r);
  }

  /** A step that moves no request and deletes no row. */
  lemma NoRequestMoves(s: Sessions, s': Sessions)
    requires Inv(s) && Grows(s, s') && |s.requests| <= |s'.requests|
    requires s'.requests[..|s.requests|] == s.requests
    requires forall j :: |s.requests| <= j < |s'.requests| ==> s'.requests[j].Presented?
    requires forall t :: t in s.tokens ==>
                           && s'.tokens[t].replacedBy == s.tokens[t].replacedBy
                           && (s'.tokens[t].revokedAt == s.tokens[t].revokedAt || s'.tokens[t].revokedAt == Some(s'.now))
    requires forall t :: t in s'.tokens && t !in s.tokens ==>
                           t !in s.used && t in s'.used && s'.tokens[t].replacedBy.None? && s'.tokens[t].revokedAt.None?
    ensures Inv(s')
  {
    forall j | 0 <= j < |s.requests| ensures s'.requests[j] == s.requests[j] {
      assert s'.requests[..|s.requests|][j] == s.requests[j];
    }
    forall t | t in s'.tokens ensures TokenOk(s', t) {
      if t in s.tokens { TokenKept(s, s', t); }
    }
    forall j | 0 <= j < |s'.requests| ensures RequestOk(s', s'.requests[j]) {
      if j < |s.requests| {
        assert RequestOk(s, s.requests[j]);
        if s.requests[j].Claimed? { WinnersIdIsUsed(s, j, s.requests[j].token, s.requests[j].replacement); }
        RequestKept(s, s', s.requests[j]);
      }
    }
    forall j, k | 0 <= j < k < |s'.requests| ensures Different(s'.requests[j], s'.requests[k]) {
      if k < |s.requests| { assert Different(s.requests[j], s.requests[k]); }
    }
  }

  lemma NextKeepsInv(s: Sessions, step: Step)
    requires Inv(s)
    ensures Inv(Next(s, step))
  {
    match step
    case AdvanceStep(r, newId) =>
      if r < |s.requests| && newId !in s.used {
        match s.requests[r] {
          case Presented(_, _) => ReadKeepsInv(s, r);
          case Lost(_, _) => ReadKeepsInv(s, r);
          case Found(_, _) => ClaimKeepsInv(s, r, newId);
          case Claimed(_, _, _) => IssueKeepsInv(s, r, newId);
          case Excused(_, _) => IssueKeepsInv(s, r, newId);
          case Suspected(_, _) => RevokeKeepsInv(s, r);
          case _ =>
        }
      }
    case LoginStep(admin, newId) =>
      if newId !in s.used { UnusedIsAbsent(s, newId); }
      NoRequestMoves(s, Next(s, step));
    case PresentStep(_, _) => NoRequestMoves(s, Next(s, step));
    case LogoutStep(_) => NoRequestMoves(s, Next(s, step));
    case TickStep(_) => NoRequestMoves(s, Next(s, step));
  }

  lemma {:induction false} RunKeepsInv(steps: seq<Step>)
    ensures Inv(Run(Start, steps))
  {
    if steps != [] {
      RunKeepsInv(steps[..|steps| - 1]);
      NextKeepsInv(Run(Start, steps[..|steps| - 1]), steps[|steps| - 1]);
    }
  }

  /** Over every interleaving, logouts and thefts included, a token is claimed by at most one request. */
  lemma OneWinnerPerToken(steps: seq<Step>, t: nat, r1: nat, r2: nat, n1: nat, n2: nat)
    requires var s := Run(Start, steps); r1 < |s.requests| && r2 < |s.requests| && Won(s.requests[r1], t, n1) && Won(s.requests[r2], t, n2)
    ensures r1 == r2 && n1 == n2
  {
    var s := Run(Start, steps);
    RunKeepsInv(steps);
    WinnersIdIsUsed(s, r1, t, n1);
    WinnersIdIsUsed(s, r2, t, n2);
    forall a, b | 0 <= a < b < |s.requests| ensures !(Won(s.requests[a], t, n1) && Won(s.requests[b], t, n1)) {
      assert Different(s.requests[a], s.requests[b]);
    }
  }

  // ── Races are never mistaken for theft ─────────────────────────────────

  /** No logout, and a request that lost the claim re-reads its token within the grace window. */
  predicate Calm(s: Sessions, step: Step) {
    match step
    case LogoutStep(_) => false
    case AdvanceStep(r, _) =>
      r < |s.requests| && s.requests[r].Lost? && s.requests[r].token in s.tokens && s.tokens[s.requests[r].token].revokedAt.Some? ==>
        s.now - s.tokens[s.requests[r].token].revokedAt.value < RACE_GRACE_MS
    case _ => true
  }

  predicate CalmRun(steps: seq<Step>) {
    steps != [] ==> CalmRun(steps[..|steps| - 1]) && Calm(Run(Start, steps[..|steps| - 1]), steps[|steps| - 1])
  }

  /** Every revocation is a rotation, and nobody has been suspected. */
  ghost predicate Peaceful(s: Sessions) {
    && (forall t :: t in s.tokens && s.tokens[t].revokedAt.Some? ==> s.tokens[t].replacedBy.Some?)
    && (forall r :: 0 <= r < |s.requests| ==> !s.requests[r].Suspected? && s.requests[r] != Denied(s.requests[r].token, Reuse))
  }

  lemma NextPeaceful(s: Sessions, step: Step)
    requires Inv(s) && Peaceful(s) && Calm(s, step)
    ensures Peaceful(Next(s, step))
  {
    if step.AdvanceStep? && step.request < |s.requests| && s.requests[step.request].Lost? {
      assert RequestOk(s, s.requests[step.request]);
    }
  }

  lemma {:induction false} RunPeaceful(steps: seq<Step>)
    requires CalmRun(steps)
    ensures Peaceful(Run(Start, steps))
  {
    if steps != [] {
      RunPeaceful(steps[..|steps| - 1]);
      RunKeepsInv(steps[..|steps| - 1]);
      NextPeaceful(Run(Start, steps[..|steps| - 1]), steps[|steps| - 1]);
    }
  }

  predicate PastClaim(q: Request) {
    q.Claimed? || q.Lost? || q.Excused? || q.Granted? || q.Suspected?
  }

  /**
   * In a run without logouts whose losers re-read in time, nobody's family is
   * ever revoked, and any token some request got as far as claiming has
   * exactly one winner, whose replacement its row records.
   */
  lemma RacesAreHarmless(steps: seq<Step>, r: nat)
    requires CalmRun(steps) && r < |Run(Start, steps).requests|
    ensures var s := Run(Start, steps);
            && !s.requests[r].Suspected? && s.requests[r] != Denied(s.requests[r].token, Reuse)
            && (PastClaim(s.requests[r]) ==>
                  var t := s.requests[r].token;
                  && t in s.tokens && s.tokens[t].revokedAt.Some? && s.tokens[t].replacedBy.Some?
                  && HasWinner(s, t)
                  && forall w1, w2, n1, n2 ::
                       (0 <= w1 < |s.requests| && 0 <= w2 < |s.requests| && Won(s.requests[w1], t, n1) && Won(s.requests[w2], t, n2) ==> w1 == w2))
  {
    var s := Run(Start, steps);
    RunPeaceful(steps);
    RunKeepsInv(steps);
    assert RequestOk(s, s.requests[r]);
    if PastClaim(s.requests[r]) {
      var t := s.requests[r].token;
      assert TokenOk(s, t);
      forall w1, w2, n1, n2 | 0 <= w1 < |s.requests| && 0 <= w2 < |s.requests| && Won(s.requests[w1], t, n1) && Won(s.requests[w2], t, n2)
        ensures w1 == w2
      {
        OneWinnerPerToken(steps, t, w1, w2, n1, n2);
      }
    }
  }

  /** Every session handed out in such a run is live until it is itself rotated. */
  lemma GrantedSessionsStayLive(steps: seq<Step>, r: nat)
    requires CalmRun(steps) && r < |Run(Start, steps).requests| && Run(Start, steps).requests[r].Granted?
    ensures var s := Run(Start, steps);
            var n := s.requests[r].issued;
            && n in s.tokens && s.requests[r].token in s.tokens
            && s.tokens[n].admin == s.tokens[s.requests[r].token].admin
            && (Live(s, n) || (s.tokens[n].replacedBy.Some? && HasWinner(s, n)))
  {
    var s := Run(Start, steps);
    RunPeaceful(steps);
    RunKeepsInv(steps);
    assert RequestOk(s, s.requests[r]);
    assert TokenOk(s, s.requests[r].issued);
  }

  // ── Who gets a session ─────────────────────────────────────────────────

  /** A refresh nobody interrupts: presented, then its database calls in turn, each with its own new id. */
  function RefreshedAlone(s: Sessions, t: nat, subject: string, ids: seq<nat>): Sessions
    requires |ids| == 4
  {
    var r := |s.requests|;
    var presented := Next(s, PresentStep(t, subject));
    Advanced(Advanced(Advanced(Advanced(presented, r, ids[0]), r, ids[1]), r, ids[2]), r, ids[3])
  }

  /** Ids the generator has not handed out, each drawn once. */
  ghost predicate Unseen(s: Sessions, ids: seq<nat>) {
    && (forall i :: 0 <= i < |ids| ==> ids[i] !in s.used)
    && (forall i, j :: 0 <= i < j < |ids| ==> ids[i] != ids[j])
  }

  /**
   * Left alone, a refresh succeeds exactly for an unexpired token of the subject
   * that is not revoked or was rotated less than 30 seconds ago; an unexpired
   * token of the subject that is neither revokes the subject's tokens, and no others.
   */
  lemma RefreshedAloneIff(s: Sessions, t: nat, subject: string, ids: seq<nat>)
    requires Inv(s) && |ids| == 4 && Unseen(s, ids)
    ensures var s', r := RefreshedAlone(s, t, subject, ids), |s.requests|;
            && |s'.requests| == r + 1
            && (if t !in s.tokens || s.tokens[t].admin != subject then
                  s'.requests[r] == Denied(t, InvalidToken) && s'.tokens == s.tokens
                else if s.tokens[t].expiresAt < s.now then
                  s'.requests[r] == Denied(t, ExpiredToken) && s'.tokens == s.tokens
                else if s.tokens[t].revokedAt.None? then
                  && s'.requests[r] == Granted(t, ids[1], true)
                  && s'.tokens == s.tokens[t := s.tokens[t].(revokedAt := Some(s.now), replacedBy := Some(ids[1]))]
                                          [ids[1] := Token(subject, s.now + 1_296_000_000, None, None)]
                else if s.tokens[t].replacedBy.Some? && s.now - s.tokens[t].revokedAt.value < 30_000 then
                  && s'.requests[r] == Granted(t, ids[3], false)
                  && s'.tokens == s.tokens[ids[3] := Token(subject, s.now + 1_296_000_000, None, None)]
                else
                  && s'.requests[r] == Denied(t, Reuse) && s'.tokens.Keys == s.tokens.Keys
                  && forall u :: u in s.tokens ==>
                       s'.tokens[u] == if s.tokens[u].admin == subject && s.tokens[u].revokedAt.None?
                                       then s.tokens[u].(revokedAt := Some(s.now)) else s.tokens[u])
  {
    var r, presented := |s.requests|, Next(s, PresentStep(t, subject));
    var looked := Advanced(presented, r, ids[0]);
    if looked.requests[r].Found? {
      var claimed := Advanced(looked, r, ids[1]);
      assert ids[2] !in claimed.used && ids[3] !in claimed.used;
      if claimed.requests[r].Lost? {
        assert !Live(s, t);
        var rechecked := Advanced(claimed, r, ids[2]);
        assert rechecked.requests[r].Excused? <==> WithinGrace(s, t);
      }
    }
  }

  /** The token is someone else's, or expired, and the request has not been answered otherwise. */
  predicate Hopeless(s: Sessions, r: nat, t: nat, subject: string) {
    && t in s.tokens && (s.tokens[t].admin != subject || s.tokens[t].expiresAt < s.now)
    && r < |s.requests| && (s.requests[r] == Presented(t, subject) || (s.requests[r].Denied? && s.requests[r].reason != Reuse))
  }

  lemma NextHopeless(s: Sessions, step: Step, r: nat, t: nat, subject: string)
    requires Inv(s) && Hopeless(s, r, t, subject)
    ensures Hopeless(Next(s, step), r, t, subject)
  {
    assert TokenOk(s, t);
    if step.AdvanceStep? && step.request < |s.requests| {
      assert RequestOk(s, s.requests[step.request]);
    }
  }

  /** A request with an expired token, or another's, is refused in every continuation, and never costs anyone a session. */
  lemma {:induction false} HopelessForever(s: Sessions, steps: seq<Step>, r: nat, t: nat, subject: string)
    requires Inv(s) && Hopeless(s, r, t, subject)
    ensures Inv(Run(s, steps)) && Hopeless(Run(s, steps), r, t, subject)
  {
    if steps != [] {
      HopelessForever(s, steps[..|steps| - 1], r, t, subject);
      NextKeepsInv(Run(s, steps[..|steps| - 1]), steps[|steps| - 1]);
      NextHopeless(Run(s, steps[..|steps| - 1]), steps[|steps| - 1], r, t, subject);
    }
  }

  // ── How long reuse stays detected ──────────────────────────────────────

  /** When a revoked token was last revoked: a logout overwrites the time of the rotation. */
  function TouchedAt(s: Sessions, steps: seq<Step>, t: nat): Option<nat>
    requires t in s.tokens
  {
    if steps == [] then s.tokens[t].revokedAt
    else if steps[|steps| - 1] == LogoutStep(t) then Some(Run(s, steps[..|steps| - 1]).now)
    else TouchedAt(s, steps[..|steps| - 1], t)
  }

  predicate RevokedAs(s: Sessions, s': Sessions, t: nat, at: Option<nat>)
    requires t in s.tokens
  {
    t in s'.tokens && at.Some? && s'.tokens[t] == s.tokens[t].(revokedAt := at)
  }

  lemma NextKeepsRevoked(s: Sessions, step: Step, t: nat)
    requires Inv(s) && t in s.tokens && s.tokens[t].revokedAt.Some?
    ensures RevokedAs(s, Next(s, step), t, if step == LogoutStep(t) then Some(s.now) else s.tokens[t].revokedAt)
  {
    assert TokenOk(s, t);
    if step.AdvanceStep? && step.request < |s.requests| { assert RequestOk(s, s.requests[step.request]); }
  }

  lemma {:induction false} RevokedSince(s: Sessions, steps: seq<Step>, t: nat)
    requires Inv(s) && t in s.tokens && s.tokens[t].revokedAt.Some?
    ensures Inv(Run(s, steps)) && RevokedAs(s, Run(s, steps), t, TouchedAt(s, steps, t))
  {
    if steps != [] {
      var front, last := steps[..|steps| - 1], steps[|steps| - 1];
      RevokedSince(s, front, t);
      NextKeepsInv(Run(s, front), last);
      NextKeepsRevoked(Run(s, front), last, t);
    }
  }

  /**
   * Replaying a rotated token that has not expired is detected exactly when the
   * grace window has passed since its rotation and since every logout with it:
   * a logout opens the window again.
   */
  lemma ReuseDetectedIff(s: Sessions, steps: seq<Step>, t: nat, ids: seq<nat>)
    requires Inv(s) && t in s.tokens && s.tokens[t].revokedAt.Some? && s.tokens[t].replacedBy.Some?
    requires var s' := Run(s, steps); s'.now <= s.tokens[t].expiresAt
    requires |ids| == 4 && Unseen(Run(s, steps), ids)
    ensures var s' := Run(s, steps);
            TouchedAt(s, steps, t).Some? &&
            (RefreshedAlone(s', t, s.tokens[t].admin, ids).requests[|s'.requests|] == Denied(t, Reuse)
             <==> 30_000 <= s'.now - TouchedAt(s, steps, t).value)
  {
    RevokedSince(s, steps, t);
    RefreshedAloneIff(Run(s, steps), t, s.tokens[t].admin, ids);
  }

  // ── How long a session lasts ───────────────────────────────────────────

  /** Token n is issued by a login, or by a refresh that was granted. */
  predicate Issues(s: Sessions, step: Step, n: nat) {
    n !in s.tokens && n in Next(s, step).tokens
  }

  /** Whom a new token belongs to, and when a step issues one. */
  lemma IssuedTo(s: Sessions, step: Step, n: nat)
    requires Inv(s)
    ensures Issues(s, step, n) <==>
            match step
            case LoginStep(_, newId) => newId == n && n !in s.used
            case AdvanceStep(r, newId) =>
              && r < |s.requests| && newId !in s.used
              && ((s.requests[r].Claimed? && s.requests[r].replacement == n) || (s.requests[r].Excused? && newId == n))
            case _ => false
    ensures Issues(s, step, n) ==>
              Next(s, step).tokens[n].admin == if step.LoginStep? then step.admin else s.requests[step.request].subject
  {
    if n !in s.used { UnusedIsAbsent(s, n); }
    if step.AdvanceStep? && step.request < |s.requests| { assert RequestOk(s, s.requests[step.request]); }
  }

  /** The step does not claim token n, log out with it, or revoke its owner's tokens. */
  predicate Leaves(s: Sessions, step: Step, n: nat)
    requires n in s.tokens
  {
    match step
    case LogoutStep(t) => t != n
    case AdvanceStep(r, _) =>
      r < |s.requests| ==>
        && !(s.requests[r].Found? && s.requests[r].token == n)
        && !(s.requests[r].Suspected? && s.requests[r].subject == s.tokens[n].admin)
    case _ => true
  }

  ghost predicate LeftAlone(s: Sessions, steps: seq<Step>, n: nat) {
    steps != [] ==>
      var front := steps[..|steps| - 1];
      LeftAlone(s, front, n) && n in Run(s, front).tokens && Leaves(Run(s, front), steps[|steps| - 1], n)
  }

  lemma NextLeaves(s: Sessions, step: Step, n: nat)
    requires Inv(s) && n in s.tokens && Leaves(s, step, n)
    ensures n in Next(s, step).tokens && Next(s, step).tokens[n] == s.tokens[n]
  {
    assert TokenOk(s, n);
    if step.AdvanceStep? && step.request < |s.requests| { assert RequestOk(s, s.requests[step.request]); }
  }

  lemma {:induction false} RunLeaves(s: Sessions, steps: seq<Step>, n: nat)
    requires Inv(s) && n in s.tokens && LeftAlone(s, steps, n)
    ensures Inv(Run(s, steps)) && n in Run(s, steps).tokens && Run(s, steps).tokens[n] == s.tokens[n]
  {
    if steps != [] {
      var front, last := steps[..|steps| - 1], steps[|steps| - 1];
      RunLeaves(s, front, n);
      NextKeepsInv(Run(s, front), last);
      NextLeaves(Run(s, front), last, n);
    }
  }

  /**
   * A session lasts fifteen days: whatever happens in between, as long as it is
   * neither rotated nor revoked, its token buys the next session at every time
   * up to 1,296,000,000 ms after its issue, and none later.
   */
  lemma SessionLastsIff(s: Sessions, step: Step, issued: Sessions, steps: seq<Step>, s': Sessions, n: nat, ids: seq<nat>)
    requires Inv(s) && Issues(s, step, n) && issued == Next(s, step)
    requires LeftAlone(issued, steps, n) && s' == Run(issued, steps)
    requires |ids| == 4 && Unseen(s', ids)
    ensures n in issued.tokens && |RefreshedAlone(s', n, issued.tokens[n].admin, ids).requests| == |s'.requests| + 1
    ensures RefreshedAlone(s', n, issued.tokens[n].admin, ids).requests[|s'.requests|] ==
            if s'.now <= s.now + 1_296_000_000 then Granted(n, ids[1], true) else Denied(n, ExpiredToken)
  {
    NextKeepsInv(s, step);
    IssuedRow(s, step, issued, n);
    RunLeaves(issued, steps, n);
    RefreshedAloneIff(s', n, issued.tokens[n].admin, ids);
  }

  lemma IssuedRow(s: Sessions, step: Step, issued: Sessions, n: nat)
    requires Inv(s) && Issues(s, step, n) && issued == Next(s, step)
    ensures n in issued.tokens && issued.tokens[n].expiresAt == s.now + 1_296_000_000
    ensures issued.tokens[n].revokedAt.None? && issued.tokens[n].replacedBy.None?
  {
    if step.AdvanceStep? && step.request < |s.requests| { assert RequestOk(s, s.requests[step.request]); }
  }

  /** A token logged out before it was rotated is never good for a session again. */
  lemma LoggedOutForGood(s: Sessions, out: Sessions, steps: seq<Step>, s': Sessions, t: nat, ids: seq<nat>)
    requires Inv(s) && t in s.tokens && s.tokens[t].replacedBy.None?
    requires out == Next(s, LogoutStep(t)) && s' == Run(out, steps)
    requires |ids| == 4 && Unseen(s', ids)
    ensures |RefreshedAlone(s', t, s.tokens[t].admin, ids).requests| == |s'.requests| + 1
    ensures RefreshedAlone(s', t, s.tokens[t].admin, ids).requests[|s'.requests|]
            == Denied(t, if s'.now <= s.tokens[t].expiresAt then Reuse else ExpiredToken)
  {
    NextKeepsInv(s, LogoutStep(t));
    RevokedSince(out, steps, t);
    RefreshedAloneIff(s', t, s.tokens[t].admin, ids);
  }

  // ── What survives a family revocation ──────────────────────────────────

  ghost predicate NoneLive(s: Sessions, a: string) {
    forall t :: t in s.tokens && s.tokens[t].admin == a ==> !Live(s, t)
  }

  /** A request that has only its session left to issue. */
  predicate Issuing(q: Request, a: string) {
    (q.Claimed? || q.Excused?) && q.subject == a
  }

  /** A rotated token whose replay would be excused: not expired, or past that check already. */
  ghost predicate Excusable(s: Sessions, t: nat, a: string) {
    && WithinGrace(s, t) && s.tokens[t].admin == a
    && (s.now <= s.tokens[t].expiresAt || exists r :: 0 <= r < |s.requests| && (s.requests[r] == Found(t, a) || s.requests[r] == Lost(t, a)))
  }

  /** A way to a session that needs no login. */
  ghost predicate Door(s: Sessions, a: string) {
    || (exists r :: 0 <= r < |s.requests| && Issuing(s.requests[r], a))
    || (exists t :: t in s.tokens && Excusable(s, t, a))
  }

  /** The administrator neither logs in nor, with a token of theirs, out. */
  predicate Absent(s: Sessions, step: Step, a: string) {
    match step
    case LoginStep(b, _) => b != a
    case LogoutStep(t) => t in s.tokens ==> s.tokens[t].admin != a
    case _ => true
  }

  ghost predicate AbsentRun(s: Sessions, steps: seq<Step>, a: string) {
    forall n :: 0 <= n < |steps| ==> Absent(s, steps[n], a)
  }

  /** No session, no door, and no token the administrator did not have. */
  ghost predicate Shut(s: Sessions, s': Sessions, a: string) {
    && NoneLive(s', a) && !Door(s', a)
    && forall t :: t in s'.tokens && s'.tokens[t].admin == a ==> t in s.tokens && s.tokens[t].admin == a
  }

  /** With no way open, a request carried on is not about to issue a session. */
  lemma AdvancedIssuesNone(s: Sessions, r: nat, newId: nat, a: string, q: nat)
    requires Inv(s) && NoneLive(s, a) && !Door(s, a) && r < |s.requests| && newId !in s.used
    requires q < |Advanced(s, r, newId).requests|
    ensures !Issuing(Advanced(s, r, newId).requests[q], a)
  {
    assert RequestOk(s, s.requests[r]) && !Issuing(s.requests[q], a);
    if q == r && s.requests[r].Lost? && s.requests[r].subject == a { assert !Excusable(s, s.requests[r].token, a); }
  }

  /** And no replay of a token becomes excusable. */
  lemma AdvancedExcusesNone(s: Sessions, r: nat, newId: nat, a: string, t: nat)
    requires Inv(s) && NoneLive(s, a) && !Door(s, a) && r < |s.requests| && newId !in s.used
    requires t in Advanced(s, r, newId).tokens
    ensures !Excusable(Advanced(s, r, newId), t, a)
  {
    assert RequestOk(s, s.requests[r]) && !Issuing(s.requests[r], a);
    if t in s.tokens {
      assert !Excusable(s, t, a);
      assert s.requests[r] == Found(t, a) ==> !WithinGrace(s, t);
    }
  }

  lemma AdvancedShut(s0: Sessions, s: Sessions, r: nat, newId: nat, a: string)
    requires Inv(s) && Shut(s0, s, a) && r < |s.requests| && newId !in s.used
    ensures Shut(s0, Advanced(s, r, newId), a)
  {
    var s' := Advanced(s, r, newId);
    assert RequestOk(s, s.requests[r]) && !Issuing(s.requests[r], a);
    forall q | 0 <= q < |s'.requests| ensures !Issuing(s'.requests[q], a) { AdvancedIssuesNone(s, r, newId, a, q); }
    forall t | t in s'.tokens ensures !Excusable(s', t, a) { AdvancedExcusesNone(s, r, newId, a, t); }
  }

  lemma NextShut(s0: Sessions, s: Sessions, step: Step, a: string)
    requires Inv(s) && Shut(s0, s, a) && Absent(s0, step, a)
    ensures Shut(s0, Next(s, step), a)
  {
    var s' := Next(s, step);
    match step
    case AdvanceStep(r, newId) => if r < |s.requests| && newId !in s.used { AdvancedShut(s0, s, r, newId, a); }
    case _ =>
      forall q | 0 <= q < |s'.requests| ensures !Issuing(s'.requests[q], a) {
        if q < |s.requests| { assert !Issuing(s.requests[q], a); }
      }
      forall t | t in s'.tokens ensures !Excusable(s', t, a) {
        if t in s.tokens { assert !Excusable(s, t, a); }
      }
  }

  lemma {:induction false} RunShut(s: Sessions, steps: seq<Step>, a: string)
    requires Inv(s) && NoneLive(s, a) && !Door(s, a) && AbsentRun(s, steps, a)
    ensures Inv(Run(s, steps)) && Shut(s, Run(s, steps), a)
  {
    if steps != [] {
      var front, last := steps[..|steps| - 1], steps[|steps| - 1];
      RunShut(s, front, a);
      NextKeepsInv(Run(s, front), last);
      NextShut(s, Run(s, front), last, a);
    }
  }

  lemma {:induction false} RunFirst(s: Sessions, step: Step, rest: seq<Step>)
    ensures Run(s, [step] + rest) == Run(Next(s, step), rest)
  {
    var steps := [step] + rest;
    if rest == [] {
      assert steps[..0] == [] && steps == [step];
      assert Run(s, [step]) == Next(Run(s, []), step);
    } else {
      assert steps[..|steps| - 1] == [step] + rest[..|rest| - 1];
      RunFirst(s, step, rest[..|rest| - 1]);
    }
  }

  lemma {:induction false} Unused(used: set<nat>) returns (id: nat)
    ensures forall u :: u in used ==> u < id
  {
    if used == {} {
      id := 0;
    } else {
      var u :| u in used;
      var above := Unused(used - {u});
      id := if u < above then above else u + 1;
      assert used == (used - {u}) + {u};
    }
  }

  /** Only presenting tokens and carrying requests on. */
  predicate Plain(steps: seq<Step>) {
    forall n :: 0 <= n < |steps| ==> steps[n].PresentStep? || steps[n].AdvanceStep?
  }

  lemma IssuingOpens(s: Sessions, r: nat, a: string) returns (steps: seq<Step>)
    requires r < |s.requests| && Issuing(s.requests[r], a)
    ensures Plain(steps) && !NoneLive(Run(s, steps), a)
  {
    var newId := Unused(s.used);
    steps := [AdvanceStep(r, newId)];
    RunFirst(s, steps[0], []);
    assert steps == [steps[0]] + [];
    var id := if s.requests[r].Claimed? then s.requests[r].replacement else newId;
    assert Live(Run(s, steps), id);
  }

  lemma LostOpens(s: Sessions, r: nat, t: nat, a: string) returns (steps: seq<Step>)
    requires r < |s.requests| && s.requests[r] == Lost(t, a) && WithinGrace(s, t)
    ensures Plain(steps) && !NoneLive(Run(s, steps), a)
  {
    var newId := Unused(s.used);
    var rest := IssuingOpens(Next(s, AdvanceStep(r, newId)), r, a);
    RunFirst(s, AdvanceStep(r, newId), rest);
    steps := [AdvanceStep(r, newId)] + rest;
  }

  lemma FoundOpens(s: Sessions, r: nat, t: nat, a: string) returns (steps: seq<Step>)
    requires r < |s.requests| && s.requests[r] == Found(t, a) && WithinGrace(s, t)
    ensures Plain(steps) && !NoneLive(Run(s, steps), a)
  {
    var newId := Unused(s.used);
    var rest := LostOpens(Next(s, AdvanceStep(r, newId)), r, t, a);
    RunFirst(s, AdvanceStep(r, newId), rest);
    steps := [AdvanceStep(r, newId)] + rest;
  }

  lemma ReplayOpens(s: Sessions, t: nat, a: string) returns (steps: seq<Step>)
    requires WithinGrace(s, t) && s.tokens[t].admin == a && s.now <= s.tokens[t].expiresAt
    ensures Plain(steps) && !NoneLive(Run(s, steps), a)
  {
    var r, presented := |s.requests|, Next(s, PresentStep(t, a));
    var newId := Unused(s.used);
    var rest := FoundOpens(Next(presented, AdvanceStep(r, newId)), r, t, a);
    RunFirst(presented, AdvanceStep(r, newId), rest);
    RunFirst(s, PresentStep(t, a), [AdvanceStep(r, newId)] + rest);
    steps := [PresentStep(t, a)] + ([AdvanceStep(r, newId)] + rest);
  }

  lemma DoorOpens(s: Sessions, a: string) returns (steps: seq<Step>)
    requires Door(s, a)
    ensures Plain(steps) && !NoneLive(Run(s, steps), a)
  {
    if exists r :: 0 <= r < |s.requests| && Issuing(s.requests[r], a) {
      var r :| 0 <= r < |s.requests| && Issuing(s.requests[r], a);
      steps := IssuingOpens(s, r, a);
    } else {
      var t :| t in s.tokens && Excusable(s, t, a);
      if s.now <= s.tokens[t].expiresAt {
        steps := ReplayOpens(s, t, a);
      } else {
        var r :| 0 <= r < |s.requests| && (s.requests[r] == Found(t, a) || s.requests[r] == Lost(t, a));
        if s.requests[r].Found? { steps := FoundOpens(s, r, t, a); } else { steps := LostOpens(s, r, t, a); }
      }
    }
  }

  /**
   * Revoking a family leaves its administrator without a live session, and for
   * good, until they log in or out themselves, exactly when no request of theirs
   * has been granted but not issued yet, and no token rotated inside the grace
   * window can still be replayed.
   */
  lemma RevocationIsFinalIff(s: Sessions, r: nat)
    requires Inv(s) && r < |s.requests| && s.requests[r].Suspected?
    ensures var s', a := FamilyRevoked(s, r), s.requests[r].subject;
            && NoneLive(s', a)
            && ((forall steps :: AbsentRun(s', steps, a) ==> NoneLive(Run(s', steps), a)) <==> !Door(s', a))
  {
    var s', a := FamilyRevoked(s, r), s.requests[r].subject;
    RevokeKeepsInv(s, r);
    if Door(s', a) {
      var steps := DoorOpens(s', a);
      assert AbsentRun(s', steps, a);
    } else {
      forall steps | AbsentRun(s', steps, a) ensures NoneLive(Run(s', steps), a) { RunShut(s', steps, a); }
    }
  }

  // ── The service ────────────────────────────────────────────────────────

  /** The token table, and the refreshes in flight over it; each method is one database call. */
  class AuthService {
    var tokens: map<nat, Token>
    var requests: seq<Request>
    var used: set<nat>
    var now: nat

    function View(): Sessions
      reads this
    {
      Sessions(tokens, requests, used, now)
    }

    constructor ()
      ensures View() == Start
    {
      tokens, requests, used, now := map[], [], {}, 0;
    }

    method FindStored(r: nat)
      requires r < |requests| && requests[r].Presented?
      modifies this`requests
      ensures View() == LookedUp(old(View()), r)
    {
      var t, subject := requests[r].token, requests[r].subject;
      if t !in tokens || tokens[t].admin != subject {
        requests := requests[r := Denied(t, InvalidToken)];
      } else if tokens[t].expiresAt < now {
        requests := requests[r := Denied(t, ExpiredToken)];
      } else {
        requests := requests[r := Found(t, subject)];
      }
    }

    method Claim(r: nat, newId: nat)
      requires r < |requests| && requests[r].Found?
      modifies this
      ensures View() == Claiming(old(View()), r, newId)
    {
      var t, subject := requests[r].token, requests[r].subject;
      used := used + {newId};
      if t in tokens && tokens[t].revokedAt.None? {
        tokens := tokens[t := tokens[t].(revokedAt := Some(now), replacedBy := Some(newId))];
        requests := requests[r := Claimed(t, subject, newId)];
      } else {
        requests := requests[r := Lost(t, subject)];
      }
    }

    method Recheck(r: nat)
      requires r < |requests| && requests[r].Lost?
      modifies this`requests
      ensures View() == Rechecked(old(View()), r)
    {
      var t, subject := requests[r].token, requests[r].subject;
      if t in tokens && tokens[t].replacedBy.Some? && tokens[t].revokedAt.Some? && now - tokens[t].revokedAt.value < RACE_GRACE_MS {
        requests := requests[r := Excused(t, subject)];
      } else {
        requests := requests[r := Suspected(t, subject)];
      }
    }

    method IssueTokens(r: nat, newId: nat)
      requires r < |requests| && (requests[r].Claimed? || requests[r].Excused?)
      modifies this
      ensures View() == Issued(old(View()), r, newId)
    {
      var request := requests[r];
      var id := if request.Claimed? then request.replacement else newId;
      tokens := tokens[id := Token(request.subject, now + REFRESH_TOKEN_TTL_MS, None, None)];
      used := used + {id};
      requests := requests[r := Granted(request.token, id, request.Claimed?)];
    }

    method RevokeFamily(r: nat)
      requires r < |requests| && requests[r].Suspected?
      modifies this
      ensures View() == FamilyRevoked(old(View()), r)
    {
      tokens := RevokedAll(tokens, requests[r].subject, now);
      requests := requests[r := Denied(requests[r].token, Reuse)];
    }

    method Logout(t: nat)
      modifies this`tokens
      ensures View() == Next(old(View()), LogoutStep(t))
    {
      if t in tokens {
        tokens := tokens[t := tokens[t].(revokedAt := Some(now))];
      }
    }
  }
}

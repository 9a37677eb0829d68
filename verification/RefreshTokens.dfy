/** `AuthService` and the deletion of an account: refresh tokens that replace one another.

    A request is one step. Passwords, signatures and expiry are inputs: a request says whether they
    were valid, and a raw token stands for the row that its hash finds. */
module RefreshTokens {
  import opened Database

  type TokenId = nat

  datatype Status = Enabled | Blocked | Deleted

  /** `password` is history: it counts the passwords that the account has had. No statement reads it. */
  datatype Account = Account(status: Status, password: nat)

  /** `login` is history: the token issued when the session was opened. No statement reads it. */
  datatype Token = Token(user: UserId, login: TokenId, revoked: bool, replacedBy: Option<TokenId>)

  /** The table of tokens in order of creation: the id of a token is its position. */
  datatype Sessions = Sessions(tokens: seq<Token>, accounts: map<UserId, Account>)

  const NoSessions := Sessions([], map[])

  datatype Request =
    | Register(user: UserId)
    | Login(user: UserId, passwordValid: bool)
    | Refresh(subject: UserId, token: Option<TokenId>)
    | Logout(token: Option<TokenId>)
    | ResetPassword(user: UserId, linkValid: bool)
    | ChangePassword(user: UserId, passwordValid: bool)
    | DeleteAccount(user: UserId)

  predicate IsToken(s: Sessions, t: Option<TokenId>) {
    t.Some? && t.value < |s.tokens|
  }

  predicate IsEnabled(s: Sessions, u: UserId) {
    u in s.accounts && s.accounts[u].status == Enabled
  }

  function Issue(s: Sessions, u: UserId): Sessions {
    s.(tokens := s.tokens + [Token(u, |s.tokens|, false, None)])
  }

  /** Unconditional: it does not look at `t` again. */
  function Rotate(s: Sessions, t: TokenId): Sessions
    requires t < |s.tokens|
  {
    var was := s.tokens[t];
    var rotated := was.(revoked := true, replacedBy := Some(|s.tokens|));
    s.(tokens := s.tokens[t := rotated] + [Token(was.user, was.login, false, None)])
  }

  function NewPassword(s: Sessions, u: UserId): Sessions
    requires u in s.accounts
  {
    s.(accounts := s.accounts[u := s.accounts[u].(password := s.accounts[u].password + 1)])
  }

  function Revoke(s: Sessions, t: TokenId): Sessions
    requires t < |s.tokens|
  {
    s.(tokens := s.tokens[t := s.tokens[t].(revoked := true)])
  }

  function RevokeAll(s: Sessions, u: UserId): Sessions {
    s.(tokens := seq(|s.tokens|, i requires 0 <= i < |s.tokens| =>
                       if s.tokens[i].user == u then s.tokens[i].(revoked := true) else s.tokens[i]))
  }

  /** A refresh goes through: the token is live and its account is enabled and the JWT's subject. */
  predicate Accepts(s: Sessions, subject: UserId, t: Option<TokenId>) {
    IsToken(s, t) && !s.tokens[t.value].revoked && IsEnabled(s, s.tokens[t.value].user)
    && s.tokens[t.value].user == subject
  }

  function Step(s: Sessions, q: Request): Sessions {
    match q
    case Register(u) => if u in s.accounts then s else Issue(s.(accounts := s.accounts[u := Account(Enabled, 0)]), u)
    case Login(u, valid) => if IsEnabled(s, u) && valid then Issue(s, u) else s
    case Refresh(subject, t) =>
      if !IsToken(s, t) then s
      else if s.tokens[t.value].revoked then RevokeAll(s, s.tokens[t.value].user)
      else if Accepts(s, subject, t) then Rotate(s, t.value)
      else s
    case Logout(t) => if IsToken(s, t) then Revoke(s, t.value) else s
    case ResetPassword(u, valid) => if IsEnabled(s, u) && valid then RevokeAll(NewPassword(s, u), u) else s
    case ChangePassword(u, valid) => if u in s.accounts && valid then RevokeAll(NewPassword(s, u), u) else s
    case DeleteAccount(u) =>
      if u in s.accounts then RevokeAll(s.(accounts := s.accounts[u := s.accounts[u].(status := Deleted)]), u) else s
  }

  // ---------- The same changes, token by token ----------

  /** Every token of the user is revoked, and every other token is as before. */
  ghost predicate ClosesAll(before: seq<Token>, u: UserId, after: seq<Token>) {
    && |after| == |before|
    && forall i | 0 <= i < |before| ::
         after[i] == if before[i].user == u then before[i].(revoked := true) else before[i]
  }

  /** A new token of the session of `t` replaces it, and every other token is as before. */
  ghost predicate Replaces(before: seq<Token>, t: TokenId, after: seq<Token>) {
    && t < |before| && |after| == |before| + 1
    && after[t] == Token(before[t].user, before[t].login, true, Some(|before|))
    && after[|before|] == Token(before[t].user, before[t].login, false, None)
    && forall i | 0 <= i < |before| && i != t :: after[i] == before[i]
  }

  /** The account has another password, and every other account is as before. */
  ghost predicate ChangesPassword(before: map<UserId, Account>, u: UserId, after: map<UserId, Account>) {
    u in before && after == before[u := Account(before[u].status, before[u].password + 1)]
  }

  class AuthService {
    var tokens: seq<Token>
    var accounts: map<UserId, Account>

    constructor ()
      ensures Now() == NoSessions
    {
      tokens, accounts := [], map[];
    }

    function Now(): Sessions
      reads this
    {
      Sessions(tokens, accounts)
    }

    method IssueTokens(u: UserId) returns (id: TokenId)
      modifies this`tokens
      ensures Now() == Issue(old(Now()), u) && id == |old(tokens)|
      ensures tokens == old(tokens) + [Token(u, id, false, None)]
    {
      id := |tokens|;
      tokens := tokens + [Token(u, id, false, None)];
    }

    method RotateTokens(t: TokenId) returns (id: TokenId)
      requires t < |tokens|
      modifies this`tokens
      ensures Now() == Rotate(old(Now()), t) && id == |old(tokens)|
      ensures Replaces(old(tokens), t, tokens)
    {
      var existing := tokens[t];
      id := |tokens|;
      tokens := tokens + [Token(existing.user, existing.login, false, None)];
      tokens := tokens[t := existing.(revoked := true, replacedBy := Some(id))];
    }

    /** UPDATE of every unrevoked token of the user. */
    method RevokeSessions(u: UserId)
      modifies this`tokens
      ensures Now() == RevokeAll(old(Now()), u)
      ensures ClosesAll(old(tokens), u, tokens)
    {
      var i := 0;
      while i < |tokens|
        invariant i <= |tokens| == |old(tokens)|
        invariant forall k | 0 <= k < i :: tokens[k] == RevokeAll(old(Now()), u).tokens[k]
        invariant forall k | i <= k < |tokens| :: tokens[k] == old(tokens)[k]
      {
        if tokens[i].user == u && !tokens[i].revoked {
          tokens := tokens[i := tokens[i].(revoked := true)];
        }
        i := i + 1;
      }
    }

    method RegisterUser(u: UserId) returns (session: Option<TokenId>)
      modifies this
      ensures Now() == Step(old(Now()), Register(u))
      ensures session == if u in old(accounts) then None else Some(|old(tokens)|)
      ensures if u in old(accounts) then tokens == old(tokens) && accounts == old(accounts)
              else
                && accounts == old(accounts)[u := Account(Enabled, 0)]
                && tokens == old(tokens) + [Token(u, |old(tokens)|, false, None)]
    {
      if u in accounts {
        return None;
      }
      accounts := accounts[u := Account(Enabled, 0)];
      var id := IssueTokens(u);
      return Some(id);
    }

    method LogIn(u: UserId, passwordValid: bool) returns (session: Option<TokenId>)
      modifies this`tokens
      ensures Now() == Step(old(Now()), Login(u, passwordValid))
      ensures session.Some? <==> u in accounts && accounts[u].status == Enabled && passwordValid
      ensures session.Some? ==> session.value == |old(tokens)|
      ensures tokens == old(tokens) + if session.Some? then [Token(u, |old(tokens)|, false, None)] else []
    {
      if u !in accounts || !passwordValid || accounts[u].status != Enabled {
        return None;
      }
      var id := IssueTokens(u);
      return Some(id);
    }

    /** `subject` is who the signature speaks for, and `t` the row that the token's hash finds. */
    method RefreshSession(subject: UserId, t: Option<TokenId>) returns (session: Option<TokenId>)
      requires t.Some? ==> t.value < |tokens|
      modifies this`tokens
      ensures Now() == Step(old(Now()), Refresh(subject, t))
      ensures if t.None? then session == None && tokens == old(tokens)
              else
                var was := old(tokens)[t.value];
                if was.revoked then session == None && ClosesAll(old(tokens), was.user, tokens)
                else if was.user == subject && subject in accounts && accounts[subject].status == Enabled
                then session == Some(|old(tokens)|) && Replaces(old(tokens), t.value, tokens)
                else session == None && tokens == old(tokens)
    {
      if t == None {
        return None;
      }
      var existing := tokens[t.value];
      if existing.revoked {
        RevokeSessions(existing.user);
        return None;
      }
      if existing.user !in accounts || accounts[existing.user].status != Enabled || existing.user != subject {
        return None;
      }
      var id := RotateTokens(t.value);
      return Some(id);
    }

    method LogOut(t: Option<TokenId>)
      requires t.Some? ==> t.value < |tokens|
      modifies this`tokens
      ensures Now() == Step(old(Now()), Logout(t))
      ensures tokens == if t.None? then old(tokens) else old(tokens)[t.value := old(tokens)[t.value].(revoked := true)]
    {
      if t.Some? && !tokens[t.value].revoked {
        tokens := tokens[t.value := tokens[t.value].(revoked := true)];
      }
    }

    method ResetUserPassword(u: UserId, linkValid: bool) returns (ok: bool)
      modifies this
      ensures Now() == Step(old(Now()), ResetPassword(u, linkValid))
      ensures ok <==> linkValid && u in old(accounts) && old(accounts)[u].status == Enabled
      ensures if ok then ClosesAll(old(tokens), u, tokens) && ChangesPassword(old(accounts), u, accounts)
              else tokens == old(tokens) && accounts == old(accounts)
    {
      if !linkValid || u !in accounts || accounts[u].status != Enabled {
        return false;
      }
      accounts := accounts[u := accounts[u].(password := accounts[u].password + 1)];
      RevokeSessions(u);
      return true;
    }

    method ChangeUserPassword(u: UserId, passwordValid: bool) returns (ok: bool)
      modifies this
      ensures Now() == Step(old(Now()), ChangePassword(u, passwordValid))
      ensures ok <==> u in old(accounts) && passwordValid
      ensures if ok then ClosesAll(old(tokens), u, tokens) && ChangesPassword(old(accounts), u, accounts)
              else tokens == old(tokens) && accounts == old(accounts)
    {
      if u !in accounts || !passwordValid {
        return false;
      }
      accounts := accounts[u := accounts[u].(password := accounts[u].password + 1)];
      RevokeSessions(u);
      return true;
    }

    method SoftDeleteAndRevokeSessions(u: UserId) returns (ok: bool)
      modifies this
      ensures Now() == Step(old(Now()), DeleteAccount(u))
      ensures ok <==> u in old(accounts)
      ensures if ok then
                && ClosesAll(old(tokens), u, tokens)
                && accounts == old(accounts)[u := old(accounts)[u].(status := Deleted)]
              else tokens == old(tokens) && accounts == old(accounts)
    {
      if u !in accounts {
        return false;
      }
      accounts := accounts[u := accounts[u].(status := Deleted)];
      RevokeSessions(u);
      return true;
    }
  }

  // ---------- Chains ----------

  predicate Live(s: Sessions, t: TokenId) {
    t < |s.tokens| && !s.tokens[t].revoked
  }

  /** Token `i` belongs to the session that its first token opened; it was replaced by the next token
      of that session, and only the last one is not replaced. */
  ghost predicate ChainOk(s: Sessions, i: TokenId)
    requires i < |s.tokens|
  {
    var Token(u, login, revoked, next) := s.tokens[i];
    && login <= i && s.tokens[login].login == login && s.tokens[login].user == u
    && (next.Some? ==> revoked && i < next.value < |s.tokens| && s.tokens[next.value].login == login)
    && (forall j | i < j < |s.tokens| && s.tokens[j].login == login :: next.Some? && next.value <= j)
  }

  ghost predicate SessionsOk(s: Sessions) {
    && (forall i: TokenId | i < |s.tokens| :: ChainOk(s, i) && s.tokens[i].user in s.accounts)
    && (forall i: TokenId | Live(s, i) :: s.accounts[s.tokens[i].user].status != Deleted)
  }

  ghost predicate SignedOut(s: Sessions, u: UserId) {
    forall i: TokenId | Live(s, i) :: s.tokens[i].user != u
  }

  /** A session has at most one live token, and no token is replaced by two or replaces two. */
  ghost predicate OneLive(s: Sessions) {
    forall i: TokenId, j: TokenId | Live(s, i) && Live(s, j) && s.tokens[i].login == s.tokens[j].login :: i == j
  }

  predicate SameSuccessor(s: Sessions, i: TokenId, j: TokenId) {
    i < |s.tokens| && j < |s.tokens| && s.tokens[i].replacedBy == s.tokens[j].replacedBy != None
  }

  lemma ChainsAreDisjoint(s: Sessions)
    requires SessionsOk(s)
    ensures OneLive(s)
    ensures forall i: TokenId, j: TokenId | SameSuccessor(s, i, j) :: i == j
  {
    forall i: TokenId, j: TokenId | Live(s, i) && Live(s, j) && s.tokens[i].login == s.tokens[j].login ensures i == j {
      assert ChainOk(s, i) && ChainOk(s, j);
    }
    forall i: TokenId, j: TokenId | SameSuccessor(s, i, j) ensures i == j {
      assert ChainOk(s, i) && ChainOk(s, j);
    }
  }

  lemma ChainsHold(s: Sessions, i: TokenId)
    requires SessionsOk(s) && i < |s.tokens|
    ensures ChainOk(s, i) && s.tokens[i].user in s.accounts
  {
  }

  ghost predicate Forward(s: Sessions) {
    forall i: TokenId | i < |s.tokens| && s.tokens[i].replacedBy.Some? :: i < s.tokens[i].replacedBy.value < |s.tokens|
  }

  /** The tokens that replaced `t`, one after the other. */
  ghost function Follow(s: Sessions, t: TokenId): (chain: seq<TokenId>)
    requires t < |s.tokens| && Forward(s)
    ensures |chain| > 0 && chain[0] == t
    decreases |s.tokens| - t
  {
    if s.tokens[t].replacedBy.None? then [t] else [t] + Follow(s, s.tokens[t].replacedBy.value)
  }

  ghost predicate LaterInSession(s: Sessions, t: TokenId, j: TokenId)
    requires t < |s.tokens|
  {
    t <= j < |s.tokens| && s.tokens[j].login == s.tokens[t].login
  }

  lemma ChainsGoForward(s: Sessions)
    requires SessionsOk(s)
    ensures Forward(s)
  {
    forall i: TokenId | i < |s.tokens| && s.tokens[i].replacedBy.Some?
      ensures i < s.tokens[i].replacedBy.value < |s.tokens|
    {
      assert ChainOk(s, i);
    }
  }

  /** Following `replacedBy` goes through every later token of the session, in order of creation, and
      only the last of them can be live: a session is one chain, without a cycle. */
  lemma {:induction false} FollowIsTheSession(s: Sessions, t: TokenId)
    requires SessionsOk(s) && t < |s.tokens|
    ensures Forward(s)
    ensures forall j :: j in Follow(s, t) <==> LaterInSession(s, t, j)
    ensures forall a, b | 0 <= a < b < |Follow(s, t)| :: Follow(s, t)[a] < Follow(s, t)[b]
    ensures forall a | 0 <= a < |Follow(s, t)| - 1 :: !Live(s, Follow(s, t)[a])
    decreases |s.tokens| - t
  {
    hide SessionsOk;
    ChainsGoForward(s);
    ChainsHold(s, t);
    if s.tokens[t].replacedBy.Some? {
      var next := s.tokens[t].replacedBy.value;
      FollowIsTheSession(s, next);
      forall j ensures j in Follow(s, t) <==> LaterInSession(s, t, j) {
        assert LaterInSession(s, t, j) <==> j == t || LaterInSession(s, next, j);
      }
      assert forall a | 0 < a < |Follow(s, t)| :: Follow(s, t)[a] == Follow(s, next)[a - 1];
      assert forall a | 0 < a < |Follow(s, t)| ::
          Follow(s, t)[a] in Follow(s, next) && LaterInSession(s, next, Follow(s, t)[a]);
    }
  }

  // ---------- Every request ----------

  lemma IssueKeeps(s: Sessions, u: UserId)
    requires SessionsOk(s) && IsEnabled(s, u)
    ensures SessionsOk(Issue(s, u))
  {
    var s' := Issue(s, u);
    forall i | 0 <= i < |s'.tokens| ensures ChainOk(s', i) && s'.tokens[i].user in s'.accounts {
      if i < |s.tokens| {
        assert ChainOk(s, i);
      }
    }
  }

  lemma RotateKeepsChain(s: Sessions, t: TokenId, i: TokenId)
    requires SessionsOk(s) && Live(s, t) && i <= |s.tokens|
    ensures ChainOk(Rotate(s, t), i)
  {
    hide SessionsOk;
    var s' := Rotate(s, t);
    assert ChainOk(s, t) && (i < |s.tokens| ==> ChainOk(s, i)) by {
      ChainsHold(s, t);
      if i < |s.tokens| {
        ChainsHold(s, i);
      }
    }
    assert s.tokens[t].replacedBy.None?;
    forall k: TokenId | k < |s.tokens| ensures s'.tokens[k] == if k == t then s'.tokens[t] else s.tokens[k] {
    }
    if i < |s.tokens| {
      forall j | i < j < |s'.tokens| && s'.tokens[j].login == s'.tokens[i].login
        ensures s'.tokens[i].replacedBy.Some? && s'.tokens[i].replacedBy.value <= j
      {
        if j == |s.tokens| && i != t {
          assert i < t;
        }
      }
    }
  }

  lemma RotateKeeps(s: Sessions, t: TokenId)
    requires SessionsOk(s) && Live(s, t)
    ensures SessionsOk(Rotate(s, t))
  {
    hide ChainOk;
    var s' := Rotate(s, t);
    forall i: TokenId | i < |s'.tokens| ensures ChainOk(s', i) && s'.tokens[i].user in s'.accounts {
      RotateKeepsChain(s, t, i);
    }
  }

  lemma RevokingKeeps(s: Sessions, s': Sessions)
    requires SessionsOk(s) && |s'.tokens| == |s.tokens|
    requires forall i | 0 <= i < |s.tokens| ::
               s'.tokens[i] == s.tokens[i].(revoked := s'.tokens[i].revoked)
               && (s.tokens[i].revoked ==> s'.tokens[i].revoked)
    requires s.accounts.Keys <= s'.accounts.Keys
    requires forall u | u in s.accounts :: s'.accounts[u].status == s.accounts[u].status || SignedOut(s', u)
    ensures SessionsOk(s')
  {
    forall i | 0 <= i < |s'.tokens| ensures ChainOk(s', i) && s'.tokens[i].user in s'.accounts {
      assert ChainOk(s, i);
    }
  }

  lemma StepKeeps(s: Sessions, q: Request)
    requires SessionsOk(s)
    ensures SessionsOk(Step(s, q))
  {
    hide SessionsOk, ChainOk;
    match q
    case Register(u) =>
      if u !in s.accounts {
        var s1 := s.(accounts := s.accounts[u := Account(Enabled, 0)]);
        assert SessionsOk(s1) by {
          NewAccountKeeps(s, u);
        }
        IssueKeeps(s1, u);
      }
    case Login(u, valid) =>
      if IsEnabled(s, u) && valid {
        IssueKeeps(s, u);
      }
    case Refresh(subject, t) =>
      if Accepts(s, subject, t) {
        RotateKeeps(s, t.value);
      } else {
        RevokingKeeps(s, Step(s, q));
      }
    case _ => RevokingKeeps(s, Step(s, q));
  }

  lemma NewAccountKeeps(s: Sessions, u: UserId)
    requires SessionsOk(s) && u !in s.accounts
    ensures SessionsOk(s.(accounts := s.accounts[u := Account(Enabled, 0)]))
  {
    var s' := s.(accounts := s.accounts[u := Account(Enabled, 0)]);
    forall i | 0 <= i < |s'.tokens| ensures ChainOk(s', i) && s'.tokens[i].user in s'.accounts {
      assert ChainOk(s, i);
    }
  }

  /** Tokens keep their owner and session; revocation and deletion are for ever. */
  ghost predicate Grows(s: Sessions, s': Sessions) {
    && |s.tokens| <= |s'.tokens|
    && (forall i | 0 <= i < |s.tokens| ::
          s'.tokens[i].user == s.tokens[i].user && s'.tokens[i].login == s.tokens[i].login
          && (s.tokens[i].revoked ==> s'.tokens[i].revoked))
    && (forall u | u in s.accounts :: u in s'.accounts && s'.accounts[u].password >= s.accounts[u].password
                                    && (s.accounts[u].status == Deleted ==> s'.accounts[u].status == Deleted))
  }

  lemma StepGrows(s: Sessions, q: Request)
    ensures Grows(s, Step(s, q))
  {
  }

  /** A reused token, a new password and a deleted account sign the user out everywhere. */
  predicate SignsOut(s: Sessions, q: Request, u: UserId) {
    match q
    case Refresh(_, t) => IsToken(s, t) && s.tokens[t.value].revoked && s.tokens[t.value].user == u
    case ResetPassword(v, valid) => v == u && IsEnabled(s, u) && valid
    case ChangePassword(v, valid) => v == u && u in s.accounts && valid
    case DeleteAccount(v) => v == u && u in s.accounts
    case _ => false
  }

  predicate OpensSession(s: Sessions, q: Request, u: UserId) {
    (q == Register(u) && u !in s.accounts) || (q == Login(u, true) && IsEnabled(s, u))
  }

  lemma SignOutIsComplete(s: Sessions, q: Request, u: UserId)
    ensures SignsOut(s, q, u) ==> SignedOut(Step(s, q), u)
    ensures SignedOut(s, u) && !OpensSession(s, q, u) ==> SignedOut(Step(s, q), u)
  {
    hide Accepts;
  }

  // ---------- Every run ----------

  function Run(s: Sessions, requests: seq<Request>): Sessions {
    if requests == [] then s else Step(Run(s, requests[..|requests| - 1]), requests[|requests| - 1])
  }

  /** In every reachable state the tokens form disjoint chains with one live token at most. */
  lemma {:induction false} RunsKeepChains(requests: seq<Request>)
    ensures SessionsOk(Run(NoSessions, requests)) && OneLive(Run(NoSessions, requests))
  {
    if requests != [] {
      RunsKeepChains(requests[..|requests| - 1]);
      StepKeeps(Run(NoSessions, requests[..|requests| - 1]), requests[|requests| - 1]);
    }
    ChainsAreDisjoint(Run(NoSessions, requests));
  }

  lemma {:induction false} RunsGrow(s: Sessions, requests: seq<Request>)
    ensures Grows(s, Run(s, requests))
  {
    if requests != [] {
      RunsGrow(s, requests[..|requests| - 1]);
      StepGrows(Run(s, requests[..|requests| - 1]), requests[|requests| - 1]);
    }
  }

  // ---------- Who is not signed out ----------

  /** What ends a live token: its own rotation or logout, or the end of all sessions of its owner by a
      reused token, a new password or a deletion. */
  predicate Ends(s: Sessions, q: Request, t: TokenId) {
    && t < |s.tokens|
    && var owner := s.tokens[t].user;
       match q
       case Register(_) => false
       case Login(_, _) => false
       case Refresh(subject, x) =>
         && x.Some? && x.value < |s.tokens|
         && if s.tokens[x.value].revoked then s.tokens[x.value].user == owner
            else x.value == t && subject == owner && owner in s.accounts && s.accounts[owner].status == Enabled
       case Logout(x) => x == Some(t)
       case ResetPassword(v, valid) => v == owner && valid && v in s.accounts && s.accounts[v].status == Enabled
       case ChangePassword(v, valid) => v == owner && valid && v in s.accounts
       case DeleteAccount(v) => v == owner && v in s.accounts
  }

  /** What makes a token live: a registration, a login or a refresh that issues it. */
  predicate Begins(s: Sessions, q: Request, t: TokenId) {
    && t == |s.tokens|
    && match q
       case Register(u) => u !in s.accounts
       case Login(u, valid) => valid && u in s.accounts && s.accounts[u].status == Enabled
       case Refresh(subject, x) =>
         && x.Some? && x.value < |s.tokens| && !s.tokens[x.value].revoked && s.tokens[x.value].user == subject
         && subject in s.accounts && s.accounts[subject].status == Enabled
       case _ => false
  }

  /** One request decides about every token exactly: it is live afterwards iff it was live and is not
      ended, or is the one that was just issued. */
  lemma LiveIff(s: Sessions, q: Request, t: TokenId)
    ensures Live(Step(s, q), t) <==> (Live(s, t) && !Ends(s, q, t)) || Begins(s, q, t)
  {
  }

  ghost predicate Ended(s: Sessions, requests: seq<Request>, t: TokenId) {
    exists n: nat :: n < |requests| && EndsAt(s, requests, n, t)
  }

  ghost predicate EndsAt(s: Sessions, requests: seq<Request>, n: nat, t: TokenId)
    requires n < |requests|
  {
    Ends(Run(s, requests[..n]), requests[n], t)
  }

  lemma EndedSnoc(s: Sessions, requests: seq<Request>, t: TokenId)
    requires requests != []
    ensures var last := |requests| - 1;
            Ended(s, requests, t) <==>
            Ended(s, requests[..last], t) || Ends(Run(s, requests[..last]), requests[last], t)
  {
    hide Ends, Run;
    var last := |requests| - 1;
    forall n: nat | n < last ensures EndsAt(s, requests, n, t) <==> EndsAt(s, requests[..last], n, t) {
      assert requests[..last][..n] == requests[..n];
    }
    if Ended(s, requests[..last], t) {
      var n: nat :| n < last && EndsAt(s, requests[..last], n, t);
      assert EndsAt(s, requests, n, t);
    }
    if Ends(Run(s, requests[..last]), requests[last], t) {
      assert EndsAt(s, requests, last, t);
    }
  }

  /** A live token stays live, whatever anybody else does, exactly until it is rotated or logged out, or
      its owner is signed out everywhere. */
  lemma {:induction false} LiveUntilEnded(s: Sessions, requests: seq<Request>, t: TokenId)
    requires Live(s, t)
    ensures Live(Run(s, requests), t) <==> !Ended(s, requests, t)
    ensures t < |Run(s, requests).tokens|
  {
    hide Step, Ends, Begins, Ended;
    if requests == [] {
      assert !Ended(s, [], t) by {
        NothingEnded(s, t);
      }
    } else {
      var last := |requests| - 1;
      var before := Run(s, requests[..last]);
      LiveUntilEnded(s, requests[..last], t);
      EndedSnoc(s, requests, t);
      LiveIff(before, requests[last], t);
      NotReborn(before, requests[last], t);
      StepGrows(before, requests[last]);
    }
  }

  lemma NothingEnded(s: Sessions, t: TokenId)
    ensures !Ended(s, [], t)
  {
  }

  lemma NotReborn(s: Sessions, q: Request, t: TokenId)
    requires t < |s.tokens|
    ensures !Begins(s, q, t)
  {
  }

  /** A token that was logged out is never live again. */
  lemma LogoutIsFinal(s: Sessions, t: TokenId, requests: seq<Request>)
    requires t < |s.tokens|
    ensures !Live(Run(Step(s, Logout(Some(t))), requests), t)
  {
    RunsGrow(Step(s, Logout(Some(t))), requests);
  }

  /** No request of `requests` opens a session of `u`. */
  ghost predicate StaysAway(s: Sessions, requests: seq<Request>, u: UserId) {
    requests == [] || (StaysAway(s, requests[..|requests| - 1], u)
                       && !OpensSession(Run(s, requests[..|requests| - 1]), requests[|requests| - 1], u))
  }

  /** After a request that signs a user out, the user has no live token until the next login, and
      every token that existed before stays useless for ever, logins or not. */
  lemma {:induction false} SignedOutUntilLogin(s: Sessions, q: Request, u: UserId, requests: seq<Request>)
    requires SignsOut(s, q, u)
    ensures StaysAway(Step(s, q), requests, u) ==> SignedOut(Run(Step(s, q), requests), u)
    ensures forall i | 0 <= i < |s.tokens| && s.tokens[i].user == u :: !Live(Run(Step(s, q), requests), i)
  {
    var start := Step(s, q);
    SignOutIsComplete(s, q, u);
    RunsGrow(start, requests);
    forall i | 0 <= i < |s.tokens| && s.tokens[i].user == u ensures !Live(Run(start, requests), i) {
      assert start.tokens[i].revoked;
    }
    if requests != [] {
      SignedOutUntilLogin(s, q, u, requests[..|requests| - 1]);
      SignOutIsComplete(Run(start, requests[..|requests| - 1]), requests[|requests| - 1], u);
    }
  }

  /** A deleted account never has a live token again: no request can open a session for it. */
  lemma {:induction false} DeletedStaysOut(s: Sessions, u: UserId, requests: seq<Request>)
    requires u in s.accounts
    ensures SignedOut(Run(Step(s, DeleteAccount(u)), requests), u)
  {
    var start := Step(s, DeleteAccount(u));
    SignOutIsComplete(s, DeleteAccount(u), u);
    if requests != [] {
      DeletedStaysOut(s, u, requests[..|requests| - 1]);
      RunsGrow(start, requests[..|requests| - 1]);
      SignOutIsComplete(Run(start, requests[..|requests| - 1]), requests[|requests| - 1], u);
    }
  }

  /** A token that was rotated out and comes back, whenever it does, signs its user out. */
  lemma ReuseIsDetected(s: Sessions, t: TokenId, subject: UserId, requests: seq<Request>, thief: UserId)
    requires Accepts(s, subject, Some(t))
    ensures var later := Run(Step(s, Refresh(subject, Some(t))), requests);
            !Accepts(later, thief, Some(t)) && SignedOut(Step(later, Refresh(thief, Some(t))), s.tokens[t].user)
  {
    var rotated := Step(s, Refresh(subject, Some(t)));
    var later := Run(rotated, requests);
    RunsGrow(rotated, requests);
    assert later.tokens[t].revoked && later.tokens[t].user == s.tokens[t].user;
    SignOutIsComplete(later, Refresh(thief, Some(t)), s.tokens[t].user);
  }

  // ---------- A refresh whose check and rotation are apart ----------

  /** The session opened by token `l` is over: it has no live token. */
  ghost predicate Closed(s: Sessions, l: TokenId) {
    forall i: TokenId | Live(s, i) :: s.tokens[i].login != l
  }

  /** `refresh` checks the token in one statement and rotates it in another. The rotation keeps every
      session at one live token and opens no closed session exactly when the token is still live: the
      guard that a conditional UPDATE would test. */
  lemma RotationIsSafeIff(s: Sessions, t: TokenId)
    requires SessionsOk(s) && t < |s.tokens|
    ensures Live(s, t) <==>
            OneLive(Rotate(s, t)) && forall l: TokenId | l < |s.tokens| && Closed(s, l) :: Closed(Rotate(s, t), l)
  {
    var s' := Rotate(s, t);
    var login := s.tokens[t].login;
    ChainsHold(s, t);
    ChainsAreDisjoint(s);
    assert Live(s', |s.tokens|) && s'.tokens[|s.tokens|].login == login;
    if Live(s, t) {
      RotateKeeps(s, t);
      ChainsAreDisjoint(s');
      assert !Closed(s, login);
      forall l: TokenId | l < |s.tokens| && Closed(s, l) ensures Closed(s', l) {
        forall i: TokenId | Live(s', i) ensures s'.tokens[i].login != l {
          assert i < |s.tokens| ==> Live(s, i);
        }
      }
    } else if i: TokenId :| Live(s, i) && s.tokens[i].login == login {
      assert Live(s', i) && i != |s.tokens|;
    } else {
      assert Closed(s, login) && !Closed(s', login);
    }
  }

  /** A request that makes the credentials of `u` void: a new password, or a deletion. */
  predicate Voids(s: Sessions, q: Request, u: UserId) {
    match q
    case ResetPassword(v, valid) => v == u && IsEnabled(s, u) && valid
    case ChangePassword(v, valid) => v == u && u in s.accounts && valid
    case DeleteAccount(v) => v == u && u in s.accounts
    case _ => false
  }

  /** The guard that a conditional INSERT would test: the account is enabled, and still has the
      password that was verified. */
  predicate MayIssue(s: Sessions, u: UserId, password: nat) {
    IsEnabled(s, u) && s.accounts[u].password == password
  }

  /** One request voids the credentials exactly when it closes the guard. */
  lemma VoidsIff(s: Sessions, q: Request, u: UserId, password: nat)
    requires MayIssue(s, u, password)
    ensures Voids(s, q, u) <==> !MayIssue(Step(s, q), u, password)
    ensures Voids(s, q, u) ==> SignsOut(s, q, u)
  {
  }

  lemma StaysVoid(s: Sessions, q: Request, u: UserId, password: nat)
    requires u in s.accounts && s.accounts[u].password >= password && !MayIssue(s, u, password)
    requires s.accounts[u].status != Blocked
    ensures var s' := Step(s, q);
            u in s'.accounts && s'.accounts[u].password >= password && s'.accounts[u].status != Blocked
            && !MayIssue(s', u, password)
  {
  }

  /** Some request since the check voided the credentials that were checked. */
  ghost predicate Voided(s: Sessions, requests: seq<Request>, u: UserId) {
    exists n: nat :: n < |requests| && VoidsAt(s, requests, n, u)
  }

  ghost predicate VoidsAt(s: Sessions, requests: seq<Request>, n: nat, u: UserId)
    requires n < |requests|
  {
    Voids(Run(s, requests[..n]), requests[n], u)
  }

  lemma VoidedSnoc(s: Sessions, requests: seq<Request>, u: UserId)
    requires requests != []
    ensures var last := |requests| - 1;
            Voided(s, requests, u) <==>
            Voided(s, requests[..last], u) || Voids(Run(s, requests[..last]), requests[last], u)
  {
    var last := |requests| - 1;
    forall n: nat | n < last ensures VoidsAt(s, requests, n, u) <==> VoidsAt(s, requests[..last], n, u) {
      assert requests[..last][..n] == requests[..n];
    }
    if Voided(s, requests[..last], u) {
      var n: nat :| n < last && VoidsAt(s, requests[..last], n, u);
      assert VoidsAt(s, requests, n, u);
    }
    if Voids(Run(s, requests[..last]), requests[last], u) {
      assert VoidsAt(s, requests, last, u);
    }
  }

  /** After any requests, the guard is open exactly when none of them voided the credentials. */
  lemma {:induction false} GuardRemembers(s: Sessions, requests: seq<Request>, u: UserId)
    requires IsEnabled(s, u)
    ensures var later, password := Run(s, requests), s.accounts[u].password;
            && (MayIssue(later, u, password) <==> !Voided(s, requests, u))
            && u in later.accounts && later.accounts[u].password >= password && later.accounts[u].status != Blocked
  {
    hide Step, Voids, MayIssue, Voided;
    var password := s.accounts[u].password;
    if requests == [] {
      assert MayIssue(s, u, password) && !Voided(s, requests, u) by {
        NothingVoided(s, u);
      }
    } else {
      var last := |requests| - 1;
      var before := Run(s, requests[..last]);
      GuardRemembers(s, requests[..last], u);
      VoidedSnoc(s, requests, u);
      if MayIssue(before, u, password) {
        VoidsIff(before, requests[last], u, password);
        KnownStays(before, requests[last], u);
      } else {
        StaysVoid(before, requests[last], u, password);
      }
    }
  }

  lemma NothingVoided(s: Sessions, u: UserId)
    requires IsEnabled(s, u)
    ensures MayIssue(s, u, s.accounts[u].password) && !Voided(s, [], u)
  {
  }

  lemma KnownStays(s: Sessions, q: Request, u: UserId)
    requires u in s.accounts && s.accounts[u].status != Blocked
    ensures var s' := Step(s, q);
            u in s'.accounts && s'.accounts[u].password >= s.accounts[u].password && s'.accounts[u].status != Blocked
  {
  }

  /** What an issue in `later` leaves in force: every sign-out by a new password or a deletion since
      the check in `s`. */
  ghost predicate LeavesSignOuts(s: Sessions, requests: seq<Request>, u: UserId, after: Sessions) {
    Voided(s, requests, u) ==> SignedOut(after, u)
  }

  /** `login` checks account and password in `s`, and issues the token after `requests`. Whatever they
      were, that leaves the tokens consistent and undoes no sign-out exactly when the account is still
      enabled with the password that was verified. */
  lemma LateIssueIsSafeIff(s: Sessions, requests: seq<Request>, u: UserId)
    requires SessionsOk(s) && IsEnabled(s, u)
    ensures var later := Run(s, requests);
            MayIssue(later, u, s.accounts[u].password) <==>
            SessionsOk(Issue(later, u)) && LeavesSignOuts(s, requests, u, Issue(later, u))
  {
    hide Voided, Step;
    var later := Run(s, requests);
    GuardRemembers(s, requests, u);
    RunKeeps(s, requests);
    assert !SignedOut(Issue(later, u), u) by {
      assert Live(Issue(later, u), |later.tokens|);
    }
    if MayIssue(later, u, s.accounts[u].password) {
      IssueKeeps(later, u);
    }
  }

  lemma {:induction false} RunKeeps(s: Sessions, requests: seq<Request>)
    requires SessionsOk(s)
    ensures SessionsOk(Run(s, requests))
  {
    hide SessionsOk, Step;
    if requests != [] {
      RunKeeps(s, requests[..|requests| - 1]);
      StepKeeps(Run(s, requests[..|requests| - 1]), requests[|requests| - 1]);
    }
  }

  /** The failing input: a new password, or a deletion, between check and issue signs the user out
      everywhere, and the login with the old credentials gives the user a live token. */
  lemma IssueUndoesSignOut(s: Sessions, u: UserId, q: Request)
    requires IsEnabled(s, u) && Voids(s, q, u)
    ensures SignedOut(Step(s, q), u) && !SignedOut(Issue(Step(s, q), u), u)
    ensures !MayIssue(Step(s, q), u, s.accounts[u].password)
  {
    VoidsIff(s, q, u, s.accounts[u].password);
    SignOutIsComplete(s, q, u);
    assert Live(Issue(Step(s, q), u), |Step(s, q).tokens|);
  }

  /** Revoking every token of a user is safe whenever it runs. */
  lemma LateRevokeIsSafe(s: Sessions, u: UserId)
    requires SessionsOk(s)
    ensures SessionsOk(RevokeAll(s, u)) && SignedOut(RevokeAll(s, u), u)
  {
    RevokingKeeps(s, RevokeAll(s, u));
  }

  /** Two overlapping refreshes of one token that both passed the check leave two live tokens. */
  lemma OverlappingRefreshesSplit(s: Sessions, subject: UserId, t: TokenId)
    requires Accepts(s, subject, Some(t))
    ensures !OneLive(Rotate(Rotate(s, t), t))
  {
    var n := |s.tokens|;
    var s' := Rotate(Rotate(s, t), t);
    assert Live(s', n) && Live(s', n + 1) && s'.tokens[n].login == s'.tokens[n + 1].login;
  }

  /** A new password, a reused token or a deletion between check and rotation is undone by it: the
      user who was just signed out everywhere has a live token. */
  lemma RotationUndoesSignOut(s: Sessions, subject: UserId, t: TokenId, q: Request)
    requires Accepts(s, subject, Some(t)) && SignsOut(s, q, subject)
    ensures SignedOut(Step(s, q), subject) && !SignedOut(Rotate(Step(s, q), t), subject)
  {
    SignOutIsComplete(s, q, subject);
    StepGrows(s, q);
    var s' := Rotate(Step(s, q), t);
    assert Live(s', |s'.tokens| - 1) && s'.tokens[|s'.tokens| - 1].user == subject;
  }

  /** After a deletion it leaves a deleted account with a live token. */
  lemma RotationOutlivesDeletion(s: Sessions, subject: UserId, t: TokenId)
    requires Accepts(s, subject, Some(t))
    ensures var s' := Rotate(Step(s, DeleteAccount(subject)), t);
            s'.accounts[subject].status == Deleted && !SignedOut(s', subject) && !SessionsOk(s')
  {
    RotationUndoesSignOut(s, subject, t, DeleteAccount(subject));
    var s' := Rotate(Step(s, DeleteAccount(subject)), t);
    var i: TokenId :| Live(s', i) && s'.tokens[i].user == subject;
    assert !(s'.accounts[s'.tokens[i].user].status != Deleted);
  }
}

/**
 * Logging in (utils/auth.js): the handle completion of `getCredentials` and
 * the bounded attempt loop of `login`.
 *
 * The prompts and the network are parameters: `askId(k)` and `askPw(k)` are
 * what the user types at attempt `k` (counted from 0) when asked, and
 * `accept(k, identifier, password)` says whether the `authenticate` call of
 * attempt `k` logs in. A missing saved identifier or password is `""`. The
 * agent `login` returns is represented by the attempt that produced it.
 */
module Auth {
  import opened Common
  import opened Text

  const MaxLoginAttempts: nat := 3

  const DefaultDomain := ".bsky.social"

  /** A handle typed without a domain gets `.bsky.social`. */
  function CompleteHandle(id: string): string {
    if id != "" && '.' !in id then id + DefaultDomain else id
  }

  /**
   * Completion keeps the typed text as a prefix, leaves it unchanged
   * exactly when it is empty or already has a dot, and otherwise appends
   * the default domain; a non-empty result always has a dot.
   */
  lemma CompleteHandleShape(id: string)
    ensures StartsWith(CompleteHandle(id), id)
    ensures CompleteHandle(id) == id <==> id == "" || '.' in id
    ensures CompleteHandle(id) != id ==> CompleteHandle(id) == id + DefaultDomain
    ensures CompleteHandle(id) != "" ==> '.' in CompleteHandle(id)
  {
    if id != "" && '.' !in id {
      var r := CompleteHandle(id);
      assert r[|id|] == '.';
      assert r[..|id|] == id;
    }
  }

  /** Completing a completed handle changes nothing. */
  lemma CompleteHandleIdempotent(id: string)
    ensures CompleteHandle(CompleteHandle(id)) == CompleteHandle(id)
  {
    CompleteHandleShape(id);
  }

  /** The saved identifier and password of the configuration; `login` writes the identifier. */
  class Config {
    var identifier: string
    var password: string

    constructor(identifier: string, password: string)
      ensures this.identifier == identifier && this.password == password
    {
      this.identifier := identifier;
      this.password := password;
    }
  }

  /**
   * The credentials attempt `k` uses: a saved value when there is one,
   * otherwise the typed answer (the handle trimmed), the handle completed.
   */
  function Credentials(id0: string, pw0: string, askId: nat -> string, askPw: nat -> string, k: nat): (string, string) {
    (CompleteHandle(if id0 != "" then id0 else Trim(askId(k))), if pw0 != "" then pw0 else askPw(k))
  }

  /** The credentials of every attempt, as one function of the attempt number. */
  function CredentialsFn(id0: string, pw0: string, askId: nat -> string, askPw: nat -> string): nat -> (string, string) {
    (k: nat) => Credentials(id0, pw0, askId, askPw, k)
  }

  /*
   * The loop of `login` is specified over `cred`, the credentials each
   * attempt's `getCredentials` returns; `Login` states its results for
   * `CredentialsFn` of the saved values and the prompts.
   */

  /** An attempt calls `authenticate` only with both credentials non-empty. */
  predicate Complete(c: (string, string)) {
    c.0 != "" && c.1 != ""
  }

  /** Attempt `k` logs in. */
  predicate Succeeds(cred: nat -> (string, string), accept: (nat, string, string) -> bool, k: nat) {
    Complete(cred(k)) && accept(k, cred(k).0, cred(k).1)
  }

  /** The attempt that logs in, if any: the first from `j` on, below the limit, that succeeds. */
  function FirstSuccess(cred: nat -> (string, string), accept: (nat, string, string) -> bool, j: nat): (r: Option<nat>)
    ensures r.Some? ==> j <= r.value < MaxLoginAttempts && Succeeds(cred, accept, r.value)
    decreases MaxLoginAttempts - j
  {
    if j >= MaxLoginAttempts then None
    else if Succeeds(cred, accept, j) then Some(j)
    else FirstSuccess(cred, accept, j + 1)
  }

  /** How many attempts `login` makes: up to the first success, or all of them. */
  function Attempts(cred: nat -> (string, string), accept: (nat, string, string) -> bool): (n: nat)
    ensures 1 <= n <= MaxLoginAttempts
    ensures n < MaxLoginAttempts ==> FirstSuccess(cred, accept, 0).Some?
  {
    match FirstSuccess(cred, accept, 0)
    case Some(k) => k + 1
    case None => MaxLoginAttempts
  }

  /** The `authenticate` calls of the first `n` attempts, in order. */
  function AuthCalls(cred: nat -> (string, string), n: nat): (r: seq<(string, string)>)
    ensures |r| <= n
  {
    if n == 0 then []
    else AuthCalls(cred, n - 1) + (if Complete(cred(n - 1)) then [cred(n - 1)] else [])
  }

  /** `authenticate` is never called with an empty handle or password. */
  lemma {:induction false} AuthCallsComplete(cred: nat -> (string, string), n: nat)
    ensures forall i :: 0 <= i < |AuthCalls(cred, n)| ==> Complete(AuthCalls(cred, n)[i])
  {
    if n > 0 {
      AuthCallsComplete(cred, n - 1);
      var prev := AuthCalls(cred, n - 1);
      forall i | 0 <= i < |AuthCalls(cred, n)| ensures Complete(AuthCalls(cred, n)[i]) {
        if i < |prev| {
          assert AuthCalls(cred, n)[i] == prev[i];
        }
      }
    }
  }

  /** `getCredentials` for attempt `k`. */
  method GetCredentials(config: Config, askId: nat -> string, askPw: nat -> string, k: nat)
    returns (identifier: string, password: string)
    ensures (identifier, password) == Credentials(config.identifier, config.password, askId, askPw, k)
  {
    identifier := if config.identifier != "" then config.identifier else Trim(askId(k));
    if identifier != "" && '.' !in identifier {
      identifier := identifier + DefaultDomain;
    }
    password := if config.password != "" then config.password else askPw(k);
  }

  /**
   * `login`: returns the attempt that logged in, if any, the number of
   * attempts made and the `authenticate` calls; on success the completed
   * identifier is stored in the configuration.
   */
  method Login(config: Config, askId: nat -> string, askPw: nat -> string, accept: (nat, string, string) -> bool)
    returns (agent: Option<nat>, attempts: nat, authCalls: seq<(string, string)>)
    modifies config
    ensures var cred := CredentialsFn(old(config.identifier), old(config.password), askId, askPw);
      agent == FirstSuccess(cred, accept, 0) &&
      attempts == Attempts(cred, accept) &&
      authCalls == AuthCalls(cred, attempts) &&
      config.identifier == if agent.Some? then cred(agent.value).0 else old(config.identifier)
    ensures config.password == old(config.password)
  {
    ghost var id0, pw0 := config.identifier, config.password;
    CredentialsFnAgrees(id0, pw0, askId, askPw);
    ghost var cred: nat -> (string, string) :| AgreesWith(cred, id0, pw0, askId, askPw);
    agent, attempts, authCalls := None, 0, [];
    while agent.None? && attempts < MaxLoginAttempts
      invariant config.password == pw0
      invariant AgreesWith(cred, id0, pw0, askId, askPw)
      invariant agent.None? ==> config.identifier == id0
      invariant agent.Some? ==> config.identifier == cred(agent.value).0
      invariant LoginState(cred, accept, agent, attempts, authCalls)
      decreases MaxLoginAttempts - attempts
    {
      var k := attempts;
      var identifier, password := GetCredentials(config, askId, askPw, k);
      AgreesAt(cred, id0, pw0, askId, askPw, k);
      assert (identifier, password) == cred(k);
      attempts := attempts + 1;
      if identifier != "" && password != "" {
        ghost var before := authCalls;
        authCalls := authCalls + [(identifier, password)];
        if accept(k, identifier, password) {
          LoginStep(cred, accept, k, before, true, true);
          agent := Some(k);
          config.identifier := identifier;
        } else {
          LoginStep(cred, accept, k, before, true, false);
        }
      } else {
        LoginStep(cred, accept, k, authCalls, false, false);
      }
    }
    LoginDone(cred, accept, agent, attempts, authCalls);
    AgreeingAreSame(cred, id0, pw0, askId, askPw);
    SameCredentials(cred, CredentialsFn(id0, pw0, askId, askPw), accept, attempts);
  }

  /** `cred` gives, for each attempt, the credentials `getCredentials` returns. */
  ghost predicate AgreesWith(cred: nat -> (string, string), id0: string, pw0: string, askId: nat -> string, askPw: nat -> string) {
    forall k: nat {:trigger Credentials(id0, pw0, askId, askPw, k)} :: cred(k) == Credentials(id0, pw0, askId, askPw, k)
  }

  lemma CredentialsFnAgrees(id0: string, pw0: string, askId: nat -> string, askPw: nat -> string)
    ensures AgreesWith(CredentialsFn(id0, pw0, askId, askPw), id0, pw0, askId, askPw)
  {
    forall k: nat ensures CredentialsFn(id0, pw0, askId, askPw)(k) == Credentials(id0, pw0, askId, askPw, k) {
    }
  }

  lemma AgreesAt(cred: nat -> (string, string), id0: string, pw0: string, askId: nat -> string, askPw: nat -> string, k: nat)
    requires AgreesWith(cred, id0, pw0, askId, askPw)
    ensures cred(k) == Credentials(id0, pw0, askId, askPw, k)
  {
  }

  lemma AgreeingAreSame(cred: nat -> (string, string), id0: string, pw0: string, askId: nat -> string, askPw: nat -> string)
    requires AgreesWith(cred, id0, pw0, askId, askPw)
    ensures forall k :: cred(k) == CredentialsFn(id0, pw0, askId, askPw)(k)
  {
    forall k: nat ensures cred(k) == CredentialsFn(id0, pw0, askId, askPw)(k) {
      assert cred(k) == Credentials(id0, pw0, askId, askPw, k);
    }
  }

  /** What the loop of `login` keeps after `attempts` attempts: the search so far and the calls made. */
  ghost predicate LoginState(cred: nat -> (string, string), accept: (nat, string, string) -> bool,
                             agent: Option<nat>, attempts: nat, authCalls: seq<(string, string)>) {
    attempts <= MaxLoginAttempts &&
    authCalls == AuthCalls(cred, attempts) &&
    match agent
    case None => FirstSuccess(cred, accept, 0) == FirstSuccess(cred, accept, attempts)
    case Some(k) => attempts == k + 1 && FirstSuccess(cred, accept, 0) == agent
  }

  /**
   * One attempt of the loop keeps `LoginState`: `called` says whether the
   * attempt calls `authenticate`, `ok` whether that call logs in.
   */
  lemma LoginStep(cred: nat -> (string, string), accept: (nat, string, string) -> bool,
                  k: nat, authCalls: seq<(string, string)>, called: bool, ok: bool)
    requires LoginState(cred, accept, None, k, authCalls) && k < MaxLoginAttempts
    requires called == Complete(cred(k)) && ok == (called && accept(k, cred(k).0, cred(k).1))
    ensures LoginState(cred, accept, if ok then Some(k) else None, k + 1,
                       authCalls + (if called then [cred(k)] else []))
  {
  }

  /** When the loop stops, `LoginState` gives the results `login` promises. */
  lemma LoginDone(cred: nat -> (string, string), accept: (nat, string, string) -> bool,
                  agent: Option<nat>, attempts: nat, authCalls: seq<(string, string)>)
    requires LoginState(cred, accept, agent, attempts, authCalls)
    requires agent.Some? || attempts == MaxLoginAttempts
    ensures agent == FirstSuccess(cred, accept, 0)
    ensures attempts == Attempts(cred, accept)
    ensures authCalls == AuthCalls(cred, attempts)
  {
  }

  /** Attempts depend on the credentials only through their values. */
  lemma SameCredentials(c1: nat -> (string, string), c2: nat -> (string, string), accept: (nat, string, string) -> bool, n: nat)
    requires forall k :: c1(k) == c2(k)
    ensures FirstSuccess(c1, accept, 0) == FirstSuccess(c2, accept, 0)
    ensures Attempts(c1, accept) == Attempts(c2, accept)
    ensures AuthCalls(c1, n) == AuthCalls(c2, n)
  {
    SameFirstSuccess(c1, c2, accept, 0);
    SameAuthCalls(c1, c2, n);
  }

  lemma {:induction false} SameFirstSuccess(c1: nat -> (string, string), c2: nat -> (string, string),
                                            accept: (nat, string, string) -> bool, j: nat)
    requires forall k :: c1(k) == c2(k)
    ensures FirstSuccess(c1, accept, j) == FirstSuccess(c2, accept, j)
    decreases MaxLoginAttempts - j
  {
    if j < MaxLoginAttempts {
      SameFirstSuccess(c1, c2, accept, j + 1);
      assert c1(j) == c2(j);
    }
  }

  lemma {:induction false} SameAuthCalls(c1: nat -> (string, string), c2: nat -> (string, string), n: nat)
    requires forall k :: c1(k) == c2(k)
    ensures AuthCalls(c1, n) == AuthCalls(c2, n)
  {
    if n > 0 {
      SameAuthCalls(c1, c2, n - 1);
      assert c1(n - 1) == c2(n - 1);
    }
  }

  // ---------------- Properties ----------------

  /**
   * The loop stops at the first attempt that logs in: `FirstSuccess` from
   * `j` is `k` exactly when attempt `k` is below the limit and succeeds and
   * no attempt between `j` and `k` does; it is `None` exactly when no
   * attempt from `j` up to the limit succeeds.
   */
  lemma {:induction false} FirstSuccessIsFirst(cred: nat -> (string, string), accept: (nat, string, string) -> bool,
                                               j: nat, k: nat)
    ensures FirstSuccess(cred, accept, j) == Some(k) <==>
      j <= k < MaxLoginAttempts && Succeeds(cred, accept, k) && forall i :: j <= i < k ==> !Succeeds(cred, accept, i)
    ensures FirstSuccess(cred, accept, j).None? <==>
      forall i :: j <= i < MaxLoginAttempts ==> !Succeeds(cred, accept, i)
    decreases MaxLoginAttempts - j
  {
    if j < MaxLoginAttempts {
      FirstSuccessIsFirst(cred, accept, j + 1, k);
    }
  }

  /**
   * An attempt with an empty handle or password never logs in and makes no
   * `authenticate` call, yet it counts as an attempt; when every attempt is
   * empty, `login` gives up after all three with no call at all.
   */
  lemma EmptyCredentialsSkip(cred: nat -> (string, string), accept: (nat, string, string) -> bool, k: nat)
    requires !Complete(cred(k))
    ensures !Succeeds(cred, accept, k)
    ensures AuthCalls(cred, k + 1) == AuthCalls(cred, k)
  {
  }

  lemma {:induction false} AllEmptyGivesUp(cred: nat -> (string, string), accept: (nat, string, string) -> bool)
    requires forall k :: 0 <= k < MaxLoginAttempts ==> !Complete(cred(k))
    ensures FirstSuccess(cred, accept, 0).None?
    ensures Attempts(cred, accept) == MaxLoginAttempts
    ensures AuthCalls(cred, MaxLoginAttempts) == []
  {
    FirstSuccessIsFirst(cred, accept, 0, 0);
    assert AuthCalls(cred, 1) == [];
    assert AuthCalls(cred, 2) == [];
  }

  /**
   * The last `authenticate` call is the successful one: after a login at
   * attempt `k`, the calls made end with the credentials stored, and that
   * identifier is a full handle.
   */
  lemma LoginStoresFullHandle(id0: string, pw0: string, askId: nat -> string, askPw: nat -> string,
                              accept: (nat, string, string) -> bool)
    requires FirstSuccess(CredentialsFn(id0, pw0, askId, askPw), accept, 0).Some?
    ensures var cred := CredentialsFn(id0, pw0, askId, askPw);
      var k := FirstSuccess(cred, accept, 0).value;
      var calls := AuthCalls(cred, Attempts(cred, accept));
      |calls| > 0 && calls[|calls| - 1] == Credentials(id0, pw0, askId, askPw, k) &&
      '.' in calls[|calls| - 1].0
  {
    var cred := CredentialsFn(id0, pw0, askId, askPw);
    var k := FirstSuccess(cred, accept, 0).value;
    assert Attempts(cred, accept) == k + 1;
    assert AuthCalls(cred, k + 1) == AuthCalls(cred, k) + [cred(k)];
    assert cred(k) == Credentials(id0, pw0, askId, askPw, k);
    CompleteHandleShape(if id0 != "" then id0 else Trim(askId(k)));
  }

  /** With both credentials saved, no prompt matters: every attempt uses the saved pair. */
  lemma SavedCredentialsReused(id0: string, pw0: string, askId: nat -> string, askPw: nat -> string,
                               askId': nat -> string, askPw': nat -> string, k: nat, k': nat)
    requires id0 != "" && pw0 != ""
    ensures Credentials(id0, pw0, askId, askPw, k) == Credentials(id0, pw0, askId', askPw', k')
    ensures Complete(Credentials(id0, pw0, askId, askPw, k))
  {
  }
}

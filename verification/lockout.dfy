/** Local password login with its failure counter and lockout, and the rate of guesses it allows. */
module Lockouts {
  import opened Wrappers

  const LOCK := 900
  const LIMIT := 5

  datatype User = User(active: bool, hash: Option<string>, mfa: bool, failures: nat, lockedUntil: Option<int>)

  datatype Refusal = InvalidCredentials | AccountLocked | Inactive | MfaUnsupported | DatabaseDown

  type Users = map<string, User>

  /** MarkLoginFailure: from the fifth failure on, every failure locks the account anew. */
  function MarkFailure(u: User, now: int): User {
    u.(failures := u.failures + 1, lockedUntil := if u.failures + 1 >= LIMIT then Some(now + LOCK) else u.lockedUntil)
  }

  /** MarkLoginSuccess */
  function MarkSuccess(u: User): User {
    u.(failures := 0, lockedUntil := None)
  }

  predicate LockedAt(u: User, now: int) {
    u.lockedUntil.Some? && u.lockedUntil.value > now
  }

  /** The password matches the stored hash. */
  predicate Right(verify: (string, string) -> bool, u: User, password: string) {
    u.hash.Some? && verify(u.hash.value, password)
  }

  /** One login: read at `at`, counters updated at `markedAt`, unless that update fails. */
  datatype Attempt = Attempt(username: string, password: string, at: int, markedAt: int, marks: bool)

  function Changed(users: Users, a: Attempt, u: User): Users {
    if a.marks then users[a.username := u] else users
  }

  function LoginCall(verify: (string, string) -> bool, users: Users, a: Attempt): (Users, Option<Refusal>) {
    if a.username !in users then (users, Some(InvalidCredentials))
    else
      var u := users[a.username];
      if !u.active then (users, Some(Inactive))
      else if LockedAt(u, a.at) then (users, Some(AccountLocked))
      else if !Right(verify, u, a.password)
      then (Changed(users, a, MarkFailure(u, a.markedAt)), Some(InvalidCredentials))
      else if u.mfa then (Changed(users, a, MarkFailure(u, a.markedAt)), Some(MfaUnsupported))
      else (Changed(users, a, MarkSuccess(u)), if a.marks then None else Some(DatabaseDown))
  }

  class LocalProvider {
    const verify: (string, string) -> bool
    var users: Users

    constructor (verify: (string, string) -> bool, users: Users)
      ensures this.verify == verify && this.users == users
    {
      this.verify, this.users := verify, users;
    }

    method Login(a: Attempt) returns (refusal: Option<Refusal>)
      modifies this
      ensures (users, refusal) == LoginCall(verify, old(users), a)
      ensures users.Keys == old(users).Keys && forall n :: n in users && n != a.username ==> users[n] == old(users)[n]
      ensures refusal.None? <==>
        && a.username in old(users)
        && var u := old(users)[a.username];
           && u.active && (u.lockedUntil.None? || u.lockedUntil.value <= a.at)
           && u.hash.Some? && verify(u.hash.value, a.password) && !u.mfa && a.marks
      ensures a.username !in old(users) ==> refusal == Some(InvalidCredentials)
      ensures a.username in old(users) ==>
        var u, u' := old(users)[a.username], users[a.username];
        && (refusal == Some(Inactive) <==> !u.active)
        && (refusal == Some(AccountLocked) <==> u.active && u.lockedUntil.Some? && u.lockedUntil.value > a.at)
        && (refusal == Some(Inactive) || refusal == Some(AccountLocked) || !a.marks ==> u' == u)
        && (u.active && (u.lockedUntil.None? || u.lockedUntil.value <= a.at) ==>
              var right := u.hash.Some? && verify(u.hash.value, a.password);
              && (refusal == Some(InvalidCredentials) <==> !right)
              && (refusal == Some(MfaUnsupported) <==> right && u.mfa)
              && (refusal == Some(DatabaseDown) <==> right && !u.mfa && !a.marks)
              && (a.marks && right && !u.mfa ==> u' == u.(failures := 0, lockedUntil := None))
              && (a.marks && !(right && !u.mfa) ==>
                    u' == u.(failures := u.failures + 1,
                             lockedUntil := if u.failures >= 4 then Some(a.markedAt + 15 * 60) else u.lockedUntil)))
    {
      if a.username !in users {
        return Some(InvalidCredentials);
      }
      var u := users[a.username];
      if !u.active {
        return Some(Inactive);
      }
      if LockedAt(u, a.at) {
        return Some(AccountLocked);
      }
      if u.hash.None? || !verify(u.hash.value, a.password) {
        if a.marks {
          users := users[a.username := MarkFailure(u, a.markedAt)];
        }
        return Some(InvalidCredentials);
      }
      if u.mfa {
        if a.marks {
          users := users[a.username := MarkFailure(u, a.markedAt)];
        }
        return Some(MfaUnsupported);
      }
      if !a.marks {
        return Some(DatabaseDown);
      }
      users := users[a.username := MarkSuccess(u)];
      return None;
    }
  }

  // ---- runs ----

  function After(verify: (string, string) -> bool, users: Users, attempts: seq<Attempt>): Users {
    if attempts == [] then users
    else LoginCall(verify, After(verify, users, attempts[..|attempts| - 1]), attempts[|attempts| - 1]).0
  }

  /** What became of attempt i. */
  function Answer(verify: (string, string) -> bool, users: Users, attempts: seq<Attempt>, i: nat): Option<Refusal>
    requires i < |attempts|
  {
    LoginCall(verify, After(verify, users, attempts[..i]), attempts[i]).1
  }

  /** Attempt i is on the known account `name`, which is active and not locked at that moment: its password is looked at. */
  predicate Checked(verify: (string, string) -> bool, users: Users, attempts: seq<Attempt>, i: nat, name: string)
    requires i < |attempts|
  {
    var before := After(verify, users, attempts[..i]);
    attempts[i].username == name && name in before && before[name].active && !LockedAt(before[name], attempts[i].at)
  }

  /** The password of attempt i is looked at, and is wrong or not enough because the account needs a second factor. */
  predicate Guessed(verify: (string, string) -> bool, users: Users, attempts: seq<Attempt>, i: nat, name: string)
    requires i < |attempts|
  {
    Checked(verify, users, attempts, i, name) &&
    var u := After(verify, users, attempts[..i])[name];
    !Right(verify, u, attempts[i].password) || u.mfa
  }

  /** The password of attempt i is looked at, is right and enough, and the account could be updated. */
  predicate Entered(verify: (string, string) -> bool, users: Users, attempts: seq<Attempt>, i: nat, name: string)
    requires i < |attempts|
  {
    Checked(verify, users, attempts, i, name) && attempts[i].marks &&
    var u := After(verify, users, attempts[..i])[name];
    Right(verify, u, attempts[i].password) && !u.mfa
  }

  /**
   * Attempt i logs the user in exactly if the account is active and not locked, the password
   * matches its hash, it needs no second factor and its counters could be reset. A password
   * that does not match, or is not enough, is always refused as such, whatever the update does.
   */
  lemma AnswerTells(verify: (string, string) -> bool, users: Users, attempts: seq<Attempt>, i: nat, name: string)
    requires i < |attempts| && attempts[i].username == name
    ensures Answer(verify, users, attempts, i).None? <==> Entered(verify, users, attempts, i, name)
    ensures Guessed(verify, users, attempts, i, name) ==>
      Answer(verify, users, attempts, i) == Some(InvalidCredentials) || Answer(verify, users, attempts, i) == Some(MfaUnsupported)
    ensures Answer(verify, users, attempts, i) == Some(DatabaseDown) ==>
      !Guessed(verify, users, attempts, i, name) && !attempts[i].marks
    ensures Answer(verify, users, attempts, i) == Some(AccountLocked) || Answer(verify, users, attempts, i) == Some(Inactive) ==>
      !Checked(verify, users, attempts, i, name)
  {
  }

  /** How many of the attempts from the k-th on are guesses, recorded ones or unrecorded ones. */
  function Guesses(verify: (string, string) -> bool, users: Users, attempts: seq<Attempt>, k: nat, name: string, recorded: bool): nat {
    if |attempts| <= k then 0
    else
      var n := |attempts| - 1;
      Guesses(verify, users, attempts[..n], k, name, recorded) +
      if Guessed(verify, users, attempts, n, name) && attempts[n].marks == recorded then 1 else 0
  }

  /** Logins one after the other on one clock that never goes back. */
  ghost predicate InTurn(attempts: seq<Attempt>) {
    && (forall i :: 0 <= i < |attempts| ==> attempts[i].at <= attempts[i].markedAt)
    && (forall i, j :: 0 <= i < j < |attempts| ==> attempts[i].markedAt <= attempts[j].at)
  }

  /** None of the attempts from the k-th on logged the user in. */
  ghost predicate NoSuccess(verify: (string, string) -> bool, users: Users, attempts: seq<Attempt>, k: nat, name: string) {
    forall i :: k <= i < |attempts| ==> !Entered(verify, users, attempts, i, name)
  }

  /** After n recorded guesses from time `start` on, the counter is at least n, and from the fifth on the lock has moved on. */
  ghost predicate Paced(u: User, n: nat, start: int) {
    && n <= u.failures
    && (n >= LIMIT ==> u.lockedUntil.Some? && u.lockedUntil.value >= start + (n - LIMIT + 1) * LOCK)
  }

  lemma NamesKept(verify: (string, string) -> bool, users: Users, attempts: seq<Attempt>)
    ensures After(verify, users, attempts).Keys == users.Keys
  {
    if attempts != [] {
      NamesKept(verify, users, attempts[..|attempts| - 1]);
      var before := After(verify, users, attempts[..|attempts| - 1]);
      var a := attempts[|attempts| - 1];
      if a.username in before {
        assert a.username in before.Keys;
      }
    }
  }

  lemma PrefixAnswers(verify: (string, string) -> bool, users: Users, attempts: seq<Attempt>, n: nat, i: nat)
    requires i < n <= |attempts|
    ensures Answer(verify, users, attempts[..n], i) == Answer(verify, users, attempts, i)
  {
    assert attempts[..n][..i] == attempts[..i];
  }

  lemma {:induction false} GuessesArePaced(verify: (string, string) -> bool, users: Users, attempts: seq<Attempt>,
                                           k: nat, name: string, start: int)
    requires InTurn(attempts) && k <= |attempts| && name in users
    requires forall i :: k <= i < |attempts| ==> start <= attempts[i].at
    requires NoSuccess(verify, users, attempts, k, name)
    ensures name in After(verify, users, attempts)
    ensures Paced(After(verify, users, attempts)[name], Guesses(verify, users, attempts, k, name, true), start)
  {
    NamesKept(verify, users, attempts);
    assert name in After(verify, users, attempts).Keys;
    if |attempts| > k {
      var n := |attempts| - 1;
      var before := attempts[..n];
      forall i | k <= i < n ensures !Entered(verify, users, before, i, name) {
        PrefixAnswers(verify, users, attempts, n, i);
        assert !Entered(verify, users, attempts, i, name);
      }
      GuessesArePaced(verify, users, before, k, name, start);
      assert !Entered(verify, users, attempts, n, name);
    }
  }

  /**
   * The rate bound: among logins that follow one another, in any stretch of at most `length`
   * seconds without a successful login of the user, at most 5 plus one per 15 minutes are
   * guesses that pass the lock check and fail, not counting those whose counter update failed.
   */
  lemma {:induction false} GuessRateIsBounded(verify: (string, string) -> bool, users: Users, attempts: seq<Attempt>,
                                              k: nat, name: string, start: int, length: nat)
    requires InTurn(attempts) && k <= |attempts| && name in users
    requires forall i :: k <= i < |attempts| ==> start <= attempts[i].at <= start + length
    requires NoSuccess(verify, users, attempts, k, name)
    ensures Guesses(verify, users, attempts, k, name, true) <= LIMIT + length / LOCK
  {
    if |attempts| > k {
      var n := |attempts| - 1;
      var before := attempts[..n];
      forall i | k <= i < n ensures !Entered(verify, users, before, i, name) {
        PrefixAnswers(verify, users, attempts, n, i);
        assert !Entered(verify, users, attempts, i, name);
      }
      GuessRateIsBounded(verify, users, before, k, name, start, length);
      GuessesArePaced(verify, users, before, k, name, start);
      if Guessed(verify, users, attempts, n, name) && attempts[n].marks {
        var g := Guesses(verify, users, before, k, name, true);
        assert !LockedAt(After(verify, users, before)[name], attempts[n].at);
        if g >= LIMIT {
          assert (g - LIMIT + 1) * LOCK <= length;
        }
      }
    }
  }

  // ---- the counter ----

  /** Recorded guesses since the last login that succeeded, and when the last of them was recorded. */
  function Streak(verify: (string, string) -> bool, users: Users, attempts: seq<Attempt>, name: string): (nat, int) {
    if attempts == [] then (0, 0)
    else
      var n := |attempts| - 1;
      var (count, last) := Streak(verify, users, attempts[..n], name);
      if Entered(verify, users, attempts, n, name) then (0, 0)
      else if Guessed(verify, users, attempts, n, name) && attempts[n].marks then (count + 1, attempts[n].markedAt)
      else (count, last)
  }

  /** The stored counter is the number of recorded guesses since the last success, and the fifth and every later one lock for 15 minutes. */
  lemma {:induction false} CounterIsStreak(verify: (string, string) -> bool, users: Users, attempts: seq<Attempt>, name: string)
    requires name in users && users[name].failures == 0 && users[name].lockedUntil.None?
    ensures name in After(verify, users, attempts)
    ensures
      var u := After(verify, users, attempts)[name];
      var (count, last) := Streak(verify, users, attempts, name);
      u.failures == count && u.lockedUntil == if count >= LIMIT then Some(last + LOCK) else None
  {
    if attempts != [] {
      var n := |attempts| - 1;
      CounterIsStreak(verify, users, attempts[..n], name);
    }
  }

  // ---- the bound is reached, and only recorded failures are bounded ----

  function Victim(hash: string): User {
    User(true, Some(hash), false, 0, None)
  }

  function GuessTime(i: nat): int {
    if i < LIMIT then 0 else (i - LIMIT + 1) * LOCK
  }

  /** Five guesses at once, then one as soon as each lock ends. */
  function Steady(guess: string, n: nat): seq<Attempt> {
    if n == 0 then [] else Steady(guess, n - 1) + [Attempt("u", guess, GuessTime(n - 1), GuessTime(n - 1), true)]
  }

  function Tried(hash: string, n: nat): User {
    Victim(hash).(failures := n, lockedUntil := if n >= LIMIT then Some(GuessTime(n - 1) + LOCK) else None)
  }

  lemma SteadyGuess(verify: (string, string) -> bool, hash: string, guess: string, users: Users, n: nat)
    requires users == map["u" := Tried(hash, n)] && !verify(hash, guess)
    ensures LoginCall(verify, users, Attempt("u", guess, GuessTime(n), GuessTime(n), true)).0 == map["u" := Tried(hash, n + 1)]
    ensures !LockedAt(Tried(hash, n), GuessTime(n))
  {
    assert users["u" := Tried(hash, n + 1)] == map["u" := Tried(hash, n + 1)];
  }

  lemma NeverTried(hash: string)
    ensures Victim(hash) == Tried(hash, 0)
  {
  }

  lemma {:induction false} SteadyTimes(guess: string, n: nat)
    ensures |Steady(guess, n)| == n && forall i :: 0 <= i < n ==> 0 <= Steady(guess, n)[i].at <= GuessTime(n - 1)
  {
    if n > 1 {
      SteadyTimes(guess, n - 1);
    }
  }

  lemma Untouched(verify: (string, string) -> bool, users: Users)
    ensures After(verify, users, []) == users && forall recorded :: Guesses(verify, users, [], 0, "u", recorded) == 0
  {
  }

  /** One more wrong password on an account that is active and not locked. */
  lemma OneMoreGuess(verify: (string, string) -> bool, users: Users, before: seq<Attempt>, a: Attempt)
    requires
      var users1 := After(verify, users, before);
      a.username == "u" && "u" in users1 && users1["u"].active && !LockedAt(users1["u"], a.at) && !Right(verify, users1["u"], a.password)
    ensures After(verify, users, before + [a]) == LoginCall(verify, After(verify, users, before), a).0
    ensures forall recorded ::
      Guesses(verify, users, before + [a], 0, "u", recorded) ==
      Guesses(verify, users, before, 0, "u", recorded) + if a.marks == recorded then 1 else 0
  {
    hide LoginCall;
    assert (before + [a])[..|before|] == before;
  }

  /** The bound is reached: n wrong passwords are all looked at, within (n - 5) times 15 minutes. */
  lemma {:induction false} BoundIsReached(verify: (string, string) -> bool, hash: string, guess: string, n: nat)
    requires !verify(hash, guess)
    ensures
      var users := map["u" := Victim(hash)];
      && |Steady(guess, n)| == n && Guesses(verify, users, Steady(guess, n), 0, "u", true) == n
      && (forall i :: 0 <= i < n ==> 0 <= Steady(guess, n)[i].at <= if n <= LIMIT then 0 else (n - LIMIT) * LOCK)
      && After(verify, users, Steady(guess, n)) == map["u" := Tried(hash, n)]
  {
    hide LoginCall, Guesses, After;
    SteadyTimes(guess, n);
    Untouched(verify, map["u" := Victim(hash)]);
    if n == 0 {
      NeverTried(hash);
    } else {
      BoundIsReached(verify, hash, guess, n - 1);
      SteadyGuess(verify, hash, guess, map["u" := Tried(hash, n - 1)], n - 1);
      OneMoreGuess(verify, map["u" := Victim(hash)], Steady(guess, n - 1), Steady(guess, n)[n - 1]);
    }
  }

  function Unmarked(guess: string, n: nat): seq<Attempt> {
    if n == 0 then [] else Unmarked(guess, n - 1) + [Attempt("u", guess, 0, 0, false)]
  }

  /** While the counter update fails its error is ignored, and any number of wrong passwords are looked at in one instant. */
  lemma {:induction false} UnrecordedGuessesAreUnbounded(verify: (string, string) -> bool, hash: string, guess: string, n: nat)
    requires !verify(hash, guess)
    ensures
      var users := map["u" := Victim(hash)];
      && |Unmarked(guess, n)| == n && (forall i :: 0 <= i < n ==> Unmarked(guess, n)[i].at == 0)
      && Guesses(verify, users, Unmarked(guess, n), 0, "u", false) == n && After(verify, users, Unmarked(guess, n)) == users
  {
    hide After, Guesses;
    Untouched(verify, map["u" := Victim(hash)]);
    if n > 0 {
      UnrecordedGuessesAreUnbounded(verify, hash, guess, n - 1);
      OneMoreGuess(verify, map["u" := Victim(hash)], Unmarked(guess, n - 1), Attempt("u", guess, 0, 0, false));
    }
  }
}

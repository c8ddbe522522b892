/** The two-factor check of bin/oath.sh: window check, replay memory, wrong-code counter. */
module Oath {
  /** The code a secret yields at each 30-second step. */
  type Totp = int -> string

  const STEP := 30
  const LOCK := 300       // seconds a client waits after too many wrong codes
  const MAX_WRONG := 5
  const MEMORY := 5       // accepted codes remembered: `tail -n 4` plus the new one
  const HORIZON := 120    // how far back the replay check looks

  datatype Accepted = Accepted(at: nat, code: string)

  /** The two files of one user: codes accepted lately, and wrong codes in a row. */
  datatype UserState = UserState(used: seq<Accepted>, fails: nat, last: nat)

  datatype Outcome =
    | Ok | EmptyUsername | NotCertificateName | MalformedCode | NoSecret
    | TooManyWrongCodes | WrongCode | AlreadyUsed

  datatype Request = Request(user: string, cn: string, code: string, now: nat)

  const FRESH := UserState([], 0, 0)

  predicate IsDigit(c: char) { '0' <= c <= '9' }

  predicate WellFormed(code: string) { 6 <= |code| <= 8 && forall c <- code :: IsDigit(c) }

  /** awk compares two digit strings as numbers. */
  function Value(code: string): nat {
    if code == [] then 0
    else
      var last := code[|code| - 1];
      10 * Value(code[..|code| - 1]) + if IsDigit(last) then last as nat - '0' as nat else 0
  }

  predicate InWindow(totp: Totp, now: nat, code: string) {
    code == totp(now / STEP - 1) || code == totp(now / STEP) || code == totp(now / STEP + 1)
  }

  ghost predicate Replayed(used: seq<Accepted>, now: nat, code: string) {
    exists k :: 0 <= k < |used| && used[k].at >= now - HORIZON && Value(used[k].code) == Value(code)
  }

  function LastOf<T>(s: seq<T>, n: nat): seq<T> {
    if |s| <= n then s else s[|s| - n..]
  }

  /** Verdict on a code of an enrolled user, and the user's files afterwards. */
  ghost function Judge(keep: nat, totp: Totp, st: UserState, now: nat, code: string): (Outcome, UserState)
    requires keep > 0
  {
    var fails := if now - st.last >= LOCK then 0 else st.fails;
    if fails >= MAX_WRONG then (TooManyWrongCodes, st)
    else if !InWindow(totp, now, code) then (WrongCode, st.(fails := fails + 1, last := now))
    else if Replayed(st.used, now, code) then (AlreadyUsed, st)
    else (Ok, UserState(LastOf(st.used, keep - 1) + [Accepted(now, code)], 0, 0))
  }

  function StateOf(states: map<string, UserState>, user: string): UserState {
    if user in states then states[user] else FRESH
  }

  /** One run of the script: its verdict and the state directory afterwards. */
  ghost function Verify(keep: nat, secrets: map<string, Totp>, states: map<string, UserState>, r: Request)
    : (Outcome, map<string, UserState>)
    requires keep > 0
  {
    if r.user == "" then (EmptyUsername, states)
    else if r.user != r.cn then (NotCertificateName, states)
    else if !WellFormed(r.code) then (MalformedCode, states)
    else if r.user !in secrets then (NoSecret, states)
    else
      var (outcome, st) := Judge(keep, secrets[r.user], StateOf(states, r.user), r.now, r.code);
      (outcome, states[r.user := st])
  }

  /** The script over its state directory. */
  class Verifier {
    var states: map<string, UserState>

    constructor ()
      ensures states == map[]
    {
      states := map[];
    }

    /** bin/oath.sh:33-65 */
    method Check(secrets: map<string, Totp>, r: Request) returns (outcome: Outcome)
      modifies this
      ensures (outcome, states) == Verify(MEMORY, secrets, old(states), r)
    {
      if r.user == "" { return EmptyUsername; }
      if r.user != r.cn { return NotCertificateName; }
      if !WellFormed(r.code) { return MalformedCode; }
      if r.user !in secrets { return NoSecret; }
      var st := StateOf(states, r.user);
      var fails := st.fails;
      if r.now - st.last >= LOCK { fails := 0; }
      if fails >= MAX_WRONG {
        states := states[r.user := st];
        return TooManyWrongCodes;
      }
      if !InWindow(secrets[r.user], r.now, r.code) {
        states := states[r.user := st.(fails := fails + 1, last := r.now)];
        return WrongCode;
      }
      var found := false;
      for k := 0 to |st.used|
        invariant found <==> Replayed(st.used[..k], r.now, r.code)
      {
        assert st.used[..k + 1] == st.used[..k] + [st.used[k]];
        if st.used[k].at >= r.now - HORIZON && Value(st.used[k].code) == Value(r.code) {
          found := true;
          assert st.used[..k + 1][k] == st.used[k];
        } else if found {
          var j :| 0 <= j < k && st.used[..k][j].at >= r.now - HORIZON && Value(st.used[..k][j].code) == Value(r.code);
          assert st.used[..k + 1][j] == st.used[..k][j];
        }
      }
      assert st.used[..|st.used|] == st.used;
      if found {
        states := states[r.user := st];
        return AlreadyUsed;
      }
      var kept := LastOf(st.used, MEMORY - 1);
      states := states[r.user := UserState(kept + [Accepted(r.now, r.code)], 0, 0)];
      return Ok;
    }
  }

  /** Any sequence of requests, by any users, from an empty state directory. */
  datatype Run = Run(keep: nat, secrets: map<string, Totp>, reqs: seq<Request>) {
    ghost predicate Clocked() {
      keep > 0 && forall i, j :: 0 <= i < j < |reqs| ==> reqs[i].now <= reqs[j].now
    }

    ghost function States(n: nat): map<string, UserState>
      requires keep > 0 && n <= |reqs|
    {
      if n == 0 then map[] else Verify(keep, secrets, States(n - 1), reqs[n - 1]).1
    }

    ghost function Verdict(n: nat): Outcome
      requires keep > 0 && n < |reqs|
    {
      Verify(keep, secrets, States(n), reqs[n]).0
    }

    ghost predicate Accepts(n: nat, user: string)
      requires keep > 0 && n < |reqs|
    {
      reqs[n].user == user && Verdict(n) == Ok
    }

    /** Every code the user had accepted in the first n requests, without forgetting any. */
    ghost function Log(user: string, n: nat): seq<Accepted>
      requires keep > 0 && n <= |reqs|
    {
      if n == 0 then []
      else if Accepts(n - 1, user) then Log(user, n - 1) + [Accepted(reqs[n - 1].now, reqs[n - 1].code)]
      else Log(user, n - 1)
    }

    /** Wrong codes of the user that were evaluated among requests a to b. */
    ghost function Wrong(user: string, a: nat, b: nat): nat
      requires keep > 0 && a <= b <= |reqs|
    {
      if a == b then 0
      else Wrong(user, a, b - 1) + if reqs[b - 1].user == user && Verdict(b - 1) == WrongCode then 1 else 0
    }
  }

  // ---- replay -------------------------------------------------------------

  ghost predicate Timed(log: seq<Accepted>, totp: Totp) {
    && (forall i :: 0 <= i < |log| ==> InWindow(totp, log[i].at, log[i].code))
    && (forall i, j :: 0 <= i < j < |log| ==> log[i].at <= log[j].at)
  }

  /** No two entries less than three steps apart carry the same code. */
  ghost predicate Spaced(log: seq<Accepted>) {
    forall i, j :: 0 <= i < j < |log| && Value(log[i].code) == Value(log[j].code)
      ==> log[j].at / STEP - log[i].at / STEP >= 3
  }

  /** The five codes that can be accepted in steps k to k+2. */
  function Codes(totp: Totp, k: int): set<string> {
    {totp(k - 1), totp(k), totp(k + 1), totp(k + 2), totp(k + 3)}
  }

  lemma SmallSet(totp: Totp, k: int)
    ensures |Codes(totp, k)| <= 5
  {
    var s1 := {totp(k - 1)};
    var s2 := s1 + {totp(k)};
    var s3 := s2 + {totp(k + 1)};
    var s4 := s3 + {totp(k + 2)};
    assert Codes(totp, k) == s4 + {totp(k + 3)};
  }

  lemma {:induction false} DistinctCount(s: seq<string>, all: set<string>)
    requires forall x <- s :: x in all
    requires forall i, j :: 0 <= i < j < |s| ==> s[i] != s[j]
    ensures |s| <= |all|
  {
    if s != [] {
      var rest := s[..|s| - 1];
      DistinctCount(rest, all - {s[|s| - 1]});
    }
  }

  /** Acceptances within three steps carry codes of five steps. */
  lemma Nearby(log: seq<Accepted>, totp: Totp, i: nat, j: nat)
    requires Timed(log, totp) && i <= j < |log| && log[j].at / STEP < log[i].at / STEP + 3
    ensures log[j].at / STEP >= log[i].at / STEP && log[j].code in Codes(totp, log[i].at / STEP)
  {
    assert log[i].at <= log[j].at;
    assert InWindow(totp, log[j].at, log[j].code);
  }

  /** Six accepted codes cannot fit into three consecutive steps. */
  lemma Crowded(log: seq<Accepted>, totp: Totp, i: nat)
    requires Timed(log, totp) && Spaced(log)
    requires i + 5 < |log|
    ensures log[i + 5].at / STEP - log[i].at / STEP >= 3
  {
    hide Codes, Value;
    var k := log[i].at / STEP;
    if log[i + 5].at / STEP < k + 3 {
      var six := seq(6, a requires 0 <= a < 6 => log[i + a].code);
      forall a | 0 <= a < 6 ensures six[a] in Codes(totp, k) && k <= log[i + a].at / STEP < k + 3 {
        assert log[i + a].at <= log[i + 5].at;
        Nearby(log, totp, i, i + a);
      }
      DistinctCount(six, Codes(totp, k));
      SmallSet(totp, k);
    }
  }

  /** With five codes remembered, a code that is not found was not accepted in the last three steps. */
  lemma Extend(log: seq<Accepted>, totp: Totp, keep: nat, now: nat, code: string)
    requires Timed(log, totp) && Spaced(log) && keep >= MEMORY
    requires InWindow(totp, now, code) && forall e <- log :: e.at <= now
    requires !Replayed(LastOf(log, keep), now, code)
    ensures Timed(log + [Accepted(now, code)], totp) && Spaced(log + [Accepted(now, code)])
  {
    forall i | 0 <= i < |log| && Value(log[i].code) == Value(code)
      ensures now / STEP - log[i].at / STEP >= 3
    {
      var kept := LastOf(log, keep);
      if |log| - |kept| <= i {
        assert kept[i - (|log| - |kept|)] == log[i];
      } else {
        Crowded(log, totp, i);
        assert log[i + 5] in log;
      }
    }
  }

  /** What the script's memory and the full log have to do with each other. */
  ghost predicate Remembers(keep: nat, secrets: map<string, Totp>, user: string,
                            log: seq<Accepted>, used: seq<Accepted>, now: nat)
  {
    && used == LastOf(log, keep)
    && (forall e <- log :: e.at <= now)
    && (log != [] ==> user in secrets)
    && (user in secrets ==> Timed(log, secrets[user]) && Spaced(log))
  }

  /** What one request does to the files of one user. */
  lemma UserStep(run: Run, user: string, n: nat)
    requires run.keep > 0 && n < |run.reqs|
    ensures
      var st, st' := StateOf(run.States(n), user), StateOf(run.States(n + 1), user);
      var r := run.reqs[n];
      && (run.Accepts(n, user) ==>
            && user in run.secrets && InWindow(run.secrets[user], r.now, r.code)
            && !Replayed(st.used, r.now, r.code)
            && st'.used == LastOf(st.used, run.keep - 1) + [Accepted(r.now, r.code)] && st'.fails == 0)
      && (!run.Accepts(n, user) ==> st'.used == st.used)
      && (r.user == user && run.Verdict(n) == WrongCode ==>
            && st'.last == r.now
            && st'.fails == (if r.now - st.last >= LOCK then 0 else st.fails) + 1 <= MAX_WRONG)
      && (!(r.user == user && run.Verdict(n) in {WrongCode, Ok}) ==> st'.fails == st.fails && st'.last == st.last)
  {
  }

  lemma Append(keep: nat, secrets: map<string, Totp>, user: string, log: seq<Accepted>, used: seq<Accepted>,
               now: nat, code: string)
    requires keep >= MEMORY && user in secrets && Remembers(keep, secrets, user, log, used, now)
    requires InWindow(secrets[user], now, code) && !Replayed(used, now, code)
    ensures Remembers(keep, secrets, user, log + [Accepted(now, code)],
                      LastOf(used, keep - 1) + [Accepted(now, code)], now)
  {
    Extend(log, secrets[user], keep, now, code);
    assert LastOf(used, keep - 1) == LastOf(log, keep - 1);
  }

  lemma Nothing(run: Run, user: string)
    requires run.keep > 0
    ensures Remembers(run.keep, run.secrets, user, [], StateOf(run.States(0), user).used, 0)
  {
  }

  lemma {:induction false} Memory(run: Run, user: string, n: nat)
    requires run.Clocked() && run.keep >= MEMORY && n <= |run.reqs|
    ensures Remembers(run.keep, run.secrets, user, run.Log(user, n), StateOf(run.States(n), user).used,
                      if n == 0 then 0 else run.reqs[n - 1].now)
  {
    hide Verify, Judge, Replayed, Spaced, Timed;
    if n == 0 {
      Nothing(run, user);
    } else {
      Memory(run, user, n - 1);
      UserStep(run, user, n - 1);
      var r, log, used := run.reqs[n - 1], run.Log(user, n - 1), StateOf(run.States(n - 1), user).used;
      assert Remembers(run.keep, run.secrets, user, log, used, r.now);
      if run.Accepts(n - 1, user) {
        Append(run.keep, run.secrets, user, log, used, r.now, r.code);
      }
    }
  }

  lemma {:induction false} InLog(run: Run, user: string, i: nat, n: nat) returns (k: nat)
    requires run.Clocked() && i < n <= |run.reqs| && run.Accepts(i, user)
    ensures k < |run.Log(user, n)| && run.Log(user, n)[k] == Accepted(run.reqs[i].now, run.reqs[i].code)
  {
    if i == n - 1 {
      k := |run.Log(user, n)| - 1;
    } else {
      k := InLog(run, user, i, n - 1);
    }
  }

  /** In any run, two acceptances of one code for one user are at least three steps apart. */
  lemma AcceptedApart(run: Run, i: nat, j: nat)
    requires run.Clocked() && run.keep >= MEMORY
    requires i < j < |run.reqs| && run.reqs[i].user == run.reqs[j].user
    requires run.Verdict(i) == Ok && run.Verdict(j) == Ok && run.reqs[i].code == run.reqs[j].code
    ensures run.reqs[j].now / STEP - run.reqs[i].now / STEP >= 3
  {
    var user := run.reqs[i].user;
    var k := InLog(run, user, i, j);
    Memory(run, user, j + 1);
    var log := run.Log(user, j + 1);
    assert log == run.Log(user, j) + [Accepted(run.reqs[j].now, run.reqs[j].code)];
    assert log[k].at / STEP + 3 <= log[|log| - 1].at / STEP;
  }

  /** The one-time rule of section 5.2 of RFC 6238: the code of one step is accepted at most once. */
  lemma OneTime(run: Run, i: nat, j: nat, step: int)
    requires run.Clocked() && run.keep >= MEMORY
    requires i < j < |run.reqs| && run.reqs[i].user == run.reqs[j].user && run.reqs[i].user in run.secrets
    requires run.reqs[i].code == run.reqs[j].code == run.secrets[run.reqs[i].user](step)
    requires step - 1 <= run.reqs[i].now / STEP && run.reqs[j].now / STEP <= step + 1
    ensures run.Verdict(i) == Ok ==> run.Verdict(j) != Ok
  {
    if run.Verdict(i) == Ok && run.Verdict(j) == Ok { AcceptedApart(run, i, j); }
  }

  // ---- five is exactly enough ---------------------------------------------

  /** A token whose code at step n ends in the last digit of n. */
  function Token(n: int): string { "00000" + [('0' as int + n % 10) as char] }

  lemma TokenValue(n: int)
    ensures Value(Token(n)) == n % 10 && WellFormed(Token(n))
  {
    var t := Token(n);
    assert Value("0") == 0;
    assert "00"[..1] == "0" && "000"[..2] == "00" && "0000"[..3] == "000" && "00000"[..4] == "0000";
    assert Value("000") == 0;
    assert Value("00000") == 0;
    assert t[..5] == "00000";
  }

  const WITNESS := [(300, 11), (300, 9), (300, 10), (330, 12), (360, 13), (360, 11)]

  function WitnessLog(): (log: seq<Accepted>)
    ensures |log| == 6
  {
    seq(6, i requires 0 <= i < 6 => Accepted(WITNESS[i].0, Token(WITNESS[i].1)))
  }

  function WitnessRun(keep: nat): Run {
    Run(keep, map["u" := Token], seq(6, i requires 0 <= i < 6 => Request("u", "u", Token(WITNESS[i].1), WITNESS[i].0)))
  }

  lemma WitnessDistinct(i: nat, n: nat)
    requires n - MEMORY < i < n < 6
    ensures Value(WitnessLog()[i].code) != Value(WitnessLog()[n].code)
  {
    TokenValue(WITNESS[i].1);
    TokenValue(WITNESS[n].1);
  }

  lemma WitnessFresh(keep: nat, n: nat)
    requires 0 < keep < MEMORY && n < 6
    ensures var e := WitnessLog()[n]; !Replayed(LastOf(WitnessLog()[..n], keep), e.at, e.code)
  {
    var log := WitnessLog();
    var used := LastOf(log[..n], keep);
    forall k | 0 <= k < |used|
      ensures Value(used[k].code) != Value(log[n].code)
    {
      assert used[k] == log[k + (n - |used|)];
      WitnessDistinct(k + (n - |used|), n);
    }
  }

  lemma JudgeOk(keep: nat, totp: Totp, log: seq<Accepted>, e: Accepted)
    requires keep > 0 && InWindow(totp, e.at, e.code) && !Replayed(LastOf(log, keep), e.at, e.code)
    ensures Judge(keep, totp, UserState(LastOf(log, keep), 0, 0), e.at, e.code)
         == (Ok, UserState(LastOf(log + [e], keep), 0, 0))
  {
    hide InWindow, Replayed, LastOf;
    LastAppend(log, e, keep);
  }

  lemma LastNone(keep: nat)
    ensures LastOf<Accepted>([], keep) == []
  {
  }

  lemma LastAppend(log: seq<Accepted>, e: Accepted, keep: nat)
    requires keep > 0
    ensures LastOf(LastOf(log, keep), keep - 1) + [e] == LastOf(log + [e], keep)
  {
  }

  lemma WitnessWindow(n: nat)
    requires n < 6
    ensures InWindow(Token, WITNESS[n].0, Token(WITNESS[n].1))
  {
    hide Token;
    assert n in {0, 1, 2, 3, 4, 5};
  }

  lemma WitnessStep(keep: nat, n: nat)
    requires 0 < keep < MEMORY && n < 6
    ensures Judge(keep, Token, UserState(LastOf(WitnessLog()[..n], keep), 0, 0), WITNESS[n].0, Token(WITNESS[n].1))
         == (Ok, UserState(LastOf(WitnessLog()[..n + 1], keep), 0, 0))
  {
    hide Judge, InWindow, Replayed, LastOf, Token;
    var log := WitnessLog();
    WitnessFresh(keep, n);
    WitnessWindow(n);
    JudgeOk(keep, Token, log[..n], log[n]);
    assert log[..n] + [log[n]] == log[..n + 1];
  }

  lemma {:induction false} WitnessAccepted(keep: nat, n: nat)
    requires 0 < keep < MEMORY && n <= 6
    ensures StateOf(WitnessRun(keep).States(n), "u") == UserState(LastOf(WitnessLog()[..n], keep), 0, 0)
    ensures forall k :: 0 <= k < n ==> WitnessRun(keep).Verdict(k) == Ok
  {
    hide Judge, Token, Value, LastOf;
    if n == 0 {
      LastNone(keep);
    } else {
      WitnessAccepted(keep, n - 1);
      WitnessStep(keep, n - 1);
      TokenValue(WITNESS[n - 1].1);
    }
  }

  /** With fewer than five codes remembered, some run accepts one code twice two steps apart. */
  lemma FewerIsNotEnough(keep: nat)
    requires 0 < keep < MEMORY
    ensures exists run: Run, i, j ::
      && run.keep == keep && run.Clocked() && 0 <= i < j < |run.reqs|
      && run.Verdict(i) == Ok && run.Verdict(j) == Ok
      && run.reqs[i].user == run.reqs[j].user && run.reqs[i].code == run.reqs[j].code
      && run.reqs[j].now / STEP - run.reqs[i].now / STEP == 2
  {
    var run := WitnessRun(keep);
    WitnessAccepted(keep, 6);
    assert run.Clocked();
    assert run.Verdict(0) == Ok && run.Verdict(5) == Ok && run.reqs[0].code == run.reqs[5].code;
  }

  // ---- lockout ------------------------------------------------------------

  lemma {:induction false} LockoutStep(run: Run, user: string, a: nat, b: nat)
    requires run.Clocked() && a <= b <= |run.reqs|
    requires a < b ==> run.reqs[b - 1].now - run.reqs[a].now < LOCK
    requires forall k :: a <= k < b ==> !run.Accepts(k, user)
    ensures run.Wrong(user, a, b) <= MAX_WRONG
    ensures run.Wrong(user, a, b) > 0 ==>
      && StateOf(run.States(b), user).fails >= run.Wrong(user, a, b)
      && StateOf(run.States(b), user).last >= run.reqs[a].now
  {
    hide Verify, Judge;
    if a < b {
      LockoutStep(run, user, a, b - 1);
      UserStep(run, user, b - 1);
    }
  }

  /** Within any 300 seconds that see no accepted code, at most five wrong codes of a user are evaluated. */
  lemma Lockout(run: Run, user: string, a: nat, b: nat)
    requires run.Clocked() && a < b <= |run.reqs|
    requires run.reqs[b - 1].now - run.reqs[a].now < LOCK
    requires forall k :: a <= k < b ==> !run.Accepts(k, user)
    ensures run.Wrong(user, a, b) <= MAX_WRONG
  {
    LockoutStep(run, user, a, b);
  }

  // ---- the verdict --------------------------------------------------------

  /** Codes of one length are the same number only if they are the same code. */
  lemma {:induction false} SameValue(a: string, b: string)
    requires |a| == |b| && (forall c <- a :: IsDigit(c)) && (forall c <- b :: IsDigit(c))
    ensures Value(a) == Value(b) <==> a == b
  {
    if a != [] {
      var n := |a| - 1;
      SameValue(a[..n], b[..n]);
      assert a == a[..n] + [a[n]] && b == b[..n] + [b[n]];
      assert IsDigit(a[n]) && IsDigit(b[n]);
    }
  }

  /** A zero in front does not change the number. */
  lemma {:induction false} LeadingZero(code: string)
    ensures Value("0" + code) == Value(code)
  {
    if code == [] {
      assert "0" + code == "0" && Value("0") == 0;
    } else {
      var n := |code| - 1;
      LeadingZero(code[..n]);
      assert ("0" + code)[..n + 1] == "0" + code[..n];
    }
  }

  /** Request i was a wrong code of the user that was evaluated. */
  ghost predicate Misses(run: Run, user: string, i: nat)
    requires run.keep > 0 && i < |run.reqs|
  {
    run.reqs[i].user == user && run.Verdict(i) == WrongCode
  }

  ghost predicate NoneBetween(run: Run, user: string, i: int, j: nat)
    requires run.keep > 0 && j <= |run.reqs|
  {
    forall k: nat :: i < k < j ==> !Misses(run, user, k)
  }

  /** Request j comes less than 300 seconds after request i, and no wrong code between them. */
  ghost predicate Follows(run: Run, user: string, i: nat, j: nat)
    requires run.keep > 0 && j < |run.reqs|
  {
    i < j && NoneBetween(run, user, i, j) && run.reqs[j].now - run.reqs[i].now < 300
  }

  ghost predicate Refused(run: Run, user: string, a: nat, n: nat)
    requires run.keep > 0 && n <= |run.reqs|
  {
    forall i: nat :: a <= i < n ==> !run.Accepts(i, user)
  }

  /** Since request a five wrong codes were evaluated and none was accepted, and each pause up to request n is short. */
  ghost predicate Burst(run: Run, user: string, a: nat, n: nat)
    requires run.keep > 0 && n < |run.reqs|
  {
    && a <= n && Refused(run, user, a, n) && run.Wrong(user, a, n) >= 5
    && forall i: nat :: a <= i < n && Misses(run, user, i) ==> Paused(run, user, i, n)
  }

  /** The next wrong code after request i, or else request n, comes less than 300 seconds later. */
  ghost predicate Paused(run: Run, user: string, i: nat, n: nat)
    requires run.keep > 0 && n < |run.reqs|
  {
    exists j: nat :: j <= n && (j == n || Misses(run, user, j)) && Follows(run, user, i, j)
  }

  /** The same before request n is there. */
  ghost predicate Streak(run: Run, user: string, a: nat, n: nat)
    requires run.keep > 0 && n <= |run.reqs|
  {
    && a <= n && Refused(run, user, a, n)
    && forall i: nat :: a <= i < n && Misses(run, user, i) ==> NoneBetween(run, user, i, n) || Linked(run, user, i, n)
  }

  ghost predicate Linked(run: Run, user: string, i: nat, n: nat)
    requires run.keep > 0 && n <= |run.reqs|
  {
    exists j: nat :: j < n && Misses(run, user, j) && Follows(run, user, i, j)
  }

  lemma StreakGrows(run: Run, user: string, a: nat, n: nat, i: nat)
    requires run.keep > 0 && a <= i < n < |run.reqs| && Streak(run, user, a, n)
    requires Misses(run, user, i) && NoneBetween(run, user, i, n) && Misses(run, user, n)
    requires run.reqs[n].now - run.reqs[i].now < LOCK
    ensures Streak(run, user, a, n + 1)
  {
    assert Follows(run, user, i, n);
    forall k: nat | a <= k < n && Misses(run, user, k) ensures Linked(run, user, k, n + 1) {
      if k < i {
        assert !NoneBetween(run, user, k, n);
        var j: nat :| j < n && Misses(run, user, j) && Follows(run, user, k, j);
      } else {
        assert k == i;
      }
    }
  }

  lemma StreakStays(run: Run, user: string, a: nat, n: nat)
    requires run.keep > 0 && a <= n < |run.reqs| && !Misses(run, user, n) && !run.Accepts(n, user)
    ensures Streak(run, user, a, n) <==> Streak(run, user, a, n + 1)
  {
    forall i: nat | a <= i < n && Misses(run, user, i)
      ensures NoneBetween(run, user, i, n) <==> NoneBetween(run, user, i, n + 1)
      ensures Linked(run, user, i, n) <==> Linked(run, user, i, n + 1)
    {
      assert NoneBetween(run, user, i, n) ==> forall k: nat :: i < k < n + 1 ==> !Misses(run, user, k);
      if Linked(run, user, i, n) { var j: nat :| j < n && Misses(run, user, j) && Follows(run, user, i, j); }
      if Linked(run, user, i, n + 1) {
        var j: nat :| j < n + 1 && Misses(run, user, j) && Follows(run, user, i, j);
        assert j < n;
      }
    }
    assert Refused(run, user, a, n) ==> forall i: nat :: a <= i < n + 1 ==> !run.Accepts(i, user);
  }

  lemma StreakShorter(run: Run, user: string, a: nat, n: nat)
    requires run.keep > 0 && a <= n < |run.reqs| && Misses(run, user, n) && Streak(run, user, a, n + 1)
    ensures Streak(run, user, a, n)
  {
    forall i: nat | a <= i < n && Misses(run, user, i) ensures NoneBetween(run, user, i, n) || Linked(run, user, i, n) {
      assert !NoneBetween(run, user, i, n + 1);
      var j: nat :| j < n + 1 && Misses(run, user, j) && Follows(run, user, i, j);
    }
  }

  /** The stored count is that of a streak of wrong codes, the stored time that of the last of them. */
  lemma {:induction false} CountIsStreak(run: Run, user: string, n: nat) returns (a: nat, last: int)
    requires run.keep > 0 && n <= |run.reqs|
    ensures a <= n && Streak(run, user, a, n) && run.Wrong(user, a, n) == StateOf(run.States(n), user).fails
    ensures StateOf(run.States(n), user).fails > 0 ==>
      && a <= last < n && Misses(run, user, last) && NoneBetween(run, user, last, n)
      && run.reqs[last].now == StateOf(run.States(n), user).last
  {
    hide Verify, Judge, Streak;
    if n == 0 {
      a, last := 0, -1;
      EmptyStreak(run, user, 0);
    } else {
      a, last := CountIsStreak(run, user, n - 1);
      UserStep(run, user, n - 1);
      var st, now := StateOf(run.States(n - 1), user), run.reqs[n - 1].now;
      if run.Accepts(n - 1, user) {
        a := n;
        EmptyStreak(run, user, n);
      } else if Misses(run, user, n - 1) {
        if now - st.last < LOCK && st.fails > 0 {
          StreakGrows(run, user, a, n - 1, last);
        } else {
          a := n - 1;
          OneStreak(run, user, n - 1);
        }
        last := n - 1;
      } else {
        StreakStays(run, user, a, n - 1);
      }
    }
  }

  lemma EmptyStreak(run: Run, user: string, n: nat)
    requires run.keep > 0 && n <= |run.reqs|
    ensures Streak(run, user, n, n) && run.Wrong(user, n, n) == 0
  {
  }

  lemma OneStreak(run: Run, user: string, n: nat)
    requires run.keep > 0 && n < |run.reqs| && Misses(run, user, n)
    ensures Streak(run, user, n, n + 1) && run.Wrong(user, n, n + 1) == 1
  {
    assert run.Wrong(user, n, n) == 0;
  }

  lemma {:induction false} WrongMisses(run: Run, user: string, a: nat, n: nat) returns (i: nat)
    requires run.keep > 0 && a <= n <= |run.reqs| && run.Wrong(user, a, n) > 0
    ensures a <= i < n && Misses(run, user, i) && NoneBetween(run, user, i, n)
  {
    if Misses(run, user, n - 1) { i := n - 1; } else { i := WrongMisses(run, user, a, n - 1); }
  }

  /** No streak is longer. */
  lemma {:induction false} StreakIsCounted(run: Run, user: string, a: nat, n: nat)
    requires run.keep > 0 && a <= n <= |run.reqs| && Streak(run, user, a, n)
    ensures run.Wrong(user, a, n) <= StateOf(run.States(n), user).fails
  {
    hide Verify, Judge, Streak;
    if a == n { return; }
    UserStep(run, user, n - 1);
    if Misses(run, user, n - 1) {
      StreakShorter(run, user, a, n - 1);
      StreakIsCounted(run, user, a, n - 1);
      if run.Wrong(user, a, n - 1) > 0 {
        var i := WrongMisses(run, user, a, n - 1);
        var b, last := CountIsStreak(run, user, n - 1);
        assert i == last;
        LastGap(run, user, a, n, i);
      }
    } else {
      assert !run.Accepts(n - 1, user) by { StreakRefuses(run, user, a, n); }
      StreakStays(run, user, a, n - 1);
      StreakIsCounted(run, user, a, n - 1);
    }
  }

  lemma StreakRefuses(run: Run, user: string, a: nat, n: nat)
    requires run.keep > 0 && a < n <= |run.reqs| && Streak(run, user, a, n)
    ensures !run.Accepts(n - 1, user)
  {
  }

  lemma LastGap(run: Run, user: string, a: nat, n: nat, i: nat)
    requires run.keep > 0 && a <= i < n - 1 < |run.reqs| && Streak(run, user, a, n)
    requires Misses(run, user, i) && Misses(run, user, n - 1) && NoneBetween(run, user, i, n - 1)
    ensures run.reqs[n - 1].now - run.reqs[i].now < LOCK
  {
    hide Misses, Refused;
    assert !NoneBetween(run, user, i, n);
    var j: nat :| j < n && Misses(run, user, j) && Follows(run, user, i, j);
  }

  /** Locked out, by the requests so far alone. */
  ghost predicate Locked(run: Run, n: nat)
    requires run.keep > 0 && n < |run.reqs|
  {
    exists a: nat :: Burst(run, run.reqs[n].user, a, n)
  }

  /** The stored count and time hold the user back exactly if the requests do. */
  lemma LockedIs(run: Run, n: nat)
    requires run.keep > 0 && n < |run.reqs|
    ensures var st := StateOf(run.States(n), run.reqs[n].user);
      Locked(run, n) <==> st.fails >= MAX_WRONG && run.reqs[n].now - st.last < LOCK
  {
    hide Verify, Judge, Burst, Streak;
    var user, st := run.reqs[n].user, StateOf(run.States(n), run.reqs[n].user);
    var b, last := CountIsStreak(run, user, n);
    if st.fails >= MAX_WRONG && run.reqs[n].now - st.last < LOCK {
      StreakIsBurst(run, user, b, n, last);
    }
    if a: nat :| Burst(run, user, a, n) {
      BurstIsStreak(run, user, a, n);
      StreakIsCounted(run, user, a, n);
      BurstIsRecent(run, user, a, n, last);
    }
  }

  lemma StreakIsBurst(run: Run, user: string, a: nat, n: nat, last: nat)
    requires run.keep > 0 && a <= last < n < |run.reqs| && Streak(run, user, a, n) && run.Wrong(user, a, n) >= MAX_WRONG
    requires Misses(run, user, last) && NoneBetween(run, user, last, n) && run.reqs[n].now - run.reqs[last].now < LOCK
    ensures Burst(run, user, a, n)
  {
    hide run.Verdict, run.Wrong;
    forall i: nat | a <= i < n && Misses(run, user, i) ensures Paused(run, user, i, n) {
      if NoneBetween(run, user, i, n) {
        assert i == last && Follows(run, user, i, n);
      } else {
        assert Linked(run, user, i, n);
        var j: nat :| j < n && Misses(run, user, j) && Follows(run, user, i, j);
      }
    }
  }

  lemma BurstIsRecent(run: Run, user: string, a: nat, n: nat, last: nat)
    requires run.keep > 0 && last < n < |run.reqs| && Burst(run, user, a, n)
    requires Misses(run, user, last) && NoneBetween(run, user, last, n)
    ensures run.reqs[n].now - run.reqs[last].now < LOCK
  {
    var i := WrongMisses(run, user, a, n);
    assert i == last && Paused(run, user, i, n);
    var j: nat :| j <= n && (j == n || Misses(run, user, j)) && Follows(run, user, i, j);
  }

  lemma BurstIsStreak(run: Run, user: string, a: nat, n: nat)
    requires run.keep > 0 && n < |run.reqs| && Burst(run, user, a, n)
    ensures a <= n && Streak(run, user, a, n) && run.Wrong(user, a, n) >= MAX_WRONG
  {
    forall i: nat | a <= i < n && Misses(run, user, i) ensures NoneBetween(run, user, i, n) || Linked(run, user, i, n) {
      assert Paused(run, user, i, n);
      var j: nat :| j <= n && (j == n || Misses(run, user, j)) && Follows(run, user, i, j);
    }
  }

  lemma {:induction false} UsedIsLog(run: Run, user: string, n: nat)
    requires run.keep > 0 && n <= |run.reqs|
    ensures StateOf(run.States(n), user).used == LastOf(run.Log(user, n), run.keep)
  {
    hide Verify, Judge, LastOf, Replayed, InWindow;
    if n == 0 {
      LastNone(run.keep);
    } else {
      UsedIsLog(run, user, n - 1);
      UserStep(run, user, n - 1);
      if run.Accepts(n - 1, user) {
        LastAppend(run.Log(user, n - 1), Accepted(run.reqs[n - 1].now, run.reqs[n - 1].code), run.keep);
      }
    }
  }

  /** The code is that of the present step or of a neighbour. */
  ghost predicate Valid(run: Run, n: nat)
    requires n < |run.reqs| && run.reqs[n].user in run.secrets
  {
    var r := run.reqs[n];
    exists step :: r.now / STEP - 1 <= step <= r.now / STEP + 1 && r.code == run.secrets[r.user](step)
  }

  /** One of the codes of the user that were accepted last is the same number, and at most 120 seconds old. */
  ghost predicate Reused(run: Run, n: nat)
    requires run.keep > 0 && n < |run.reqs|
  {
    exists e :: e in LastOf(run.Log(run.reqs[n].user, n), run.keep)
      && run.reqs[n].now - e.at <= 120 && Value(e.code) == Value(run.reqs[n].code)
  }

  /** A well-formed request of an enrolled user under its own certificate. */
  predicate Evaluable(run: Run, n: nat)
    requires n < |run.reqs|
  {
    var r := run.reqs[n];
    r.user != "" && r.user == r.cn && 6 <= |r.code| <= 8 && (forall c <- r.code :: '0' <= c <= '9') && r.user in run.secrets
  }

  /** The verdict on every request of every run, by the requests and verdicts before it. */
  lemma VerdictIs(run: Run, n: nat)
    requires run.keep > 0 && n < |run.reqs|
    ensures run.Verdict(n) in {Ok, TooManyWrongCodes, WrongCode, AlreadyUsed} <==> Evaluable(run, n)
    ensures Evaluable(run, n) ==>
      && (run.Verdict(n) == TooManyWrongCodes <==> Locked(run, n))
      && (run.Verdict(n) == WrongCode <==> !Locked(run, n) && !Valid(run, n))
      && (run.Verdict(n) == AlreadyUsed <==> !Locked(run, n) && Valid(run, n) && Reused(run, n))
      && (run.Verdict(n) == Ok <==> !Locked(run, n) && Valid(run, n) && !Reused(run, n))
  {
    hide Locked, Value, LastOf;
    var r := run.reqs[n];
    if Evaluable(run, n) {
      LockedIs(run, n);
      UsedIsLog(run, r.user, n);
      WindowIs(run.secrets[r.user], r.now, r.code);
    }
  }

  lemma WindowIs(totp: Totp, now: nat, code: string)
    ensures InWindow(totp, now, code) <==> exists step :: now / STEP - 1 <= step <= now / STEP + 1 && code == totp(step)
  {
    if step :| now / STEP - 1 <= step <= now / STEP + 1 && code == totp(step) {
      assert step == now / STEP - 1 || step == now / STEP || step == now / STEP + 1;
    }
  }
}

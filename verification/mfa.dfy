/** One-time factors of one principal, under interleaved transactions. */
module Mfa {
  // TOTP codes, recovery codes and login challenges; what a transaction read may be stale when it
  // commits.

  import opened WorkflowDef
  import opened Text

  const PERIOD: int := 30

  type Secret = string
  type Hash = string

  /** The HOTP check, the keyed hash of a recovery code, and the attempts a challenge allows. */
  datatype Config = Config(hotp: (Secret, int, string) -> bool, digest: string -> Hash, maxAttempts: nat)

  // ----- Codes -----

  predicate SixDigits(s: string) {
    |s| == 6 && forall ch | ch in s :: '0' <= ch <= '9'
  }

  function Upper(ch: char): char {
    if 'a' <= ch <= 'z' then ch - 'a' + 'A' else ch
  }

  function Strip(s: string): string {
    if s == "" then "" else (if s[0] == '-' || s[0] == ' ' then "" else [Upper(s[0])]) + Strip(s[1..])
  }

  function Normalized(code: string): string {
    Strip(Trim(code))
  }

  /** `now` is in milliseconds. */
  function Counter(now: nat): nat {
    now / 1000 / PERIOD
  }

  /** `now`, in milliseconds, falls into the 30 seconds of step `k` or of one of the two beside it. */
  predicate Timely(k: int, now: nat) {
    k >= 0 && (k - 1) * 30_000 <= now < (k + 2) * 30_000
  }

  lemma TimelyIff(k: int, now: nat)
    ensures Timely(k, now) <==> k >= 0 && -1 <= k - Counter(now) <= 1
    ensures k * 30_000 <= now < (k + 1) * 30_000 <==> k == Counter(now)
  {
  }

  /** The step a code is for: this one, the last one, or the next one, in that order. */
  function StepOf(c: Config, secret: Secret, code: string, now: nat): (step: Option<int>)
    ensures step.Some? ==> Timely(step.value, now) && c.hotp(secret, step.value, Trim(code))
    ensures step.None? ==> forall k: int | Timely(k, now) :: !c.hotp(secret, k, Trim(code))
    ensures forall k: int | k * 30_000 <= now < (k + 1) * 30_000 && c.hotp(secret, k, Trim(code)) :: step == Some(k)
    ensures forall k: int | k * 30_000 <= now < (k + 1) * 30_000 && step == Some(k + 1) ::
              k >= 1 ==> !c.hotp(secret, k - 1, Trim(code))
  {
    assert forall k: int {:trigger c.hotp(secret, k, Trim(code))} ::
        (Timely(k, now) <==> k >= 0 && -1 <= k - Counter(now) <= 1)
        && (k * 30_000 <= now < (k + 1) * 30_000 <==> k == Counter(now)) by {
      forall k: int
        ensures Timely(k, now) <==> k >= 0 && -1 <= k - Counter(now) <= 1
        ensures k * 30_000 <= now < (k + 1) * 30_000 <==> k == Counter(now)
      {
        TimelyIff(k, now);
      }
    }
    var n := Counter(now);
    if c.hotp(secret, n, Trim(code)) then Some(n)
    else if n >= 1 && c.hotp(secret, n - 1, Trim(code)) then Some(n - 1)
    else if c.hotp(secret, n + 1, Trim(code)) then Some(n + 1)
    else None
  }

  // ----- Rows and transactions -----

  datatype Credential = Credential(required: bool, secret: Secret, lastStep: int)
  datatype Challenge = Challenge(expires: int, consumed: int, attempts: nat)
  datatype Enrolment = Enrolment(secret: Secret, expires: int)

  /** What a transaction has read. */
  datatype Tx =
    | Login(challenge: Id, read: Challenge, credential: Credential, now: nat)
    | Regenerate(credential: Credential, now: nat)
    | Disable(credential: Credential, now: nat)
    | Confirm(enrolment: Enrolment, now: nat)

  /** A TOTP step that was accepted, a recovery code that was spent. An era is the time between two
      resets of the last used step, a batch the time between two replacements of the codes. */
  datatype Accepted = Accepted(era: nat, step: int, now: nat)
  datatype Spent = Spent(batch: nat, hash: Hash)

  datatype State = State(credential: Credential, codes: map<Hash, nat>, pending: Option<Enrolment>,
                         challenges: map<Id, Challenge>, born: set<Id>, sessions: seq<Id>, txs: map<nat, Tx>,
                         era: nat, batch: nat, accepted: seq<Accepted>, spent: seq<Spent>)

  datatype Factor = Factor(ok: bool, s: State)

  /** Consumes a factor: the step must be later than the one read and than the one stored, the
      recovery code unused. */
  function Consume(c: Config, s: State, read: Credential, code: string, now: nat): Factor {
    if SixDigits(Trim(code)) then
      var step := StepOf(c, read.secret, code, now);
      if step.None? || step.value <= read.lastStep || s.credential.lastStep >= step.value then Factor(false, s)
      else Factor(true, s.(credential := s.credential.(lastStep := step.value),
                           accepted := s.accepted + [Accepted(s.era, step.value, now)]))
    else if Normalized(code) == "" then Factor(false, s)
    else
      var h := c.digest(Normalized(code));
      if h in s.codes && s.codes[h] == 0 then
        Factor(true, s.(codes := s.codes[h := now], spent := s.spent + [Spent(s.batch, h)]))
      else Factor(false, s)
  }

  datatype Action =
    | NewChallenge(id: Id, expires: int, now: nat)
    | BeginEnrolment(secret: Secret, expires: int)
    | ReadLogin(tx: nat, challenge: Id, now: nat)
    | ReadCredential(tx: nat, disable: bool, now: nat)
    | ReadEnrolment(tx: nat, now: nat)
    | Commit(tx: nat, code: string, codes: set<Hash>)
    | Rollback(tx: nat)

  /** A challenge that may still be answered, as far as its reader can tell. */
  predicate Open(c: Config, ch: Challenge, now: nat) {
    ch.consumed == 0 && ch.expires > now && ch.attempts < c.maxAttempts
  }

  predicate Enabled(c: Config, s: State, a: Action) {
    match a
    case NewChallenge(id, _, now) => id !in s.born && now > 0
    case BeginEnrolment(_, _) => true
    case ReadLogin(tx, id, now) =>
      tx !in s.txs && now > 0 && id in s.challenges && Open(c, s.challenges[id], now) && s.credential.required
    case ReadCredential(tx, _, now) => tx !in s.txs && now > 0 && s.credential.required
    case ReadEnrolment(tx, now) => tx !in s.txs && now > 0 && s.pending.Some? && s.pending.value.expires > now
    case Commit(tx, _, _) => tx in s.txs
    case Rollback(tx) => tx in s.txs
  }

  /** The writes of a login: a session and the challenge consumed, or an attempt counted; nothing if
      the challenge is no longer as it was read. */
  function CommitLogin(c: Config, s: State, t: Tx, code: string): State
    requires t.Login?
  {
    var f := Consume(c, s, t.credential, code, t.now);
    if t.challenge !in s.challenges || s.challenges[t.challenge].consumed != 0 then s
    else if f.ok then
      f.s.(challenges := s.challenges[t.challenge := s.challenges[t.challenge].(consumed := t.now)],
           sessions := s.sessions + [t.challenge])
    else if s.challenges[t.challenge].attempts != t.read.attempts then s
    else
      var ch := s.challenges[t.challenge].(attempts := t.read.attempts + 1);
      var last := t.read.attempts + 1 >= c.maxAttempts;
      s.(challenges := s.challenges[t.challenge := if last then ch.(consumed := t.now) else ch])
  }

  function ReplaceCodes(s: State, codes: set<Hash>): State {
    s.(codes := map h | h in codes :: 0, batch := s.batch + 1)
  }

  function CommitTx(c: Config, s: State, t: Tx, code: string, codes: set<Hash>): State {
    match t
    case Login(_, _, _, _) => CommitLogin(c, s, t, code)
    case Regenerate(read, now) =>
      var f := Consume(c, s, read, code, now);
      if f.ok then ReplaceCodes(f.s, codes) else s
    case Disable(read, now) =>
      var f := Consume(c, s, read, code, now);
      if !f.ok then s
      else ReplaceCodes(f.s, {}).(credential := Credential(false, "", 0), pending := None, challenges := map[],
                                  era := s.era + 1)
    case Confirm(enrolment, now) =>
      var step := StepOf(c, enrolment.secret, code, now);
      if step.None? || s.credential.required then s
      else ReplaceCodes(s, codes).(credential := Credential(true, enrolment.secret, step.value), pending := None,
                                   era := s.era + 1, accepted := s.accepted + [Accepted(s.era + 1, step.value, now)])
  }

  function Do(c: Config, s: State, a: Action): State
    requires Enabled(c, s, a)
  {
    match a
    case NewChallenge(id, expires, now) =>
      var kept := map k | k in s.challenges && s.challenges[k].consumed == 0
        && s.challenges[k].expires > now :: s.challenges[k];
      s.(challenges := kept[id := Challenge(expires, 0, 0)], born := s.born + {id})
    case BeginEnrolment(secret, expires) =>
      if s.credential.required then s else s.(pending := Some(Enrolment(secret, expires)))
    case ReadLogin(tx, id, now) => s.(txs := s.txs[tx := Login(id, s.challenges[id], s.credential, now)])
    case ReadCredential(tx, disable, now) =>
      s.(txs := s.txs[tx := if disable then Disable(s.credential, now) else Regenerate(s.credential, now)])
    case ReadEnrolment(tx, now) => s.(txs := s.txs[tx := Confirm(s.pending.value, now)])
    case Commit(tx, code, codes) => CommitTx(c, s, s.txs[tx], code, codes).(txs := s.txs - {tx})
    case Rollback(tx) => s.(txs := s.txs - {tx})
  }

  ghost predicate Runs(c: Config, s: State, actions: seq<Action>, t: State)
    decreases |actions|
  {
    if actions == [] then s == t
    else Enabled(c, s, actions[0]) && Runs(c, Do(c, s, actions[0]), actions[1..], t)
  }

  // ----- The invariant -----

  predicate Near(a: Accepted) {
    Timely(a.step, a.now)
  }

  ghost predicate StepsOk(s: State) {
    && (forall i | 0 <= i < |s.accepted| :: s.accepted[i].era <= s.era && Near(s.accepted[i]))
    && (forall i | 0 <= i < |s.accepted| && s.accepted[i].era == s.era :: s.accepted[i].step <= s.credential.lastStep)
    && (forall i, j | 0 <= i < j < |s.accepted| && s.accepted[i].era == s.accepted[j].era ::
          s.accepted[i].step < s.accepted[j].step)
  }

  ghost predicate CodesOk(s: State) {
    && (forall i | 0 <= i < |s.spent| :: s.spent[i].batch <= s.batch)
    && (forall i | 0 <= i < |s.spent| && s.spent[i].batch == s.batch ::
          s.spent[i].hash in s.codes && s.codes[s.spent[i].hash] != 0)
    && (forall i, j | 0 <= i < j < |s.spent| :: s.spent[i] != s.spent[j])
  }

  ghost predicate ChallengesOk(c: Config, s: State) {
    && (forall k | k in s.challenges :: k in s.born && s.challenges[k].attempts <= c.maxAttempts)
    && (forall i | 0 <= i < |s.sessions| ::
          s.sessions[i] in s.born && (s.sessions[i] in s.challenges ==> s.challenges[s.sessions[i]].consumed != 0))
    && (forall i, j | 0 <= i < j < |s.sessions| :: s.sessions[i] != s.sessions[j])
  }

  /** What a login has read was open at the time, and the challenge still has that expiry. */
  predicate ReadOpen(c: Config, s: State, t: Tx)
    requires t.Login?
  {
    && t.read.consumed == 0 && t.read.expires > t.now && t.read.attempts < c.maxAttempts && t.challenge in s.born
    && (t.challenge in s.challenges ==> s.challenges[t.challenge].expires == t.read.expires)
  }

  ghost predicate TxsOk(c: Config, s: State) {
    forall tx | tx in s.txs ::
      && s.txs[tx].now > 0
      && (s.txs[tx].Login? ==> ReadOpen(c, s, s.txs[tx]))
      && (s.txs[tx].Confirm? ==> s.txs[tx].enrolment.expires > s.txs[tx].now)
  }

  ghost predicate Inv(c: Config, s: State) {
    && StepsOk(s) && CodesOk(s) && ChallengesOk(c, s) && TxsOk(c, s)
    && (s.credential.required ==> s.pending.None?)
  }

  lemma ConsumeSteps(c: Config, s: State, read: Credential, code: string, now: nat)
    requires StepsOk(s)
    ensures var t := Consume(c, s, read, code, now).s;
            && StepsOk(t) && t.era == s.era && t.credential.lastStep >= s.credential.lastStep
  {
    hide SixDigits, Trim, Normalized, StepOf;
  }

  lemma ConsumeCodes(c: Config, s: State, read: Credential, code: string, now: nat)
    requires CodesOk(s) && now > 0
    ensures CodesOk(Consume(c, s, read, code, now).s)
  {
    hide SixDigits, Trim, Normalized, StepOf;
    var h := c.digest(Normalized(code));
    assert h in s.codes && s.codes[h] == 0 ==>
             forall i | 0 <= i < |s.spent| :: s.spent[i] != Spent(s.batch, h);
  }

  lemma ConsumeLeaves(c: Config, s: State, read: Credential, code: string, now: nat)
    ensures var f := Consume(c, s, read, code, now);
            && f.s.challenges == s.challenges && f.s.sessions == s.sessions && f.s.born == s.born
            && f.s.txs == s.txs && f.s.batch == s.batch && f.s.era == s.era && (!f.ok ==> f.s == s)
            && f.s.credential.required == s.credential.required && f.s.pending == s.pending
  {
    hide SixDigits, Trim, Normalized, StepOf;
  }

  lemma LoginKeeps(c: Config, s: State, t: Tx, code: string)
    requires Inv(c, s) && t.Login? && t.now > 0 && t.read.attempts < c.maxAttempts
    ensures Inv(c, CommitLogin(c, s, t, code))
  {
    ConsumeSteps(c, s, t.credential, code, t.now);
    ConsumeCodes(c, s, t.credential, code, t.now);
    ConsumeLeaves(c, s, t.credential, code, t.now);
    hide Consume;
    LoginChallenges(c, s, t, code);
    hide StepsOk, CodesOk, ChallengesOk, TxsOk;
    LoginRest(c, s, t, code);
  }

  lemma LoginChallenges(c: Config, s: State, t: Tx, code: string)
    requires ChallengesOk(c, s) && t.Login? && t.now > 0 && t.read.attempts < c.maxAttempts
    ensures ChallengesOk(c, CommitLogin(c, s, t, code))
  {
    ConsumeLeaves(c, s, t.credential, code, t.now);
    hide Consume;
  }

  lemma LoginRest(c: Config, s: State, t: Tx, code: string)
    requires t.Login? && StepsOk(s) && CodesOk(s) && TxsOk(c, s)
    requires var u := Consume(c, s, t.credential, code, t.now).s;
             StepsOk(u) && CodesOk(u) && u.txs == s.txs && u.challenges == s.challenges && u.born == s.born
    ensures var u := CommitLogin(c, s, t, code); StepsOk(u) && CodesOk(u) && TxsOk(c, u)
  {
    hide Consume;
  }

  lemma ReplaceKeeps(s: State, codes: set<Hash>)
    requires CodesOk(s)
    ensures CodesOk(ReplaceCodes(s, codes))
  {
  }

  lemma ChangeKeeps(c: Config, s: State, t: Tx, code: string, codes: set<Hash>)
    requires Inv(c, s) && t.now > 0 && (t.Regenerate? || t.Disable?)
    ensures Inv(c, CommitTx(c, s, t, code, codes))
  {
    var f := Consume(c, s, t.credential, code, t.now);
    ConsumeSteps(c, s, t.credential, code, t.now);
    ConsumeCodes(c, s, t.credential, code, t.now);
    ConsumeLeaves(c, s, t.credential, code, t.now);
    ChangeIs(c, s, t, code, codes);
    hide Consume, CommitTx, ReplaceCodes, StepsOk, CodesOk, ChallengesOk, TxsOk;
    assert Consumed(s, f.s);
    if f.ok && t.Regenerate? {
      ReplacedKeeps(c, s, f.s, codes);
    } else if f.ok {
      DisabledKeeps(c, s, f.s);
    }
  }

  /** What Regenerate and Disable do with a factor. */
  lemma ChangeIs(c: Config, s: State, t: Tx, code: string, codes: set<Hash>)
    requires t.Regenerate? || t.Disable?
    ensures var f := Consume(c, s, t.credential, code, t.now);
            CommitTx(c, s, t, code, codes) ==
              if !f.ok then s else if t.Regenerate? then ReplaceCodes(f.s, codes)
              else ReplaceCodes(f.s, {}).(credential := Credential(false, "", 0), pending := None, challenges := map[],
                                          era := s.era + 1)
  {
    hide Consume, ReplaceCodes, CommitLogin, StepOf;
  }

  /** A consumed factor leaves what the invariant says of the rest. */
  ghost predicate Consumed(s: State, u: State) {
    && StepsOk(u) && CodesOk(u) && u.challenges == s.challenges && u.sessions == s.sessions && u.born == s.born
    && u.txs == s.txs && u.batch == s.batch && u.era == s.era
    && u.credential.required == s.credential.required && u.pending == s.pending
  }

  lemma ReplacedKeeps(c: Config, s: State, u: State, codes: set<Hash>)
    requires Inv(c, s) && Consumed(s, u) && u.credential.lastStep >= s.credential.lastStep
    ensures Inv(c, ReplaceCodes(u, codes))
  {
    ReplaceKeeps(u, codes);
    hide StepsOk, CodesOk;
  }

  lemma DisabledKeeps(c: Config, s: State, u: State)
    requires Inv(c, s) && Consumed(s, u) && u.credential.lastStep >= s.credential.lastStep
    ensures Inv(c, ReplaceCodes(u, {}).(credential := Credential(false, "", 0), pending := None, challenges := map[],
                                        era := s.era + 1))
  {
    ReplaceKeeps(u, {});
    hide CodesOk;
  }

  lemma ConfirmKeeps(c: Config, s: State, t: Tx, code: string, codes: set<Hash>)
    requires Inv(c, s) && t.Confirm?
    ensures Inv(c, CommitTx(c, s, t, code, codes))
  {
    ReplaceKeeps(s, codes);
    hide Trim;
  }

  lemma CommitKeeps(c: Config, s: State, t: Tx, code: string, codes: set<Hash>)
    requires Inv(c, s) && t.now > 0 && (t.Login? ==> t.read.attempts < c.maxAttempts)
    ensures Inv(c, CommitTx(c, s, t, code, codes)) && CommitTx(c, s, t, code, codes).txs == s.txs
  {
    match t
    case Login(_, _, _, _) =>
      LoginKeeps(c, s, t, code);
      ConsumeLeaves(c, s, t.credential, code, t.now);
      hide Consume, Inv;
    case Confirm(_, _) =>
      ConfirmKeeps(c, s, t, code, codes);
      hide StepOf, Inv;
    case _ =>
      ChangeKeeps(c, s, t, code, codes);
      ConsumeLeaves(c, s, t.credential, code, t.now);
      hide Consume, Inv;
  }

  lemma ReadKeeps(c: Config, s: State, a: Action)
    requires Inv(c, s) && Enabled(c, s, a) && !a.Commit?
    ensures Inv(c, Do(c, s, a))
  {
    hide StepOf;
    var s' := Do(c, s, a);
    assert s'.accepted == s.accepted && s'.credential == s.credential && s'.era == s.era;
    assert s'.spent == s.spent && s'.codes == s.codes && s'.batch == s.batch;
    assert StepsOk(s') && CodesOk(s');
    hide StepsOk, CodesOk;
    ReadTxs(c, s, a);
    hide TxsOk;
  }

  lemma ReadTxs(c: Config, s: State, a: Action)
    requires TxsOk(c, s) && ChallengesOk(c, s) && Enabled(c, s, a) && !a.Commit?
    ensures TxsOk(c, Do(c, s, a))
  {
    var s' := Do(c, s, a);
    forall tx | tx in s'.txs
      ensures s'.txs[tx].now > 0 && (s'.txs[tx].Login? ==> ReadOpen(c, s', s'.txs[tx]))
      ensures s'.txs[tx].Confirm? ==> s'.txs[tx].enrolment.expires > s'.txs[tx].now
    {
      assert tx in s.txs ==> s'.txs[tx] == s.txs[tx];
    }
  }

  lemma StepKeeps(c: Config, s: State, a: Action)
    requires Inv(c, s) && Enabled(c, s, a)
    ensures Inv(c, Do(c, s, a))
  {
    if a.Commit? {
      CommitKeeps(c, s, s.txs[a.tx], a.code, a.codes);
      DropTx(c, CommitTx(c, s, s.txs[a.tx], a.code, a.codes), a.tx);
    } else {
      ReadKeeps(c, s, a);
    }
  }

  lemma DropTx(c: Config, s: State, tx: nat)
    requires Inv(c, s)
    ensures Inv(c, s.(txs := s.txs - {tx}))
  {
  }

  // ----- The theorems -----

  /** In every interleaving: the accepted steps of one enrolment strictly increase and each was within
      one step of the time of its request; a recovery code is spent at most once; a challenge yields
      at most one session; its attempts never exceed the maximum; no enrolment is begun while the factor
      is required. */
  lemma {:induction false} FactorsAreOneTime(c: Config, s: State, actions: seq<Action>, t: State)
    requires Inv(c, s) && Runs(c, s, actions, t)
    ensures Inv(c, t)
    ensures forall i, j | 0 <= i < j < |t.accepted| && t.accepted[i].era == t.accepted[j].era ::
              t.accepted[i].step < t.accepted[j].step
    ensures forall i | 0 <= i < |t.accepted| ::
              t.accepted[i].step >= 0
              && (t.accepted[i].step - 1) * 30_000 <= t.accepted[i].now < (t.accepted[i].step + 2) * 30_000
    ensures forall i, j | 0 <= i < j < |t.spent| :: t.spent[i] != t.spent[j]
    ensures forall i, j | 0 <= i < j < |t.sessions| :: t.sessions[i] != t.sessions[j]
    ensures forall k | k in t.challenges :: t.challenges[k].attempts <= c.maxAttempts
    ensures t.credential.required ==> t.pending.None?
    decreases |actions|
  {
    hide Do, Enabled;
    if actions != [] {
      StepKeeps(c, s, actions[0]);
      hide Inv;
      FactorsAreOneTime(c, Do(c, s, actions[0]), actions[1..], t);
    }
  }

  lemma NewPrincipal(c: Config)
    ensures Inv(c, State(Credential(false, "", 0), map[], None, map[], {}, [], map[], 0, 0, [], []))
  {
  }

  /** In every run a session is opened only by an answer to a challenge that was unexpired, unanswered and
      had attempts left when it was read, and that nobody has closed since; the session closes it. */
  lemma SessionWasOpen(c: Config, s: State, actions: seq<Action>, t: State, a: Action)
    requires Inv(c, s) && Runs(c, s, actions, t) && Enabled(c, t, a) && Do(c, t, a).sessions != t.sessions
    ensures a.Commit? && t.txs[a.tx].Login?
    ensures var tx, u := t.txs[a.tx], Do(c, t, a);
            var k := tx.challenge;
            && u.sessions == t.sessions + [k]
            && tx.read.consumed == 0 && tx.read.attempts < c.maxAttempts && tx.now < tx.read.expires
            && k in t.challenges && t.challenges[k].consumed == 0 && tx.now < t.challenges[k].expires
            && k in u.challenges && u.challenges[k].consumed == tx.now > 0
  {
    FactorsAreOneTime(c, s, actions, t);
    hide Runs, StepsOk, CodesOk, ChallengesOk;
    if a.Commit? {
      var tx := t.txs[a.tx];
      if tx.Login? {
        ConsumeLeaves(c, t, tx.credential, a.code, tx.now);
      } else {
        ChangeUses(c, t, tx, a.code, a.codes);
      }
    }
    hide Consume, ReplaceCodes;
  }

  /** What the other transactions commit, if anything. Confirming takes a timely code for an enrolment that
      had not expired, and the factor becomes required with that secret and step; the other two take a
      factor, and then replace the recovery codes or switch the factor off. Codes are replaced by the new
      ones, all unused. */
  lemma ChangesByValue(c: Config, s: State, actions: seq<Action>, t: State, a: Action)
    requires Inv(c, s) && Runs(c, s, actions, t) && Enabled(c, t, a) && a.Commit? && !t.txs[a.tx].Login?
    requires Do(c, t, a) != t.(txs := t.txs - {a.tx})
    ensures var tx, u := t.txs[a.tx], Do(c, t, a);
            && u.sessions == t.sessions && u.pending == (if tx.Regenerate? then t.pending else None)
            && (tx.Confirm? ==>
                  && !t.credential.required && tx.now < tx.enrolment.expires && Timely(u.credential.lastStep, tx.now)
                  && c.hotp(tx.enrolment.secret, u.credential.lastStep, Trim(a.code))
                  && u.credential == Credential(true, tx.enrolment.secret, u.credential.lastStep))
            && (!tx.Confirm? ==> Used(u) == Used(t) + 1)
            && (tx.Regenerate? ==> u.credential == t.credential.(lastStep := u.credential.lastStep))
            && (if tx.Disable? then
                  u.credential == Credential(false, "", 0) && u.codes == map[] && u.challenges == map[]
                else u.codes.Keys == a.codes && (forall h | h in u.codes :: u.codes[h] == 0)
                     && u.challenges == t.challenges)
  {
    FactorsAreOneTime(c, s, actions, t);
    var tx := t.txs[a.tx];
    if !tx.Confirm? {
      ConsumeUses(c, t, tx.credential, a.code, tx.now);
      ConsumeLeaves(c, t, tx.credential, a.code, tx.now);
      FactorByValue(c, t, tx.credential, a.code, tx.now);
      ChangeIs(c, t, tx, a.code, a.codes);
      hide CommitTx;
    }
    hide Runs, Consume, Trim, StepsOk, CodesOk, ChallengesOk, SixDigits;
  }

  /** A code of six digits is a step, accepted if it is later than the one read and the one stored; anything
      else that is not blank is a recovery code, accepted if it is there and unused. */
  lemma FactorByValue(c: Config, s: State, read: Credential, code: string, now: nat)
    ensures var f, text := Consume(c, s, read, code, now), Trim(code);
            && f.s.pending == s.pending && f.s.credential == s.credential.(lastStep := f.s.credential.lastStep)
            && if |text| == 6 && forall ch | ch in text :: ch in "0123456789" then
                 var step := StepOf(c, read.secret, code, now);
                 && f.s.codes == s.codes
                 && (f.ok <==> step.Some? && step.value > read.lastStep && step.value > s.credential.lastStep)
                 && (f.ok ==> f.s.credential.lastStep == step.value)
               else
                 var text, h := Normalized(code), c.digest(Normalized(code));
                 && f.s.credential == s.credential
                 && (f.ok <==> |text| > 0 && h in s.codes && s.codes[h] == 0)
                 && f.s.codes == if f.ok then s.codes[h := now] else s.codes
  {
    hide Trim, Normalized, StepOf;
    assert forall ch: char :: ch in "0123456789" <==> '0' <= ch <= '9';
  }

  /** A recovery code is compared without hyphens and spaces, and with its letters in upper case. */
  lemma SpellingIsFree(a: string, b: string)
    ensures Strip(a + b) == Strip(a) + Strip(b) && Strip("-") == Strip(" ") == Strip("") == ""
    ensures forall i | 0 <= i < 26 ::
              Strip(["abcdefghijklmnopqrstuvwxyz"[i]]) == ["ABCDEFGHIJKLMNOPQRSTUVWXYZ"[i]]
    ensures forall ch | ch !in "abcdefghijklmnopqrstuvwxyz- " :: Strip([ch]) == [ch]
  {
    StripJoins(a, b);
    StripLetters();
    assert Strip("-") == Strip(" ") == "";
    hide Strip;
  }

  lemma {:induction false} StripJoins(a: string, b: string)
    ensures Strip(a + b) == Strip(a) + Strip(b)
  {
    hide Upper;
    if a == "" {
      assert a + b == b;
    } else {
      StripJoins(a[1..], b);
      var first := if a[0] == '-' || a[0] == ' ' then "" else [Upper(a[0])];
      assert (a + b)[0] == a[0] && (a + b)[1..] == a[1..] + b;
      assert Strip(a + b) == first + Strip(a[1..] + b);
      assert first + (Strip(a[1..]) + Strip(b)) == (first + Strip(a[1..])) + Strip(b);
    }
  }

  lemma StripLetters()
    ensures forall i | 0 <= i < 26 ::
              Strip(["abcdefghijklmnopqrstuvwxyz"[i]]) == ["ABCDEFGHIJKLMNOPQRSTUVWXYZ"[i]]
    ensures forall ch | ch !in "abcdefghijklmnopqrstuvwxyz- " :: Strip([ch]) == [ch]
  {
    forall i | 0 <= i < 26
      ensures Strip(["abcdefghijklmnopqrstuvwxyz"[i]]) == ["ABCDEFGHIJKLMNOPQRSTUVWXYZ"[i]]
    {
      StripLower(i);
    }
    forall ch | ch !in "abcdefghijklmnopqrstuvwxyz- "
      ensures Strip([ch]) == [ch]
    {
      StripOther(ch);
    }
    hide Strip;
  }

  lemma StripLower(i: nat)
    requires i < 26
    ensures Strip(["abcdefghijklmnopqrstuvwxyz"[i]]) == ["ABCDEFGHIJKLMNOPQRSTUVWXYZ"[i]]
  {
    var lower := "abcdefghijklmnopqrstuvwxyz"[i];
    UpperIs(i);
    hide Upper;
    assert [lower][1..] == "";
  }

  lemma UpperIs(i: nat)
    requires i < 26
    ensures 'a' <= "abcdefghijklmnopqrstuvwxyz"[i] <= 'z'
    ensures Upper("abcdefghijklmnopqrstuvwxyz"[i]) == "ABCDEFGHIJKLMNOPQRSTUVWXYZ"[i]
  {
    assert "abcdefghijklmnopqrstuvwxyz"[i] == 'a' + i as char;
    assert "ABCDEFGHIJKLMNOPQRSTUVWXYZ"[i] == 'A' + i as char;
  }

  lemma StripOther(ch: char)
    requires ch !in "abcdefghijklmnopqrstuvwxyz- "
    ensures Strip([ch]) == [ch]
  {
    var all := "abcdefghijklmnopqrstuvwxyz- ";
    assert all[26] == '-' && all[27] == ' ';
    if 'a' <= ch <= 'z' {
      LetterListed(ch);
      assert false;
    }
    assert [ch][1..] == "";
  }

  lemma LetterListed(ch: char)
    requires 'a' <= ch <= 'z'
    ensures ch in "abcdefghijklmnopqrstuvwxyz- "
  {
    assert "abcdefghijklmnopqrstuvwxyz- "[ch as int - 'a' as int] == ch;
  }

  /** A new challenge sweeps away the answered and the expired ones and no other. */
  lemma SweepSparesOpen(c: Config, s: State, id: Id, expires: int, now: nat, k: Id)
    requires Enabled(c, s, NewChallenge(id, expires, now)) && k != id
    ensures var t := Do(c, s, NewChallenge(id, expires, now));
            && t.challenges[id] == Challenge(expires, 0, 0)
            && (k in t.challenges <==>
                  k in s.challenges && s.challenges[k].consumed == 0 && now < s.challenges[k].expires)
            && (k in t.challenges ==> t.challenges[k] == s.challenges[k])
  {
  }

  // ----- What a challenge can pay for -----

  function Used(s: State): nat {
    |s.accepted| + |s.spent|
  }

  predicate Answers(s: State, a: Action, k: Id) {
    a.Commit? && a.tx in s.txs && s.txs[a.tx].Login? && s.txs[a.tx].challenge == k
  }

  /** How many factors, accepted steps and spent codes, the answers to challenge `k` consume in a run. */
  ghost function UsedFor(c: Config, s: State, actions: seq<Action>, k: Id): int
    decreases |actions|
  {
    if actions == [] || !Enabled(c, s, actions[0]) then 0
    else
      var t := Do(c, s, actions[0]);
      (if Answers(s, actions[0], k) then Used(t) - Used(s) else 0) + UsedFor(c, t, actions[1..], k)
  }

  function Sessions(s: State, k: Id): nat {
    multiset(s.sessions)[k]
  }

  /** A challenge that was answered, closed, or swept away. */
  predicate Lost(s: State, k: Id) {
    k in s.born && (k !in s.challenges || s.challenges[k].consumed != 0)
  }

  lemma ConsumeUses(c: Config, s: State, read: Credential, code: string, now: nat)
    ensures var f := Consume(c, s, read, code, now); Used(f.s) == Used(s) + if f.ok then 1 else 0
  {
    hide SixDigits, Trim, Normalized, StepOf;
  }

  lemma LoginUses(c: Config, s: State, t: Tx, code: string)
    requires t.Login?
    ensures var u := CommitLogin(c, s, t, code);
            && ((u.sessions == s.sessions && Used(u) == Used(s))
                || (u.sessions == s.sessions + [t.challenge] && Used(u) == Used(s) + 1))
            && (t.challenge !in s.challenges || s.challenges[t.challenge].consumed != 0 ==> u == s)
            && u.born == s.born && u.challenges.Keys == s.challenges.Keys
            && (forall k | k in s.challenges && s.challenges[k].consumed != 0 :: u.challenges[k] == s.challenges[k])
  {
    ConsumeUses(c, s, t.credential, code, t.now);
    ConsumeLeaves(c, s, t.credential, code, t.now);
    hide Consume;
  }

  lemma ChangeUses(c: Config, s: State, t: Tx, code: string, codes: set<Hash>)
    requires !t.Login?
    ensures var u := CommitTx(c, s, t, code, codes);
            u.sessions == s.sessions && u.born == s.born && (u.challenges == s.challenges || u.challenges == map[])
  {
    if !t.Confirm? {
      ConsumeLeaves(c, s, t.credential, code, t.now);
    }
    hide Consume, StepOf;
  }

  /** One step: a session for `k` and a factor for `k` come together, and neither for a lost challenge. */
  lemma StepPays(c: Config, s: State, a: Action, k: Id)
    requires Enabled(c, s, a)
    ensures var t := Do(c, s, a);
            && (if Answers(s, a, k) then Used(t) - Used(s) else 0) == Sessions(t, k) - Sessions(s, k)
            && (Lost(s, k) ==> Lost(t, k) && Sessions(t, k) == Sessions(s, k))
  {
    match a
    case Commit(_, _, _) => CommitPays(c, s, a, k);
    case _ =>
      var t := Do(c, s, a);
      assert t.sessions == s.sessions;
  }

  lemma CommitPays(c: Config, s: State, a: Action, k: Id)
    requires Enabled(c, s, a) && a.Commit?
    ensures var t := Do(c, s, a);
            && (if Answers(s, a, k) then Used(t) - Used(s) else 0) == Sessions(t, k) - Sessions(s, k)
            && (Lost(s, k) ==> Lost(t, k) && Sessions(t, k) == Sessions(s, k))
  {
    var tx := s.txs[a.tx];
    if tx.Login? {
      LoginUses(c, s, tx, a.code);
    } else {
      ChangeUses(c, s, tx, a.code, a.codes);
    }
    hide CommitLogin, Consume, ReplaceCodes;
  }

  /** Over every interleaving the answers to a challenge consume exactly as many factors as they open
      sessions, at most one; once the challenge is lost, answered, closed or swept away, no session,
      accepted step or spent code comes from it. */
  lemma {:induction false} ChallengePaysOnce(c: Config, s: State, actions: seq<Action>, t: State, k: Id)
    requires Inv(c, s) && Runs(c, s, actions, t)
    ensures UsedFor(c, s, actions, k) == Sessions(t, k) - Sessions(s, k)
    ensures Sessions(t, k) <= 1
    ensures Lost(s, k) ==> Lost(t, k) && UsedFor(c, s, actions, k) == 0
    decreases |actions|
  {
    hide Do, Enabled, Lost, Used, Answers;
    if actions == [] {
      AtMostOnce(c, s, k);
    } else {
      StepKeeps(c, s, actions[0]);
      StepPays(c, s, actions[0], k);
      hide Inv, Sessions;
      ChallengePaysOnce(c, Do(c, s, actions[0]), actions[1..], t, k);
    }
  }

  lemma AtMostOnce(c: Config, s: State, k: Id)
    requires Inv(c, s)
    ensures Sessions(s, k) <= 1
  {
    assert forall i, j | 0 <= i < j < |s.sessions| :: s.sessions[i] != s.sessions[j];
    hide Inv;
    OnceEach(s.sessions, k);
  }

  lemma {:induction false} OnceEach(s: seq<Id>, k: Id)
    requires forall i, j | 0 <= i < j < |s| :: s[i] != s[j]
    ensures multiset(s)[k] <= 1
  {
    if s != [] {
      var m := |s| - 1;
      OnceEach(s[..m], k);
      assert s == s[..m] + [s[m]];
      assert s[m] !in s[..m];
    }
  }

  /** A wrong code is counted, unless another answer was counted since the read; the last one allowed
      closes the challenge. */
  lemma WrongCodeCounts(c: Config, s: State, t: Tx, code: string)
    requires t.Login? && t.now > 0 && !Consume(c, s, t.credential, code, t.now).ok
    requires t.challenge in s.challenges && s.challenges[t.challenge].consumed == 0
    ensures var u := CommitLogin(c, s, t, code);
            && u == s.(challenges := u.challenges) && u.challenges.Keys == s.challenges.Keys
            && u.challenges[t.challenge].attempts ==
                 s.challenges[t.challenge].attempts + (if s.challenges[t.challenge].attempts == t.read.attempts then 1
                                                       else 0)
            && (u.challenges[t.challenge].consumed != 0 <==>
                  s.challenges[t.challenge].attempts == t.read.attempts && t.read.attempts + 1 >= c.maxAttempts)
  {
    hide Consume;
  }

  // ----- The service -----

  method ValidateTotp(c: Config, secret: Secret, code: string, now: nat) returns (step: int, valid: bool)
    ensures valid == StepOf(c, secret, code, now).Some?
            && step == if valid then StepOf(c, secret, code, now).value else 0
    ensures valid ==> step >= 0 && (step - 1) * 30_000 <= now < (step + 2) * 30_000 && c.hotp(secret, step, Trim(code))
    ensures forall k: int | k >= 0 && (k - 1) * 30_000 <= now < (k + 2) * 30_000 && c.hotp(secret, k, Trim(code)) ::
              valid
  {
    var counter: int := Counter(now);
    var candidates := [counter, counter - 1, counter + 1];
    for i := 0 to |candidates|
      invariant forall j | 0 <= j < i && candidates[j] >= 0 :: !c.hotp(secret, candidates[j], Trim(code))
    {
      if candidates[i] >= 0 && c.hotp(secret, candidates[i], Trim(code)) {
        assert i > 0 ==> !c.hotp(secret, candidates[0], Trim(code));
        assert i > 1 && candidates[1] >= 0 ==> !c.hotp(secret, candidates[1], Trim(code));
        return candidates[i], true;
      }
    }
    assert candidates[0] == counter && candidates[1] == counter - 1 && candidates[2] == counter + 1;
    return 0, false;
  }

  class Tables {
    const config: Config
    var credential: Credential
    var codes: map<Hash, nat>
    var challenges: map<Id, Challenge>
    ghost var state: State

    constructor (config: Config)
      ensures this.config == config && Valid() && Inv(config, state)
    {
      this.config := config;
      credential, codes, challenges := Credential(false, "", 0), map[], map[];
      state := State(Credential(false, "", 0), map[], None, map[], {}, [], map[], 0, 0, [], []);
    }

    ghost predicate Valid()
      reads this
    {
      state.credential == credential && state.codes == codes && state.challenges == challenges
    }

    method ConsumeFactor(read: Credential, code: string, now: nat) returns (ok: bool)
      requires Valid()
      modifies this
      ensures Valid() && Factor(ok, state) == Consume(config, old(state), read, code, now)
      ensures challenges == old(challenges)
    {
      var trimmed := Trim(code);
      if SixDigits(trimmed) {
        var step, valid := ValidateTotp(config, read.secret, code, now);
        if !valid || step <= read.lastStep {
          return false;
        }
        if credential.lastStep >= step {
          return false;
        }
        credential := credential.(lastStep := step);
        state := state.(credential := credential, accepted := state.accepted + [Accepted(state.era, step, now)]);
        return true;
      }
      var normalized := Normalized(code);
      if normalized == "" {
        return false;
      }
      var h := config.digest(normalized);
      if h !in codes || codes[h] != 0 {
        return false;
      }
      codes := codes[h := now];
      state := state.(codes := codes, spent := state.spent + [Spent(state.batch, h)]);
      return true;
    }

    /** The writes of VerifyLoginMFA: a rollback restores the factor. */
    method AnswerChallenge(t: Tx, code: string) returns (session: bool)
      requires Valid() && t.Login?
      modifies this
      ensures Valid() && state == CommitLogin(config, old(state), t, code)
      ensures session <==> state.sessions == old(state.sessions) + [t.challenge]
    {
      ghost var before := state;
      var credential0, codes0 := credential, codes;
      ConsumeLeaves(config, state, t.credential, code, t.now);
      var ok := ConsumeFactor(t.credential, code, t.now);
      if t.challenge !in challenges || challenges[t.challenge].consumed != 0 {
        credential, codes, state := credential0, codes0, before;
        return false;
      }
      if ok {
        challenges := challenges[t.challenge := challenges[t.challenge].(consumed := t.now)];
        state := state.(challenges := challenges, sessions := state.sessions + [t.challenge]);
        return true;
      }
      if challenges[t.challenge].attempts != t.read.attempts {
        return false;
      }
      var ch := challenges[t.challenge].(attempts := t.read.attempts + 1);
      if t.read.attempts + 1 >= config.maxAttempts {
        ch := ch.(consumed := t.now);
      }
      challenges := challenges[t.challenge := ch];
      state := state.(challenges := challenges);
      return false;
    }
  }
}

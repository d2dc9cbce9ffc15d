/** What holds of refresh tokens over whole runs of logins, refreshes, changes to the users and
    losses of cached answers, with any clocks and any errors. */
module RefreshRuns {
  import opened RefreshTokens

  datatype Step =
    | Refresh(request: Request)
    | Login(userId: nat, jti: nat, family: nat, expiry: int)
    | ChangeUsers(users: map<string, nat>)
    | Forget(cached: nat)   // Redis loses a cached answer

  /** A login draws a family nobody has. */
  ghost predicate Enabled(s: State, step: Step) {
    step.Login? ==> forall j :: j in s.tokens ==> s.tokens[j].family != step.family
  }

  function Apply(s: State, step: Step): State {
    match step
    case Refresh(r) => Serve(s, r).0
    case Login(user, jti, family, expiry) => LogIn(s, user, jti, family, expiry)
    case ChangeUsers(users) => s.(users := users)
    case Forget(jti) => s.(grace := s.grace - {jti})
  }

  ghost predicate IsRun(trace: seq<State>, steps: seq<Step>) {
    && |trace| == |steps| + 1
    && trace[0].tokens == map[] && trace[0].grace == map[] && trace[0].rotations == []
    && forall i :: 0 <= i < |steps| ==> IsStep(trace, steps, i)
  }

  // Step i is enabled and leads to the next state.
  ghost predicate IsStep(trace: seq<State>, steps: seq<Step>, i: nat)
    requires |trace| == |steps| + 1 && i < |steps|
  {
    Enabled(trace[i], steps[i]) && trace[i + 1] == Apply(trace[i], steps[i])
  }

  ghost predicate Spent(s: State, jti: nat) {
    exists k :: 0 <= k < |s.rotations| && s.rotations[k].spent == jti
  }

  // A rotation spends a token and hands on its family and its user.
  ghost predicate RotationOk(s: State, x: Rotation) {
    && x.spent in s.tokens && s.tokens[x.spent].revoked
    && x.pair.refresh in s.tokens
    && s.tokens[x.pair.refresh].family == s.tokens[x.spent].family
    && s.tokens[x.pair.refresh].userId == s.tokens[x.spent].userId
  }

  ghost predicate RotationsOk(s: State) {
    && (forall k :: 0 <= k < |s.rotations| ==> RotationOk(s, s.rotations[k]))
    && (forall k, l :: 0 <= k < l < |s.rotations| ==> s.rotations[k].spent != s.rotations[l].spent)
    && (forall k, l :: 0 <= k <= l < |s.rotations| ==> s.rotations[k].spent != s.rotations[l].pair.refresh)
    && (forall k, l :: 0 <= k < l < |s.rotations| ==> s.rotations[k].pair.refresh != s.rotations[l].pair.refresh)
  }

  // Two tokens of a family of which neither has been rotated are the same token.
  ghost predicate OneTip(s: State) {
    forall a, b ::
      a in s.tokens && b in s.tokens && s.tokens[a].family == s.tokens[b].family && !Spent(s, a) && !Spent(s, b) ==>
        a == b
  }

  ghost predicate GraceOk(s: State) {
    forall j :: j in s.grace ==> Rotation(j, s.grace[j].pair) in s.rotations
  }

  ghost predicate Inv(s: State) {
    RotationsOk(s) && OneTip(s) && GraceOk(s)
  }

  // ---------- what one step can do to the records ----------

  /** No step deletes a record or changes anything in it but `revoked`, and that only upwards;
      the history only grows. */
  ghost predicate Advances(s: State, s': State) {
    && (forall j :: j in s.tokens ==>
          && j in s'.tokens && s'.tokens[j] == s.tokens[j].(revoked := s'.tokens[j].revoked)
          && (s.tokens[j].revoked ==> s'.tokens[j].revoked))
    && s.rotations <= s'.rotations
  }

  /** A step that adds no record to the table. */
  ghost predicate OnlyRevokes(s: State, s': State) {
    Advances(s, s') && s'.tokens.Keys == s.tokens.Keys && s'.rotations == s.rotations
  }

  lemma RefusalRevokes(s: State, r: Request)
    requires !Rotates(s, r)
    ensures OnlyRevokes(s, Serve(s, r).0) && Serve(s, r).0.grace == s.grace
  {
    var s' := Serve(s, r).0;
    if s' != s {
      RevocationOnly(s, r.jti);
      assert s'.tokens in {RevokeToken(s.tokens, r.jti), RevokeFamily(s.tokens, s.tokens[r.jti].family)};
    }
  }

  lemma RevocationOnly(s: State, jti: nat)
    requires jti in s.tokens
    ensures OnlyRevokes(s, s.(tokens := RevokeToken(s.tokens, jti)))
    ensures OnlyRevokes(s, s.(tokens := RevokeFamily(s.tokens, s.tokens[jti].family)))
  {
  }

  lemma RotationServed(s: State, r: Request)
    requires Rotates(s, r)
    ensures var s' := Serve(s, r).0;
            s' == Rotated(s, r).(grace := s'.grace) && s'.grace in {s.grace, WithGrace(s, r).grace}
  {
  }

  lemma RotationAdvances(s: State, r: Request)
    requires Rotates(s, r)
    ensures Advances(s, Rotated(s, r))
  {
  }

  lemma StepAdvances(s: State, step: Step)
    ensures Advances(s, Apply(s, step))
    ensures !step.Refresh? ==> Apply(s, step).rotations == s.rotations
  {
    if step.Refresh? {
      if Rotates(s, step.request) {
        RotationServed(s, step.request);
        RotationAdvances(s, step.request);
      } else {
        RefusalRevokes(s, step.request);
      }
    }
  }

  lemma RevokingKeepsInv(s: State, s': State)
    requires Inv(s) && OnlyRevokes(s, s')
    requires forall j :: j in s'.grace ==> j in s.grace && s'.grace[j] == s.grace[j]
    ensures Inv(s')
  {
    forall k | 0 <= k < |s'.rotations|
      ensures RotationOk(s', s'.rotations[k])
    {
      assert RotationOk(s, s.rotations[k]);
    }
    forall a, b | a in s'.tokens && b in s'.tokens && s'.tokens[a].family == s'.tokens[b].family
                  && !Spent(s', a) && !Spent(s', b)
      ensures a == b
    {
      assert !Spent(s, a) && !Spent(s, b);
    }
  }

  lemma LoginKeepsInv(s: State, userId: nat, jti: nat, family: nat, expiry: int)
    requires Inv(s) && Enabled(s, Login(userId, jti, family, expiry))
    ensures Inv(LogIn(s, userId, jti, family, expiry))
  {
    var s' := LogIn(s, userId, jti, family, expiry);
    forall k | 0 <= k < |s'.rotations|
      ensures RotationOk(s', s'.rotations[k])
    {
      assert RotationOk(s, s.rotations[k]);
    }
    forall a, b | a in s'.tokens && b in s'.tokens && s'.tokens[a].family == s'.tokens[b].family
                  && !Spent(s', a) && !Spent(s', b)
      ensures a == b
    {
      assert Spent(s, a) ==> Spent(s', a);
      assert Spent(s, b) ==> Spent(s', b);
    }
  }

  lemma RotationKeepsInv(s: State, r: Request)
    requires Inv(s) && Rotates(s, r)
    ensures RotationsOk(Rotated(s, r)) && OneTip(Rotated(s, r))
    ensures Rotation(r.jti, Pair(r.newAccess, r.newJti)) in Rotated(s, r).rotations
    ensures GraceOk(Rotated(s, r)) && GraceOk(WithGrace(Rotated(s, r), r))
  {
    var s' := Rotated(s, r);
    var n := |s.rotations|;
    assert s'.rotations[n] == Rotation(r.jti, Pair(r.newAccess, r.newJti));
    forall k | 0 <= k < |s'.rotations|
      ensures RotationOk(s', s'.rotations[k])
      ensures k < n ==> s'.rotations[k].spent !in {r.jti, r.newJti} && s'.rotations[k].pair.refresh != r.newJti
    {
      assert k < n ==> s'.rotations[k] == s.rotations[k] && RotationOk(s, s.rotations[k]);
    }
    assert Spent(s', r.jti);
    assert !Spent(s, r.jti);
    forall a, b | a in s'.tokens && b in s'.tokens && s'.tokens[a].family == s'.tokens[b].family
                  && !Spent(s', a) && !Spent(s', b)
      ensures a == b
    {
      SpentAfter(s, s', a);
      SpentAfter(s, s', b);
    }
  }

  lemma SpentAfter(s: State, s': State, a: nat)
    requires s.rotations <= s'.rotations
    ensures Spent(s, a) ==> Spent(s', a)
  {
    if Spent(s, a) {
      var k :| 0 <= k < |s.rotations| && s.rotations[k].spent == a;
      assert s'.rotations[k].spent == a;
    }
  }

  lemma RefreshKeepsInv(s: State, r: Request)
    requires Inv(s)
    ensures Inv(Serve(s, r).0)
  {
    if Rotates(s, r) {
      RotationServed(s, r);
      RotationKeepsInv(s, r);
    } else {
      RefusalRevokes(s, r);
      RevokingKeepsInv(s, Serve(s, r).0);
    }
  }

  lemma InvKept(s: State, step: Step)
    requires Inv(s) && Enabled(s, step)
    ensures Inv(Apply(s, step))
  {
    match step
    case Refresh(r) => RefreshKeepsInv(s, r);
    case Login(user, jti, family, expiry) => LoginKeepsInv(s, user, jti, family, expiry);
    case ChangeUsers(users) => RevokingKeepsInv(s, s.(users := users));
    case Forget(jti) => RevokingKeepsInv(s, s.(grace := s.grace - {jti}));
  }

  lemma {:induction false} InvAlong(trace: seq<State>, steps: seq<Step>, i: nat)
    requires IsRun(trace, steps) && i <= |steps|
    ensures Inv(trace[i])
  {
    if i > 0 {
      InvAlong(trace, steps, i - 1);
      assert IsStep(trace, steps, i - 1);
      InvKept(trace[i - 1], steps[i - 1]);
    }
  }

  // ---------- the guarantees ----------

  /** Rotation is a chain: in every reachable state a family has at most one token that is not
      revoked, no jti has been rotated twice, and a token that is not revoked has not been
      rotated at all. */
  lemma RotationIsAChain(trace: seq<State>, steps: seq<Step>, i: nat)
    requires IsRun(trace, steps) && i <= |steps|
    ensures var s := trace[i];
            && (forall a, b :: Live(s, a) && Live(s, b) && s.tokens[a].family == s.tokens[b].family ==> a == b)
            && (forall k, l :: 0 <= k < l < |s.rotations| ==> s.rotations[k].spent != s.rotations[l].spent)
            && (forall a :: Live(s, a) ==> !Spent(s, a))
  {
    InvAlong(trace, steps, i);
    var s := trace[i];
    forall a | Spent(s, a)
      ensures !Live(s, a)
    {
      SpentIsRevoked(s, a);
    }
  }

  predicate Live(s: State, jti: nat) {
    jti in s.tokens && !s.tokens[jti].revoked
  }

  lemma SpentIsRevoked(s: State, jti: nat)
    requires Inv(s) && Spent(s, jti)
    ensures jti in s.tokens && s.tokens[jti].revoked
  {
    var k :| 0 <= k < |s.rotations| && s.rotations[k].spent == jti;
    assert RotationOk(s, s.rotations[k]);
  }

  lemma CachedIsRevoked(s: State, jti: nat)
    requires Inv(s) && jti in s.grace
    ensures jti in s.tokens && s.tokens[jti].revoked
  {
    assert Rotation(jti, s.grace[jti].pair) in s.rotations;
    assert Spent(s, jti);
    SpentIsRevoked(s, jti);
  }

  lemma RevokedStays(s: State, step: Step, jti: nat)
    requires jti in s.tokens && s.tokens[jti].revoked
    ensures jti in Apply(s, step).tokens && Apply(s, step).tokens[jti] == s.tokens[jti]
  {
    StepAdvances(s, step);
  }

  /** Whatever happens, a revoked token stays revoked, with its user and its family. */
  lemma {:induction false} RevokedForever(trace: seq<State>, steps: seq<Step>, i: nat, j: nat, jti: nat)
    requires IsRun(trace, steps) && i <= j <= |steps|
    requires jti in trace[i].tokens && trace[i].tokens[jti].revoked
    ensures jti in trace[j].tokens && trace[j].tokens[jti] == trace[i].tokens[jti]
  {
    if i < j {
      RevokedForever(trace, steps, i, j - 1, jti);
      assert IsStep(trace, steps, j - 1);
      RevokedStays(trace[j - 1], steps[j - 1], jti);
    }
  }

  ghost predicate Dead(s: State, family: nat) {
    && (exists j :: j in s.tokens && s.tokens[j].family == family)
    && forall j :: j in s.tokens && s.tokens[j].family == family ==> s.tokens[j].revoked
  }

  /** A revoked jti presented without a cached answer kills its family, whatever the new clock,
      user or identifiers, unless the request fails before its commit. */
  lemma ReplayKills(s: State, r: Request)
    requires r.jti in s.tokens && s.tokens[r.jti].revoked && !InGrace(s, r.jti, r.later)
    requires r.fault.NoFault? || r.fault.GraceWriteFails? || r.fault.AfterCommitFails?
    ensures Serve(s, r).1 == TokenReplayed && Dead(Serve(s, r).0, s.tokens[r.jti].family)
  {
    assert Serve(s, r).0.tokens == RevokeFamily(s.tokens, s.tokens[r.jti].family);
    assert Serve(s, r).0.tokens[r.jti].family == s.tokens[r.jti].family;
  }

  lemma DeathKept(s: State, step: Step, family: nat)
    requires Dead(s, family) && Enabled(s, step)
    ensures Dead(Apply(s, step), family)
  {
    StepAdvances(s, step);
    var j :| j in s.tokens && s.tokens[j].family == family;
    assert Apply(s, step).tokens[j].family == family;
  }

  /** Family death is permanent: once a revoked jti has been presented without a cached answer,
      every token of the family is revoked in every later state - no login, rotation or cached
      answer ever gives it a live one again. */
  lemma {:induction false} DeathIsPermanent(trace: seq<State>, steps: seq<Step>, i: nat, j: nat, family: nat)
    requires IsRun(trace, steps) && i <= j <= |steps| && Dead(trace[i], family)
    ensures Dead(trace[j], family)
  {
    if i < j {
      DeathIsPermanent(trace, steps, i, j - 1, family);
      assert IsStep(trace, steps, j - 1);
      DeathKept(trace[j - 1], steps[j - 1], family);
    }
  }

  /** Any cached answer is the pair of the one rotation of its jti. */
  lemma GraceAgrees(trace: seq<State>, steps: seq<Step>, i: nat, jti: nat, k: nat)
    requires IsRun(trace, steps) && i <= |steps| && jti in trace[i].grace
    requires k < |trace[i].rotations| && trace[i].rotations[k].spent == jti
    ensures trace[i].grace[jti].pair == trace[i].rotations[k].pair
  {
    InvAlong(trace, steps, i);
    OneRotation(trace[i], trace[i], jti, trace[i].grace[jti].pair, trace[i].rotations[k].pair);
  }

  lemma {:induction false} HistoryGrows(trace: seq<State>, steps: seq<Step>, i: nat, j: nat)
    requires IsRun(trace, steps) && i <= j <= |steps|
    ensures trace[i].rotations <= trace[j].rotations
  {
    if i < j {
      HistoryGrows(trace, steps, i, j - 1);
      assert IsStep(trace, steps, j - 1);
      StepAdvances(trace[j - 1], steps[j - 1]);
    }
  }

  // A successful answer is on record as a rotation of the presented jti.
  lemma AnswerIsRecorded(s: State, r: Request)
    requires Inv(s) && Serve(s, r).1.Issued?
    ensures Rotation(r.jti, Serve(s, r).1.pair) in Serve(s, r).0.rotations
  {
    if Rotates(s, r) {
      RotationKeepsInv(s, r);
    } else {
      assert r.jti in s.grace;
    }
  }

  /** However often and whenever a refresh token is presented, every successful answer it ever
      gets is the same pair. */
  lemma AnswersAgree(trace: seq<State>, steps: seq<Step>, i: nat, j: nat)
    requires IsRun(trace, steps) && i <= j < |steps| && steps[i].Refresh? && steps[j].Refresh?
    requires steps[i].request.jti == steps[j].request.jti
    requires Serve(trace[i], steps[i].request).1.Issued? && Serve(trace[j], steps[j].request).1.Issued?
    ensures Serve(trace[i], steps[i].request).1 == Serve(trace[j], steps[j].request).1
  {
    InvAlong(trace, steps, i);
    InvAlong(trace, steps, j);
    assert IsStep(trace, steps, i) && IsStep(trace, steps, j);
    AnswerIsRecorded(trace[i], steps[i].request);
    AnswerIsRecorded(trace[j], steps[j].request);
    HistoryGrows(trace, steps, i + 1, j + 1);
    InvAlong(trace, steps, j + 1);
    OneRotation(trace[i + 1], trace[j + 1], steps[i].request.jti,
                Serve(trace[i], steps[i].request).1.pair, Serve(trace[j], steps[j].request).1.pair);
  }

  lemma OneRotation(s: State, t: State, jti: nat, p: Pair, q: Pair)
    requires s.rotations <= t.rotations && Inv(t)
    requires Rotation(jti, p) in s.rotations && Rotation(jti, q) in t.rotations
    ensures p == q
  {
    var k :| 0 <= k < |s.rotations| && s.rotations[k] == Rotation(jti, p);
    var l :| 0 <= l < |t.rotations| && t.rotations[l] == Rotation(jti, q);
    assert t.rotations[k] == s.rotations[k];
  }

  // ---------- the grace period ----------

  /** A cached answer stays as it is until Redis loses it. */
  lemma GraceStays(s: State, step: Step, jti: nat)
    requires Inv(s) && jti in s.grace && !(step.Forget? && step.cached == jti)
    ensures jti in Apply(s, step).grace && Apply(s, step).grace[jti] == s.grace[jti]
  {
    StepAdvances(s, step);
    CachedIsRevoked(s, jti);
  }

  lemma {:induction false} GraceStaysAlong(trace: seq<State>, steps: seq<Step>, i: nat, j: nat, jti: nat)
    requires IsRun(trace, steps) && i <= j <= |steps| && jti in trace[i].grace
    requires forall k :: i <= k < j ==> !(steps[k].Forget? && steps[k].cached == jti)
    ensures jti in trace[j].grace && trace[j].grace[jti] == trace[i].grace[jti]
  {
    if i < j {
      GraceStaysAlong(trace, steps, i, j - 1, jti);
      InvAlong(trace, steps, j - 1);
      assert IsStep(trace, steps, j - 1);
      GraceStays(trace[j - 1], steps[j - 1], jti);
    }
  }

  /** The rotation's answer reached the cache. */
  predicate Cached(r: Request) {
    r.fault !in {CommitFails(true), AfterCommitFails, GraceWriteFails(false)}
  }

  // A spent jti without a cached answer never gets one.
  lemma UncachedStays(s: State, step: Step, jti: nat)
    requires Inv(s) && jti in s.tokens && s.tokens[jti].revoked && jti !in s.grace
    ensures jti !in Apply(s, step).grace
  {
    if step.Refresh? {
      if Rotates(s, step.request) {
        RotationServed(s, step.request);
      } else {
        RefusalRevokes(s, step.request);
      }
    }
  }

  lemma {:induction false} UncachedStaysAlong(trace: seq<State>, steps: seq<Step>, i: nat, j: nat, jti: nat)
    requires IsRun(trace, steps) && i <= j <= |steps|
    requires jti in trace[i].tokens && trace[i].tokens[jti].revoked && jti !in trace[i].grace
    ensures jti !in trace[j].grace
  {
    if i < j {
      UncachedStaysAlong(trace, steps, i, j - 1, jti);
      InvAlong(trace, steps, j - 1);
      RevokedForever(trace, steps, i, j - 1, jti);
      assert IsStep(trace, steps, j - 1);
      UncachedStays(trace[j - 1], steps[j - 1], jti);
    }
  }

  lemma CachedAfterRotation(s: State, r: Request)
    requires Inv(s) && Rotates(s, r)
    ensures var s' := Serve(s, r).0;
            && r.jti in s'.tokens && s'.tokens[r.jti].revoked && s'.tokens[r.jti].family == s.tokens[r.jti].family
            && (r.jti in s'.grace <==> Cached(r))
            && (Cached(r) ==> s'.grace[r.jti] == Grace(Pair(r.newAccess, r.newJti), r.writtenAt + GRACE_SECONDS))
  {
    if r.jti in s.grace {
      CachedIsRevoked(s, r.jti);
    }
  }

  /** What becomes of an error-free retry with a spent token, whatever errors the rotation met and
      whatever happened in between: it is answered with the rotation's pair, and changes nothing,
      if and only if the rotation's answer was cached and the retry reads it within thirty seconds
      of the write; otherwise it is taken for a replay and the family dies. */
  lemma RetryAfterRotation(trace: seq<State>, steps: seq<Step>, i: nat, j: nat)
    requires IsRun(trace, steps) && i < j < |steps| && steps[i].Refresh? && steps[j].Refresh?
    requires Rotates(trace[i], steps[i].request)
    requires steps[j].request.jti == steps[i].request.jti && steps[j].request.fault.NoFault?
    requires forall k :: i < k < j ==> !(steps[k].Forget? && steps[k].cached == steps[i].request.jti)
    ensures var first, retry := steps[i].request, steps[j].request;
            var answer := Serve(trace[j], retry).1;
            var inTime := Cached(first) && retry.later < first.writtenAt + GRACE_SECONDS;
            && (answer == Issued(Pair(first.newAccess, first.newJti)) <==> inTime)
            && (inTime ==> trace[j + 1] == trace[j])
            && (!inTime ==> answer == TokenReplayed && Dead(trace[j + 1], trace[i].tokens[first.jti].family))
  {
    var first, retry := steps[i].request, steps[j].request;
    var jti := first.jti;
    InvAlong(trace, steps, i);
    assert IsStep(trace, steps, i) && IsStep(trace, steps, j);
    CachedAfterRotation(trace[i], first);
    if Cached(first) {
      GraceStaysAlong(trace, steps, i + 1, j, jti);
    } else {
      UncachedStaysAlong(trace, steps, i + 1, j, jti);
    }
    RevokedForever(trace, steps, i + 1, j, jti);
    if !InGrace(trace[j], jti, retry.later) {
      ReplayKills(trace[j], retry);
    }
  }

  /** The same at once after the rotation: an uncached answer - a commit that raised though it took
      effect, an error right after it, or a failed cache write - leaves the client locked out,
      new token included; a cached one does so only from the thirtieth second on. */
  lemma LostAnswerKillsFamily(s: State, r: Request, retry: Request)
    requires Inv(s) && Rotates(s, r) && retry.jti == r.jti && retry.fault.NoFault?
    ensures var s' := Serve(s, r).0;
            var family := s.tokens[r.jti].family;
            && !s'.tokens[r.newJti].revoked && s'.tokens[r.newJti].family == family
            && (Dead(Serve(s', retry).0, family) <==> !(Cached(r) && retry.later < r.writtenAt + GRACE_SECONDS))
            && (Serve(s', retry) == (s', Issued(Pair(r.newAccess, r.newJti))) <==>
                  Cached(r) && retry.later < r.writtenAt + GRACE_SECONDS)
  {
    var s' := Serve(s, r).0;
    RotationServed(s, r);
    CachedAfterRotation(s, r);
    if !InGrace(s', r.jti, retry.later) {
      ReplayKills(s', retry);
    }
  }
}

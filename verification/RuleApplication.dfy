/** Rule application: the `processed` cursor hands out every object of a class exactly once. */
module RuleApplication {
  import opened Correlation
  import opened Protocol
  import opened Accounting

  /** Position `app.index` of the class has been claimed and the rule is in scope for the class. */
  predicate Claimed(env: Env, sh: Shared, app: Application) {
    app.cls in sh.nodes && app.index < sh.nodes[app.cls].processed && app.rule in RulesFor(env, app.cls)
  }

  /** A claimed rule application is made once or still owed by one goroutine, not both; only
      cancellation makes a goroutine drop what it owes. Nothing unclaimed is made or owed. */
  ghost predicate AppliedOk(env: Env, s: State, app: Application) {
    && s.sh.applied[app] + Sum(env, Owes(app), s.threads) <= One(Claimed(env, s.sh, app))
    && (!s.sh.cancelled ==> s.sh.applied[app] + Sum(env, Owes(app), s.threads) == One(Claimed(env, s.sh, app)))
  }

  predicate MovesWindow(a: Action) { a.Claim? || a.ApplyRule? || a.NextObject? || a.EndApply? }

  /** Claimed, minus made, minus owed by the one goroutine. */
  function Gap(env: Env, sh: Shared, th: Thread, app: Application): int {
    One(Claimed(env, sh, app)) - sh.applied[app] - Weight(env, Owes(app), th)
  }

  lemma OwesLocal(env: Env, sh: Shared, th: Thread, a: Action, app: Application)
    requires Guard(env, sh, th, a) && RoleOk(th) && !MovesWindow(a)
    ensures Weight(env, Owes(app), Moved(env, sh, th, a)) == Weight(env, Owes(app), th)
  {
    hide Effect;
  }

  lemma AppliedLocal(env: Env, sh: Shared, th: Thread, a: Action, app: Application)
    requires Guard(env, sh, th, a) && RoleOk(th) && !MovesWindow(a)
    ensures Weight(env, Owes(app), Moved(env, sh, th, a)) == Weight(env, Owes(app), th)
    ensures var sh' := Effect(env, sh, th, a);
            sh'.applied == sh.applied && Claimed(env, sh', app) == Claimed(env, sh, app)
            && (sh.cancelled ==> sh'.cancelled)
  {
    hide Moved, Weight;
    OwesLocal(env, sh, th, a, app);
  }

  lemma AppliedClaim(env: Env, sh: Shared, th: Thread, app: Application)
    requires SharedOk(env, sh) && Guard(env, sh, th, Claim)
    ensures Gap(env, Effect(env, sh, th, Claim), Moved(env, sh, th, Claim), app) == Gap(env, sh, th, app)
  {
  }

  lemma AppliedWindow(env: Env, sh: Shared, th: Thread, a: Action, app: Application)
    requires Guard(env, sh, th, a) && (a.ApplyRule? || a.NextObject? || a.EndApply?)
    ensures Gap(env, Effect(env, sh, th, a), Moved(env, sh, th, a), app) >= Gap(env, sh, th, app)
    ensures !sh.cancelled ==> Gap(env, Effect(env, sh, th, a), Moved(env, sh, th, a), app) == Gap(env, sh, th, app)
  {
  }

  lemma AppliedStep(env: Env, s: State, t: nat, a: Action, app: Application)
    requires Shape(env, s) && Enabled(env, s, t, a) && AppliedOk(env, s, app)
    ensures AppliedOk(env, Do(env, s, t, a), app)
  {
    hide Moved, Effect, Weight;
    var th := s.threads[t];
    SumStep(env, Owes(app), s, t, a);
    CancelledFrame(env, s.sh, th, a);
    if a.Claim? {
      AppliedClaim(env, s.sh, th, app);
    } else if MovesWindow(a) {
      AppliedWindow(env, s.sh, th, a, app);
    } else {
      AppliedLocal(env, s.sh, th, a, app);
    }
  }

  /** Unclaimed objects have a goroutine that will claim them. */
  ghost predicate ClaimComing(env: Env, s: State, c: Class) {
    c in s.sh.nodes && s.sh.nodes[c].processed < |s.sh.nodes[c].result| ==> Sum(env, WillClaim(c), s.threads) > 0
  }

  /** A claim once in sight stays in sight until it is made, and adding objects brings one in sight. */
  lemma ClaimKept(env: Env, sh: Shared, th: Thread, a: Action, c: Class)
    requires Guard(env, sh, th, a) && RoleOk(th)
    ensures Weight(env, WillClaim(c), Moved(env, sh, th, a)) >= Weight(env, WillClaim(c), th)
            || (a.Claim? && th.cls == c)
    ensures (a.AppendStart? && c == env.startClass) || (a.Record? && th.job.value.query.cls == c) ==>
              Weight(env, WillClaim(c), Moved(env, sh, th, a)) > 0
  {
    hide Effect;
  }

  lemma ClaimMove(env: Env, sh: Shared, th: Thread, a: Action, c: Class)
    requires Guard(env, sh, th, a) && RoleOk(th) && c in sh.nodes
    ensures Weight(env, WillClaim(c), Moved(env, sh, th, a)) >= Weight(env, WillClaim(c), th)
            || (a.Claim? && th.cls == c)
    ensures var n' := Effect(env, sh, th, a).nodes;
            c in n' && (n'[c] == sh.nodes[c]
                        || n'[c].processed == |n'[c].result| || Weight(env, WillClaim(c), Moved(env, sh, th, a)) > 0)
    ensures a.Claim? && th.cls == c ==>
              var n' := Effect(env, sh, th, a).nodes; n'[c].processed == |n'[c].result|
  {
    hide Moved, Weight;
    NodesFrame(env, sh, th, a);
    ClaimKept(env, sh, th, a, c);
  }

  lemma ClaimStep(env: Env, s: State, t: nat, a: Action, c: Class)
    requires Shape(env, s) && Enabled(env, s, t, a) && ClaimComing(env, s, c)
    ensures ClaimComing(env, Do(env, s, t, a), c)
  {
    StepGrows(env, s.sh, s.threads[t], a);
    if c in s.sh.nodes {
      SumStep(env, WillClaim(c), s, t, a);
      ClaimMove(env, s.sh, s.threads[t], a, c);
      WeightWithinSum(env, WillClaim(c), Do(env, s, t, a).threads, t);
      WeightWithinSum(env, WillClaim(c), s.threads, t);
    }
  }

  ghost predicate ApplicationsOk(env: Env, s: State) {
    (forall app :: AppliedOk(env, s, app)) && (forall c :: ClaimComing(env, s, c))
  }

  lemma ApplicationsInit(env: Env, s: State)
    requires IsInit(env, s)
    ensures ApplicationsOk(env, s)
  {
    forall app ensures AppliedOk(env, s, app) { SumInit(env, Owes(app), s); }
  }

  lemma ApplicationsStep(env: Env, s: State, t: nat, a: Action)
    requires Shape(env, s) && Enabled(env, s, t, a) && ApplicationsOk(env, s)
    ensures ApplicationsOk(env, Do(env, s, t, a))
  {
    forall app ensures AppliedOk(env, Do(env, s, t, a), app) { AppliedStep(env, s, t, a, app); }
    forall c ensures ClaimComing(env, Do(env, s, t, a), c) { ClaimStep(env, s, t, a, c); }
  }

  lemma {:induction false} ApplicationsAlong(env: Env, run: seq<State>, i: nat)
    requires ValidEnv(env) && IsRun(env, run) && i < |run|
    ensures ApplicationsOk(env, run[i])
    decreases i
  {
    hide ApplicationsOk, Shape, Enabled, Do;
    if i == 0 {
      ApplicationsInit(env, run[0]);
    } else {
      var t, a := StepTo(env, run, i);
      ApplicationsAlong(env, run, i - 1);
      ShapeAlong(env, run, i - 1);
      ApplicationsStep(env, run[i - 1], t, a);
    }
  }

  /** No object ever has a rule applied to it twice, whatever the interleaving. */
  lemma NeverAppliedTwice(env: Env, s: State, app: Application)
    requires ValidEnv(env) && Reachable(env, s)
    ensures s.sh.applied[app] <= 1
  {
    var run :| IsRun(env, run) && run[|run| - 1] == s;
    ApplicationsAlong(env, run, |run| - 1);
    assert AppliedOk(env, s, app);
  }

  /** After an uncancelled run, each rule in scope was applied to each object exactly once, and no
      other application was made. Even a cancelled run leaves no object unclaimed. */
  lemma ExactlyOnce(env: Env, s: State)
    requires ValidEnv(env) && Reachable(env, s) && ShuttingDown(s)
    ensures forall c :: c in s.sh.nodes ==> s.sh.nodes[c].processed == |s.sh.nodes[c].result|
    ensures !s.sh.cancelled ==>
              forall app :: s.sh.applied[app] == One(app.cls in s.sh.nodes && app.index < |s.sh.nodes[app.cls].result|
                                                     && app.rule in RulesFor(env, app.cls))
  {
    var run :| IsRun(env, run) && run[|run| - 1] == s;
    ApplicationsAlong(env, run, |run| - 1);
    AccountedAlong(env, run, |run| - 1);
    forall c | c in s.sh.nodes ensures s.sh.nodes[c].processed == |s.sh.nodes[c].result| {
      assert ClaimComing(env, s, c);
      QuietSum(env, s, WillClaim(c));
    }
    forall app ensures !s.sh.cancelled ==> s.sh.applied[app] == One(Claimed(env, s.sh, app)) {
      assert AppliedOk(env, s, app);
      QuietSum(env, s, Owes(app));
    }
  }
}

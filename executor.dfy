/**
 The per-feature executor (`executeTerraform`) and the loop of `main` that runs
 it over every feature.

 The process is a `Process` object: its working directory, the commands it has
 launched, and what it has logged. Everything the outside world decides
 (whether `Getwd` and each `Chdir` succeed, each command's exit status, the
 token typed at the prompt) arrives as a `Replies` value, one per feature.
 */
module Executor {
  import opened Wrappers
  import opened Backend
  import opened Commands

  /** Why a step failed. `RestoreFailed` is only ever logged, never returned. */
  datatype Failure =
    | GetwdFailed
    | ChdirFailed(dir: string)
    | InitFailed(dir: string)
    | PlanFailed(dir: string)
    | ApplyFailed(dir: string)
    | RestoreFailed(dir: string)

  /** What the outside world answers during one call of the executor. */
  datatype Replies = Replies(
    getwdOk: bool,        // os.Getwd succeeds
    chdirOk: bool,        // os.Chdir into the feature directory succeeds
    initOk: bool,         // terraform init exits with status 0
    planOk: bool,         // terraform plan exits with status 0
    confirmation: string, // the token read at the prompt
    applyOk: bool,        // terraform apply exits with status 0
    restoreOk: bool)      // the deferred os.Chdir back succeeds

  /** The observable state of the process. */
  datatype Shell = Shell(cwd: string, launched: seq<Invocation>, logged: seq<Failure>)

  /** The directory `Chdir(dir)` enters from `cwd`. */
  function Resolve(cwd: string, dir: string): string {
    if |dir| > 0 && dir[0] == '/' then dir else cwd + "/" + dir
  }

  /** Apply goes ahead only on the exact token `yes`. */
  predicate Confirmed(x: Replies) {
    x.confirmation == "yes"
  }

  /** The working directory was never left, or was returned to. */
  predicate KeepsCwd(x: Replies) {
    !x.getwdOk || !x.chdirOk || x.restoreOk
  }

  // ---- one feature ----

  /** The commands one call launches from directory `cwd`, in order; all run in the feature directory. */
  function Launched(cwd: string, f: Feature, env: string, stateFilePath: string, b: BackendConfig, x: Replies)
    : seq<Invocation>
  {
    var dir := Resolve(cwd, f.dir);
    if !(x.getwdOk && x.chdirOk) then []
    else if !x.initOk then [InitCommand(b, f, stateFilePath, dir)]
    else if !x.planOk || !Confirmed(x) then [InitCommand(b, f, stateFilePath, dir), PlanCommand(env, stateFilePath, dir)]
    else [InitCommand(b, f, stateFilePath, dir), PlanCommand(env, stateFilePath, dir), ApplyCommand(env, stateFilePath, dir)]
  }

  /**
   `init` is launched once the directory is entered, `plan` only after `init`
   succeeded, `apply` only after `plan` succeeded and the prompt was answered
   exactly `yes`; always in that order, each inside the feature directory and
   with `TF_STATE` set to the state-file path.
   */
  lemma LaunchedSteps(cwd: string, f: Feature, env: string, stateFilePath: string, b: BackendConfig, x: Replies)
    ensures var r, dir := Launched(cwd, f, env, stateFilePath, b, x), Resolve(cwd, f.dir);
      && |r| <= 3
      && (|r| >= 1 <==> x.getwdOk && x.chdirOk)
      && (|r| >= 2 <==> x.getwdOk && x.chdirOk && x.initOk)
      && (|r| == 3 <==> x.getwdOk && x.chdirOk && x.initOk && x.planOk && Confirmed(x))
      && (|r| >= 1 ==> r[0] == InitCommand(b, f, stateFilePath, dir))
      && (|r| >= 2 ==> r[1] == PlanCommand(env, stateFilePath, dir))
      && (|r| == 3 ==> r[2] == ApplyCommand(env, stateFilePath, dir))
      && (forall i :: 0 <= i < |r| ==>
            r[i].program == Tool && r[i].stateEnv == StateEnv(stateFilePath) && r[i].dir == dir
            && Subcommand(r[i]) == ["init", "plan", "apply"][i])
  {
  }

  /** The error the executor returns: the first step that failed, or none. */
  function Verdict(f: Feature, x: Replies): Option<Failure> {
    if !x.getwdOk then Some(GetwdFailed)
    else if !x.chdirOk then Some(ChdirFailed(f.dir))
    else if !x.initOk then Some(InitFailed(f.dir))
    else if !x.planOk then Some(PlanFailed(f.dir))
    else if Confirmed(x) && !x.applyOk then Some(ApplyFailed(f.dir))
    else None
  }

  /**
   Success exactly when every step that ran succeeded; a declined prompt is a
   success; otherwise the error names the first step that failed. The failed
   way back is never returned.
   */
  lemma VerdictFirstFailure(f: Feature, x: Replies)
    ensures var e := Verdict(f, x);
      && (e.None? <==> x.getwdOk && x.chdirOk && x.initOk && x.planOk && (!Confirmed(x) || x.applyOk))
      && (x.getwdOk && x.chdirOk && x.initOk && x.planOk && !Confirmed(x) ==> e.None?)
      && (e == Some(GetwdFailed) <==> !x.getwdOk)
      && (e == Some(ChdirFailed(f.dir)) <==> x.getwdOk && !x.chdirOk)
      && (e == Some(InitFailed(f.dir)) <==> x.getwdOk && x.chdirOk && !x.initOk)
      && (e == Some(PlanFailed(f.dir)) <==> x.getwdOk && x.chdirOk && x.initOk && !x.planOk)
      && (e == Some(ApplyFailed(f.dir)) <==>
            x.getwdOk && x.chdirOk && x.initOk && x.planOk && Confirmed(x) && !x.applyOk)
      && (e.Some? ==> !e.value.RestoreFailed?)
  {
  }

  /**
   The working directory after the call: the one at entry, unless the feature
   directory was entered and the way back failed.
   */
  function CwdAfter(cwd: string, f: Feature, x: Replies): string {
    if KeepsCwd(x) then cwd else Resolve(cwd, f.dir)
  }

  /** `executeTerraform`: the new state of the process and the returned error. */
  function Execute(s: Shell, f: Feature, env: string, stateFilePath: string, b: BackendConfig, x: Replies)
    : (Shell, Option<Failure>)
  {
    var logged := if x.getwdOk && !x.restoreOk then s.logged + [RestoreFailed(s.cwd)] else s.logged;
    (Shell(CwdAfter(s.cwd, f, x), s.launched + Launched(s.cwd, f, env, stateFilePath, b, x), logged), Verdict(f, x))
  }

  /**
   A failed `Getwd` changes nothing; otherwise the directory at return is the
   one at entry whenever the way back succeeds, or the feature directory was
   never entered. Only a failed way back is logged here.
   */
  lemma ExecuteRestoresCwd(s: Shell, f: Feature, env: string, stateFilePath: string, b: BackendConfig, x: Replies)
    ensures var (t, e) := Execute(s, f, env, stateFilePath, b, x);
      && (!x.getwdOk ==> t == s && e == Some(GetwdFailed))
      && (KeepsCwd(x) ==> t.cwd == s.cwd)
      && (t.cwd != s.cwd ==> x.getwdOk && x.chdirOk && !x.restoreOk && t.cwd == Resolve(s.cwd, f.dir))
      && t.logged == s.logged + (if x.getwdOk && !x.restoreOk then [RestoreFailed(s.cwd)] else [])
  {
    assert !x.getwdOk ==> s.launched + Launched(s.cwd, f, env, stateFilePath, b, x) == s.launched;
  }

  // ---- the loop of main ----

  /** One iteration: run the feature with its own state file; log the error, if any, and go on. */
  function Step(s: Shell, f: Feature, env: string, b: BackendConfig, x: Replies): Shell {
    var (t, e) := Execute(s, f, env, f.stateFile, b, x);
    if e.Some? then t.(logged := t.logged + [e.value]) else t
  }

  /** The loop over all features, first to last. */
  function Batch(s: Shell, fs: seq<Feature>, env: string, b: BackendConfig, xs: seq<Replies>): Shell
    requires |xs| == |fs|
  {
    if fs == [] then s
    else Step(Batch(s, fs[..|fs| - 1], env, b, xs[..|xs| - 1]), fs[|fs| - 1], env, b, xs[|xs| - 1])
  }

  /** The object whose state `executeTerraform` and `main` change. */
  class Process {
    var cwd: string
    var launched: seq<Invocation>
    var logged: seq<Failure>

    function State(): Shell
      reads this
    {
      Shell(cwd, launched, logged)
    }

    constructor (start: string)
      ensures State() == Shell(start, [], [])
    {
      cwd, launched, logged := start, [], [];
    }

    /** The body of `executeTerraform` between the deferred restore and its return. */
    method RunSteps(f: Feature, env: string, stateFilePath: string, b: BackendConfig, x: Replies)
      returns (err: Option<Failure>)
      requires x.getwdOk
      modifies this`cwd, this`launched
      ensures launched == old(launched) + Launched(old(cwd), f, env, stateFilePath, b, x)
      ensures cwd == if x.chdirOk then Resolve(old(cwd), f.dir) else old(cwd)
      ensures err == Verdict(f, x)
    {
      if !x.chdirOk {
        return Some(ChdirFailed(f.dir));
      }
      cwd := Resolve(cwd, f.dir);

      launched := launched + [InitCommand(b, f, stateFilePath, cwd)];
      if !x.initOk {
        return Some(InitFailed(f.dir));
      }

      launched := launched + [PlanCommand(env, stateFilePath, cwd)];
      if !x.planOk {
        return Some(PlanFailed(f.dir));
      }

      if x.confirmation == "yes" {
        launched := launched + [ApplyCommand(env, stateFilePath, cwd)];
        if !x.applyOk {
          return Some(ApplyFailed(f.dir));
        }
      }
      return None;
    }

    /** `executeTerraform`: save the directory, run the steps, and always go back. */
    method ExecuteTerraform(f: Feature, env: string, stateFilePath: string, b: BackendConfig, x: Replies)
      returns (err: Option<Failure>)
      modifies this`cwd, this`launched, this`logged
      ensures (State(), err) == Execute(old(State()), f, env, stateFilePath, b, x)
    {
      if !x.getwdOk {
        ExecuteRestoresCwd(State(), f, env, stateFilePath, b, x);
        return Some(GetwdFailed);
      }
      var currentDir := cwd;
      err := RunSteps(f, env, stateFilePath, b, x);
      // the deferred restore
      if x.restoreOk {
        cwd := currentDir;
      } else {
        logged := logged + [RestoreFailed(currentDir)];
      }
    }

    /** The loop of `main`: every feature in order, whatever the earlier ones returned. */
    method RunFeatures(fs: seq<Feature>, env: string, b: BackendConfig, xs: seq<Replies>)
      requires |xs| == |fs|
      modifies this`cwd, this`launched, this`logged
      ensures State() == Batch(old(State()), fs, env, b, xs)
    {
      ghost var start := State();
      var i := 0;
      while i < |fs|
        invariant 0 <= i <= |fs|
        invariant State() == Batch(start, fs[..i], env, b, xs[..i])
      {
        ghost var pre := State();
        RunFeature(fs[i], env, b, xs[i]);
        assert State() == Step(pre, fs[i], env, b, xs[i]);
        BatchLast(start, fs[..i + 1], env, b, xs[..i + 1]);
        assert fs[..i + 1][..i] == fs[..i] && xs[..i + 1][..i] == xs[..i];
        i := i + 1;
      }
      assert fs[..i] == fs && xs[..i] == xs;
    }

    /** One iteration of the loop of `main`: run the executor, log what it returns. */
    method RunFeature(f: Feature, env: string, b: BackendConfig, x: Replies)
      modifies this`cwd, this`launched, this`logged
      ensures State() == Step(old(State()), f, env, b, x)
    {
      var stateFilePath := f.stateFile;
      var err := ExecuteTerraform(f, env, stateFilePath, b, x);
      if err.Some? {
        logged := logged + [err.value];
      }
    }
  }

  // ---- properties of the loop ----

  /** Running `fs1` and then `fs2` is running `fs1 + fs2`: no feature ends the loop early. */
  lemma {:induction false} BatchAppend(s: Shell, fs1: seq<Feature>, fs2: seq<Feature>,
                                       env: string, b: BackendConfig, xs1: seq<Replies>, xs2: seq<Replies>)
    requires |xs1| == |fs1| && |xs2| == |fs2|
    ensures Batch(s, fs1 + fs2, env, b, xs1 + xs2) == Batch(Batch(s, fs1, env, b, xs1), fs2, env, b, xs2)
  {
    if fs2 == [] {
      assert fs1 + fs2 == fs1 && xs1 + xs2 == xs1;
    } else {
      var fs, xs := fs1 + fs2, xs1 + xs2;
      var fs2', xs2' := fs2[..|fs2| - 1], xs2[..|xs2| - 1];
      assert fs[..|fs| - 1] == fs1 + fs2';
      assert xs[..|xs| - 1] == xs1 + xs2';
      assert fs[|fs| - 1] == fs2[|fs2| - 1] && xs[|xs| - 1] == xs2[|xs2| - 1];
      BatchAppend(s, fs1, fs2', env, b, xs1, xs2');
      BatchLast(s, fs, env, b, xs);
      BatchLast(Batch(s, fs1, env, b, xs1), fs2, env, b, xs2);
    }
  }

  /** The loop's last iteration. */
  lemma BatchLast(s: Shell, fs: seq<Feature>, env: string, b: BackendConfig, xs: seq<Replies>)
    requires |xs| == |fs| && fs != []
    ensures Batch(s, fs, env, b, xs)
         == Step(Batch(s, fs[..|fs| - 1], env, b, xs[..|xs| - 1]), fs[|fs| - 1], env, b, xs[|xs| - 1])
  {
  }

  /** When every way back succeeds, the loop ends in the directory it started in. */
  lemma {:induction false} BatchKeepsCwd(s: Shell, fs: seq<Feature>, env: string, b: BackendConfig, xs: seq<Replies>)
    requires |xs| == |fs|
    requires forall i :: 0 <= i < |xs| ==> KeepsCwd(xs[i])
    ensures Batch(s, fs, env, b, xs).cwd == s.cwd
  {
    if fs != [] {
      BatchKeepsCwd(s, fs[..|fs| - 1], env, b, xs[..|xs| - 1]);
    }
  }

  /** The `init` commands among `cmds`, in order. */
  function Inits(cmds: seq<Invocation>): seq<Invocation> {
    if cmds == [] then []
    else Inits(cmds[..|cmds| - 1]) + (if Subcommand(cmds[|cmds| - 1]) == "init" then [cmds[|cmds| - 1]] else [])
  }

  lemma {:induction false} InitsAppend(a: seq<Invocation>, c: seq<Invocation>)
    ensures Inits(a + c) == Inits(a) + Inits(c)
  {
    if c != [] {
      assert (a + c)[..|a + c| - 1] == a + c[..|c| - 1];
      assert (a + c)[|a + c| - 1] == c[|c| - 1];
      InitsAppend(a, c[..|c| - 1]);
    } else {
      assert a + c == a;
    }
  }

  /**
   The `init` commands the features call for, starting from `s`: one per feature
   whose directory was entered, run in that directory as reached from where the
   loop stood when the feature's turn came.
   */
  function ExpectedInits(s: Shell, fs: seq<Feature>, env: string, b: BackendConfig, xs: seq<Replies>): seq<Invocation>
    requires |xs| == |fs|
  {
    if fs == [] then []
    else
      var f, x := fs[|fs| - 1], xs[|xs| - 1];
      var pre := Batch(s, fs[..|fs| - 1], env, b, xs[..|xs| - 1]);
      ExpectedInits(s, fs[..|fs| - 1], env, b, xs[..|xs| - 1])
      + (if x.getwdOk && x.chdirOk then [InitCommand(b, f, f.stateFile, Resolve(pre.cwd, f.dir))] else [])
  }

  /**
   Every feature whose directory is entered gets its own `init`, with its own
   state file as backend key, in list order, whatever happened to the features
   before it.
   */
  lemma {:induction false} BatchInits(s: Shell, fs: seq<Feature>, env: string, b: BackendConfig, xs: seq<Replies>)
    requires |xs| == |fs|
    ensures Inits(Batch(s, fs, env, b, xs).launched) == Inits(s.launched) + ExpectedInits(s, fs, env, b, xs)
  {
    if fs != [] {
      var pre := Batch(s, fs[..|fs| - 1], env, b, xs[..|xs| - 1]);
      var f, x := fs[|fs| - 1], xs[|xs| - 1];
      BatchInits(s, fs[..|fs| - 1], env, b, xs[..|xs| - 1]);
      BatchLast(s, fs, env, b, xs);
      StepInits(pre, f, env, b, x);
    }
  }

  /** One iteration adds to the `init` commands exactly the feature's own, if it entered the directory. */
  lemma StepInits(s: Shell, f: Feature, env: string, b: BackendConfig, x: Replies)
    ensures Inits(Step(s, f, env, b, x).launched)
         == Inits(s.launched) + (if x.getwdOk && x.chdirOk then [InitCommand(b, f, f.stateFile, Resolve(s.cwd, f.dir))] else [])
  {
    var cmds := Launched(s.cwd, f, env, f.stateFile, b, x);
    assert Step(s, f, env, b, x).launched == s.launched + cmds;
    InitsAppend(s.launched, cmds);
    InitsOfLaunched(s.cwd, f, env, f.stateFile, b, x);
  }

  /** One call launches one `init`, when it enters the directory, and nothing else called `init`. */
  lemma InitsOfLaunched(cwd: string, f: Feature, env: string, stateFilePath: string, b: BackendConfig, x: Replies)
    ensures Inits(Launched(cwd, f, env, stateFilePath, b, x))
         == if x.getwdOk && x.chdirOk then [InitCommand(b, f, stateFilePath, Resolve(cwd, f.dir))] else []
  {
    var dir := Resolve(cwd, f.dir);
    var init, plan, apply := InitCommand(b, f, stateFilePath, dir), PlanCommand(env, stateFilePath, dir), ApplyCommand(env, stateFilePath, dir);
    assert Subcommand(plan) != "init" by { assert Subcommand(plan)[0] == 'p'; }
    assert Subcommand(apply) != "init" by { assert Subcommand(apply)[0] == 'a'; }
    assert Inits([init]) == [init] by { assert [init][..0] == []; }
    assert Inits([init, plan]) == [init] by { assert [init, plan][..1] == [init]; }
    assert Inits([init, plan, apply]) == [init] by { assert [init, plan, apply][..2] == [init, plan]; }
  }

  /** The errors among logged entries: everything but the failed ways back. */
  function Reported(log: seq<Failure>): seq<Failure> {
    if log == [] then []
    else Reported(log[..|log| - 1]) + (if log[|log| - 1].RestoreFailed? then [] else [log[|log| - 1]])
  }

  lemma {:induction false} ReportedAppend(a: seq<Failure>, c: seq<Failure>)
    ensures Reported(a + c) == Reported(a) + Reported(c)
  {
    if c != [] {
      assert (a + c)[..|a + c| - 1] == a + c[..|c| - 1];
      assert (a + c)[|a + c| - 1] == c[|c| - 1];
      ReportedAppend(a, c[..|c| - 1]);
    } else {
      assert a + c == a;
    }
  }

  /** The errors the executor returns for the features, in order, skipping successes. */
  function ExpectedErrors(fs: seq<Feature>, xs: seq<Replies>): seq<Failure>
    requires |xs| == |fs|
  {
    if fs == [] then []
    else
      var e := Verdict(fs[|fs| - 1], xs[|xs| - 1]);
      ExpectedErrors(fs[..|fs| - 1], xs[..|xs| - 1]) + (if e.Some? then [e.value] else [])
  }

  /** Every feature's error is logged, once, in list order; the loop goes on after each. */
  lemma {:induction false} BatchReportsErrors(s: Shell, fs: seq<Feature>, env: string, b: BackendConfig, xs: seq<Replies>)
    requires |xs| == |fs|
    ensures Reported(Batch(s, fs, env, b, xs).logged) == Reported(s.logged) + ExpectedErrors(fs, xs)
  {
    if fs != [] {
      var pre := Batch(s, fs[..|fs| - 1], env, b, xs[..|xs| - 1]);
      var f, x := fs[|fs| - 1], xs[|xs| - 1];
      BatchReportsErrors(s, fs[..|fs| - 1], env, b, xs[..|xs| - 1]);
      BatchLast(s, fs, env, b, xs);
      StepReports(pre, f, env, b, x);
    }
  }

  /** One iteration adds to the errors exactly the one the executor returned, if any. */
  lemma StepReports(s: Shell, f: Feature, env: string, b: BackendConfig, x: Replies)
    ensures var e := Verdict(f, x);
      Reported(Step(s, f, env, b, x).logged) == Reported(s.logged) + (if e.Some? then [e.value] else [])
  {
    var restore: seq<Failure> := if x.getwdOk && !x.restoreOk then [RestoreFailed(s.cwd)] else [];
    var e := Verdict(f, x);
    VerdictFirstFailure(f, x);
    var err: seq<Failure> := if e.Some? then [e.value] else [];
    assert Step(s, f, env, b, x).logged == s.logged + (restore + err) by {
      ExecuteRestoresCwd(s, f, env, f.stateFile, b, x);
      assert s.logged + restore + err == s.logged + (restore + err);
    }
    assert Reported(restore + err) == err by {
      ReportedAppend(restore, err);
      assert Reported(restore) == [] by {
        if restore != [] { assert restore[..0] == []; }
      }
      assert Reported(err) == err by {
        if err != [] { assert err[..0] == []; }
      }
    }
    ReportedAppend(s.logged, restore + err);
  }
}

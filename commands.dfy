/**
 The features and the three `terraform` command lines `executeTerraform` builds
 for each of them: `init` with the backend settings, `plan`, and `apply`.
 */
module Commands {
  import opened Wrappers
  import opened Text
  import opened Backend

  /** One entry of `features.json`, in the order the file lists it. */
  datatype Feature = Feature(name: string, dir: string, stateFile: string)

  /**
   One launch of an external program: the program, its arguments, the entry
   `TF_STATE=...` added to the inherited environment, and the working directory
   it runs in (the process's own at the moment of the launch).
   */
  datatype Invocation = Invocation(program: string, args: seq<string>, stateEnv: string, dir: string)

  const Tool := "terraform"
  const BackendFlag := "-backend-config="

  /** `-backend-config=<name>=<value>`. */
  function BackendArg(name: string, value: string): string {
    BackendFlag + name + "=" + value
  }

  /**
   The arguments of `terraform init`: the five backend settings, with the
   feature's own state file as `key`, then `-reconfigure`.
   */
  function InitArgs(b: BackendConfig, f: Feature): (r: seq<string>)
    ensures |r| == 7 && r[0] == "init" && r[6] == "-reconfigure"
  {
    ["init",
     BackendArg("bucket", b.bucket),
     BackendArg("key", f.stateFile),
     BackendArg("region", b.region),
     BackendArg("profile", b.profile),
     BackendArg("dynamodb_table", b.dynamoDBTable),
     "-reconfigure"]
  }

  /** The variables file of environment `env`, relative to a feature directory. */
  function VarFileArg(env: string): string {
    "-var-file=../../environments/" + env + "/vars.tfvars"
  }

  /** The arguments of `terraform plan`: the subcommand and the variables file. */
  function PlanArgs(env: string): (r: seq<string>)
    ensures |r| == 2 && r[0] == "plan" && r[1] == VarFileArg(env)
  {
    ["plan", VarFileArg(env)]
  }

  /** The arguments of `terraform apply`: no second prompt, and the same variables file as `plan`. */
  function ApplyArgs(env: string): (r: seq<string>)
    ensures |r| == 3 && r[0] == "apply" && r[1] == "-auto-approve" && r[2] == VarFileArg(env)
  {
    ["apply", "-auto-approve", VarFileArg(env)]
  }

  function StateEnv(stateFilePath: string): string {
    "TF_STATE=" + stateFilePath
  }

  function InitCommand(b: BackendConfig, f: Feature, stateFilePath: string, dir: string): Invocation {
    Invocation(Tool, InitArgs(b, f), StateEnv(stateFilePath), dir)
  }

  function PlanCommand(env: string, stateFilePath: string, dir: string): Invocation {
    Invocation(Tool, PlanArgs(env), StateEnv(stateFilePath), dir)
  }

  function ApplyCommand(env: string, stateFilePath: string, dir: string): Invocation {
    Invocation(Tool, ApplyArgs(env), StateEnv(stateFilePath), dir)
  }

  /** The subcommand an invocation runs: its first argument. */
  function Subcommand(inv: Invocation): string {
    if inv.args == [] then "" else inv.args[0]
  }

  // ---- reading the backend settings back ----

  /**
   How a `-backend-config=name=value` argument reads: the text after the flag,
   split at its first `=`. Any other argument carries no setting.
   */
  function BackendSetting(arg: string): Option<(string, string)> {
    if |BackendFlag| <= |arg| && arg[..|BackendFlag|] == BackendFlag
    then SplitFirst(arg[|BackendFlag|..], '=')
    else None
  }

  /** The settings an argument list carries, in order. */
  function Settings(args: seq<string>): seq<(string, string)> {
    if args == [] then []
    else
      (match BackendSetting(args[0]) case None => [] case Some(s) => [s]) + Settings(args[1..])
  }

  /** A setting argument reads back as the name and value it was built from, `=` in the value included. */
  lemma BackendArgRoundTrip(name: string, value: string)
    requires '=' !in name
    ensures BackendSetting(BackendArg(name, value)) == Some((name, value))
  {
    var arg := BackendArg(name, value);
    assert arg[..|BackendFlag|] == BackendFlag;
    assert arg[|BackendFlag|..] == name + ['='] + value;
    SplitFirstOfJoin(name, '=', value);
  }

  /**
   `init` carries exactly five backend settings, in the order bucket, key,
   region, profile, dynamodb_table; `key` is the feature's state file, and the
   others are the parsed record's. The parsed `key` is not among them.
   */
  lemma InitSettings(b: BackendConfig, f: Feature)
    ensures Settings(InitArgs(b, f)) == [
      ("bucket", b.bucket), ("key", f.stateFile), ("region", b.region),
      ("profile", b.profile), ("dynamodb_table", b.dynamoDBTable)]
  {
    var args := InitArgs(b, f);
    assert Settings(args[6..]) == [] by {
      assert BackendSetting("-reconfigure") == None;
      assert args[6..][1..] == [];
    }
    assert Settings(args[5..]) == [("dynamodb_table", b.dynamoDBTable)] + Settings(args[6..]) by {
      BackendArgRoundTrip("dynamodb_table", b.dynamoDBTable);
      assert args[5..][1..] == args[6..];
    }
    assert Settings(args[4..]) == [("profile", b.profile)] + Settings(args[5..]) by {
      BackendArgRoundTrip("profile", b.profile);
      assert args[4..][1..] == args[5..];
    }
    assert Settings(args[3..]) == [("region", b.region)] + Settings(args[4..]) by {
      BackendArgRoundTrip("region", b.region);
      assert args[3..][1..] == args[4..];
    }
    assert Settings(args[2..]) == [("key", f.stateFile)] + Settings(args[3..]) by {
      BackendArgRoundTrip("key", f.stateFile);
      assert args[2..][1..] == args[3..];
    }
    assert Settings(args[1..]) == [("bucket", b.bucket)] + Settings(args[2..]) by {
      BackendArgRoundTrip("bucket", b.bucket);
      assert args[1..][1..] == args[2..];
    }
    assert Settings(args) == Settings(args[1..]) by {
      assert BackendSetting("init") == None;
    }
    FiveSettings(("bucket", b.bucket), ("key", f.stateFile), ("region", b.region),
                 ("profile", b.profile), ("dynamodb_table", b.dynamoDBTable));
  }

  /** Five single settings, joined one by one, form the five-element list. */
  lemma FiveSettings<T>(s1: T, s2: T, s3: T, s4: T, s5: T)
    ensures [s1] + ([s2] + ([s3] + ([s4] + ([s5] + [])))) == [s1, s2, s3, s4, s5]
  {
  }

  /** The `init` line does not depend on the parsed `key` at all. */
  lemma InitIgnoresParsedKey(b: BackendConfig, f: Feature, k: string, dir: string)
    ensures InitArgs(b.(key := k), f) == InitArgs(b, f)
    ensures InitCommand(b.(key := k), f, f.stateFile, dir) == InitCommand(b, f, f.stateFile, dir)
  {
  }

  /** The `init` line for backend settings b, k, r, p, t and a feature whose state file is `a.tfstate`. */
  lemma ExampleInit()
    ensures InitArgs(BackendConfig("b", "k", "r", "p", "t"), Feature("a", "./a", "a.tfstate")) == [
      "init", "-backend-config=bucket=b", "-backend-config=key=a.tfstate", "-backend-config=region=r",
      "-backend-config=profile=p", "-backend-config=dynamodb_table=t", "-reconfigure"]
  {
    BackendArgExamples();
  }

  /** The five settings of that example, spelled out. */
  lemma BackendArgExamples()
    ensures BackendArg("bucket", "b") == "-backend-config=bucket=b"
    ensures BackendArg("key", "a.tfstate") == "-backend-config=key=a.tfstate"
    ensures BackendArg("region", "r") == "-backend-config=region=r"
    ensures BackendArg("profile", "p") == "-backend-config=profile=p"
    ensures BackendArg("dynamodb_table", "t") == "-backend-config=dynamodb_table=t"
  {
  }

  /** The `plan` line of environment `dev`. */
  lemma ExamplePlan()
    ensures PlanArgs("dev") == ["plan", "-var-file=../../environments/dev/vars.tfvars"]
  {
    assert VarFileArg("dev") == "-var-file=../../environments/dev/vars.tfvars";
  }

  /** The `apply` line of environment `dev`. */
  lemma ExampleApply()
    ensures ApplyArgs("dev") == ["apply", "-auto-approve", "-var-file=../../environments/dev/vars.tfvars"]
  {
    assert VarFileArg("dev") == "-var-file=../../environments/dev/vars.tfvars";
  }
}

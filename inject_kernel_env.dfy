/**
 * The kernel environment injector (scripts/inject_kernel_env.py): turn the
 * KEY=value and bare-NAME arguments into a variable map, then merge it into
 * the "env" object of a Jupyter kernel spec.  The process environment is a
 * map; finding, reading and writing kernel.json are outside the model.
 */
module KernelEnv {
  import opened Wrappers

  /** Why the script exits with status 1 before touching the kernel spec. */
  datatype Abort = Usage | EmptyValue(key: string) | EmptyEnvironmentVariable(name: string)

  /** The position of the first '=' in s. */
  function FirstEq(s: string): (i: nat)
    requires '=' in s
    ensures i < |s| && s[i] == '=' && '=' !in s[..i]
  {
    if s[0] == '=' then 0
    else
      assert s == [s[0]] + s[1..];
      var j := FirstEq(s[1..]);
      assert s[..j + 1] == [s[0]] + s[1..][..j];
      j + 1
  }

  /** arg.split("=", 1): the key before the first '=' and everything after it as the value. */
  function SplitAtFirstEq(arg: string): (r: (string, string))
    requires '=' in arg
    ensures arg == r.0 + "=" + r.1
    ensures '=' !in r.0
  {
    var i := FirstEq(arg);
    assert arg == arg[..i] + "=" + arg[i + 1..];
    (arg[..i], arg[i + 1..])
  }

  /**
   * What one argument contributes: a KEY=value pair, a bare NAME's value
   * from the environment, nothing for an unset NAME (a warning), or an
   * abort for an empty value either way.
   */
  function ArgEffect(arg: string, environ: map<string, string>): (r: Result<Option<(string, string)>, Abort>)
    ensures '=' in arg ==> (r.Err? <==> SplitAtFirstEq(arg).1 == "")
    ensures '=' in arg && r.Ok? ==> r.value == Some(SplitAtFirstEq(arg))
    ensures '=' !in arg ==> (r == Ok(None) <==> arg !in environ)
    ensures '=' !in arg && arg in environ ==> (r.Err? <==> environ[arg] == "")
    ensures '=' !in arg && r.Ok? && r.value.Some? ==> r.value.value == (arg, environ[arg])
    ensures r.Ok? && r.value.Some? ==> r.value.value.1 != ""
  {
    if '=' in arg then
      var (key, value) := SplitAtFirstEq(arg);
      if value == "" then Err(EmptyValue(key)) else Ok(Some((key, value)))
    else if arg in environ then
      if environ[arg] == "" then Err(EmptyEnvironmentVariable(arg)) else Ok(Some((arg, environ[arg])))
    else Ok(None)
  }

  /** The argument sets the key. */
  predicate Defines(arg: string, environ: map<string, string>, key: string)
  {
    var e := ArgEffect(arg, environ);
    e.Ok? && e.value.Some? && e.value.value.0 == key
  }

  /** The arguments applied in order to the map built so far; the first abort wins. */
  function ParseFrom(args: seq<string>, environ: map<string, string>, acc: map<string, string>)
    : Result<map<string, string>, Abort>
  {
    if args == [] then Ok(acc)
    else
      match ArgEffect(args[0], environ)
      case Err(e) => Err(e)
      case Ok(None) => ParseFrom(args[1..], environ, acc)
      case Ok(Some(kv)) => ParseFrom(args[1..], environ, acc[kv.0 := kv.1])
  }

  /** The variables the arguments after the kernel name ask for. */
  function EnvVars(args: seq<string>, environ: map<string, string>): Result<map<string, string>, Abort>
  {
    ParseFrom(args, environ, map[])
  }

  /** One more argument: abort if the earlier ones did or it does, else apply it last. */
  function Then(prior: Result<map<string, string>, Abort>, arg: string, environ: map<string, string>)
    : Result<map<string, string>, Abort>
  {
    if prior.Err? then prior
    else
      match ArgEffect(arg, environ)
      case Err(e) => Err(e)
      case Ok(None) => prior
      case Ok(Some(kv)) => Ok(prior.value[kv.0 := kv.1])
  }

  /** Parsing a longer argument list is parsing the shorter one, then the last argument. */
  lemma {:induction false} ParseSnoc(args: seq<string>, arg: string, environ: map<string, string>, acc: map<string, string>)
    ensures ParseFrom(args + [arg], environ, acc) == Then(ParseFrom(args, environ, acc), arg, environ)
  {
    if args == [] {
      assert [arg][1..] == [];
    } else {
      assert (args + [arg])[1..] == args[1..] + [arg];
      match ArgEffect(args[0], environ)
      case Err(_) =>
      case Ok(None) => ParseSnoc(args[1..], arg, environ, acc);
      case Ok(Some(kv)) => ParseSnoc(args[1..], arg, environ, acc[kv.0 := kv.1]);
    }
  }

  /** A later argument for a key overwrites any earlier one. */
  lemma LaterArgumentWins(args: seq<string>, arg: string, environ: map<string, string>, key: string, value: string)
    requires ArgEffect(arg, environ) == Ok(Some((key, value)))
    requires EnvVars(args, environ).Ok?
    ensures EnvVars(args + [arg], environ) == Ok(EnvVars(args, environ).value[key := value])
  {
    ParseSnoc(args, arg, environ, map[]);
  }

  /** Parsing aborts exactly when some argument has an empty value. */
  lemma {:induction false} AbortsIffSomeArgumentEmpty(args: seq<string>, environ: map<string, string>, acc: map<string, string>)
    ensures ParseFrom(args, environ, acc).Err? <==> exists a :: a in args && ArgEffect(a, environ).Err?
  {
    if args != [] {
      assert args == [args[0]] + args[1..];
      match ArgEffect(args[0], environ)
      case Err(_) =>
      case Ok(None) => AbortsIffSomeArgumentEmpty(args[1..], environ, acc);
      case Ok(Some(kv)) => AbortsIffSomeArgumentEmpty(args[1..], environ, acc[kv.0 := kv.1]);
    }
  }

  /**
   * A successful parse holds exactly the keys already there plus those some
   * argument sets, and no empty value.
   */
  lemma {:induction false} ParsedKeys(args: seq<string>, environ: map<string, string>, acc: map<string, string>)
    requires ParseFrom(args, environ, acc).Ok?
    requires forall k :: k in acc ==> acc[k] != ""
    ensures var m := ParseFrom(args, environ, acc).value;
            (forall k :: k in m <==> k in acc || exists a :: a in args && Defines(a, environ, k))
            && forall k :: k in m ==> m[k] != ""
  {
    if args != [] {
      assert args == [args[0]] + args[1..];
      match ArgEffect(args[0], environ)
      case Err(_) =>
      case Ok(None) => ParsedKeys(args[1..], environ, acc);
      case Ok(Some(kv)) =>
        ParsedKeys(args[1..], environ, acc[kv.0 := kv.1]);
        assert Defines(args[0], environ, kv.0);
        var m := ParseFrom(args, environ, acc).value;
        forall k | k in m
          ensures k in acc || exists a :: a in args && Defines(a, environ, k)
        {
          if k !in acc && k != kv.0 {
            var a :| a in args[1..] && Defines(a, environ, k);
          }
        }
    }
  }

  /**
   * The script's argument loop.  Fewer than two argv entries is a usage
   * error; otherwise the kernel name and the variables the remaining
   * arguments ask for, or the first abort among them.
   */
  method ParseArgv(argv: seq<string>, environ: map<string, string>) returns (r: Result<(string, map<string, string>), Abort>)
    ensures |argv| < 2 ==> r == Err(Usage)
    ensures |argv| >= 2 ==> (r.Ok? <==> EnvVars(argv[2..], environ).Ok?)
    ensures |argv| >= 2 && r.Ok? ==> r.value == (argv[1], EnvVars(argv[2..], environ).value)
    ensures |argv| >= 2 && r.Err? ==> r.error == EnvVars(argv[2..], environ).error
  {
    if |argv| < 2 {
      return Err(Usage);
    }
    var kernelName := argv[1];
    var envVars: map<string, string> := map[];
    var i := 2;
    while i < |argv|
      invariant 2 <= i <= |argv|
      invariant ParseFrom(argv[i..], environ, envVars) == EnvVars(argv[2..], environ)
    {
      var arg := argv[i];
      assert argv[i..][1..] == argv[i + 1..];
      if '=' in arg {
        var (key, value) := SplitAtFirstEq(arg);
        if value == "" {
          return Err(EmptyValue(key));
        }
        envVars := envVars[key := value];
      } else if arg in environ {
        var value := environ[arg];
        if value == "" {
          return Err(EmptyEnvironmentVariable(arg));
        }
        envVars := envVars[arg := value];
      }
      i := i + 1;
    }
    return Ok((kernelName, envVars));
  }

  /** The parts of a kernel.json spec the script touches; "env" may be absent. */
  class KernelSpec {
    var env: Option<map<string, string>>

    constructor (env: Option<map<string, string>>)
      ensures this.env == env
    {
      this.env := env;
    }

    /**
     * Create "env" if absent, then update it with vars: injected keys take
     * the new values, every other existing key keeps its value.
     */
    method MergeEnv(vars: map<string, string>)
      modifies this`env
      ensures env.Some?
      ensures env.value.Keys == (if old(env).Some? then old(env).value.Keys else {}) + vars.Keys
      ensures forall k :: k in vars ==> env.value[k] == vars[k]
      ensures old(env).Some? ==> forall k :: k in old(env).value && k !in vars ==> env.value[k] == old(env).value[k]
    {
      if env.None? {
        env := Some(map[]);
      }
      env := Some(env.value + vars);
    }
  }

  /**
   * The script: parse the arguments, and on success merge the variables
   * into the kernel spec; an abort leaves the spec as it was.
   */
  method InjectKernelEnv(argv: seq<string>, environ: map<string, string>, spec: KernelSpec)
    returns (r: Result<map<string, string>, Abort>)
    modifies spec`env
    ensures |argv| < 2 ==> r == Err(Usage)
    ensures |argv| >= 2 ==> r == EnvVars(argv[2..], environ)
    ensures r.Err? ==> spec.env == old(spec.env)
    ensures r.Ok? ==> spec.env.Some? && forall k :: k in r.value ==> k in spec.env.value && spec.env.value[k] == r.value[k]
    ensures r.Ok? ==> spec.env.Some?
                      && spec.env.value.Keys == (if old(spec.env).Some? then old(spec.env).value.Keys else {}) + r.value.Keys
    ensures r.Ok? && old(spec.env).Some? ==>
              forall k :: k in old(spec.env).value && k !in r.value ==>
                k in spec.env.value && spec.env.value[k] == old(spec.env).value[k]
  {
    var parsed := ParseArgv(argv, environ);
    if parsed.Err? {
      return Err(parsed.error);
    }
    var (_, vars) := parsed.value;
    spec.MergeEnv(vars);
    return Ok(vars);
  }
}

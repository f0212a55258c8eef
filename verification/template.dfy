/** The template evaluator of `src/js/utils.js`: a configured value may contain
    `{{command}}` placeholders that are replaced, one at a time, by values taken
    from the request being rewritten. */
module Template {
  import opened Common
  import opened Text

  /** The parts of the request URL that the URL parser (not part of this model) yields. */
  datatype UrlParts = UrlParts(origin: string, hostname: string, pathname: string)

  /** What a placeholder can read. `parsedUrl` is `None` when the URL parser throws;
      `uuid` and `timestamp` stand for the random generator and the clock. */
  datatype Env = Env(
    url: string,
    parsedUrl: Option<UrlParts>,
    oldValue: string,
    uuid: string,
    timestamp: nat)

  /** The result of evaluating a template: its final text, the URL parser's
      exception, or the substitution budget running out (the source recurses
      without a bound). */
  datatype Evaluation = Done(value: string) | UrlError | FuelExhausted

  /** No value the environment can substitute contains an opening brace. */
  predicate SafeEnv(env: Env) {
    && '{' !in env.url
    && '{' !in env.oldValue
    && '{' !in env.uuid
    && (env.parsedUrl.Some? ==>
          && '{' !in env.parsedUrl.value.origin
          && '{' !in env.parsedUrl.value.hostname
          && '{' !in env.parsedUrl.value.pathname)
  }

  predicate IsUrlCommand(command: string) {
    command == "url_origin" || command == "url_hostname" || command == "url_path"
  }

  /** `getDynamicValue`: the text a command stands for; `None` when the URL
      parser throws. Unknown commands, the empty one included, yield "". */
  function DynamicValue(command: string, env: Env): (r: Option<string>)
    ensures r.None? <==> IsUrlCommand(command) && env.parsedUrl.None?
    ensures SafeEnv(env) && r.Some? ==> '{' !in r.value
  {
    match command
    case "uuid" => Some(env.uuid)
    case "url" => Some(env.url)
    case "url_origin" => if env.parsedUrl.Some? then Some(env.parsedUrl.value.origin) else None
    case "url_hostname" => if env.parsedUrl.Some? then Some(env.parsedUrl.value.hostname) else None
    case "url_path" => if env.parsedUrl.Some? then Some(env.parsedUrl.value.pathname) else None
    case "existing_value" => Some(env.oldValue)
    case "timestamp" => Some(Decimal(env.timestamp))
    case _ => Some("")
  }

  /** The placeholder the evaluator substitutes next: `i` is the first `{{`,
      `j` the first `}}`, and `j` lies after `i`. */
  ghost predicate Placeholder(value: string, i: int, j: int) {
    && Occurs(value, "{{", i)
    && Occurs(value, "}}", j)
    && i < j
    && (forall k :: 0 <= k < i ==> !Occurs(value, "{{", k))
    && (forall k :: 0 <= k < j ==> !Occurs(value, "}}", k))
  }

  /** What one call of `evaluateValue` finds: nothing to substitute, the text
      after substituting the first placeholder, or the URL parser's exception. */
  datatype StepResult = NoPlaceholder | Substituted(next: string) | StepUrlError

  /** The body of `evaluateValue` up to its recursive call. It raises the URL error only
      when the URL cannot be parsed, and finds nothing in a value without `{`; `StepAt`
      says which placeholder it substitutes. */
  function Step(value: string, env: Env): (r: StepResult)
    ensures r.StepUrlError? ==> env.parsedUrl.None?
    ensures '{' !in value ==> r.NoPlaceholder?
  {
    var start := IndexOf(value, "{{");
    if value != [] && start >= 0 then
      var end := IndexOf(value, "}}");
      IndexOfFirst(value, "{{");
      IndexOfFirst(value, "}}");
      if end > start then
        assert value[start + 1] == '{' && value[end] == '}' by {
          assert value[start..start + 2][1] == '{';
          assert value[end..end + 2][0] == '}';
        }
        match DynamicValue(value[start + 2..end], env)
        case None => StepUrlError
        case Some(sub) => Substituted(value[..start] + sub + value[end + 2..])
      else NoPlaceholder
    else NoPlaceholder
  }

  /** The first placeholder is the one substituted: the text before it and after
      it is kept verbatim. */
  lemma StepAt(value: string, env: Env, i: int, j: int)
    requires Placeholder(value, i, j)
    ensures i + 2 <= j
    ensures Step(value, env) ==
      match DynamicValue(value[i + 2..j], env)
      case None => StepUrlError
      case Some(sub) => Substituted(value[..i] + sub + value[j + 2..])
  {
    assert value[i..i + 2][1] == '{' && value[j..j + 2][0] == '}';
    IndexOfFirst(value, "{{");
    IndexOfFirst(value, "}}");
    assert IndexOf(value, "{{") == i;
    assert IndexOf(value, "}}") == j;
  }

  /** `Step` finds nothing exactly when the value holds no placeholder. */
  lemma StepFindsPlaceholder(value: string, env: Env)
    ensures Step(value, env).NoPlaceholder? <==> forall i, j :: !Placeholder(value, i, j)
  {
    var start := IndexOf(value, "{{");
    var end := IndexOf(value, "}}");
    IndexOfFirst(value, "{{");
    IndexOfFirst(value, "}}");
    if value != [] && start >= 0 && end > start {
      assert Placeholder(value, start, end);
      StepAt(value, env, start, end);
    } else {
      forall i, j | Placeholder(value, i, j) ensures false {
      }
    }
  }

  /** `evaluateValue`, allowed at most `fuel` substitutions. */
  function EvaluateValue(value: string, env: Env, fuel: nat): (r: Evaluation)
    ensures r.Done? ==> Step(r.value, env).NoPlaceholder?
    decreases fuel
  {
    match Step(value, env)
    case NoPlaceholder => Done(value)
    case StepUrlError => if fuel == 0 then FuelExhausted else UrlError
    case Substituted(next) => if fuel == 0 then FuelExhausted else EvaluateValue(next, env, fuel - 1)
  }

  /** Evaluation stops only on a value that holds no placeholder. */
  lemma DoneHasNoPlaceholder(value: string, env: Env, fuel: nat)
    requires EvaluateValue(value, env, fuel).Done?
    ensures forall i, j :: !Placeholder(EvaluateValue(value, env, fuel).value, i, j)
  {
    StepFindsPlaceholder(EvaluateValue(value, env, fuel).value, env);
  }

  /** One substitution: evaluating a value with a placeholder is evaluating the
      text the placeholder's command produces in its place. */
  lemma EvaluateStep(value: string, env: Env, fuel: nat, i: int, j: int)
    requires Placeholder(value, i, j)
    requires fuel > 0
    ensures i + 2 <= j
    ensures EvaluateValue(value, env, fuel) ==
      match DynamicValue(value[i + 2..j], env)
      case None => UrlError
      case Some(sub) => EvaluateValue(value[..i] + sub + value[j + 2..], env, fuel - 1)
  {
    StepAt(value, env, i, j);
  }

  /** A value without a placeholder to substitute is returned unchanged, whatever the budget. */
  lemma EvaluateUnchanged(value: string, env: Env, fuel: nat)
    requires forall i, j :: !Placeholder(value, i, j)
    ensures EvaluateValue(value, env, fuel) == Done(value)
  {
    StepFindsPlaceholder(value, env);
  }

  /** A value with no `{{` at all is returned unchanged. */
  lemma NoOpeningUnchanged(value: string, env: Env, fuel: nat)
    requires forall k :: !Occurs(value, "{{", k)
    ensures EvaluateValue(value, env, fuel) == Done(value)
  {
    EvaluateUnchanged(value, env, fuel);
  }

  /** When the first `}}` comes before the first `{{`, nothing is substituted,
      even if a later `}}` closes that `{{`. */
  lemma CloseBeforeOpenUnchanged(value: string, env: Env, fuel: nat, c: int)
    requires Occurs(value, "}}", c)
    requires forall k :: 0 <= k < c ==> !Occurs(value, "{{", k)
    ensures EvaluateValue(value, env, fuel) == Done(value)
  {
    forall i, j | Placeholder(value, i, j) ensures false {
    }
    EvaluateUnchanged(value, env, fuel);
  }

  /** The same step on a value cut at its first placeholder: when the prefix holds
      no brace and the command no `}`, the command's text replaces the placeholder. */
  lemma StepDecomposed(prefix: string, command: string, suffix: string, env: Env)
    requires '{' !in prefix && '}' !in prefix && '}' !in command
    ensures Step(prefix + "{{" + command + "}}" + suffix, env) ==
      match DynamicValue(command, env)
      case None => StepUrlError
      case Some(sub) => Substituted(prefix + sub + suffix)
  {
    var value := prefix + "{{" + command + "}}" + suffix;
    var i, j := |prefix|, |prefix| + 2 + |command|;
    assert value[i..i + 2] == "{{" && value[j..j + 2] == "}}";
    forall k | 0 <= k < i ensures !Occurs(value, "{{", k) {
      assert value[k] == prefix[k];
    }
    forall k | 0 <= k < j ensures !Occurs(value, "}}", k) {
      if k < i {
        assert value[k] == prefix[k];
      } else if k > i + 1 {
        assert value[k] == command[k - i - 2];
      } else {
        assert value[k] == '{';
      }
    }
    assert Placeholder(value, i, j);
    StepAt(value, env, i, j);
    assert value[i + 2..j] == command;
    assert value[..i] == prefix && value[j + 2..] == suffix;
  }

  /** A value without any `{` is returned unchanged. */
  lemma NoBraceUnchanged(value: string, env: Env, fuel: nat)
    requires '{' !in value
    ensures EvaluateValue(value, env, fuel) == Done(value)
  {
    forall k ensures !Occurs(value, "{{", k) {
      if 0 <= k && k + 2 <= |value| {
        assert value[k..k + 2][0] == value[k];
      }
    }
    NoOpeningUnchanged(value, env, fuel);
  }

  /** A placeholder holds two `{`; with no `{` in any substituted value, a
      substitution removes them and adds none. */
  lemma StepRemovesBraces(value: string, env: Env)
    requires !Step(value, env).NoPlaceholder?
    ensures multiset(value)['{'] >= 2
    ensures SafeEnv(env) && Step(value, env).Substituted? ==>
      multiset(Step(value, env).next)['{'] + 2 <= multiset(value)['{']
  {
    var start := IndexOf(value, "{{");
    var end := IndexOf(value, "}}");
    IndexOfFirst(value, "{{");
    IndexOfFirst(value, "}}");
    assert Placeholder(value, start, end);
    StepAt(value, env, start, end);
    BraceCount(value, start, end);
    var sub := DynamicValue(value[start + 2..end], env);
    if SafeEnv(env) && sub.Some? {
      var next := value[..start] + sub.value + value[end + 2..];
      assert Step(value, env).next == next;
      assert multiset(next) == multiset(value[..start]) + multiset(sub.value) + multiset(value[end + 2..]);
      assert multiset(sub.value)['{'] == 0;
    }
  }

  /** Cutting a placeholder `{{...}}` out of a value removes at least two `{`. */
  lemma BraceCount(value: string, i: int, j: int)
    requires 0 <= i && i + 2 <= j && j + 2 <= |value|
    requires value[i..i + 2] == "{{"
    ensures multiset(value)['{'] >= multiset(value[..i])['{'] + 2 + multiset(value[j + 2..])['{']
  {
    var middle := value[i..j + 2];
    assert value == value[..i] + middle + value[j + 2..];
    assert middle == [value[i], value[i + 1]] + value[i + 2..j + 2];
    assert value[i] == value[i..i + 2][0] && value[i + 1] == value[i..i + 2][1];
  }

  /** Hence the evaluation ends within half as many substitutions as the value has `{`
      (rounded down). */
  lemma {:induction false} SafeEvaluationTerminates(value: string, env: Env, fuel: nat)
    requires SafeEnv(env)
    requires 2 * fuel + 1 >= multiset(value)['{']
    ensures !EvaluateValue(value, env, fuel).FuelExhausted?
    decreases fuel
  {
    var st := Step(value, env);
    if !st.NoPlaceholder? {
      StepRemovesBraces(value, env);
      assert fuel > 0;
      if st.Substituted? {
        SafeEvaluationTerminates(st.next, env, fuel - 1);
        assert EvaluateValue(value, env, fuel) == EvaluateValue(st.next, env, fuel - 1);
      }
    }
  }

  /** Once the budget suffices, a larger one gives the same outcome: the bounded
      evaluator agrees with the unbounded recursion of the source. */
  lemma {:induction false} EvaluationFuelIndependent(value: string, env: Env, fuel: nat, more: nat)
    requires !EvaluateValue(value, env, fuel).FuelExhausted?
    requires fuel <= more
    ensures EvaluateValue(value, env, more) == EvaluateValue(value, env, fuel)
    decreases fuel
  {
    match Step(value, env)
    case NoPlaceholder =>
    case StepUrlError =>
    case Substituted(next) =>
      EvaluationFuelIndependent(next, env, fuel - 1, more - 1);
  }

  lemma SelfReproducingStep(command: string, env: Env)
    requires '}' !in command
    requires DynamicValue(command, env) == Some("{{" + command + "}}")
    ensures Step("{{" + command + "}}", env) == Substituted("{{" + command + "}}")
  {
    var value := "{{" + command + "}}";
    var st := Step("" + "{{" + command + "}}" + "", env);
    StepDecomposed("", command, "", env);
    assert st == Substituted("" + value + "");
    assert "" + "{{" + command + "}}" + "" == value;
    assert "" + value + "" == value;
  }

  /** A placeholder whose command yields the placeholder itself is substituted
      forever: no budget is enough. */
  lemma {:induction false} SelfReproducingDiverges(command: string, env: Env, fuel: nat)
    requires '}' !in command
    requires DynamicValue(command, env) == Some("{{" + command + "}}")
    ensures EvaluateValue("{{" + command + "}}", env, fuel) == FuelExhausted
    decreases fuel
  {
    SelfReproducingStep(command, env);
    if fuel > 0 {
      SelfReproducingDiverges(command, env, fuel - 1);
    }
  }

  /** So an existing value `{{existing_value}}` makes the evaluation run forever. */
  lemma SelfReferenceDiverges(env: Env, fuel: nat)
    requires env.oldValue == "{{existing_value}}"
    ensures EvaluateValue(env.oldValue, env, fuel) == FuelExhausted
  {
    assert env.oldValue == "{{" + "existing_value" + "}}";
    SelfReproducingDiverges("existing_value", env, fuel);
  }

  /** A `{{uuid}}` placeholder after a brace-free prefix becomes the generated
      identifier; with the identifier `'test-uuid'`, `'foo-{{uuid}}'` gives `'foo-test-uuid'`. */
  lemma UuidExample(prefix: string, env: Env, fuel: nat)
    requires '{' !in prefix && '}' !in prefix && '{' !in env.uuid
    requires fuel >= 1
    ensures EvaluateValue(prefix + "{{uuid}}", env, fuel) == Done(prefix + env.uuid)
  {
    assert prefix + "{{uuid}}" == prefix + "{{" + "uuid" + "}}" + "";
    StepDecomposed(prefix, "uuid", "", env);
    assert prefix + env.uuid + "" == prefix + env.uuid;
    NoBraceUnchanged(prefix + env.uuid, env, fuel - 1);
  }

  /** A `{{url_path}}` placeholder after a brace-free prefix becomes the URL's path;
      `'https://modheader.com{{url_path}}'` for a URL with path `/test` gives
      `'https://modheader.com/test'`. */
  lemma UrlPathExample(prefix: string, env: Env, fuel: nat)
    requires '{' !in prefix && '}' !in prefix
    requires env.parsedUrl.Some? && '{' !in env.parsedUrl.value.pathname
    requires fuel >= 1
    ensures EvaluateValue(prefix + "{{url_path}}", env, fuel) == Done(prefix + env.parsedUrl.value.pathname)
  {
    assert prefix + "{{url_path}}" == prefix + "{{" + "url_path" + "}}" + "";
    StepDecomposed(prefix, "url_path", "", env);
    assert prefix + env.parsedUrl.value.pathname + "" == prefix + env.parsedUrl.value.pathname;
    NoBraceUnchanged(prefix + env.parsedUrl.value.pathname, env, fuel - 1);
  }

  /** `existing_value` is the header's current value, `url` the request URL,
      and an unknown command (the empty `{{}}` too) is replaced by nothing. */
  lemma CommandValues(env: Env, command: string)
    ensures DynamicValue("existing_value", env) == Some(env.oldValue)
    ensures DynamicValue("url", env) == Some(env.url)
    ensures DynamicValue("uuid", env) == Some(env.uuid)
    ensures DynamicValue("timestamp", env) == Some(Decimal(env.timestamp))
    ensures command !in {"uuid", "url", "url_origin", "url_hostname", "url_path", "existing_value", "timestamp"}
      ==> DynamicValue(command, env) == Some("")
  {
  }
}

/** `WebDriverFactory._set_up`: the argument list and the keyword arguments a
    driver is built from. */
module Factory {
  import opened Wrappers
  import opened Text
  import opened Values
  import opened Constants
  import opened Managers

  const PROFILE: string := "profile"
  const LOCAL_STORAGE: string := "localstorage"
  const EXPERIMENTAL_OPTIONS: string := "experimental_options"
  const COMMAND_EXECUTOR: string := "command_executor"
  const QUIT_ON_FAILURE: string := "quit_on_failure"
  const TIMEOUT: string := "timeout"
  const PROFILE_DIRECTORY: string := "--profile-directory"

  /** The experimental options every chrome-family driver is given. */
  const FORCED_EXPERIMENTAL: Entries :=
    [("excludeSwitches", List([Str("enable-automation")])), ("useAutomationExtension", Bool(false))]

  /** The default flags of a browser family, as arguments. */
  function DefaultFlags(family: string): (r: seq<Arg>)
    requires family in DEFAULT_ARGUMENTS
    ensures |r| == |DEFAULT_ARGUMENTS[family]|
    ensures forall i :: 0 <= i < |r| ==> r[i] == Flag(DEFAULT_ARGUMENTS[family][i])
  {
    seq(|DEFAULT_ARGUMENTS[family]|, i requires 0 <= i < |DEFAULT_ARGUMENTS[family]| => Flag(DEFAULT_ARGUMENTS[family][i]))
  }

  /** The argument list after the defaults: for a family with defaults,
      `arguments or []` extended with them; otherwise as given (`None`
      stays `None`). */
  function WithDefaults(browser: string, arguments: Option<seq<Arg>>): Option<seq<Arg>>
  {
    var family := BeforeFirst(browser, '_');
    if family in DEFAULT_ARGUMENTS then Some(arguments.GetOr([]) + DefaultFlags(family)) else arguments
  }

  /** The keyword arguments after the executor default: a remote id without
      `command_executor` gets the local hub. */
  function WithExecutor(browser: string, kwargs: Entries): Entries
  {
    if Contains("remote", browser) && !HasKey(kwargs, COMMAND_EXECUTOR)
    then Assign(kwargs, COMMAND_EXECUTOR, Str(DEFAULT_COMMAND_EXECUTOR))
    else kwargs
  }

  /** The flags made from the `profile` and `localstorage` keyword arguments. */
  function ProfileFlags(kwargs: Entries): seq<Arg>
  {
    (match Lookup(kwargs, PROFILE)
     case Some(v) => [Flag(FlagText(PROFILE_DIRECTORY, Render(v)))]
     case None => [])
    + (match Lookup(kwargs, LOCAL_STORAGE)
       case Some(v) => [Flag(FlagText(USER_DATA_DIR, Render(v)))]
       case None => [])
  }

  /** The keyword arguments `_set_up` pops, besides the chrome-only ones. */
  function WithoutDriverKeys(kwargs: Entries): Entries
  {
    Remove(Remove(kwargs, QUIT_ON_FAILURE), TIMEOUT)
  }

  /** What `_set_up` returns besides the id and the class properties: the
      argument list (`None` when the caller gave none and nothing was added)
      and the keyword arguments. Appending to a missing list and calling
      `update` on experimental options that are not a dict are both an
      `AttributeError`. */
  function SetUpResult(browser: string, arguments: Option<seq<Arg>>, kwargs: Entries): Result<(Option<seq<Arg>>, Entries)>
  {
    var args := WithDefaults(browser, arguments);
    var kw := WithExecutor(browser, kwargs);
    if !Contains("chrome", browser) then Ok((args, WithoutDriverKeys(kw)))
    else
      var experimental := Lookup(kw, EXPERIMENTAL_OPTIONS).GetOr(Dict([]));
      if args.None? || !experimental.Dict? then Err(AttributeError)
      else
        var popped := Remove(Remove(Remove(kw, PROFILE), LOCAL_STORAGE), EXPERIMENTAL_OPTIONS);
        Ok((Some(args.value + ProfileFlags(kw) + [Exp(Update(experimental.entries, FORCED_EXPERIMENTAL))]),
            WithoutDriverKeys(popped)))
  }

  /** Only a chrome id can fail, and only with `AttributeError`. */
  lemma SetUpResultFailure(browser: string, arguments: Option<seq<Arg>>, kwargs: Entries)
    ensures !Contains("chrome", browser) ==> SetUpResult(browser, arguments, kwargs).Ok?
    ensures SetUpResult(browser, arguments, kwargs).Err? ==> SetUpResult(browser, arguments, kwargs).error == AttributeError
  {
  }

  /** A success keeps the caller's list as a prefix and, for chrome, ends the
      list with the dict of experimental options. */
  lemma SetUpResultList(browser: string, arguments: Option<seq<Arg>>, kwargs: Entries)
    ensures var r := SetUpResult(browser, arguments, kwargs);
      && (r.Ok? && arguments.Some? ==> r.value.0.Some? && arguments.value <= r.value.0.value)
      && (r.Ok? && Contains("chrome", browser)
          ==> r.value.0.Some? && |r.value.0.value| > 0 && r.value.0.value[|r.value.0.value| - 1].Exp?)
  {
    var args := WithDefaults(browser, arguments);
    assert arguments.Some? ==> args.Some? && arguments.value <= args.value;
    if Contains("chrome", browser) {
      var kw := WithExecutor(browser, kwargs);
      var experimental := Lookup(kw, EXPERIMENTAL_OPTIONS).GetOr(Dict([]));
      if args.Some? && experimental.Dict? {
        var full := args.value + ProfileFlags(kw) + [Exp(Update(experimental.entries, FORCED_EXPERIMENTAL))];
        assert SetUpResult(browser, arguments, kwargs).value.0 == Some(full);
        assert args.value <= full;
      }
    }
  }

  /** The executor default touches no other key. */
  lemma WithExecutorLookup(browser: string, kwargs: Entries, k: string)
    ensures Lookup(WithExecutor(browser, kwargs), k) ==
      if k == COMMAND_EXECUTOR && Contains("remote", browser) && !HasKey(kwargs, COMMAND_EXECUTOR)
      then Some(Str(DEFAULT_COMMAND_EXECUTOR))
      else Lookup(kwargs, k)
  {
    if Contains("remote", browser) && !HasKey(kwargs, COMMAND_EXECUTOR) {
      AssignLookup(kwargs, COMMAND_EXECUTOR, Str(DEFAULT_COMMAND_EXECUTOR), k);
    }
  }

  /** An id of the chrome family mentions chrome. */
  lemma ChromeFamilyMentionsChrome(browser: string)
    requires BeforeFirst(browser, '_') == "chrome"
    ensures Contains("chrome", browser)
  {
    assert OccursAt("chrome", browser, 0);
  }

  /** For a chrome-family id the argument list is, in order: the caller's
      arguments, chrome's defaults, the optional profile and user-data
      flags, and one dict of experimental options. */
  lemma SetUpChromeArguments(browser: string, arguments: Option<seq<Arg>>, kwargs: Entries)
    requires BeforeFirst(browser, '_') == "chrome"
    requires !HasKey(kwargs, EXPERIMENTAL_OPTIONS) || Lookup(kwargs, EXPERIMENTAL_OPTIONS).value.Dict?
    ensures var r := SetUpResult(browser, arguments, kwargs);
      && r.Ok? && r.value.0.Some?
      && var args := r.value.0.value;
      && |args| > 0 && args[|args| - 1].Exp?
      && args[..|args| - 1] == arguments.GetOr([]) + DefaultFlags("chrome") + ProfileFlags(kwargs)
  {
    ChromeFamilyMentionsChrome(browser);
    var kw := WithExecutor(browser, kwargs);
    WithExecutorLookup(browser, kwargs, EXPERIMENTAL_OPTIONS);
    WithExecutorLookup(browser, kwargs, PROFILE);
    WithExecutorLookup(browser, kwargs, LOCAL_STORAGE);
    assert ProfileFlags(kw) == ProfileFlags(kwargs);
    var args := SetUpResult(browser, arguments, kwargs).value.0.value;
    assert args[..|args| - 1] == arguments.GetOr([]) + DefaultFlags("chrome") + ProfileFlags(kwargs);
  }

  /** The forced experimental options override the caller's; every other
      experimental option reads as the caller gave it. */
  lemma SetUpForcedExperimental(browser: string, arguments: Option<seq<Arg>>, kwargs: Entries, k: string)
    requires Contains("chrome", browser)
    requires SetUpResult(browser, arguments, kwargs).Ok?
    ensures var args := SetUpResult(browser, arguments, kwargs).value.0.value;
      && |args| > 0 && args[|args| - 1].Exp?
      && var callers := Lookup(kwargs, EXPERIMENTAL_OPTIONS).GetOr(Dict([]));
      && callers.Dict?
      && Lookup(args[|args| - 1].options, k) ==
           if k == "excludeSwitches" then Some(List([Str("enable-automation")]))
           else if k == "useAutomationExtension" then Some(Bool(false))
           else Lookup(callers.entries, k)
  {
    var kw := WithExecutor(browser, kwargs);
    WithExecutorLookup(browser, kwargs, EXPERIMENTAL_OPTIONS);
    var experimental := Lookup(kwargs, EXPERIMENTAL_OPTIONS).GetOr(Dict([]));
    assert Lookup(kw, EXPERIMENTAL_OPTIONS).GetOr(Dict([])) == experimental;
    var r := SetUpResult(browser, arguments, kwargs);
    var args := r.value.0.value;
    var given := WithDefaults(browser, arguments).value;
    assert args == given + ProfileFlags(kw) + [Exp(Update(experimental.entries, FORCED_EXPERIMENTAL))];
    assert args[|args| - 1] == Exp(Update(experimental.entries, FORCED_EXPERIMENTAL));
    assert DistinctKeys(FORCED_EXPERIMENTAL);
    UpdateLookup(experimental.entries, FORCED_EXPERIMENTAL, k);
    assert HasKey(FORCED_EXPERIMENTAL, "excludeSwitches") by { assert FORCED_EXPERIMENTAL[0].0 == "excludeSwitches"; }
    assert HasKey(FORCED_EXPERIMENTAL, "useAutomationExtension") by { assert FORCED_EXPERIMENTAL[1].0 == "useAutomationExtension"; }
  }

  /** The keyword arguments `_set_up` returns: `quit_on_failure` and
      `timeout` are gone, and for a chrome id so are `profile`,
      `localstorage` and `experimental_options`; a remote id has a
      `command_executor`, its own or the local hub; every other key reads
      as the caller gave it. */
  lemma SetUpKwargs(browser: string, arguments: Option<seq<Arg>>, kwargs: Entries, k: string)
    requires SetUpResult(browser, arguments, kwargs).Ok?
    ensures Lookup(SetUpResult(browser, arguments, kwargs).value.1, k) ==
      if k == QUIT_ON_FAILURE || k == TIMEOUT then None
      else if Contains("chrome", browser) && (k == PROFILE || k == LOCAL_STORAGE || k == EXPERIMENTAL_OPTIONS) then None
      else if k == COMMAND_EXECUTOR && Contains("remote", browser) && !HasKey(kwargs, COMMAND_EXECUTOR)
      then Some(Str(DEFAULT_COMMAND_EXECUTOR))
      else Lookup(kwargs, k)
  {
    var kw := WithExecutor(browser, kwargs);
    WithExecutorLookup(browser, kwargs, k);
    var source := kw;
    if Contains("chrome", browser) {
      source := Remove(Remove(Remove(kw, PROFILE), LOCAL_STORAGE), EXPERIMENTAL_OPTIONS);
      RemoveLookup(kw, PROFILE, k);
      RemoveLookup(Remove(kw, PROFILE), LOCAL_STORAGE, k);
      RemoveLookup(Remove(Remove(kw, PROFILE), LOCAL_STORAGE), EXPERIMENTAL_OPTIONS, k);
    }
    RemoveLookup(source, QUIT_ON_FAILURE, k);
    RemoveLookup(Remove(source, QUIT_ON_FAILURE), TIMEOUT, k);
  }

  /** A chrome id outside the families with defaults (`remote_chrome`, say)
      and no caller's list fails on the first append. */
  lemma SetUpWithoutList(browser: string, kwargs: Entries)
    requires Contains("chrome", browser) && BeforeFirst(browser, '_') !in DEFAULT_ARGUMENTS
    ensures SetUpResult(browser, None, kwargs) == Err(AttributeError)
  {
  }

  /** Ids outside the chrome family keep their arguments: `firefox` has no
      defaults, and its dict arguments are not touched. */
  lemma SetUpFirefox(arguments: Option<seq<Arg>>, kwargs: Entries)
    ensures SetUpResult("firefox", arguments, kwargs) == Ok((arguments, WithoutDriverKeys(kwargs)))
  {
    AbsentChar("chrome", "firefox", 0);
    AbsentChar("remote", "firefox", 2);
    assert BeforeFirst("firefox", '_') == "firefox";
  }

  /** The defaults step of `_set_up`. */
  method ExtendWithDefaults(browser: string, arguments: ArgList?) returns (args: ArgList?)
    modifies arguments
    ensures var given := if arguments == null then None else Some(old(arguments.items));
      && (args == null <==> WithDefaults(browser, given).None?)
      && (args != null ==> args.items == WithDefaults(browser, given).value)
    ensures arguments != null && (old(arguments.items) != [] || BeforeFirst(browser, '_') !in DEFAULT_ARGUMENTS)
      ==> args == arguments
    ensures args != arguments ==> args != null && fresh(args)
    ensures arguments != null && old(arguments.items) == [] && BeforeFirst(browser, '_') in DEFAULT_ARGUMENTS
      ==> args != arguments
    ensures arguments != null && args != arguments ==> arguments.items == old(arguments.items)
  {
    args := arguments;
    var family := BeforeFirst(browser, '_');
    if family in DEFAULT_ARGUMENTS {
      if args == null || args.items == [] {
        args := new ArgList([]);
      }
      args.items := args.items + DefaultFlags(family);
    }
  }

  /** The profile part of `_set_up`'s chrome step: a flag for each of
      `profile` and `localstorage`, each popped from the keyword arguments. */
  method AddProfileFlags(args: ArgList?, kw: Entries) returns (r: Result<Entries>)
    modifies args
    ensures r.Err? <==> args == null && ProfileFlags(kw) != []
    ensures r.Err? ==> r.error == AttributeError
    ensures r.Ok? && args != null ==> args.items == old(args.items) + ProfileFlags(kw)
    ensures r.Ok? ==> r.value == Remove(Remove(kw, PROFILE), LOCAL_STORAGE)
  {
    var popped := kw;
    var profile := Lookup(popped, PROFILE);
    if profile.Some? {
      if args == null {
        return Err(AttributeError);
      }
      args.items := args.items + [Flag(FlagText(PROFILE_DIRECTORY, Render(profile.value)))];
      popped := Remove(popped, PROFILE);
    }
    RemoveLookup(kw, PROFILE, LOCAL_STORAGE);
    var localStorage := Lookup(popped, LOCAL_STORAGE);
    if localStorage.Some? {
      if args == null {
        return Err(AttributeError);
      }
      args.items := args.items + [Flag(FlagText(USER_DATA_DIR, Render(localStorage.value)))];
      popped := Remove(popped, LOCAL_STORAGE);
    }
    r := Ok(popped);
  }

  /** The chrome step of `_set_up`: the profile and user-data flags, then
      the experimental options with the forced ones, each popped from the
      keyword arguments. */
  method AddChromeArguments(args: ArgList?, kw: Entries) returns (r: Result<Entries>)
    modifies args
    ensures var experimental := Lookup(kw, EXPERIMENTAL_OPTIONS).GetOr(Dict([]));
      && (r.Err? <==> args == null || !experimental.Dict?)
      && (r.Err? ==> r.error == AttributeError)
      && (r.Err? && args != null ==> args.items == old(args.items) + ProfileFlags(kw))
      && (r.Ok? ==>
            && args != null
            && args.items == old(args.items) + ProfileFlags(kw) + [Exp(Update(experimental.entries, FORCED_EXPERIMENTAL))]
            && r.value == Remove(Remove(Remove(kw, PROFILE), LOCAL_STORAGE), EXPERIMENTAL_OPTIONS))
  {
    var popped := AddProfileFlags(args, kw);
    if popped.Err? {
      return popped;
    }
    RemoveLookup(kw, PROFILE, EXPERIMENTAL_OPTIONS);
    RemoveLookup(Remove(kw, PROFILE), LOCAL_STORAGE, EXPERIMENTAL_OPTIONS);
    var experimental := Lookup(popped.value, EXPERIMENTAL_OPTIONS).GetOr(Dict([]));
    var rest := Remove(popped.value, EXPERIMENTAL_OPTIONS);
    if !experimental.Dict? {
      return Err(AttributeError);
    }
    var forced := Update(experimental.entries, FORCED_EXPERIMENTAL);
    if args == null {
      return Err(AttributeError);
    }
    args.items := args.items + [Exp(forced)];
    r := Ok(rest);
  }

  /** `_set_up`. `arguments` is the caller's list (`null` for `None`); it is
      extended in place unless it is empty or missing and the id's family
      has defaults, in which case `arguments or []` makes a new list and the
      caller's stays as it was. A failure comes after the defaults and the
      profile flags have already been added to the list. */
  method SetUp(browser: string, arguments: ArgList?, kwargs: Entries) returns (r: Result<(ArgList?, Entries)>)
    modifies arguments
    ensures var spec := SetUpResult(browser, if arguments == null then None else Some(old(arguments.items)), kwargs);
      && (r.Err? <==> spec.Err?)
      && (r.Err? ==> r.error == spec.error)
      && (r.Ok? ==>
            && r.value.1 == spec.value.1
            && (r.value.0 == null <==> spec.value.0.None?)
            && (r.value.0 != null ==> r.value.0.items == spec.value.0.value))
    ensures r.Ok? && arguments != null && (old(arguments.items) != [] || BeforeFirst(browser, '_') !in DEFAULT_ARGUMENTS)
      ==> r.value.0 == arguments
    ensures r.Err? && arguments != null && (old(arguments.items) != [] || BeforeFirst(browser, '_') !in DEFAULT_ARGUMENTS)
      ==> arguments.items == WithDefaults(browser, Some(old(arguments.items))).value + ProfileFlags(WithExecutor(browser, kwargs))
    ensures arguments != null && old(arguments.items) == [] && BeforeFirst(browser, '_') in DEFAULT_ARGUMENTS
      ==> arguments.items == []
  {
    ghost var initial := if arguments == null then [] else arguments.items;
    var args := ExtendWithDefaults(browser, arguments);
    ghost var inPlace := arguments != null && (initial != [] || BeforeFirst(browser, '_') !in DEFAULT_ARGUMENTS);
    assert inPlace ==> args == arguments && args.items == WithDefaults(browser, Some(initial)).value;
    assert !inPlace && arguments != null ==> args != arguments && arguments.items == [];
    var kw := kwargs;
    if Contains("remote", browser) && !HasKey(kw, COMMAND_EXECUTOR) {
      kw := Assign(kw, COMMAND_EXECUTOR, Str(DEFAULT_COMMAND_EXECUTOR));
    }
    assert kw == WithExecutor(browser, kwargs);
    if Contains("chrome", browser) {
      var popped := AddChromeArguments(args, kw);
      if popped.Err? {
        assert inPlace ==> arguments.items == WithDefaults(browser, Some(initial)).value + ProfileFlags(kw);
        return Err(popped.error);
      }
      kw := popped.value;
    }
    kw := Remove(kw, QUIT_ON_FAILURE);
    kw := Remove(kw, TIMEOUT);
    r := Ok((args, kw));
  }
}

/** Driver configuration: how the argument list, the options object and the
    service of a web driver are put together before the driver starts. */
module Managers {
  import opened Wrappers
  import opened Text
  import opened Values
  import opened Constants
  import opened Data

  /** An element of an argument list: a command-line flag, or a dict of
      experimental options. */
  datatype Arg = Flag(flag: string) | Exp(options: Entries)

  /** A call the options object received. */
  datatype Call =
    | AddArgumentCall(argument: string)
    | AddExperimentalCall(name: string, value: Value)
    | AddExtensionCall(extension: string)
    | SetCapabilityCall(name: string, value: Value)

  /** A Selenium options object. An options class without `add_argument`
      (or without `add_experimental_option`) makes `getattr` raise
      `AttributeError`; the two `supports` flags say which methods the class
      has. */
  class Options {
    const supportsArguments: bool
    const supportsExperimental: bool
    var arguments: seq<string>
    var experimental: Entries
    var extensions: seq<string>
    var capabilities: Entries
    /** Every call that changed the object, in order. */
    ghost var calls: seq<Call>

    /** A fresh options object: nothing added yet. */
    constructor (supportsArguments: bool, supportsExperimental: bool)
      ensures this.supportsArguments == supportsArguments && this.supportsExperimental == supportsExperimental
      ensures arguments == [] && experimental == [] && extensions == [] && capabilities == [] && calls == []
    {
      this.supportsArguments := supportsArguments;
      this.supportsExperimental := supportsExperimental;
      arguments, experimental, extensions, capabilities := [], [], [], [];
      calls := [];
    }

    /** `getattr(option, 'add_argument')(argument)`; `raised` when the class has no such method. */
    method AddArgument(argument: string) returns (raised: bool)
      modifies this
      ensures raised == !supportsArguments
      ensures arguments == old(arguments) + (if raised then [] else [argument])
      ensures calls == old(calls) + (if raised then [] else [AddArgumentCall(argument)])
      ensures experimental == old(experimental) && extensions == old(extensions) && capabilities == old(capabilities)
    {
      raised := !supportsArguments;
      if !raised {
        arguments := arguments + [argument];
        calls := calls + [AddArgumentCall(argument)];
      }
    }

    /** `getattr(option, 'add_experimental_option')(name, value)`. */
    method AddExperimentalOption(name: string, value: Value) returns (raised: bool)
      modifies this
      ensures raised == !supportsExperimental
      ensures experimental == if raised then old(experimental) else Assign(old(experimental), name, value)
      ensures calls == old(calls) + (if raised then [] else [AddExperimentalCall(name, value)])
      ensures arguments == old(arguments) && extensions == old(extensions) && capabilities == old(capabilities)
    {
      raised := !supportsExperimental;
      if !raised {
        experimental := Assign(experimental, name, value);
        calls := calls + [AddExperimentalCall(name, value)];
      }
    }

    /** `add_extension`. */
    method AddExtension(extension: string)
      modifies this
      ensures extensions == old(extensions) + [extension]
      ensures calls == old(calls) + [AddExtensionCall(extension)]
      ensures arguments == old(arguments) && experimental == old(experimental) && capabilities == old(capabilities)
    {
      extensions := extensions + [extension];
      calls := calls + [AddExtensionCall(extension)];
    }

    /** `set_capability`. */
    method SetCapability(name: string, value: Value)
      modifies this
      ensures capabilities == Assign(old(capabilities), name, value)
      ensures calls == old(calls) + [SetCapabilityCall(name, value)]
      ensures arguments == old(arguments) && experimental == old(experimental) && extensions == old(extensions)
    {
      capabilities := Assign(capabilities, name, value);
      calls := calls + [SetCapabilityCall(name, value)];
    }
  }

  // ---------------------------------------------------------------------------
  // add_option
  // ---------------------------------------------------------------------------

  /** A dict argument whose first experimental option raises: the browser
      name mentions chrome, the options take no experimental options, and
      the dict is not empty. */
  predicate FailsExperimental(a: Arg, chrome: bool, supportsExperimental: bool)
  {
    a.Exp? && chrome && !supportsExperimental && a.options != []
  }

  /** `proceed_argument` after one argument, given its value before. */
  function AddedFlagsProceed(a: Arg, chrome: bool, supportsArguments: bool, supportsExperimental: bool, proceed: bool): bool
  {
    match a
    case Flag(_) => proceed && supportsArguments
    case Exp(_) => proceed && !FailsExperimental(a, chrome, supportsExperimental)
  }

  /** The flags `add_option` adds, given `proceed_argument` on entry. */
  function AddedFlags(args: seq<Arg>, chrome: bool, supportsArguments: bool, supportsExperimental: bool, proceed: bool): seq<string>
    decreases |args|
  {
    if args == [] then []
    else match args[0]
      case Flag(s) =>
        if proceed && supportsArguments then [s] + AddedFlags(args[1..], chrome, supportsArguments, supportsExperimental, true)
        else AddedFlags(args[1..], chrome, supportsArguments, supportsExperimental, false)
      case Exp(_) =>
        var failed := FailsExperimental(args[0], chrome, supportsExperimental);
        AddedFlags(args[1..], chrome, supportsArguments, supportsExperimental, proceed && !failed)
  }

  /** `AddedFlags` takes the first argument's flag, if any, and goes on with
      the `proceed_argument` that argument leaves behind. */
  lemma AddedFlagsStep(args: seq<Arg>, chrome: bool, supportsArguments: bool, supportsExperimental: bool, proceed: bool)
    requires args != []
    ensures AddedFlags(args, chrome, supportsArguments, supportsExperimental, proceed)
         == (if args[0].Flag? && proceed && supportsArguments then [args[0].flag] else [])
          + AddedFlags(args[1..], chrome, supportsArguments, supportsExperimental,
                       AddedFlagsProceed(args[0], chrome, supportsArguments, supportsExperimental, proceed))
  {
  }

  /** `add_option` adds no more flags than there are arguments, each one a
      flag of the list, and none once `proceed_argument` is off or the class
      has no `add_argument`. */
  lemma {:induction false} AddedFlagsWithin(args: seq<Arg>, chrome: bool, supportsArguments: bool, supportsExperimental: bool, proceed: bool)
    ensures var r := AddedFlags(args, chrome, supportsArguments, supportsExperimental, proceed);
      && |r| <= |args|
      && (forall s :: s in r ==> Flag(s) in args)
      && (!supportsArguments || !proceed ==> r == [])
    decreases |args|
  {
    if args != [] {
      var next := AddedFlagsProceed(args[0], chrome, supportsArguments, supportsExperimental, proceed);
      AddedFlagsWithin(args[1..], chrome, supportsArguments, supportsExperimental, next);
      AddedFlagsStep(args, chrome, supportsArguments, supportsExperimental, proceed);
      forall s | s in AddedFlags(args[1..], chrome, supportsArguments, supportsExperimental, next)
        ensures Flag(s) in args
      {
        assert Flag(s) in args[1..];
      }
    }
  }

  /** Every (name, value) pair of every dict argument, in order. */
  function ExperimentalPairs(args: seq<Arg>): Entries
  {
    if args == [] then []
    else (if args[0].Exp? then args[0].options else []) + ExperimentalPairs(args[1..])
  }

  /** The flag arguments, in order. */
  function FlagsOf(args: seq<Arg>): (r: seq<string>)
    ensures |r| <= |args|
  {
    if args == [] then []
    else (if args[0].Flag? then [args[0].flag] else []) + FlagsOf(args[1..])
  }

  /** The position of the first dict argument whose experimental options fail, or the length. */
  function FirstFailing(args: seq<Arg>, chrome: bool, supportsExperimental: bool): (r: nat)
    ensures r <= |args|
    ensures forall j :: 0 <= j < r ==> !FailsExperimental(args[j], chrome, supportsExperimental)
    ensures r < |args| ==> FailsExperimental(args[r], chrome, supportsExperimental)
  {
    if args == [] then 0
    else if FailsExperimental(args[0], chrome, supportsExperimental) then 0
    else 1 + FirstFailing(args[1..], chrome, supportsExperimental)
  }

  /** Once `proceed_argument` is off, no flag is added any more. */
  lemma {:induction false} AddedFlagsStopped(args: seq<Arg>, chrome: bool, supportsArguments: bool, supportsExperimental: bool)
    ensures AddedFlags(args, chrome, supportsArguments, supportsExperimental, false) == []
    decreases |args|
  {
    if args != [] {
      AddedFlagsStopped(args[1..], chrome, supportsArguments, supportsExperimental);
    }
  }

  /** Options without `add_argument` take no flag at all. */
  lemma {:induction false} AddedFlagsUnsupported(args: seq<Arg>, chrome: bool, supportsExperimental: bool, proceed: bool)
    ensures AddedFlags(args, chrome, false, supportsExperimental, proceed) == []
    decreases |args|
  {
    if args != [] {
      AddedFlagsUnsupported(args[1..], chrome, supportsExperimental, false);
      AddedFlagsUnsupported(args[1..], chrome, supportsExperimental, proceed && !FailsExperimental(args[0], chrome, supportsExperimental));
    }
  }

  /** Options with `add_argument` take the flags in list order, up to the
      first dict whose experimental options fail, and none after it. */
  lemma {:induction false} AddedFlagsCut(args: seq<Arg>, chrome: bool, supportsExperimental: bool)
    ensures AddedFlags(args, chrome, true, supportsExperimental, true)
         == FlagsOf(args[..FirstFailing(args, chrome, supportsExperimental)])
    decreases |args|
  {
    if args != [] {
      var k := FirstFailing(args, chrome, supportsExperimental);
      if FailsExperimental(args[0], chrome, supportsExperimental) {
        AddedFlagsStopped(args[1..], chrome, true, supportsExperimental);
        assert args[..k] == [];
      } else {
        AddedFlagsCut(args[1..], chrome, supportsExperimental);
        assert args[..k][1..] == args[1..][..k - 1];
      }
    }
  }

  /** `d.update(a + b)` is `d.update(a)` followed by `update(b)`. */
  lemma {:induction false} UpdateConcat(d: Entries, a: Entries, b: Entries)
    ensures Update(d, a + b) == Update(Update(d, a), b)
    decreases |a|
  {
    if a != [] {
      assert (a + b)[0] == a[0] && (a + b)[1..] == a[1..] + b;
      UpdateConcat(Assign(d, a[0].0, a[0].1), a[1..], b);
    } else {
      assert a + b == b;
    }
  }

  /** The inner loop of `add_option` over one dict's items: each pair goes
      to `add_experimental_option`, and the first one that raises ends the
      loop. */
  method AddExperimentalOptions(option: Options, e: Entries) returns (raised: bool)
    modifies option
    ensures raised <==> !option.supportsExperimental && e != []
    ensures option.experimental == if option.supportsExperimental then Update(old(option.experimental), e) else old(option.experimental)
    ensures option.arguments == old(option.arguments) && option.extensions == old(option.extensions)
    ensures option.capabilities == old(option.capabilities)
    ensures old(option.calls) <= option.calls
    ensures forall k :: |old(option.calls)| <= k < |option.calls| ==> option.calls[k].AddExperimentalCall?
  {
    raised := false;
    if e == [] {
      return;
    }
    if !option.supportsExperimental {
      // The first pair already raises.
      raised := option.AddExperimentalOption(e[0].0, e[0].1);
      return;
    }
    var j := 0;
    while j < |e|
      invariant 0 <= j <= |e| && !raised
      invariant Update(option.experimental, e[j..]) == Update(old(option.experimental), e)
      invariant option.arguments == old(option.arguments) && option.extensions == old(option.extensions)
      invariant option.capabilities == old(option.capabilities)
      invariant old(option.calls) <= option.calls
      invariant forall k :: |old(option.calls)| <= k < |option.calls| ==> option.calls[k].AddExperimentalCall?
    {
      assert e[j..][0] == e[j] && e[j..][1..] == e[j + 1..];
      raised := option.AddExperimentalOption(e[j].0, e[j].1);
      if raised {
        break;
      }
      j := j + 1;
    }
    assert e[|e|..] == [];
  }

  /** One pass of `add_option`'s loop keeps the flags still to be added in step. */
  lemma FlagsStep(all: seq<string>, added: seq<string>, args: seq<Arg>, i: nat, chrome: bool, supportsArguments: bool, supportsExperimental: bool, proceed: bool)
    requires i < |args|
    requires all == added + AddedFlags(args[i..], chrome, supportsArguments, supportsExperimental, proceed)
    ensures all == (added + (if args[i].Flag? && proceed && supportsArguments then [args[i].flag] else []))
      + AddedFlags(args[i + 1..], chrome, supportsArguments, supportsExperimental,
                   AddedFlagsProceed(args[i], chrome, supportsArguments, supportsExperimental, proceed))
  {
    assert args[i..][0] == args[i] && args[i..][1..] == args[i + 1..];
    AddedFlagsStep(args[i..], chrome, supportsArguments, supportsExperimental, proceed);
    var step := if args[i].Flag? && proceed && supportsArguments then [args[i].flag] else [];
    var rest := AddedFlags(args[i + 1..], chrome, supportsArguments, supportsExperimental,
                           AddedFlagsProceed(args[i], chrome, supportsArguments, supportsExperimental, proceed));
    assert all == added + (step + rest);
    assert added + (step + rest) == (added + step) + rest;
  }

  /** One pass of `add_option`'s loop keeps the experimental options still to
      be applied in step (`applies` when they are applied at all). */
  lemma ExperimentalStep(before: Entries, args: seq<Arg>, i: nat, applies: bool, target: Entries)
    requires i < |args|
    requires applies ==> Update(before, ExperimentalPairs(args[i..])) == target
    ensures applies ==>
      Update(if args[i].Exp? then Update(before, args[i].options) else before, ExperimentalPairs(args[i + 1..])) == target
  {
    assert args[i..][0] == args[i] && args[i..][1..] == args[i + 1..];
    if args[i].Exp? {
      assert ExperimentalPairs(args[i..]) == args[i].options + ExperimentalPairs(args[i + 1..]);
      UpdateConcat(before, args[i].options, ExperimentalPairs(args[i + 1..]));
    } else {
      assert ExperimentalPairs(args[i..]) == ExperimentalPairs(args[i + 1..]);
    }
  }

  /** One pass of `add_option`'s loop: a flag goes to `add_argument` while
      `proceed_argument` holds, and a dict's items go to
      `add_experimental_option` when the browser name mentions chrome. A
      raise in either turns `proceed_argument` off. */
  method AddOneArgument(option: Options, argument: Arg, chrome: bool, proceedArgument: bool) returns (proceed: bool)
    modifies option
    ensures proceed == AddedFlagsProceed(argument, chrome, option.supportsArguments, option.supportsExperimental, proceedArgument)
    ensures option.arguments == old(option.arguments) +
      (if argument.Flag? && proceedArgument && option.supportsArguments then [argument.flag] else [])
    ensures option.experimental ==
      if argument.Exp? && chrome && option.supportsExperimental
      then Update(old(option.experimental), argument.options)
      else old(option.experimental)
    ensures option.extensions == old(option.extensions) && option.capabilities == old(option.capabilities)
    ensures old(option.calls) <= option.calls
    ensures forall k :: |old(option.calls)| <= k < |option.calls| ==>
      option.calls[k].AddArgumentCall? || option.calls[k].AddExperimentalCall?
  {
    proceed := proceedArgument;
    if argument.Flag? && proceed {
      var raised := option.AddArgument(argument.flag);
      if raised {
        proceed := false;
        return;
      }
    }
    if argument.Exp? && chrome {
      var raised := AddExperimentalOptions(option, argument.options);
      if raised {
        proceed := false;
      }
    }
  }

  /** `add_option`: hand the flags to `add_argument` and the dicts to
      `add_experimental_option`. A flag that raises turns off the remaining
      flags; so does a dict entry that raises, which also ends that dict.
      The dicts are used only for a browser name mentioning chrome. */
  method AddOption(option: Options, arguments: seq<Arg>, browser: string) returns (r: Options?)
    modifies option
    ensures r == option
    ensures option.arguments == old(option.arguments)
      + AddedFlags(arguments, Contains("chrome", browser), option.supportsArguments, option.supportsExperimental, true)
    ensures option.experimental ==
      if Contains("chrome", browser) && option.supportsExperimental
      then Update(old(option.experimental), ExperimentalPairs(arguments))
      else old(option.experimental)
    ensures option.extensions == old(option.extensions) && option.capabilities == old(option.capabilities)
    ensures old(option.calls) <= option.calls
    ensures forall k :: |old(option.calls)| <= k < |option.calls| ==>
      option.calls[k].AddArgumentCall? || option.calls[k].AddExperimentalCall?
  {
    var chrome := Contains("chrome", browser);
    var stopped := AddArguments(option, arguments, chrome);
    if stopped {
      r := null;
    } else {
      r := option;
    }
  }

  /** The loop of `add_option`, for a browser name that does (`chrome`) or
      does not mention chrome. `proceed_experimental` is never cleared, so
      the loop never stops early. */
  method AddArguments(option: Options, arguments: seq<Arg>, chrome: bool) returns (stopped: bool)
    modifies option
    ensures !stopped
    ensures option.arguments == old(option.arguments)
      + AddedFlags(arguments, chrome, option.supportsArguments, option.supportsExperimental, true)
    ensures option.experimental ==
      if chrome && option.supportsExperimental
      then Update(old(option.experimental), ExperimentalPairs(arguments))
      else old(option.experimental)
    ensures option.extensions == old(option.extensions) && option.capabilities == old(option.capabilities)
    ensures old(option.calls) <= option.calls
    ensures forall k :: |old(option.calls)| <= k < |option.calls| ==>
      option.calls[k].AddArgumentCall? || option.calls[k].AddExperimentalCall?
  {
    ghost var sa, se := option.supportsArguments, option.supportsExperimental;
    ghost var flags := AddedFlags(arguments, chrome, sa, se, true);
    ghost var target := Update(old(option.experimental), ExperimentalPairs(arguments));
    var proceedArgument := true;
    var proceedExperimental := true;
    stopped := false;
    var i := 0;
    while i < |arguments| && !stopped
      invariant 0 <= i <= |arguments| && proceedExperimental && !stopped
      invariant old(option.arguments) + flags == option.arguments + AddedFlags(arguments[i..], chrome, sa, se, proceedArgument)
      invariant chrome && se ==> Update(option.experimental, ExperimentalPairs(arguments[i..])) == target
      invariant !(chrome && se) ==> option.experimental == old(option.experimental)
      invariant option.extensions == old(option.extensions) && option.capabilities == old(option.capabilities)
      invariant old(option.calls) <= option.calls
      invariant forall k :: |old(option.calls)| <= k < |option.calls| ==>
        option.calls[k].AddArgumentCall? || option.calls[k].AddExperimentalCall?
    {
      ghost var before, beforeArguments, proceedBefore := option.experimental, option.arguments, proceedArgument;
      proceedArgument := AddOneArgument(option, arguments[i], chrome, proceedArgument);
      FlagsStep(old(option.arguments) + flags, beforeArguments, arguments, i, chrome, sa, se, proceedBefore);
      ExperimentalStep(before, arguments, i, chrome && se, target);
      i := i + 1;
      if !(proceedArgument || proceedExperimental) {
        stopped := true;
      }
    }
    assert arguments[|arguments|..] == [];
  }

  // ---------------------------------------------------------------------------
  // The scan of the caller's flags in _configure_chrome
  // ---------------------------------------------------------------------------

  const USER_AGENT_KEY: string := "user-agent"
  /** Spelled with an `s`, as the scan spells it. */
  const WINDOW_SIZE_KEY: string := "windows-size"
  const PROFILE_KEY: string := "profile-directory"

  /** Python's `key in argument`: a substring of a flag, a key of a dict. */
  predicate Mentions(a: Arg, key: string)
  {
    match a
    case Flag(s) => Contains(key, s)
    case Exp(e) => HasKey(e, key)
  }

  /** The first position outside `skip` whose argument mentions `key`. */
  function FirstMention(args: seq<Arg>, key: string, skip: set<nat>): (r: Option<nat>)
    ensures r.Some? ==> r.value < |args| && r.value !in skip && Mentions(args[r.value], key)
    ensures r.Some? ==> forall j :: 0 <= j < r.value && j !in skip ==> !Mentions(args[j], key)
    ensures r.None? ==> forall j :: 0 <= j < |args| && j !in skip ==> !Mentions(args[j], key)
    decreases |args|
  {
    if args == [] then None
    else
      var n := |args| - 1;
      var prior := FirstMention(args[..n], key, skip);
      assert forall j :: 0 <= j < n ==> args[..n][j] == args[j];
      if prior.Some? then prior
      else if n !in skip && Mentions(args[n], key) then Some(n)
      else None
  }

  /** One more argument: the first mention stays, or is the new argument. */
  lemma FirstMentionExtend(args: seq<Arg>, key: string, skip: set<nat>, i: nat)
    requires i < |args|
    ensures FirstMention(args[..i + 1], key, skip) ==
      if FirstMention(args[..i], key, skip).Some? then FirstMention(args[..i], key, skip)
      else if i !in skip && Mentions(args[i], key) then Some(i)
      else None
  {
    assert args[..i + 1][..i] == args[..i];
  }

  /** Positions past the end do not matter in `skip`. */
  lemma FirstMentionSkipBeyond(args: seq<Arg>, key: string, skip: set<nat>, extra: set<nat>)
    requires forall x :: x in extra ==> x >= |args|
    ensures FirstMention(args, key, skip + extra) == FirstMention(args, key, skip)
  {
  }

  /** A mention found in a prefix is the first mention of the whole list. */
  lemma FirstMentionPrefix(args: seq<Arg>, key: string, skip: set<nat>, k: nat)
    requires k <= |args|
    ensures FirstMention(args[..k], key, skip).Some? ==> FirstMention(args, key, skip) == FirstMention(args[..k], key, skip)
    ensures FirstMention(args[..k], key, skip).None? && FirstMention(args, key, skip).Some? ==> FirstMention(args, key, skip).value >= k
  {
    assert forall j :: 0 <= j < k ==> args[..k][j] == args[j];
  }

  function Indices(at: Option<nat>): set<nat>
  {
    if at.Some? then {at.value} else {}
  }

  /** Where the scan stops for each key: the user agent at its first
      mention, the window size at its first mention other than that one, the
      profile at its first mention other than those two. */
  datatype Marks = Marks(userAgent: Option<nat>, windowSize: Option<nat>, profile: Option<nat>)

  function ScanMarks(args: seq<Arg>): Marks
  {
    var ua := FirstMention(args, USER_AGENT_KEY, {});
    var ws := FirstMention(args, WINDOW_SIZE_KEY, Indices(ua));
    var prof := FirstMention(args, PROFILE_KEY, Indices(ua) + Indices(ws));
    Marks(ua, ws, prof)
  }

  /** A mark that falls on a dict: `argument.split` raises there. */
  predicate MarksDict(args: seq<Arg>, at: Option<nat>)
  {
    at.Some? && at.value < |args| && args[at.value].Exp?
  }

  /** The text after the last `=` of the marked flag, if there is a mark. */
  function ValueAt(args: seq<Arg>, at: Option<nat>): Option<string>
    requires at.Some? ==> at.value < |args| && args[at.value].Flag?
  {
    if at.Some? then Some(AfterLast(args[at.value].flag, '=')) else None
  }

  /** What the scan finds. */
  datatype Found = Found(userAgent: Option<string>, windowSize: Option<string>, profile: Option<string>)

  /** The outcome of the scan over the caller's arguments. */
  function ScanResult(args: seq<Arg>): Result<Found>
  {
    var m := ScanMarks(args);
    if MarksDict(args, m.userAgent) || MarksDict(args, m.windowSize) || MarksDict(args, m.profile) then Err(AttributeError)
    else Ok(Found(ValueAt(args, m.userAgent), ValueAt(args, m.windowSize), ValueAt(args, m.profile)))
  }

  /** The scan fails only with an `AttributeError`, and never on a list of
      flags alone. */
  lemma ScanResultOutcome(args: seq<Arg>)
    ensures ScanResult(args).Err? ==> ScanResult(args).error == AttributeError
    ensures (forall i :: 0 <= i < |args| ==> args[i].Flag?) ==> ScanResult(args).Ok?
  {
  }

  /** The marks of a prefix grow into the marks of one more argument. */
  lemma ScanMarksExtend(args: seq<Arg>, i: nat)
    requires i < |args|
    ensures var m, m' := ScanMarks(args[..i]), ScanMarks(args[..i + 1]);
      && m'.userAgent == (if m.userAgent.None? && Mentions(args[i], USER_AGENT_KEY) then Some(i) else m.userAgent)
      && m'.windowSize == (if m'.userAgent != Some(i) && m.windowSize.None? && Mentions(args[i], WINDOW_SIZE_KEY) then Some(i) else m.windowSize)
      && m'.profile == (if m'.userAgent != Some(i) && m'.windowSize != Some(i) && m.profile.None? && Mentions(args[i], PROFILE_KEY) then Some(i) else m.profile)
  {
    var m, m' := ScanMarks(args[..i]), ScanMarks(args[..i + 1]);
    FirstMentionExtend(args, USER_AGENT_KEY, {}, i);
    FirstMentionSkipBeyond(args[..i], WINDOW_SIZE_KEY, Indices(m.userAgent), Indices(m'.userAgent) - Indices(m.userAgent));
    assert Indices(m'.userAgent) == Indices(m.userAgent) + (Indices(m'.userAgent) - Indices(m.userAgent));
    FirstMentionExtend(args, WINDOW_SIZE_KEY, Indices(m'.userAgent), i);
    var skip, skip' := Indices(m.userAgent) + Indices(m.windowSize), Indices(m'.userAgent) + Indices(m'.windowSize);
    FirstMentionSkipBeyond(args[..i], PROFILE_KEY, skip, skip' - skip);
    assert skip' == skip + (skip' - skip);
    FirstMentionExtend(args, PROFILE_KEY, skip', i);
  }

  /** A mark found in a prefix is the mark of the whole list. */
  lemma ScanMarksPrefix(args: seq<Arg>, k: nat)
    requires k <= |args|
    ensures var m, full := ScanMarks(args[..k]), ScanMarks(args);
      && (m.userAgent.Some? ==> full.userAgent == m.userAgent)
      && (m.windowSize.Some? ==> full.windowSize == m.windowSize)
      && (m.profile.Some? ==> full.profile == m.profile)
  {
    var m, full := ScanMarks(args[..k]), ScanMarks(args);
    FirstMentionPrefix(args, USER_AGENT_KEY, {}, k);
    var extraUa := Indices(full.userAgent) - Indices(m.userAgent);
    FirstMentionSkipBeyond(args[..k], WINDOW_SIZE_KEY, Indices(m.userAgent), extraUa);
    assert Indices(full.userAgent) == Indices(m.userAgent) + extraUa;
    FirstMentionPrefix(args, WINDOW_SIZE_KEY, Indices(full.userAgent), k);
    var skip, skip' := Indices(m.userAgent) + Indices(m.windowSize), Indices(full.userAgent) + Indices(full.windowSize);
    if m.windowSize.Some? || full.windowSize.None? || full.windowSize.value >= k {
      FirstMentionSkipBeyond(args[..k], PROFILE_KEY, skip, skip' - skip);
      assert skip' == skip + (skip' - skip);
      FirstMentionPrefix(args, PROFILE_KEY, skip', k);
    }
  }

  /** A dict marked within a prefix makes the whole scan fail. */
  lemma ScanFailsAt(args: seq<Arg>, i: nat)
    requires i < |args| && args[i].Exp?
    requires var m := ScanMarks(args[..i + 1]);
      m.userAgent == Some(i) || m.windowSize == Some(i) || m.profile == Some(i)
    ensures ScanResult(args) == Err(AttributeError)
  {
    ScanMarksPrefix(args, i + 1);
  }

  /** What the scan knows after the first `i` arguments: the marks of that
      prefix, none of them on a dict, and the value read at each mark. */
  ghost predicate ScanState(args: seq<Arg>, i: nat, m: Marks, found: Found)
  {
    && i <= |args|
    && m == ScanMarks(args[..i])
    && !MarksDict(args, m.userAgent) && !MarksDict(args, m.windowSize) && !MarksDict(args, m.profile)
    && (m.userAgent.Some? ==> m.userAgent.value < i)
    && (m.windowSize.Some? ==> m.windowSize.value < i)
    && (m.profile.Some? ==> m.profile.value < i)
    && found == Found(ValueAt(args, m.userAgent), ValueAt(args, m.windowSize), ValueAt(args, m.profile))
  }

  /** One pass of the scan's loop, over argument `i`: the first key it
      mentions that is still missing takes its value, and a dict there
      raises. */
  method ScanOne(args: seq<Arg>, i: nat, ghost m: Marks, found: Found) returns (failed: bool, next: Found)
    requires i < |args| && ScanState(args, i, m, found)
    ensures failed ==> ScanResult(args) == Err(AttributeError)
    ensures !failed ==> ScanState(args, i + 1, ScanMarks(args[..i + 1]), next)
  {
    var argument := args[i];
    ScanMarksExtend(args, i);
    failed, next := false, found;
    if found.userAgent.None? && Mentions(argument, USER_AGENT_KEY) {
      if argument.Exp? {
        ScanFailsAt(args, i);
        return true, found;
      }
      next := found.(userAgent := Some(AfterLast(argument.flag, '=')));
    } else if found.windowSize.None? && Mentions(argument, WINDOW_SIZE_KEY) {
      if argument.Exp? {
        ScanFailsAt(args, i);
        return true, found;
      }
      next := found.(windowSize := Some(AfterLast(argument.flag, '=')));
    } else if found.profile.None? && Mentions(argument, PROFILE_KEY) {
      if argument.Exp? {
        ScanFailsAt(args, i);
        return true, found;
      }
      next := found.(profile := Some(AfterLast(argument.flag, '=')));
    }
  }

  /** The scan in `_configure_chrome`: for each of user agent, window size
      and profile directory, the value after the last `=` of the first
      argument that mentions it and was not taken by an earlier key. Each
      `continue` of the source is an `else` of `ScanOne`. */
  method Scan(args: seq<Arg>) returns (r: Result<Found>)
    ensures r == ScanResult(args)
  {
    var found := Found(None, None, None);
    ghost var m := Marks(None, None, None);
    var i := 0;
    while i < |args|
      invariant ScanState(args, i, m, found)
    {
      var failed;
      failed, found := ScanOne(args, i, m, found);
      if failed {
        return Err(AttributeError);
      }
      m := ScanMarks(args[..i + 1]);
      i := i + 1;
    }
    assert args[..|args|] == args;
    r := Ok(found);
  }

  /** A needle with a character the text lacks does not occur in it. */
  lemma AbsentChar(needle: string, hay: string, p: nat)
    requires p < |needle| && needle[p] !in hay
    ensures !Contains(needle, hay)
  {
    forall i | 0 <= i <= |hay| - |needle| ensures !OccursAt(needle, hay, i) {
      assert hay[i..i + |needle|][p] == hay[i + p];
    }
  }

  /** The scan looks for `windows-size`, so a caller's `--window-size`
      flag (whose value is digits and commas) is never found. */
  lemma WindowSizeFlagMissed(size: string)
    requires forall k :: 0 <= k < |size| ==> size[k] == ',' || IsDigit(size[k])
    ensures ScanResult([Flag("--window-size=" + size)]) == Ok(Found(None, None, None))
  {
    var flag := "--window-size=" + size;
    assert forall k :: 14 <= k < |flag| ==> flag[k] == size[k - 14];
    AbsentChar(USER_AGENT_KEY, flag, 0);
    AbsentChar(PROFILE_KEY, flag, 0);
    forall i | 0 <= i <= |flag| - |WINDOW_SIZE_KEY| ensures !OccursAt(WINDOW_SIZE_KEY, flag, i) {
      assert flag[i..i + |WINDOW_SIZE_KEY|][5] == flag[i + 5];
      assert flag[i..i + |WINDOW_SIZE_KEY|][6] == flag[i + 6];
    }
  }

  /** A dict argument with a `user-agent` key fails the scan. */
  lemma DictMentionFails(before: seq<Arg>, e: Entries)
    requires HasKey(e, USER_AGENT_KEY)
    requires forall k :: 0 <= k < |before| ==> !Mentions(before[k], USER_AGENT_KEY)
    ensures ScanResult(before + [Exp(e)]) == Err(AttributeError)
  {
    var args := before + [Exp(e)];
    assert args[..|before|] == before;
    FirstMentionExtend(args, USER_AGENT_KEY, {}, |before|);
    assert args[..|before| + 1] == args;
  }

  // ---------------------------------------------------------------------------
  // _configure_chrome
  // ---------------------------------------------------------------------------

  /** The caller's argument list, which `_configure_chrome` and `_set_up`
      extend in place. */
  class ArgList {
    var items: seq<Arg>

    constructor (items: seq<Arg>)
      ensures this.items == items
    {
      this.items := items;
    }
  }

  /** A browser extension: a `pathlib.Path`, or any other value, by its text. */
  datatype Extension = PathExt(path: string) | TextExt(text: string)

  function ExtensionText(x: Extension): string
  {
    match x
    case PathExt(p) => p
    case TextExt(t) => t
  }

  predicate AllPaths(extensions: seq<Extension>)
  {
    forall k :: 0 <= k < |extensions| ==> extensions[k].PathExt?
  }

  /** The `--load-extension` flag built when every extension is a path. */
  function LoadExtensionFlag(extensions: seq<Extension>): string
  {
    "--load-extension=" + Join(seq(|extensions|, k requires 0 <= k < |extensions| => ExtensionText(extensions[k])), ",")
  }

  /** The extensions `_configure_chrome` hands to `add_extension`: none for
      a list of paths only (an empty list included), otherwise the text of
      every item, in order. */
  function AddedExtensions(extensions: seq<Extension>): (r: seq<string>)
    ensures AllPaths(extensions) ==> r == []
    ensures !AllPaths(extensions) ==> |r| == |extensions| && forall k :: 0 <= k < |r| ==> r[k] == ExtensionText(extensions[k])
  {
    if AllPaths(extensions) then [] else seq(|extensions|, k requires 0 <= k < |extensions| => ExtensionText(extensions[k]))
  }

  /** The extensions part of `_configure_chrome`: a list of paths only
      yields a `--load-extension` flag that is never used; any other
      non-empty list goes to `add_extension` item by item. */
  method ApplyExtensions(options: Options, extensions: seq<Extension>)
    modifies options
    ensures AllPaths(extensions) ==> options.calls == old(options.calls)
    ensures options.extensions == old(options.extensions) + AddedExtensions(extensions)
    ensures options.arguments == old(options.arguments) && options.experimental == old(options.experimental)
    ensures options.capabilities == old(options.capabilities)
    ensures old(options.calls) <= options.calls
    ensures forall k :: |old(options.calls)| <= k < |options.calls| ==> options.calls[k].AddExtensionCall?
  {
    if |extensions| > 0 {
      if AllPaths(extensions) {
        var argument := LoadExtensionFlag(extensions);
      } else {
        var k := 0;
        while k < |extensions|
          invariant 0 <= k <= |extensions|
          invariant options.extensions == old(options.extensions) + seq(k, j requires 0 <= j < k => ExtensionText(extensions[j]))
          invariant options.arguments == old(options.arguments) && options.experimental == old(options.experimental)
          invariant options.capabilities == old(options.capabilities)
          invariant old(options.calls) <= options.calls
          invariant forall j :: |old(options.calls)| <= j < |options.calls| ==> options.calls[j].AddExtensionCall?
        {
          options.AddExtension(ExtensionText(extensions[k]));
          k := k + 1;
        }
      }
    }
  }

  /** The user agent `_configure_chrome` settles on: the hashed pick for a
      found profile, otherwise the caller's, otherwise `draw`, a random
      element of the pool. */
  function ChosenUserAgent(found: Found, pool: seq<string>, draw: string): string
    requires |pool| > 0
  {
    if found.profile.Some? then HashedPick(pool, found.profile).value else found.userAgent.GetOr(draw)
  }

  /** The window size `_configure_chrome` settles on, likewise. */
  function ChosenWindowSize(found: Found, pool: seq<Size>, draw: Size): SizeValue
    requires |pool| > 0
  {
    if found.profile.Some? then Dims(HashedPick(pool, found.profile).value)
    else if found.windowSize.Some? then SizeText(found.windowSize.value)
    else Dims(draw)
  }

  /** A found profile decides both values, whatever the caller gave and
      whatever the draw; without one the caller's value wins over the draw. */
  lemma ChosenValues(found: Found, agents: seq<string>, sizes: seq<Size>, agentDraw: string, sizeDraw: Size, agentDraw': string, sizeDraw': Size)
    requires |agents| > 0 && |sizes| > 0
    ensures found.profile.Some? ==>
      && ChosenUserAgent(found, agents, agentDraw) in agents
      && ChosenUserAgent(found, agents, agentDraw) == ChosenUserAgent(found, agents, agentDraw')
      && ChosenUserAgent(found, agents, agentDraw) == ChosenUserAgent(found.(userAgent := None), agents, agentDraw)
      && ChosenWindowSize(found, sizes, sizeDraw) == ChosenWindowSize(found, sizes, sizeDraw')
      && ChosenWindowSize(found, sizes, sizeDraw).Dims? && ChosenWindowSize(found, sizes, sizeDraw).size in sizes
    ensures found.profile.None? && found.userAgent.Some? ==> ChosenUserAgent(found, agents, agentDraw) == found.userAgent.value
    ensures found.profile.None? && found.userAgent.None? ==> ChosenUserAgent(found, agents, agentDraw) == agentDraw
    ensures found.profile.None? && found.windowSize.Some? ==> ChosenWindowSize(found, sizes, sizeDraw) == SizeText(found.windowSize.value)
    ensures found.profile.None? && found.windowSize.None? ==> ChosenWindowSize(found, sizes, sizeDraw) == Dims(sizeDraw)
  {
  }

  /** Build the two pools and settle the user agent and the window size. */
  method ChooseValues(found: Found, system: string)
    returns (userAgent: string, windowSize: SizeValue, ghost agentDraw: string, ghost sizeDraw: Size)
    ensures agentDraw in Weighted(AgentWeights(system)) && sizeDraw in WindowSizeData()
    ensures |Weighted(AgentWeights(system))| > 0 && |WindowSizeData()| > 0
    ensures userAgent == ChosenUserAgent(found, Weighted(AgentWeights(system)), agentDraw)
    ensures windowSize == ChosenWindowSize(found, WindowSizeData(), sizeDraw)
  {
    var agents := UserAgentData(system);
    UserAgentDataShape(system);
    WindowSizeDataShape();
    var userAgents := new Pool<string>(agents);
    var windowSizes := new Pool<Size>(WindowSizeData());
    agentDraw, sizeDraw := agents[0], WindowSizeData()[0];
    var ua := found.userAgent;
    var ws: Option<SizeValue> := if found.windowSize.Some? then Some(SizeText(found.windowSize.value)) else None;
    if found.profile.Some? {
      ua := Some(userAgents.GetHashed(found.profile).value);
      ws := Some(Dims(windowSizes.GetHashed(found.profile).value));
    }
    if ua.None? {
      var x := userAgents.GetRandom();
      agentDraw := x.value;
      ua := Some(x.value);
    }
    if ws.None? {
      var x := windowSizes.GetRandom();
      sizeDraw := x.value;
      ws := Some(Dims(x.value));
    }
    userAgent, windowSize := ua.value, ws.value;
  }

  /** `host or "127.0.0.1"`. */
  function HostOrDefault(host: Option<string>): string
  {
    if host.None? || host.value == "" then "127.0.0.1" else host.value
  }

  /** `port or free_port()`, with the port `free_port` would pick passed in. */
  function PortOrFree(port: Option<int>, freePort: int): int
  {
    if port.None? || port.value == 0 then freePort else port.value
  }

  /** `f"{name}={value}"`. */
  function FlagText(name: string, value: string): string
  {
    name + "=" + value
  }

  /** The five flags `_configure_chrome` appends to the caller's list. */
  function TrailingFlags(userAgent: string, windowSize: string, host: Option<string>, port: Option<int>, freePort: int, lang: string): (r: seq<Arg>)
    ensures |r| == 5 && forall i :: 0 <= i < 5 ==> r[i].Flag?
  {
    [ Flag(FlagText("--user-agent", userAgent)),
      Flag(FlagText("--window-size", windowSize)),
      Flag(FlagText("--remote-debugging-host", HostOrDefault(host))),
      Flag(FlagText("--remote-debugging-port", IntToString(PortOrFree(port, freePort)))),
      Flag(FlagText("--lang", lang)) ]
  }

  /** The appending part of `_configure_chrome`: `extend` with the user
      agent and window size, then three `append`s. */
  method AppendTrailingFlags(argList: ArgList, userAgent: string, windowSize: string, host: Option<string>, port: Option<int>, freePort: int, lang: string)
    modifies argList
    ensures argList.items == old(argList.items) + TrailingFlags(userAgent, windowSize, host, port, freePort, lang)
  {
    argList.items := argList.items + [Flag(FlagText("--user-agent", userAgent)), Flag(FlagText("--window-size", windowSize))];
    var hostText := HostOrDefault(host);
    var portNumber := PortOrFree(port, freePort);
    argList.items := argList.items + [Flag(FlagText("--remote-debugging-host", hostText))];
    argList.items := argList.items + [Flag(FlagText("--remote-debugging-port", IntToString(portNumber)))];
    argList.items := argList.items + [Flag(FlagText("--lang", lang))];
  }

  lemma NoEqualsInNumber(i: int)
    ensures '=' !in IntToString(i)
  {
    var digits := NatToString(if i < 0 then -i else i);
    assert forall k :: 0 <= k < |digits| ==> digits[k] != '=';
    assert i < 0 ==> IntToString(i) == "-" + digits;
  }

  /** Each appended flag reads back, by the scan's `split("=")[-1]`, as the
      value written into it. */
  lemma TrailingFlagsReadBack(userAgent: string, windowSize: string, host: Option<string>, port: Option<int>, freePort: int, lang: string)
    requires '=' !in userAgent && '=' !in windowSize && '=' !in HostOrDefault(host) && '=' !in lang
    ensures var flags := TrailingFlags(userAgent, windowSize, host, port, freePort, lang);
      && AfterLast(flags[0].flag, '=') == userAgent
      && AfterLast(flags[1].flag, '=') == windowSize
      && AfterLast(flags[2].flag, '=') == HostOrDefault(host)
      && AfterLast(flags[3].flag, '=') == IntToString(PortOrFree(port, freePort))
      && AfterLast(flags[4].flag, '=') == lang
  {
    var hostText := HostOrDefault(host);
    var portText := IntToString(PortOrFree(port, freePort));
    var flags := TrailingFlags(userAgent, windowSize, host, port, freePort, lang);
    assert flags[0].flag == FlagText("--user-agent", userAgent);
    assert flags[1].flag == FlagText("--window-size", windowSize);
    assert flags[2].flag == FlagText("--remote-debugging-host", hostText);
    assert flags[3].flag == FlagText("--remote-debugging-port", portText);
    assert flags[4].flag == FlagText("--lang", lang);
    FlagReadBack("--user-agent", userAgent);
    FlagReadBack("--window-size", windowSize);
    FlagReadBack("--remote-debugging-host", hostText);
    NoEqualsInNumber(PortOrFree(port, freePort));
    FlagReadBack("--remote-debugging-port", portText);
    FlagReadBack("--lang", lang);
  }

  lemma FlagReadBack(name: string, value: string)
    requires '=' !in value
    ensures AfterLast(FlagText(name, value), '=') == value
  {
    assert FlagText(name, value) == name + ['='] + value;
    AfterLastOfJoined(name, '=', value);
  }

  const SELENOID_OPTIONS: string := "selenoid:options"
  const USER_DATA_DIR: string := "--user-data-dir"

  /** The first option text containing `--user-data-dir`. */
  function FirstUserDataDir(arguments: seq<string>): (r: Option<nat>)
    ensures r.Some? ==> r.value < |arguments| && Contains(USER_DATA_DIR, arguments[r.value])
    ensures r.Some? ==> forall j :: 0 <= j < r.value ==> !Contains(USER_DATA_DIR, arguments[j])
    ensures r.None? ==> forall j :: 0 <= j < |arguments| ==> !Contains(USER_DATA_DIR, arguments[j])
  {
    if arguments == [] then None
    else if Contains(USER_DATA_DIR, arguments[0]) then Some(0)
    else
      var rest := FirstUserDataDir(arguments[1..]);
      if rest.Some? then Some(rest.value + 1) else None
  }

  /** The remote branch's profile injection: for the first option naming a
      user-data directory, `capabilities['selenoid:options']['env']` becomes
      `['BROWSER_PROFILE_DIR=<dir>']`; a missing key is a `KeyError`, a
      value that is not a dict a `TypeError`. */
  function InjectedCapabilities(arguments: seq<string>, caps: Entries): Result<Entries>
  {
    match FirstUserDataDir(arguments)
    case None => Ok(caps)
    case Some(k) =>
      match Lookup(caps, SELENOID_OPTIONS)
      case None => Err(KeyError)
      case Some(v) =>
        if !v.Dict? then Err(TypeError)
        else
          var env := List([Str("BROWSER_PROFILE_DIR=" + AfterLast(arguments[k], '='))]);
          Ok(Assign(caps, SELENOID_OPTIONS, Dict(Assign(v.entries, "env", env))))
  }

  /** The injection changes nothing without a `--user-data-dir` option; it
      fails with `KeyError` exactly when the selenoid options are missing,
      and with `TypeError` otherwise. */
  lemma InjectedCapabilitiesOutcome(arguments: seq<string>, caps: Entries)
    ensures FirstUserDataDir(arguments).None? ==> InjectedCapabilities(arguments, caps) == Ok(caps)
    ensures var r := InjectedCapabilities(arguments, caps);
      r.Err? ==> (r.error == KeyError <==> !HasKey(caps, SELENOID_OPTIONS)) && (r.error == KeyError || r.error == TypeError)
  {
  }

  /** With no option naming a user-data directory, nothing is injected:
      which is always the case for a freshly made options object. */
  lemma InjectionNeverFiresOnFreshOptions(caps: Entries)
    ensures InjectedCapabilities([], caps) == Ok(caps)
  {
  }

  /** After an injection the selenoid options carry the profile directory
      and keep every other key. */
  lemma InjectionSetsEnv(arguments: seq<string>, caps: Entries, k: string)
    requires InjectedCapabilities(arguments, caps).Ok? && FirstUserDataDir(arguments).Some?
    ensures var r := InjectedCapabilities(arguments, caps).value;
      var i := FirstUserDataDir(arguments).value;
      && Lookup(r, SELENOID_OPTIONS).Some? && Lookup(r, SELENOID_OPTIONS).value.Dict?
      && Lookup(Lookup(r, SELENOID_OPTIONS).value.entries, "env")
         == Some(List([Str("BROWSER_PROFILE_DIR=" + AfterLast(arguments[i], '='))]))
      && (k != SELENOID_OPTIONS ==> Lookup(r, k) == Lookup(caps, k))
  {
    var v := Lookup(caps, SELENOID_OPTIONS).value;
    var i := FirstUserDataDir(arguments).value;
    var env := List([Str("BROWSER_PROFILE_DIR=" + AfterLast(arguments[i], '='))]);
    AssignLookup(caps, SELENOID_OPTIONS, Dict(Assign(v.entries, "env", env)), k);
    AssignLookup(caps, SELENOID_OPTIONS, Dict(Assign(v.entries, "env", env)), SELENOID_OPTIONS);
    AssignLookup(v.entries, "env", env, "env");
  }

  /** The loop over `options.arguments` in the remote branch. */
  method InjectProfileDir(arguments: seq<string>, caps: Entries) returns (r: Result<Entries>)
    ensures r == InjectedCapabilities(arguments, caps)
  {
    var k := 0;
    while k < |arguments|
      invariant 0 <= k <= |arguments|
      invariant forall j :: 0 <= j < k ==> !Contains(USER_DATA_DIR, arguments[j])
    {
      var option := arguments[k];
      if Contains(USER_DATA_DIR, option) {
        var selenoid := Lookup(caps, SELENOID_OPTIONS);
        if selenoid.None? {
          return Err(KeyError);
        }
        if !selenoid.value.Dict? {
          return Err(TypeError);
        }
        var env := List([Str("BROWSER_PROFILE_DIR=" + AfterLast(option, '='))]);
        return Ok(Assign(caps, SELENOID_OPTIONS, Dict(Assign(selenoid.value.entries, "env", env))));
      }
      k := k + 1;
    }
    return Ok(caps);
  }

  /** `for name, value in capabilities.items(): options.set_capability(name, value)`. */
  method SetCapabilities(options: Options, caps: Entries)
    modifies options
    ensures options.capabilities == Update(old(options.capabilities), caps)
    ensures options.arguments == old(options.arguments) && options.experimental == old(options.experimental)
    ensures options.extensions == old(options.extensions)
    ensures old(options.calls) <= options.calls
    ensures forall k :: |old(options.calls)| <= k < |options.calls| ==> options.calls[k].SetCapabilityCall?
  {
    var k := 0;
    while k < |caps|
      invariant 0 <= k <= |caps|
      invariant Update(options.capabilities, caps[k..]) == Update(old(options.capabilities), caps)
      invariant options.arguments == old(options.arguments) && options.experimental == old(options.experimental)
      invariant options.extensions == old(options.extensions)
      invariant old(options.calls) <= options.calls
      invariant forall j :: |old(options.calls)| <= j < |options.calls| ==> options.calls[j].SetCapabilityCall?
    {
      assert caps[k..][0] == caps[k] && caps[k..][1..] == caps[k + 1..];
      options.SetCapability(caps[k].0, caps[k].1);
      k := k + 1;
    }
  }

  /** A driver service: the executable `install()` returned and the service
      keyword arguments. */
  datatype Service = Service(executablePath: string, kwargs: Entries)

  /** `service_class(executable_path, **service_kwargs)`, or without them when there are none. */
  function MakeService(executablePath: string, serviceKwargs: Option<Entries>): Service
  {
    if serviceKwargs.Some? && serviceKwargs.value != [] then Service(executablePath, serviceKwargs.value)
    else Service(executablePath, [])
  }

  /** The capabilities `_configure_chrome` starts from: the caller's or an
      empty dict, updated with the selenoid ones in remote mode. */
  function BaseCapabilities(capabilities: Option<Entries>, remote: bool, selenoidCapabilities: Entries): Entries
  {
    var caps := capabilities.GetOr([]);
    if remote then Update(caps, selenoidCapabilities) else caps
  }

  /** The service and the capabilities `_configure_chrome` settles on, given
      the options' arguments at that point. */
  function ServicePlan(arguments: seq<string>, capabilities: Option<Entries>, remote: bool, selenoidCapabilities: Entries,
                       serviceKwargs: Option<Entries>, hasInstall: bool, installedPath: string): Result<(Option<Service>, Entries)>
  {
    if remote then
      match InjectedCapabilities(arguments, BaseCapabilities(capabilities, true, selenoidCapabilities))
      case Err(e) => Err(e)
      case Ok(caps) => Ok((None, caps))
    else
      Ok((if hasInstall then Some(MakeService(installedPath, serviceKwargs)) else None,
          BaseCapabilities(capabilities, false, selenoidCapabilities)))
  }

  /** Remote mode never builds a service; local mode builds one exactly when
      the manager can install a driver, and never fails. */
  lemma ServicePlanModes(arguments: seq<string>, capabilities: Option<Entries>, remote: bool, selenoidCapabilities: Entries,
                         serviceKwargs: Option<Entries>, hasInstall: bool, installedPath: string)
    ensures var plan := ServicePlan(arguments, capabilities, remote, selenoidCapabilities, serviceKwargs, hasInstall, installedPath);
      && (remote && plan.Ok? ==> plan.value.0 == None)
      && (!remote ==> plan.Ok? && (plan.value.0.Some? <==> hasInstall))
      && (!remote && hasInstall ==> plan.value.0.value.executablePath == installedPath)
      && (!remote ==> plan.value.1 == capabilities.GetOr([]))
      && (plan.Err? ==> remote && plan.error in {KeyError, TypeError})
  {
  }

  /** On a fresh options object the remote capabilities are the caller's
      updated with the selenoid ones, and nothing is injected. */
  lemma ServicePlanFresh(capabilities: Option<Entries>, selenoidCapabilities: Entries, serviceKwargs: Option<Entries>, hasInstall: bool, installedPath: string, k: string)
    requires DistinctKeys(selenoidCapabilities)
    ensures var plan := ServicePlan([], capabilities, true, selenoidCapabilities, serviceKwargs, hasInstall, installedPath);
      plan.Ok? && plan.value.0 == None &&
      Lookup(plan.value.1, k) == if HasKey(selenoidCapabilities, k) then Lookup(selenoidCapabilities, k) else Lookup(capabilities.GetOr([]), k)
  {
    InjectionNeverFiresOnFreshOptions(BaseCapabilities(capabilities, true, selenoidCapabilities));
    UpdateLookup(capabilities.GetOr([]), selenoidCapabilities, k);
  }

  /** The part of `_configure_chrome` between the appends and the capability loop. */
  method PlanService(arguments: seq<string>, capabilities: Option<Entries>, remote: bool, selenoidCapabilities: Entries,
                     serviceKwargs: Option<Entries>, hasInstall: bool, installedPath: string)
    returns (r: Result<(Option<Service>, Entries)>)
    ensures r == ServicePlan(arguments, capabilities, remote, selenoidCapabilities, serviceKwargs, hasInstall, installedPath)
  {
    var service: Option<Service> := None;
    var caps := capabilities.GetOr([]);
    if remote {
      caps := Update(caps, selenoidCapabilities);
      var injected := InjectProfileDir(arguments, caps);
      if injected.Err? {
        return Err(injected.error);
      }
      caps := injected.value;
    } else if hasInstall {
      service := Some(MakeService(installedPath, serviceKwargs));
    }
    return Ok((service, caps));
  }

  /** The end of `_configure_chrome`: set every capability, then hand the
      argument list to `add_option`. */
  method FinishOptions(options: Options, caps: Entries, arguments: seq<Arg>)
    modifies options
    ensures options.capabilities == Update(old(options.capabilities), caps)
    ensures options.arguments == old(options.arguments) + AddedFlags(arguments, true, options.supportsArguments, options.supportsExperimental, true)
    ensures options.experimental ==
      if options.supportsExperimental then Update(old(options.experimental), ExperimentalPairs(arguments)) else old(options.experimental)
    ensures options.extensions == old(options.extensions)
    ensures old(options.calls) <= options.calls
    ensures forall a, b | |old(options.calls)| <= a < b < |options.calls| ::
      options.calls[a].AddArgumentCall? ==> !options.calls[b].SetCapabilityCall?
  {
    SetCapabilities(options, caps);
    ghost var afterCapabilities := options.calls;
    assert OccursAt("chrome", "chrome", 0);
    var configured := AddOption(options, arguments, "chrome");
    assert forall k :: |old(options.calls)| <= k < |afterCapabilities| ==> options.calls[k] == afterCapabilities[k];
  }

  /** The user agent and the window size `_configure_chrome` settles on for
      what the scan found, with the two values drawn from the pools. */
  ghost predicate Chosen(found: Found, system: string, userAgent: string, windowSize: SizeValue, agentDraw: string, sizeDraw: Size)
  {
    && agentDraw in Weighted(AgentWeights(system)) && sizeDraw in WindowSizeData()
    && userAgent == ChosenUserAgent(found, Weighted(AgentWeights(system)), agentDraw)
    && windowSize == ChosenWindowSize(found, WindowSizeData(), sizeDraw)
  }

  /** `_configure_chrome` after the scan found `found`: settle the user
      agent and the window size, append the five flags, plan the service and
      the capabilities, then set the capabilities and add the arguments. */
  method ConfigureScanned(
    options: Options, argList: ArgList, found: Found, capabilities: Option<Entries>,
    serviceKwargs: Option<Entries>, host: Option<string>, port: Option<int>, lang: string, remote: bool,
    system: string, freePort: int, hasInstall: bool, installedPath: string, selenoidCapabilities: Entries)
    returns (r: Result<Option<Service>>, ghost userAgent: string, ghost windowSize: SizeValue,
             ghost agentDraw: string, ghost sizeDraw: Size)
    modifies options, argList
    ensures Chosen(found, system, userAgent, windowSize, agentDraw, sizeDraw)
    ensures argList.items == old(argList.items) + TrailingFlags(userAgent, WindowSizeString(windowSize), host, port, freePort, lang)
    ensures var plan := ServicePlan(old(options.arguments), capabilities, remote, selenoidCapabilities, serviceKwargs, hasInstall, installedPath);
      && (plan.Err? ==> r == Err(plan.error))
      && (plan.Ok? ==> r == Ok(plan.value.0) && options.capabilities == Update(old(options.capabilities), plan.value.1))
    ensures options.extensions == old(options.extensions)
    ensures r.Err? ==>
      && options.arguments == old(options.arguments) && options.experimental == old(options.experimental)
      && options.capabilities == old(options.capabilities) && options.calls == old(options.calls)
    ensures r.Ok? ==>
      options.arguments == old(options.arguments) + AddedFlags(argList.items, true, options.supportsArguments, options.supportsExperimental, true)
    ensures r.Ok? ==>
      options.experimental ==
        if options.supportsExperimental then Update(old(options.experimental), ExperimentalPairs(argList.items)) else old(options.experimental)
    ensures old(options.calls) <= options.calls
    ensures forall a, b | |old(options.calls)| <= a < b < |options.calls| ::
      options.calls[a].AddArgumentCall? ==> !options.calls[b].SetCapabilityCall?
  {
    var ua, ws;
    ua, ws, agentDraw, sizeDraw := ChooseValues(found, system);
    userAgent, windowSize := ua, ws;
    AppendTrailingFlags(argList, ua, WindowSizeString(ws), host, port, freePort, lang);
    var plan := PlanService(options.arguments, capabilities, remote, selenoidCapabilities, serviceKwargs, hasInstall, installedPath);
    if plan.Err? {
      return Err(plan.error), userAgent, windowSize, agentDraw, sizeDraw;
    }
    var service, caps := plan.value.0, plan.value.1;
    FinishOptions(options, caps, argList.items);
    r := Ok(service);
  }

  /** `_configure_chrome`. The driver manager's `install()` result, the port
      `free_port()` picks, the platform name and the selenoid capabilities
      are parameters; `hasInstall` says whether the manager has `install`.
      `userAgent`, `windowSize` and the two draws describe the values chosen.
      The extensions are applied before anything can fail. */
  method ConfigureChrome(
    options: Options, argList: ArgList, extensions: seq<Extension>, capabilities: Option<Entries>,
    serviceKwargs: Option<Entries>, host: Option<string>, port: Option<int>, lang: string, remote: bool,
    system: string, freePort: int, hasInstall: bool, installedPath: string, selenoidCapabilities: Entries)
    returns (r: Result<Option<Service>>, ghost userAgent: string, ghost windowSize: SizeValue,
             ghost agentDraw: string, ghost sizeDraw: Size)
    modifies options, argList
    ensures ScanResult(old(argList.items)).Err? ==> r == Err(AttributeError) && argList.items == old(argList.items)
    ensures ScanResult(old(argList.items)).Ok? ==>
      && Chosen(ScanResult(old(argList.items)).value, system, userAgent, windowSize, agentDraw, sizeDraw)
      && argList.items == old(argList.items) + TrailingFlags(userAgent, WindowSizeString(windowSize), host, port, freePort, lang)
    ensures ScanResult(old(argList.items)).Ok? ==>
      var plan := ServicePlan(old(options.arguments), capabilities, remote, selenoidCapabilities, serviceKwargs, hasInstall, installedPath);
      && (plan.Err? ==> r == Err(plan.error))
      && (plan.Ok? ==> r == Ok(plan.value.0) && options.capabilities == Update(old(options.capabilities), plan.value.1))
    ensures options.extensions == old(options.extensions) + AddedExtensions(extensions)
    ensures r.Err? ==>
      && options.arguments == old(options.arguments) && options.experimental == old(options.experimental)
      && options.capabilities == old(options.capabilities)
    ensures r.Ok? ==>
      options.arguments == old(options.arguments) + AddedFlags(argList.items, true, options.supportsArguments, options.supportsExperimental, true)
    ensures r.Ok? ==>
      options.experimental ==
        if options.supportsExperimental then Update(old(options.experimental), ExperimentalPairs(argList.items)) else old(options.experimental)
    ensures forall a, b | |old(options.calls)| <= a < b < |options.calls| ::
      options.calls[a].AddArgumentCall? ==> !options.calls[b].SetCapabilityCall?
  {
    agentDraw, sizeDraw := "", Size(0, 0);
    userAgent, windowSize := "", SizeText("");
    ApplyExtensions(options, extensions);
    var found := Scan(argList.items);
    if found.Err? {
      return Err(found.error), userAgent, windowSize, agentDraw, sizeDraw;
    }
    ghost var beforeScanned := options.calls;
    r, userAgent, windowSize, agentDraw, sizeDraw := ConfigureScanned(options, argList, found.value, capabilities,
      serviceKwargs, host, port, lang, remote, system, freePort, hasInstall, installedPath, selenoidCapabilities);
    assert forall k :: |old(options.calls)| <= k < |beforeScanned| ==> options.calls[k] == beforeScanned[k];
  }

  // ---------------------------------------------------------------------------
  // WebDrivers: the attributes, _configure and get
  // ---------------------------------------------------------------------------

  /** The browsers whose options, service and manager classes `WebDrivers` holds. */
  datatype Kind = FirefoxKind | ChromeKind | SafariKind | EdgeKind

  /** The driver classes `WebDrivers` holds; `RemoteDriver` is Selenium's remote driver. */
  datatype Driver = FirefoxDriver | ChromeDriver | SafariDriver | EdgeDriver | RemoteDriver

  /** What `getattr` yields for an attribute of a `WebDrivers` instance. */
  datatype Attribute =
    | DriverAttribute(driver: Driver)
    | OptionsAttribute(optionsKind: Kind)
    | ServiceAttribute(serviceKind: Kind)
    | ManagerAttribute(managerKind: Kind)
    | OtherAttribute

  /** The driver classes, under their property names and under the
      name-mangled names of the private class attributes. */
  const DRIVERS: map<string, Driver> := map[
    "firefox" := FirefoxDriver, "chrome" := ChromeDriver, "safari" := SafariDriver,
    "edge" := EdgeDriver, "chrome_remote" := RemoteDriver,
    "_WebDrivers__firefox" := FirefoxDriver, "_WebDrivers__chrome" := ChromeDriver,
    "_WebDrivers__safari" := SafariDriver, "_WebDrivers__edge" := EdgeDriver,
    "_WebDrivers__chrome_remote" := RemoteDriver]

  /** The options classes, likewise. */
  const OPTIONS_CLASSES: map<string, Kind> := map[
    "firefox_options" := FirefoxKind, "chrome_options" := ChromeKind,
    "safari_options" := SafariKind, "edge_options" := EdgeKind,
    "_WebDrivers__firefox_options" := FirefoxKind, "_WebDrivers__chrome_options" := ChromeKind,
    "_WebDrivers__safari_options" := SafariKind, "_WebDrivers__edge_options" := EdgeKind]

  /** The service classes, likewise. */
  const SERVICE_CLASSES: map<string, Kind> := map[
    "firefox_service" := FirefoxKind, "chrome_service" := ChromeKind,
    "safari_service" := SafariKind, "edge_service" := EdgeKind,
    "_WebDrivers__firefox_service" := FirefoxKind, "_WebDrivers__chrome_service" := ChromeKind,
    "_WebDrivers__safari_service" := SafariKind, "_WebDrivers__edge_service" := EdgeKind]

  /** The driver managers, likewise; safari's manager is `None`. */
  const MANAGERS: map<string, Option<Kind>> := map[
    "firefox_manager" := Some(FirefoxKind), "chrome_manager" := Some(ChromeKind),
    "safari_manager" := None, "edge_manager" := Some(EdgeKind),
    "_WebDrivers__firefox_manager" := Some(FirefoxKind), "_WebDrivers__chrome_manager" := Some(ChromeKind),
    "_WebDrivers__safari_manager" := None, "_WebDrivers__edge_manager" := Some(EdgeKind)]

  /** The remaining attributes: the `supported` tuple and the methods. */
  const OTHER_ATTRIBUTES: set<string> := {"supported", "get", "_configure_chrome", "_configure"}

  /** The names `hasattr` accepts on a `WebDrivers` instance, dunder names aside. */
  const ATTRIBUTES: set<string> :=
    DRIVERS.Keys + OPTIONS_CLASSES.Keys + SERVICE_CLASSES.Keys + MANAGERS.Keys + OTHER_ATTRIBUTES

  /** `getattr(self, name)` for an attribute. */
  function AttributeValue(name: string): (r: Attribute)
    requires name in ATTRIBUTES
    ensures name in DRIVERS ==> r == DriverAttribute(DRIVERS[name])
    ensures r.OptionsAttribute? ==> name in OPTIONS_CLASSES && r.optionsKind == OPTIONS_CLASSES[name]
  {
    if name in DRIVERS then DriverAttribute(DRIVERS[name])
    else if name in OPTIONS_CLASSES then OptionsAttribute(OPTIONS_CLASSES[name])
    else if name in SERVICE_CLASSES then ServiceAttribute(SERVICE_CLASSES[name])
    else if name in MANAGERS && MANAGERS[name].Some? then ManagerAttribute(MANAGERS[name].value)
    else OtherAttribute
  }

  /** `_configure`'s reading of a browser id: remote when the id mentions
      `remote`, and then the name is the text before the first `_`. */
  function SplitBrowser(browser: string): (r: (string, bool))
    ensures r.1 <==> Contains("remote", browser)
    ensures r.1 ==> r.0 <= browser && '_' !in r.0 && (r.0 == browser || browser[|r.0|] == '_')
    ensures !r.1 ==> r.0 == browser
  {
    if Contains("remote", browser) then (BeforeFirst(browser, '_'), true) else (browser, false)
  }

  /** The three `getattr` calls of `_configure` for a browser name: the
      options kind and whether the manager has `install`, or the
      `AttributeError` of a missing attribute. */
  function DriverClasses(name: string): (r: Result<(Kind, bool)>)
    ensures r.Err? <==> name + "_options" !in OPTIONS_CLASSES || name + "_service" !in SERVICE_CLASSES || name + "_manager" !in MANAGERS
    ensures r.Err? ==> r.error == AttributeError
    ensures r.Ok? ==> r.value.0 == OPTIONS_CLASSES[name + "_options"] && (r.value.1 <==> MANAGERS[name + "_manager"].Some?)
  {
    if name + "_options" !in OPTIONS_CLASSES || name + "_service" !in SERVICE_CLASSES || name + "_manager" !in MANAGERS
    then Err(AttributeError)
    else Ok((OPTIONS_CLASSES[name + "_options"], MANAGERS[name + "_manager"].Some?))
  }

  /** Only chrome's and edge's options take experimental options. */
  predicate TakesExperimental(kind: Kind)
  {
    kind == ChromeKind || kind == EdgeKind
  }

  /** `_configure` splits `chrome_remote` into chrome in remote mode. */
  lemma ChromeRemoteId()
    ensures SplitBrowser("chrome_remote") == ("chrome", true)
  {
    assert OccursAt("remote", "chrome_remote", 7);
    assert "chrome_remote" == "chrome" + ['_'] + "remote";
    BeforeFirstOfJoined("chrome", '_', "remote");
  }

  /** The mangled remote driver's id is split to an empty name. */
  lemma MangledRemoteId()
    ensures SplitBrowser("_WebDrivers__chrome_remote") == ("", true)
  {
    var id := "_WebDrivers__chrome_remote";
    assert id[20..26] == "remote";
    assert OccursAt("remote", id, 20);
    assert id == "" + ['_'] + id[1..];
    BeforeFirstOfJoined("", '_', id[1..]);
  }

  /** Ids without `remote` are kept whole, so the mangled name
      `_WebDrivers__chrome` is not `chrome` and takes the generic branch. */
  lemma WholeBrowserIds()
    ensures SplitBrowser("chrome") == ("chrome", false)
    ensures SplitBrowser("firefox") == ("firefox", false)
    ensures SplitBrowser("_WebDrivers__chrome") == ("_WebDrivers__chrome", false)
  {
    AbsentChar("remote", "chrome", 4);
    AbsentChar("remote", "firefox", 2);
    AbsentChar("remote", "_WebDrivers__chrome", 4);
  }

  /** Chrome's classes are found, and its manager can install a driver. */
  lemma ChromeClasses()
    ensures DriverClasses("chrome") == Ok((ChromeKind, true))
  {
    assert "chrome" + "_options" == "chrome_options";
    assert "chrome" + "_service" == "chrome_service";
    assert "chrome" + "_manager" == "chrome_manager";
  }

  /** Safari's classes are found, but its manager is `None`. */
  lemma SafariClasses()
    ensures DriverClasses("safari") == Ok((SafariKind, false))
  {
    assert "safari" + "_options" == "safari_options";
    assert "safari" + "_service" == "safari_service";
    assert "safari" + "_manager" == "safari_manager";
  }

  /** The mangled name finds chrome's classes too. */
  lemma MangledChromeClasses()
    ensures DriverClasses("_WebDrivers__chrome") == Ok((ChromeKind, true))
  {
    assert "_WebDrivers__chrome" + "_options" == "_WebDrivers__chrome_options";
    assert "_WebDrivers__chrome" + "_service" == "_WebDrivers__chrome_service";
    assert "_WebDrivers__chrome" + "_manager" == "_WebDrivers__chrome_manager";
  }

  /** Every options attribute is at least 12 characters long. */
  lemma OptionsNamesLength(key: string)
    requires key in OPTIONS_CLASSES
    ensures |key| >= 12
  {
  }

  /** The empty name of `_WebDrivers__chrome_remote` finds no classes. */
  lemma EmptyNameClasses()
    ensures DriverClasses("").Err?
  {
    assert "" + "_options" == "_options";
    if "_options" in OPTIONS_CLASSES {
      OptionsNamesLength("_options");
    }
  }

  /** With every kind of addition supported, or no dict that would fail,
      `add_option` adds every flag of the list, in order. */
  lemma AddedFlagsAll(args: seq<Arg>, chrome: bool, supportsExperimental: bool)
    requires chrome ==> supportsExperimental
    ensures AddedFlags(args, chrome, true, supportsExperimental, true) == FlagsOf(args)
  {
    AddedFlagsCut(args, chrome, supportsExperimental);
    assert args[..FirstFailing(args, chrome, supportsExperimental)] == args;
  }

  /** The generic branch of `_configure`: `add_option` with the full id,
      then a service when the manager can install a driver. */
  method ConfigureGeneric(options: Options, arguments: seq<Arg>, browser: string, hasInstall: bool,
                          installedPath: string, serviceKwargs: Option<Entries>)
    returns (service: Option<Service>)
    modifies options
    ensures options.arguments == old(options.arguments)
      + AddedFlags(arguments, Contains("chrome", browser), options.supportsArguments, options.supportsExperimental, true)
    ensures options.experimental ==
      if Contains("chrome", browser) && options.supportsExperimental
      then Update(old(options.experimental), ExperimentalPairs(arguments))
      else old(options.experimental)
    ensures options.capabilities == old(options.capabilities) && options.extensions == old(options.extensions)
    ensures service == if hasInstall then Some(MakeService(installedPath, serviceKwargs)) else None
  {
    var configured := AddOption(options, arguments, browser);
    service := None;
    if hasInstall {
      service := Some(MakeService(installedPath, serviceKwargs));
    }
  }

  /** What the chrome branch of `_configure` promises for the caller's list
      `initial`: `r` is its outcome, `arguments` the list's content
      afterwards, and the last four values the user agent and the window
      size with their draws. It fails exactly when the scan does; otherwise
      the list gains the five flags and a fresh options object takes all of
      its flags, its dicts' experimental options (the forced stealth dict
      included), the added extensions and the starting capabilities. */
  ghost predicate ConfiguredChrome(
    initial: seq<Arg>, extensions: seq<Extension>, capabilities: Option<Entries>,
    serviceKwargs: Option<Entries>, host: Option<string>, port: Option<int>, lang: string, remote: bool,
    system: string, freePort: int, installedPath: string, selenoidCapabilities: Entries,
    r: Result<(Options, Option<Service>)>, arguments: seq<Arg>,
    userAgent: string, windowSize: SizeValue, agentDraw: string, sizeDraw: Size)
    reads if r.Ok? then {r.value.0} else {}
  {
    && (r.Err? <==> ScanResult(initial).Err?)
    && (r.Err? ==> r.error == AttributeError && arguments == initial)
    && (r.Ok? ==>
          var options := r.value.0;
          && Chosen(ScanResult(initial).value, system, userAgent, windowSize, agentDraw, sizeDraw)
          && arguments == initial + TrailingFlags(userAgent, WindowSizeString(windowSize), host, port, freePort, lang)
          && options.supportsArguments && options.supportsExperimental
          && options.arguments == FlagsOf(arguments)
          && options.experimental == Update([], ExperimentalPairs(arguments))
          && options.extensions == AddedExtensions(extensions)
          && options.capabilities == Update([], BaseCapabilities(capabilities, remote, selenoidCapabilities))
          && r.value.1 == if remote then None else Some(MakeService(installedPath, serviceKwargs)))
  }

  /** The chrome branch of `_configure`: a fresh options object of
      chrome's class, configured by `_configure_chrome` with the caller's
      list (or the new one `option_arguments or []` made) and chrome's
      manager, which can install a driver. */
  method ConfigureFreshChrome(
    argList: ArgList, extensions: seq<Extension>, capabilities: Option<Entries>,
    serviceKwargs: Option<Entries>, host: Option<string>, port: Option<int>, lang: string, remote: bool,
    system: string, freePort: int, installedPath: string, selenoidCapabilities: Entries)
    returns (r: Result<(Options, Option<Service>)>, ghost userAgent: string, ghost windowSize: SizeValue,
             ghost agentDraw: string, ghost sizeDraw: Size)
    modifies argList
    ensures r.Ok? ==> fresh(r.value.0)
    ensures ConfiguredChrome(old(argList.items), extensions, capabilities, serviceKwargs, host, port, lang, remote,
      system, freePort, installedPath, selenoidCapabilities, r, argList.items, userAgent, windowSize, agentDraw, sizeDraw)
  {
    var options := new Options(true, true);
    InjectionNeverFiresOnFreshOptions(BaseCapabilities(capabilities, true, selenoidCapabilities));
    var service;
    service, userAgent, windowSize, agentDraw, sizeDraw := ConfigureChrome(
      options, argList, extensions, capabilities, serviceKwargs, host, port, lang, remote,
      system, freePort, true, installedPath, selenoidCapabilities);
    if service.Err? {
      return Err(service.error), userAgent, windowSize, agentDraw, sizeDraw;
    }
    AddedFlagsAll(argList.items, true, true);
    assert [] + FlagsOf(argList.items) == FlagsOf(argList.items);
    r := Ok((options, service.value));
  }

  /** What the generic branch of `_configure` promises for a browser id
      whose options class is of `kind`: it never fails, leaves the list as
      it is, and a fresh options object takes what `add_option` adds with
      the full id; a service is built exactly when the manager can install
      a driver. */
  ghost predicate ConfiguredGeneric(
    browser: string, kind: Kind, hasInstall: bool, initial: seq<Arg>, serviceKwargs: Option<Entries>,
    installedPath: string, r: Result<(Options, Option<Service>)>, arguments: seq<Arg>)
    reads if r.Ok? then {r.value.0} else {}
  {
    && r.Ok? && arguments == initial
    && r.value.0.supportsArguments && r.value.0.supportsExperimental == TakesExperimental(kind)
    && r.value.0.arguments == AddedFlags(initial, Contains("chrome", browser), true, TakesExperimental(kind), true)
    && r.value.0.experimental == (if Contains("chrome", browser) && TakesExperimental(kind) then Update([], ExperimentalPairs(initial)) else [])
    && r.value.0.capabilities == [] && r.value.0.extensions == []
    && r.value.1 == (if hasInstall then Some(MakeService(installedPath, serviceKwargs)) else None)
  }

  /** What `_configure` promises for a browser id: a missing class is an
      `AttributeError`, the name `chrome` takes the chrome branch and any
      other name the generic one. */
  ghost predicate Configured(
    browser: string, initial: seq<Arg>, extensions: seq<Extension>, capabilities: Option<Entries>,
    serviceKwargs: Option<Entries>, host: Option<string>, port: Option<int>, lang: Option<string>,
    system: string, freePort: int, installedPath: string, selenoidCapabilities: Entries,
    r: Result<(Options, Option<Service>)>, arguments: seq<Arg>,
    userAgent: string, windowSize: SizeValue, agentDraw: string, sizeDraw: Size)
    reads if r.Ok? then {r.value.0} else {}
  {
    var (name, remote) := SplitBrowser(browser);
    var classes := DriverClasses(name);
    && (classes.Err? ==> r == Err(AttributeError))
    && (classes.Ok? && name == "chrome" ==>
          ConfiguredChrome(initial, extensions, capabilities, serviceKwargs, host, port, lang.GetOr("en-US"), remote,
            system, freePort, installedPath, selenoidCapabilities, r, arguments, userAgent, windowSize, agentDraw, sizeDraw))
    && (classes.Ok? && name != "chrome" ==>
          ConfiguredGeneric(browser, classes.value.0, classes.value.1, initial, serviceKwargs, installedPath, r, arguments))
  }

  /** `_configure`. `optionArguments` is the caller's list (`null` for
      `None`); `option_arguments or []` replaces a missing or empty one by a
      new list, so only a non-empty caller's list is extended in place.
      `arguments` is the list's content afterwards. The keyword arguments
      `_configure_chrome` takes are `host`, `port` and `lang`. */
  method Configure(
    browser: string, optionArguments: ArgList?, extensions: seq<Extension>, capabilities: Option<Entries>,
    serviceKwargs: Option<Entries>, host: Option<string>, port: Option<int>, lang: Option<string>,
    system: string, freePort: int, installedPath: string, selenoidCapabilities: Entries)
    returns (r: Result<(Options, Option<Service>)>, ghost arguments: seq<Arg>,
             ghost userAgent: string, ghost windowSize: SizeValue, ghost agentDraw: string, ghost sizeDraw: Size)
    modifies optionArguments
    ensures Configured(browser, if optionArguments == null then [] else old(optionArguments.items),
      extensions, capabilities, serviceKwargs, host, port, lang, system, freePort, installedPath, selenoidCapabilities,
      r, arguments, userAgent, windowSize, agentDraw, sizeDraw)
    ensures optionArguments != null && old(optionArguments.items) != [] ==> optionArguments.items == arguments
    ensures optionArguments != null && old(optionArguments.items) == [] ==> optionArguments.items == []
  {
    arguments := if optionArguments == null then [] else optionArguments.items;
    userAgent, windowSize, agentDraw, sizeDraw := "", SizeText(""), "", Size(0, 0);
    var (name, remote) := SplitBrowser(browser);
    var classes := DriverClasses(name);
    if classes.Err? {
      return Err(AttributeError), arguments, userAgent, windowSize, agentDraw, sizeDraw;
    }
    var kind, hasInstall := classes.value.0, classes.value.1;
    var argList: ArgList;
    if optionArguments != null && optionArguments.items != [] {
      argList := optionArguments;
    } else {
      argList := new ArgList([]);
    }
    if name == "chrome" {
      r, userAgent, windowSize, agentDraw, sizeDraw := ConfigureFreshChrome(argList, extensions,
        capabilities, serviceKwargs, host, port, lang.GetOr("en-US"), remote, system, freePort, installedPath,
        selenoidCapabilities);
      arguments := argList.items;
    } else {
      var options := new Options(true, TakesExperimental(kind));
      var service := ConfigureGeneric(options, argList.items, browser, hasInstall, installedPath, serviceKwargs);
      arguments := argList.items;
      r := Ok((options, service));
    }
  }

  /** `WebDrivers.get`: an id that is no attribute is an `AttributeError`;
      otherwise the attribute's value with the options and the service
      `_configure` yields, as `Configured` states them. */
  method Get(
    browser: string, optionArguments: ArgList?, extensions: seq<Extension>, capabilities: Option<Entries>,
    serviceKwargs: Option<Entries>, host: Option<string>, port: Option<int>, lang: Option<string>,
    system: string, freePort: int, installedPath: string, selenoidCapabilities: Entries)
    returns (r: Result<(Attribute, Options, Option<Service>)>, ghost arguments: seq<Arg>,
             ghost userAgent: string, ghost windowSize: SizeValue, ghost agentDraw: string, ghost sizeDraw: Size)
    modifies optionArguments
    ensures browser !in ATTRIBUTES ==> r == Err(AttributeError)
    ensures r.Err? ==> r.error == AttributeError
    ensures r.Ok? ==> browser in ATTRIBUTES && r.value.0 == AttributeValue(browser)
    ensures browser in ATTRIBUTES ==>
      Configured(browser, if optionArguments == null then [] else old(optionArguments.items),
        extensions, capabilities, serviceKwargs, host, port, lang, system, freePort, installedPath, selenoidCapabilities,
        if r.Ok? then Ok((r.value.1, r.value.2)) else Err(r.error), arguments, userAgent, windowSize, agentDraw, sizeDraw)
  {
    arguments := if optionArguments == null then [] else optionArguments.items;
    userAgent, windowSize, agentDraw, sizeDraw := "", SizeText(""), "", Size(0, 0);
    if browser !in ATTRIBUTES {
      return Err(AttributeError), arguments, userAgent, windowSize, agentDraw, sizeDraw;
    }
    var driver := AttributeValue(browser);
    var configured;
    configured, arguments, userAgent, windowSize, agentDraw, sizeDraw := Configure(browser, optionArguments,
      extensions, capabilities, serviceKwargs, host, port, lang, system, freePort, installedPath, selenoidCapabilities);
    if configured.Err? {
      return Err(configured.error), arguments, userAgent, windowSize, agentDraw, sizeDraw;
    }
    r := Ok((driver, configured.value.0, configured.value.1));
  }
}

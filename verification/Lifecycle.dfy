/** Provider startup with unwinding, and shutdown (app/core/lifecycle.py).
    The outcome of every provider call is chosen by the environment, call by call. */
module Lifecycle {
  import opened Wrappers

  type Resource = int
  type Entry = (string, Resource)

  datatype Error =
    | Raised(code: int)
    | RegistryFrozen
    | DuplicateCheck(name: string)
    | DuplicateProvider(name: string)
    | NoProviders
    | NotStarted(name: string)
    | ShutdownFailed(errors: seq<Error>)

  /** A startup error with the note that is added when the cleanup fails too. */
  datatype StartupError = StartupError(cause: Error, note: Option<Error>)

  datatype Health = NoCheck | HasCheck(name: string) | HealthRaised(error: Error)

  /** What the environment answers: `start(i)` and `health(i)` belong to the i-th provider
      of a startup, `stop(k)` to the k-th shutdown call of an unwinding. */
  datatype Env = Env(start: nat -> Result<Resource, Error>, health: nat -> Health, stop: nat -> Option<Error>)

  /** Entered: the provider got on the started list. Closed: its shutdown was called. */
  datatype Event = Entered(entry: Entry) | Closed(entry: Entry)

  // ------------------------------------------------- an independent reading of traces

  /** The entries that are still open after a trace, innermost last. `None` when some
      provider was closed that was not the innermost open one. */
  ghost function StillOpen(trace: seq<Event>): Option<seq<Entry>> {
    if trace == [] then Some([])
    else
      match StillOpen(trace[..|trace| - 1])
      case None => None
      case Some(open) =>
        match trace[|trace| - 1]
        case Entered(e) => Some(open + [e])
        case Closed(e) =>
          if |open| > 0 && open[|open| - 1] == e then Some(open[..|open| - 1]) else None
  }

  ghost function EntriesEntered(trace: seq<Event>): multiset<Entry> {
    if trace == [] then multiset{}
    else EntriesEntered(trace[..|trace| - 1])
         + (if trace[|trace| - 1].Entered? then multiset{trace[|trace| - 1].entry} else multiset{})
  }

  ghost function EntriesClosed(trace: seq<Event>): multiset<Entry> {
    if trace == [] then multiset{}
    else EntriesClosed(trace[..|trace| - 1])
         + (if trace[|trace| - 1].Closed? then multiset{trace[|trace| - 1].entry} else multiset{})
  }

  lemma ClosedOnceMore(open: seq<Entry>, e: Entry)
    requires |open| > 0 && open[|open| - 1] == e
    ensures multiset(open) == multiset(open[..|open| - 1]) + multiset{e}
  {
    assert open == open[..|open| - 1] + [e];
  }

  /** Each entry is closed exactly as often as it was entered, save for those still open. */
  lemma {:induction false} ClosedExactlyOnce(trace: seq<Event>)
    requires StillOpen(trace).Some?
    ensures EntriesEntered(trace) == EntriesClosed(trace) + multiset(StillOpen(trace).value)
  {
    if trace != [] {
      var init, last := trace[..|trace| - 1], trace[|trace| - 1];
      ClosedExactlyOnce(init);
      if last.Closed? { ClosedOnceMore(StillOpen(init).value, last.entry); }
    }
  }

  lemma StillOpenPush(trace: seq<Event>, e: Entry)
    requires StillOpen(trace).Some?
    ensures StillOpen(trace + [Entered(e)]) == Some(StillOpen(trace).value + [e])
  {
    assert (trace + [Entered(e)])[..|trace|] == trace;
  }

  lemma StillOpenPop(trace: seq<Event>, open: seq<Entry>, e: Entry)
    requires StillOpen(trace) == Some(open + [e])
    ensures StillOpen(trace + [Closed(e)]) == Some(open)
  {
    assert (trace + [Closed(e)])[..|trace|] == trace;
    assert (open + [e])[..|open|] == open;
  }

  function Reversed<T>(s: seq<T>): (r: seq<T>)
    ensures |r| == |s| && forall i | 0 <= i < |s| :: r[i] == s[|s| - 1 - i]
  {
    if s == [] then [] else [s[|s| - 1]] + Reversed(s[..|s| - 1])
  }

  ghost function EnteredAll(entries: seq<Entry>): seq<Event> {
    seq(|entries|, i requires 0 <= i < |entries| => Entered(entries[i]))
  }

  ghost function ClosedAll(entries: seq<Entry>): seq<Event> {
    seq(|entries|, i requires 0 <= i < |entries| => Closed(entries[i]))
  }

  /** The errors among the first `n` shutdown calls, in call order. */
  function StopErrors(env: Env, n: nat): seq<Error> {
    if n == 0 then []
    else StopErrors(env, n - 1) + (if env.stop(n - 1).Some? then [env.stop(n - 1).value] else [])
  }

  lemma {:induction false} StopErrorsMean(env: Env, n: nat)
    ensures StopErrors(env, n) == [] <==> forall k: nat | k < n :: env.stop(k) == None
  {
    if n > 0 {
      StopErrorsMean(env, n - 1);
    }
  }

  function ShutdownResult(errors: seq<Error>): Result<(), Error> {
    if errors == [] then Ok(()) else Err(ShutdownFailed(errors))
  }

  function CleanupNote(env: Env, n: nat): Option<Error> {
    if StopErrors(env, n) == [] then None else Some(ShutdownFailed(StopErrors(env, n)))
  }

  // ---------------------------------------------------------------- the registries

  class HealthCheckRegistry {
    var items: seq<string>
    var frozen: bool

    constructor ()
      ensures items == [] && !frozen
    {
      items, frozen := [], false;
    }

    method Register(name: string) returns (r: Result<(), Error>)
      modifies this
      ensures frozen == old(frozen)
      ensures r.Ok? <==> !old(frozen) && name !in old(items)
      ensures r.Ok? ==> items == old(items) + [name]
      ensures r.Err? ==> items == old(items) && r.error == RegisterError(old(frozen), name)
    {
      if frozen { return Err(RegistryFrozen); }
      if name in items { return Err(DuplicateCheck(name)); }
      items := items + [name];
      r := Ok(());
    }
  }

  function RegisterError(frozen: bool, name: string): Error {
    if frozen then RegistryFrozen else DuplicateCheck(name)
  }

  /** The health checks that the first `n` providers of a startup ask for. */
  ghost function Checks(env: Env, n: nat): seq<string> {
    if n == 0 then []
    else Checks(env, n - 1) + (if env.health(n - 1).HasCheck? then [env.health(n - 1).name] else [])
  }

  /** The error that the i-th provider of a startup brings up, if any: of its own startup, of
      the creation of its health check, or of the registration of that check. */
  ghost function StepError(env: Env, items: seq<string>, frozen: bool, i: nat): Option<Error> {
    match env.start(i)
    case Err(e) => Some(e)
    case Ok(_) =>
      match env.health(i)
      case NoCheck => None
      case HealthRaised(e) => Some(e)
      case HasCheck(name) =>
        if frozen || name in items + Checks(env, i) then Some(RegisterError(frozen, name)) else None
  }

  // --------------------------------- a startup, read off what the environment answers

  lemma {:induction false} ChecksMean(env: Env, n: nat, name: string)
    ensures name in Checks(env, n) <==> exists j: nat :: j < n && env.health(j) == HasCheck(name)
  {
    if n > 0 {
      ChecksMean(env, n - 1, name);
    }
  }

  /** The check cannot be registered because it is there already, or some earlier provider brought it. */
  ghost predicate CheckTaken(env: Env, items: seq<string>, i: nat, name: string) {
    name in items || exists j: nat :: j < i && env.health(j) == HasCheck(name)
  }

  /** Provider `i` starts, its health check is made, and it can be registered if there is one. */
  ghost predicate Goes(env: Env, items: seq<string>, frozen: bool, i: nat) {
    && env.start(i).Ok? && !env.health(i).HealthRaised?
    && (env.health(i).HasCheck? ==> !frozen && !CheckTaken(env, items, i, env.health(i).name))
  }

  /** The error is that of the start, of making the health check, or of registering it. */
  ghost predicate Raises(env: Env, items: seq<string>, frozen: bool, i: nat, error: Error) {
    || env.start(i) == Err(error)
    || (env.start(i).Ok? && env.health(i) == HealthRaised(error))
    || (&& env.start(i).Ok? && env.health(i).HasCheck?
        && (if frozen then error == RegistryFrozen
            else CheckTaken(env, items, i, env.health(i).name) && error == DuplicateCheck(env.health(i).name)))
  }

  lemma StepMeans(env: Env, items: seq<string>, frozen: bool, i: nat)
    ensures Goes(env, items, frozen, i) <==> StepError(env, items, frozen, i) == None
    ensures forall e :: Raises(env, items, frozen, i, e) <==> StepError(env, items, frozen, i) == Some(e)
  {
    if env.health(i).HasCheck? { ChecksMean(env, i, env.health(i).name); }
  }

  ghost function EntriesOf(env: Env, providers: seq<string>, n: nat): seq<Entry>
    requires n <= |providers|
  {
    seq(n, i requires 0 <= i < n => (providers[i], if env.start(i).Ok? then env.start(i).value else 0))
  }

  /** How many providers are on the list once provider `k` had its turn, all before it being there. */
  ghost function EnteredBefore(env: Env, k: nat): nat {
    if env.start(k).Ok? then k + 1 else k
  }

  /** None of the first `n` providers brings up an error. */
  ghost predicate FineUpTo(env: Env, items: seq<string>, frozen: bool, n: nat) {
    n == 0 || (FineUpTo(env, items, frozen, n - 1) && StepError(env, items, frozen, n - 1).None?)
  }

  lemma {:induction false} FineUpToMeans(env: Env, items: seq<string>, frozen: bool, n: nat)
    ensures FineUpTo(env, items, frozen, n) <==> forall j | 0 <= j < n :: StepError(env, items, frozen, j).None?
  {
    if n > 0 {
      FineUpToMeans(env, items, frozen, n - 1);
    }
  }

  /** Provider `k` is the first to fail: all before it went through. */
  ghost predicate FirstFailure(env: Env, items: seq<string>, frozen: bool, k: nat) {
    FineUpTo(env, items, frozen, k) && StepError(env, items, frozen, k).Some?
  }

  lemma {:induction false} FailureIsNotFine(env: Env, items: seq<string>, frozen: bool, k: nat, n: nat)
    requires FirstFailure(env, items, frozen, k) && k < n
    ensures !FineUpTo(env, items, frozen, n)
  {
    if k + 1 < n {
      FailureIsNotFine(env, items, frozen, k, n - 1);
    }
  }

  ghost predicate AllGo(env: Env, items: seq<string>, frozen: bool, n: nat) {
    forall i | 0 <= i < n :: Goes(env, items, frozen, i)
  }

  lemma AllGoMeans(env: Env, items: seq<string>, frozen: bool, n: nat)
    ensures AllGo(env, items, frozen, n) <==> FineUpTo(env, items, frozen, n)
  {
    FineUpToMeans(env, items, frozen, n);
    forall i | 0 <= i < n ensures Goes(env, items, frozen, i) <==> StepError(env, items, frozen, i) == None {
      StepMeans(env, items, frozen, i);
    }
  }

  /** The traces and the error of a startup whose provider `k` was the first to fail. */
  ghost predicate Unwound(env: Env, providers: seq<string>, items: seq<string>, healthFrozen: bool, k: nat,
                          before: seq<Entry>, traceBefore: seq<Event>, traceAfter: seq<Event>, error: StartupError)
    requires k < |providers|
  {
    var entered := EntriesOf(env, providers, EnteredBefore(env, k));
    && FirstFailure(env, items, healthFrozen, k)
    && traceAfter == traceBefore + EnteredAll(entered) + ClosedAll(Reversed(before + entered))
    && error == StartupError(StepError(env, items, healthFrozen, k).value, CleanupNote(env, |before + entered|))
  }

  /** The health check of provider `i`, whose startup went through. */
  method AddCheck(env: Env, i: nat, health: HealthCheckRegistry, ghost items: seq<string>)
    returns (failure: Option<Error>)
    requires env.start(i).Ok? && health.items == items + Checks(env, i)
    modifies health
    ensures health.frozen == old(health.frozen)
    ensures failure == StepError(env, items, health.frozen, i)
    ensures health.items == items + Checks(env, if failure.None? then i + 1 else i)
  {
    failure := None;
    match env.health(i) {
      case NoCheck =>
      case HealthRaised(e) =>
        failure := Some(e);
      case HasCheck(name) =>
        var registered := health.Register(name);
        if registered.Err? { failure := Some(registered.error); }
    }
  }

  /** A startup that began with `before` and `events` has put its first `n` providers on the list. */
  ghost predicate Entering(env: Env, providers: seq<string>, n: nat, before: seq<Entry>, events: seq<Event>,
                           started: seq<Entry>, trace: seq<Event>)
  {
    && n <= |providers|
    && started == before + EntriesOf(env, providers, n)
    && trace == events + EnteredAll(EntriesOf(env, providers, n))
    && StillOpen(trace) == Some(started)
  }

  /** The startup loop went through its first `n` providers. */
  ghost predicate WentThrough(env: Env, providers: seq<string>, n: nat, items: seq<string>, frozen: bool,
                              before: seq<Entry>, events: seq<Event>, started: seq<Entry>, trace: seq<Event>,
                              checks: seq<string>)
  {
    && FineUpTo(env, items, frozen, n)
    && Entering(env, providers, n, before, events, started, trace)
    && checks == items + Checks(env, n)
  }

  lemma EnteringNext(env: Env, providers: seq<string>, n: nat, before: seq<Entry>, events: seq<Event>,
                     started: seq<Entry>, trace: seq<Event>)
    requires n < |providers| && env.start(n).Ok? && Entering(env, providers, n, before, events, started, trace)
    ensures var entry := (providers[n], env.start(n).value);
      Entering(env, providers, n + 1, before, events, started + [entry], trace + [Entered(entry)])
  {
    var entry := (providers[n], env.start(n).value);
    var longer, shorter := EntriesOf(env, providers, n + 1), EntriesOf(env, providers, n);
    assert longer == shorter + [entry];
    assert EnteredAll(longer) == EnteredAll(shorter) + [Entered(entry)];
    assert before + longer == before + shorter + [entry];
    assert events + EnteredAll(longer) == events + EnteredAll(shorter) + [Entered(entry)];
    StillOpenPush(trace, entry);
  }

  /** A shutdown that began with `open` and `events` has closed the `n` innermost entries. */
  ghost predicate Drained(open: seq<Entry>, events: seq<Event>, n: nat, started: seq<Entry>, trace: seq<Event>) {
    && n + |started| == |open|
    && started == open[..|started|]
    && trace == events + ClosedAll(Reversed(open)[..n])
    && StillOpen(trace) == Some(started)
  }

  lemma DrainedFirst(open: seq<Entry>, events: seq<Event>)
    requires StillOpen(events) == Some(open)
    ensures Drained(open, events, 0, open, events)
  {
    assert ClosedAll(Reversed(open)[..0]) == [] && events + [] == events && open[..|open|] == open;
  }

  lemma DrainedLast(open: seq<Entry>, events: seq<Event>, n: nat, trace: seq<Event>)
    requires Drained(open, events, n, [], trace)
    ensures n == |open| && trace == events + ClosedAll(Reversed(open)) && StillOpen(trace) == Some([])
  {
    assert Reversed(open)[..n] == Reversed(open);
  }

  lemma DrainedNext(open: seq<Entry>, events: seq<Event>, n: nat, started: seq<Entry>, trace: seq<Event>)
    requires Drained(open, events, n, started, trace) && started != []
    ensures var rest, entry := started[..|started| - 1], started[|started| - 1];
      Drained(open, events, n + 1, rest, trace + [Closed(entry)])
  {
    var rest, entry, all := started[..|started| - 1], started[|started| - 1], Reversed(open);
    assert started == rest + [entry];
    StillOpenPop(trace, rest, entry);
    assert rest == open[..|rest|];
    assert all[n] == open[|rest|] == entry;
    assert all[..n + 1] == all[..n] + [entry];
    assert ClosedAll(all[..n + 1]) == ClosedAll(all[..n]) + [Closed(entry)];
  }

  class LifecycleProviderRegistry {
    var providers: seq<string>
    var started: seq<Entry>
    var frozen: bool
    ghost var trace: seq<Event>

    ghost predicate Valid()
      reads this
    {
      && (forall i, j | 0 <= i < j < |providers| :: providers[i] != providers[j])
      && StillOpen(trace) == Some(started)
    }

    constructor ()
      ensures Valid() && providers == [] && started == [] && trace == [] && !frozen
    {
      providers, started, frozen, trace := [], [], false, [];
    }

    method Register(name: string) returns (r: Result<(), Error>)
      requires Valid()
      modifies this
      ensures Valid()
      ensures started == old(started) && frozen == old(frozen) && trace == old(trace)
      ensures r.Ok? <==> !old(frozen) && name !in old(providers)
      ensures providers == if r.Ok? then old(providers) + [name] else old(providers)
      ensures r.Err? ==> r.error == if old(frozen) then RegistryFrozen else DuplicateProvider(name)
    {
      if frozen { return Err(RegistryFrozen); }
      if name in providers { return Err(DuplicateProvider(name)); }
      providers := providers + [name];
      r := Ok(());
    }

    /** The first started entry of that name, which is an error when there is none. */
    method GetResource(name: string) returns (r: Result<Resource, Error>)
      ensures r.Ok? ==> exists i :: 0 <= i < |started| && started[i] == (name, r.value)
                                    && forall j | 0 <= j < i :: started[j].0 != name
      ensures r.Err? <==> forall e <- started :: e.0 != name
    {
      for i := 0 to |started|
        invariant forall j | 0 <= j < i :: started[j].0 != name
      {
        if started[i].0 == name { return Ok(started[i].1); }
      }
      r := Err(NotStarted(name));
    }

    /** Every started provider is closed, innermost first, whatever the others raise. */
    method Shutdown(env: Env) returns (r: Result<(), Error>)
      requires Valid()
      modifies this
      ensures Valid()
      ensures providers == old(providers) && frozen == old(frozen)
      ensures started == []
      ensures trace == old(trace) + ClosedAll(Reversed(old(started)))
      ensures r == ShutdownResult(StopErrors(env, |old(started)|))
      ensures r.Ok? <==> forall k: nat | k < |old(started)| :: env.stop(k) == None
    {
      var errors, n := [], 0;
      ghost var open, events := started, trace;
      DrainedFirst(open, events);
      while started != []
        invariant providers == old(providers) && frozen == old(frozen)
        invariant Drained(open, events, n, started, trace)
        invariant errors == StopErrors(env, n)
        decreases |started|
      {
        var entry := started[|started| - 1];
        DrainedNext(open, events, n, started, trace);
        started := started[..|started| - 1];
        trace := trace + [Closed(entry)];
        var outcome := env.stop(n);
        n := n + 1;
        if outcome.Some? {
          errors := errors + [outcome.value];
        }
      }
      DrainedLast(open, events, n, trace);
      StopErrorsMean(env, n);
      r := ShutdownResult(errors);
    }

    /** The body of the startup loop for provider `i`; answers the error it brings up. */
    method StartOne(env: Env, i: nat, health: HealthCheckRegistry, ghost items: seq<string>,
                    ghost before: seq<Entry>, ghost events: seq<Event>)
      returns (failure: Option<Error>)
      requires i < |providers|
      requires WentThrough(env, providers, i, items, health.frozen, before, events, started, trace, health.items)
      modifies `started, `trace, health
      ensures health.frozen == old(health.frozen)
      ensures failure == StepError(env, items, health.frozen, i)
      ensures Entering(env, providers, EnteredBefore(env, i), before, events, started, trace)
      ensures failure.None? ==>
                WentThrough(env, providers, i + 1, items, health.frozen, before, events, started, trace, health.items)
      ensures failure.Some? ==> health.items == old(health.items)
    {
      failure := None;
      match env.start(i) {
        case Err(e) =>
          failure := Some(e);
        case Ok(resource) =>
          EnteringNext(env, providers, i, before, events, started, trace);
          started := started + [(providers[i], resource)];
          trace := trace + [Entered((providers[i], resource))];
          failure := AddCheck(env, i, health, items);
      }
    }

    /** The startup loop; `n` is the number of providers that went through. */
    method StartAll(env: Env, health: HealthCheckRegistry) returns (failure: Option<Error>, n: nat)
      requires Valid()
      modifies `started, `trace, health
      ensures Valid() && health.frozen == old(health.frozen)
      ensures n <= |providers| && FineUpTo(env, old(health.items), health.frozen, n)
      ensures failure.None? ==> n == |providers|
      ensures failure.Some? ==> n < |providers| && failure == StepError(env, old(health.items), health.frozen, n)
      ensures Entering(env, providers, if failure.None? then n else EnteredBefore(env, n),
                       old(started), old(trace), started, trace)
      ensures health.items == old(health.items) + Checks(env, n)
    {
      n := 0;
      while n < |providers|
        invariant n <= |providers|
        invariant health.frozen == old(health.frozen)
        invariant WentThrough(env, providers, n, old(health.items), health.frozen, old(started), old(trace),
                              started, trace, health.items)
      {
        failure := StartOne(env, n, health, old(health.items), old(started), old(trace));
        if failure.Some? { return; }
        n := n + 1;
      }
      failure := None;
    }

    /** The handler around the startup loop. */
    method Unwind(env: Env, cause: Error) returns (error: StartupError)
      requires Valid()
      modifies this
      ensures Valid()
      ensures providers == old(providers) && frozen == old(frozen)
      ensures started == []
      ensures trace == old(trace) + ClosedAll(Reversed(old(started)))
      ensures error == StartupError(cause, CleanupNote(env, |old(started)|))
    {
      var cleanup := Shutdown(env);
      error := StartupError(cause, if cleanup.Err? then Some(cleanup.error) else None);
    }

    /** Startup succeeds exactly when no step fails. Otherwise the first failure decides:
        everything on the list is closed in reverse order and its error is the one raised. */
    method Startup(env: Env, health: HealthCheckRegistry) returns (r: Result<(), StartupError>, ghost failed: nat)
      requires Valid()
      modifies this, health
      ensures Valid()
      ensures providers == old(providers) && health.frozen == old(health.frozen)
      ensures old(providers) == [] ==>
                && r == Err(StartupError(NoProviders, None))
                && started == old(started) && trace == old(trace) && health.items == old(health.items)
      ensures r.Ok? <==> providers != [] && FineUpTo(env, old(health.items), old(health.frozen), |providers|)
      ensures r.Ok? <==>
                providers != [] && AllGo(env, old(health.items), old(health.frozen), |providers|)
      ensures r.Err? && providers != [] ==>
                && AllGo(env, old(health.items), old(health.frozen), failed)
                && Raises(env, old(health.items), old(health.frozen), failed, r.error.cause)
      ensures frozen == (old(frozen) || r.Ok?)
      ensures r.Ok? ==>
                && started == old(started) + EntriesOf(env, providers, |providers|)
                && trace == old(trace) + EnteredAll(EntriesOf(env, providers, |providers|))
                && health.items == old(health.items) + Checks(env, |providers|)
      ensures r.Err? && providers != [] ==>
                && started == [] && failed < |providers|
                && health.items == old(health.items) + Checks(env, failed)
                && Unwound(env, providers, old(health.items), old(health.frozen), failed,
                           old(started), old(trace), trace, r.error)
    {
      if providers == [] { return Err(StartupError(NoProviders, None)), 0; }
      var failure, n := StartAll(env, health);
      failed := n;
      AllGoMeans(env, old(health.items), health.frozen, n);
      if failure.Some? {
        FailureIsNotFine(env, old(health.items), health.frozen, n, |providers|);
        StepMeans(env, old(health.items), health.frozen, n);
        var error := Unwind(env, failure.value);
        return Err(error), n;
      }
      frozen := true;
      r := Ok(());
    }
  }

  /** A shutdown after a shutdown, or after a failed startup, closes nothing. */
  method ShutdownTwice(registry: LifecycleProviderRegistry, first: Env, second: Env) returns (r: Result<(), Error>)
    requires registry.Valid()
    modifies registry
    ensures registry.Valid() && registry.started == [] && r == Ok(())
    ensures registry.trace == old(registry.trace) + ClosedAll(Reversed(old(registry.started)))
    ensures EntriesEntered(registry.trace) == EntriesClosed(registry.trace)
  {
    var _ := registry.Shutdown(first);
    ghost var closed := registry.trace;
    r := registry.Shutdown(second);
    assert registry.trace == closed;
    ClosedExactlyOnce(registry.trace);
  }
}

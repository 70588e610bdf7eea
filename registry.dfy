/**
 * The named-client registry of redis.go: the package globals `redisList`
 * and `errs`, `Connect`, which rebuilds the registry from a batch of
 * configurations, and `Client`, which looks a handle up by name.
 *
 * The liveness probe (`Ping`) is an oracle from connection name to an
 * optional error message; client handles are opaque objects that remember
 * only the options they were built from.
 */
module Registry {
  import opened Wrappers
  import opened RedisOptions
  import Text

  /** The name `Client()` looks up when called without a name. */
  const DefaultName: string := "default"

  const NotConfiguredPrefix: string := "[redis] the redis client `"

  /** Go's message for `name[0]` on an empty, non-nil slice. */
  const IndexOutOfRange: string := "runtime error: index out of range [0] with length 0"

  /** The panic message of `Client` for a name that is not registered. */
  function NotConfigured(key: string): (m: string)
    ensures |m| >= |NotConfiguredPrefix| + |key|
    ensures m[|NotConfiguredPrefix|..|NotConfiguredPrefix| + |key|] == key
  {
    NotConfiguredPrefix + key + "` is not configured"
  }

  /** The start of the panic message `Connect` raises on exit. */
  const AggregatePrefix: string := "[redis] "

  /**
   * The panic message `Connect` raises on exit when errors are held: the
   * prefix, then the errors one per line, the first one first.
   */
  function Aggregate(errs: seq<string>): (m: string)
    ensures |m| >= |AggregatePrefix| && m[..|AggregatePrefix|] == AggregatePrefix
    ensures errs != [] ==> |m| >= |AggregatePrefix| + |errs[0]|
    ensures errs != [] ==> m[|AggregatePrefix|..|AggregatePrefix| + |errs[0]|] == errs[0]
  {
    AggregatePrefix + Text.Join(errs, "\n")
  }

  /**
   * No error is lost in the aggregated message: when no error spans several
   * lines, the lines after the prefix are exactly the errors, in order.
   */
  lemma AggregateLines(errs: seq<string>)
    requires errs != []
    requires forall i :: 0 <= i < |errs| ==> '\n' !in errs[i]
    ensures Text.Split(Aggregate(errs)[|AggregatePrefix|..], '\n') == errs
  {
    assert Aggregate(errs)[|AggregatePrefix|..] == Text.Join(errs, ['\n']);
    Text.SplitJoin(errs, '\n');
  }

  /** A `*redis.Client`: an opaque handle built from an options record. */
  class Handle {
    const options: ClientOptions

    constructor (options: ClientOptions)
      ensures this.options == options
    {
      this.options := options;
    }
  }

  /** The variadic `name ...string` of `Client`: a nil slice or a slice of names. */
  datatype Names = Nil | Slice(items: seq<string>)

  /** How a call ends: normally, or with a panic carrying its message. */
  datatype Outcome = Done | Panic(message: string)

  /** No name occurs twice in `order`. */
  predicate Distinct(order: seq<string>)
  {
    forall i, j :: 0 <= i < j < |order| ==> order[i] != order[j]
  }

  /** Every name of `order` is one of `keys`. */
  predicate Within(order: seq<string>, keys: set<string>)
  {
    forall i :: 0 <= i < |order| ==> order[i] in keys
  }

  /** `order` lists every one of `keys` exactly once: one iteration order of a Go map. */
  ghost predicate Enumerates(order: seq<string>, keys: set<string>)
  {
    && Distinct(order)
    && Within(order, keys)
    && (forall n :: n in keys ==> n in order)
  }

  /** `newRedis` as a function of the configuration alone. */
  function NewRedisWith(x509: X509): Config -> Result<ClientOptions>
  {
    (c: Config) => NewRedis(c, x509)
  }

  /** What `newRedis` yields for each configured name. */
  function Builds(configs: map<string, Config>, build: Config -> Result<ClientOptions>): (builds: map<string, Result<ClientOptions>>)
    ensures builds.Keys == configs.Keys
    ensures forall n :: n in configs ==> builds[n] == build(configs[n])
  {
    map n | n in configs :: build(configs[n])
  }

  /** The error a name's probe contributes: one message if it failed, none otherwise. */
  function ErrorOf(name: string, probe: string -> Option<string>): seq<string>
  {
    match probe(name)
    case Some(e) => [e]
    case None => []
  }

  /** The errors the probes of `order` contribute, in order. */
  function ProbeErrors(order: seq<string>, probe: string -> Option<string>): seq<string>
  {
    if order == [] then [] else ErrorOf(order[0], probe) + ProbeErrors(order[1..], probe)
  }

  /** The names of `order` whose probe succeeds. */
  function Succeeded(order: seq<string>, probe: string -> Option<string>): set<string>
  {
    set n | n in order && probe(n).None?
  }

  /** The names of `order` whose probe fails. */
  function Failed(order: seq<string>, probe: string -> Option<string>): set<string>
  {
    set n | n in order && probe(n).Some?
  }

  /**
   * How many entries `Connect` gets through: the index of the first entry
   * whose client cannot be built (a TLS panic), or all of them.
   */
  function Reached(builds: map<string, Result<ClientOptions>>, order: seq<string>): (k: nat)
    requires Within(order, builds.Keys)
    ensures k <= |order|
    ensures forall i :: 0 <= i < k ==> builds[order[i]].Ok?
    ensures k < |order| ==> builds[order[k]].Err?
  {
    if order == [] then 0
    else if builds[order[0]].Err? then 0
    else 1 + Reached(builds, order[1..])
  }

  /** Appending one more entry appends its error, if any. */
  lemma {:induction false} ProbeErrorsLast(order: seq<string>, name: string, probe: string -> Option<string>)
    ensures ProbeErrors(order + [name], probe) == ProbeErrors(order, probe) + ErrorOf(name, probe)
    decreases |order|
  {
    if order == [] {
      assert ProbeErrors([name], probe) == ErrorOf(name, probe) + ProbeErrors([], probe);
    } else {
      ProbeErrorsLast(order[1..], name, probe);
      assert (order + [name])[1..] == order[1..] + [name];
    }
  }

  /** Appending one more entry adds its name to the successes exactly when its probe succeeds. */
  lemma SucceededLast(order: seq<string>, name: string, probe: string -> Option<string>)
    ensures Succeeded(order + [name], probe) == Succeeded(order, probe) + (if probe(name).None? then {name} else {})
  {
  }

  /** No error is recorded exactly when every probe succeeds. */
  lemma {:induction false} ProbeErrorsEmpty(order: seq<string>, probe: string -> Option<string>)
    ensures ProbeErrors(order, probe) == [] <==> forall i :: 0 <= i < |order| ==> probe(order[i]).None?
    decreases |order|
  {
    if order != [] {
      ProbeErrorsEmpty(order[1..], probe);
      assert forall i :: 1 <= i < |order| ==> order[i] == order[1..][i - 1];
    }
  }

  /** Each failed probe contributes exactly one error. */
  lemma {:induction false} ProbeErrorsCount(order: seq<string>, probe: string -> Option<string>)
    requires Distinct(order)
    ensures |ProbeErrors(order, probe)| == |Failed(order, probe)|
    decreases |order|
  {
    if order != [] {
      var x, rest := order[0], order[1..];
      assert order == [x] + rest;
      DistinctTail(order);
      ProbeErrorsCount(rest, probe);
      assert |ProbeErrors(order, probe)| == |ErrorOf(x, probe)| + |ProbeErrors(rest, probe)|;
      if probe(x).Some? {
        assert Failed(order, probe) == Failed(rest, probe) + {x};
        assert x !in Failed(rest, probe);
      } else {
        assert Failed(order, probe) == Failed(rest, probe);
      }
    }
  }

  /** The tail of a list of distinct names is distinct and misses the head. */
  lemma DistinctTail(order: seq<string>)
    requires Distinct(order) && order != []
    ensures Distinct(order[1..]) && order[0] !in order[1..]
  {
  }

  // ---------------------------------------------------------------------
  // What one Connect call does, as values

  /**
   * The effect of a `Connect` call so far: the options of the handles
   * installed, the error list, how many installed handles were replaced (and
   * closed), and the panic raised while building a client, if any.
   */
  datatype Batch = Batch(installed: map<string, ClientOptions>, errs: seq<string>, closes: nat, fault: Option<string>)

  /** The start of `Connect`: a fresh empty map, and the errors held from earlier calls. */
  function Fresh(errs: seq<string>): Batch
  {
    Batch(map[], errs, 0, None)
  }

  /**
   * One pass of the loop for the entry `name`: build a client (a TLS panic
   * ends the loop), probe it, then record the error or install the options
   * of a second client built the same way. After a panic nothing changes.
   */
  function Step(b: Batch, name: string, built: Result<ClientOptions>, probe: string -> Option<string>): Batch
  {
    if b.fault.Some? then b
    else
      match built
      case Err(e) => b.(fault := Some(e))
      case Ok(o) =>
        match probe(name)
        case Some(e) => b.(errs := b.errs + [e])
        case None =>
          b.(installed := b.installed[name := o],
             closes := if name in b.installed then b.closes + 1 else b.closes)
  }

  /** The loop of `Connect` over the entries of `order`, in order. */
  function Run(start: Batch, builds: map<string, Result<ClientOptions>>, order: seq<string>,
               probe: string -> Option<string>): Batch
    requires Within(order, builds.Keys)
    decreases |order|
  {
    if order == [] then start
    else
      var last := order[|order| - 1];
      Step(Run(start, builds, order[..|order| - 1], probe), last, builds[last], probe)
  }

  /**
   * The deferred check on exit: held errors win over a build panic (as
   * `recover` sees it), a build panic alone propagates, and otherwise the
   * call returns normally.
   */
  function Exit(b: Batch): (r: Outcome)
    ensures r.Done? <==> b.errs == [] && b.fault.None?
    ensures b.errs != [] ==> r == Panic(Aggregate(b.errs))
    ensures b.errs == [] && b.fault.Some? ==> r == Panic(b.fault.value)
  {
    if b.errs != [] then Panic(Aggregate(b.errs))
    else if b.fault.Some? then Panic(b.fault.value)
    else Done
  }

  /** Once a panic is raised, the remaining entries change nothing. */
  lemma {:induction false} RunAfterFault(start: Batch, builds: map<string, Result<ClientOptions>>,
                                         s: seq<string>, t: seq<string>, probe: string -> Option<string>)
    requires Within(s, builds.Keys) && Within(t, builds.Keys)
    requires Run(start, builds, s, probe).fault.Some?
    ensures Within(s + t, builds.Keys)
    ensures Run(start, builds, s + t, probe) == Run(start, builds, s, probe)
    decreases |t|
  {
    WithinConcat(s, t, builds.Keys);
    if t == [] {
      assert s + t == s;
    } else {
      var t' := t[..|t| - 1];
      assert Within(t', builds.Keys);
      RunAfterFault(start, builds, s, t', probe);
      assert (s + t)[..|s + t| - 1] == s + t';
    }
  }

  /** A run that has raised a panic after its first `i` entries ends as it was then. */
  lemma RunStuck(start: Batch, builds: map<string, Result<ClientOptions>>, order: seq<string>, i: nat,
                 probe: string -> Option<string>)
    requires Within(order, builds.Keys) && i <= |order|
    requires i < |order| ==> Run(start, builds, order[..i], probe).fault.Some?
    ensures Run(start, builds, order, probe) == Run(start, builds, order[..i], probe)
  {
    if i < |order| {
      RunAfterFault(start, builds, order[..i], order[i..], probe);
      assert order[..i] + order[i..] == order;
    } else {
      assert order[..i] == order;
    }
  }

  /** One more entry of `order` is one more `Step`. */
  lemma RunNext(start: Batch, builds: map<string, Result<ClientOptions>>, order: seq<string>, i: nat,
                probe: string -> Option<string>)
    requires Within(order, builds.Keys) && i < |order|
    ensures Within(order[..i], builds.Keys)
    ensures Run(start, builds, order[..i + 1], probe)
         == Step(Run(start, builds, order[..i], probe), order[i], builds[order[i]], probe)
  {
    assert order[..i + 1][..i] == order[..i];
  }

  /** A run installs only names it visited. */
  lemma {:induction false} RunInstallsVisited(start: Batch, builds: map<string, Result<ClientOptions>>,
                                              order: seq<string>, probe: string -> Option<string>)
    requires Within(order, builds.Keys)
    ensures forall n :: n in Run(start, builds, order, probe).installed ==> n in start.installed || n in order
    decreases |order|
  {
    if order != [] {
      RunInstallsVisited(start, builds, order[..|order| - 1], probe);
    }
  }

  /** Over distinct names, a run from a fresh map never replaces a handle. */
  lemma {:induction false} RunReplacesNothing(e: seq<string>, builds: map<string, Result<ClientOptions>>,
                                              order: seq<string>, probe: string -> Option<string>)
    requires Within(order, builds.Keys) && Distinct(order)
    ensures Run(Fresh(e), builds, order, probe).closes == 0
    decreases |order|
  {
    if order != [] {
      var p := order[..|order| - 1];
      RunReplacesNothing(e, builds, p, probe);
      RunInstallsVisited(Fresh(e), builds, p, probe);
      assert order[|order| - 1] !in p;
    }
  }

  /** The same for every prefix of a distinct order. */
  lemma PrefixReplacesNothing(e: seq<string>, builds: map<string, Result<ClientOptions>>,
                              order: seq<string>, i: nat, probe: string -> Option<string>)
    requires Within(order, builds.Keys) && Distinct(order) && i <= |order|
    ensures Within(order[..i], builds.Keys)
    ensures Run(Fresh(e), builds, order[..i], probe).closes == 0
  {
    RunReplacesNothing(e, builds, order[..i], probe);
  }

  /** The entry after a clean prefix whose client cannot be built raises its panic. */
  lemma RunFaultAt(start: Batch, builds: map<string, Result<ClientOptions>>, order: seq<string>, k: nat,
                   probe: string -> Option<string>)
    requires Within(order, builds.Keys) && k < |order|
    requires Run(start, builds, order[..k], probe).fault.None? && builds[order[k]].Err?
    ensures Run(start, builds, order[..k + 1], probe)
         == Run(start, builds, order[..k], probe).(fault := Some(builds[order[k]].error))
  {
    assert order[..k + 1][..k] == order[..k];
  }

  /** Two lists of names within `keys` concatenate to one. */
  lemma WithinConcat(s: seq<string>, t: seq<string>, keys: set<string>)
    requires Within(s, keys) && Within(t, keys)
    ensures Within(s + t, keys)
  {
  }

  /**
   * A run in which every client builds: no panic, one error per failed
   * probe, exactly the successful names installed with the options their
   * configuration yields, and, the names being distinct, nothing replaced.
   */
  lemma {:induction false} RunClean(e: seq<string>, builds: map<string, Result<ClientOptions>>, order: seq<string>,
                                    probe: string -> Option<string>)
    requires Within(order, builds.Keys) && Distinct(order)
    requires forall i :: 0 <= i < |order| ==> builds[order[i]].Ok?
    ensures Run(Fresh(e), builds, order, probe).fault.None?
    ensures Run(Fresh(e), builds, order, probe).errs == e + ProbeErrors(order, probe)
    ensures Run(Fresh(e), builds, order, probe).installed.Keys == Succeeded(order, probe)
    ensures Run(Fresh(e), builds, order, probe).closes == 0
    ensures forall n :: n in Run(Fresh(e), builds, order, probe).installed ==>
      n in builds && builds[n] == Ok(Run(Fresh(e), builds, order, probe).installed[n])
    decreases |order|
  {
    if order == [] {
      assert e + ProbeErrors(order, probe) == e;
    } else {
      var p := order[..|order| - 1];
      var x := order[|order| - 1];
      assert order == p + [x];
      RunClean(e, builds, p, probe);
      ProbeErrorsLast(p, x, probe);
      SucceededLast(p, x, probe);
      assert x !in p;
    }
  }

  /**
   * What a `Connect` call over a full iteration order leaves in the
   * registry. With `k` the index of the first entry whose client cannot be
   * built (or the number of entries): exactly the names before `k` whose
   * probe succeeded, each with the options its own configuration yields,
   * and no handle replaced.
   */
  lemma ConnectInstalls(e: seq<string>, builds: map<string, Result<ClientOptions>>, order: seq<string>,
                        probe: string -> Option<string>)
    requires Enumerates(order, builds.Keys)
    ensures Run(Fresh(e), builds, order, probe).installed.Keys == Succeeded(order[..Reached(builds, order)], probe)
    ensures forall n :: n in Run(Fresh(e), builds, order, probe).installed ==>
      n in builds && builds[n] == Ok(Run(Fresh(e), builds, order, probe).installed[n])
    ensures Run(Fresh(e), builds, order, probe).closes == 0
  {
    RunSettles(e, builds, order, probe);
  }

  /**
   * The errors and the panic a `Connect` call leaves: one error appended
   * per failed probe before the first entry whose client cannot be built,
   * and that entry's panic, if there is one.
   */
  lemma ConnectErrors(e: seq<string>, builds: map<string, Result<ClientOptions>>, order: seq<string>,
                      probe: string -> Option<string>)
    requires Enumerates(order, builds.Keys)
    ensures Run(Fresh(e), builds, order, probe).errs == e + ProbeErrors(order[..Reached(builds, order)], probe)
    ensures Reached(builds, order) < |order| ==>
      Run(Fresh(e), builds, order, probe).fault == Some(builds[order[Reached(builds, order)]].error)
    ensures Reached(builds, order) == |order| ==> Run(Fresh(e), builds, order, probe).fault.None?
  {
    RunSettles(e, builds, order, probe);
  }

  /** A whole run is the clean run of the entries before the first failing build, plus that build's panic. */
  lemma RunSettles(e: seq<string>, builds: map<string, Result<ClientOptions>>, order: seq<string>,
                   probe: string -> Option<string>)
    requires Enumerates(order, builds.Keys)
    ensures Within(order[..Reached(builds, order)], builds.Keys)
    ensures Run(Fresh(e), builds, order, probe)
         == var clean := Run(Fresh(e), builds, order[..Reached(builds, order)], probe);
            if Reached(builds, order) < |order|
            then clean.(fault := Some(builds[order[Reached(builds, order)]].error))
            else clean
    ensures Run(Fresh(e), builds, order[..Reached(builds, order)], probe).fault.None?
    ensures Run(Fresh(e), builds, order[..Reached(builds, order)], probe).errs
         == e + ProbeErrors(order[..Reached(builds, order)], probe)
    ensures Run(Fresh(e), builds, order[..Reached(builds, order)], probe).installed.Keys
         == Succeeded(order[..Reached(builds, order)], probe)
    ensures Run(Fresh(e), builds, order[..Reached(builds, order)], probe).closes == 0
    ensures forall n :: n in Run(Fresh(e), builds, order[..Reached(builds, order)], probe).installed ==>
      n in builds && builds[n] == Ok(Run(Fresh(e), builds, order[..Reached(builds, order)], probe).installed[n])
  {
    var k := Reached(builds, order);
    RunClean(e, builds, order[..k], probe);
    if k < |order| {
      RunFaultAt(Fresh(e), builds, order, k, probe);
      RunStuck(Fresh(e), builds, order, k + 1, probe);
    } else {
      RunStuck(Fresh(e), builds, order, k, probe);
    }
  }

  /**
   * When every configuration builds, the outcome does not depend on the
   * iteration order: the registry holds exactly the configured names whose
   * probe succeeded, each failed probe adds exactly one error, and no panic
   * is raised while building.
   */
  lemma ConnectOrderFree(e: seq<string>, builds: map<string, Result<ClientOptions>>, order: seq<string>,
                         probe: string -> Option<string>)
    requires Enumerates(order, builds.Keys)
    requires forall n :: n in builds ==> builds[n].Ok?
    ensures Run(Fresh(e), builds, order, probe).installed.Keys == (set n | n in builds && probe(n).None?)
    ensures |Run(Fresh(e), builds, order, probe).errs| == |e| + |set n | n in builds && probe(n).Some?|
    ensures Run(Fresh(e), builds, order, probe).fault.None?
  {
    var k := Reached(builds, order);
    assert order[..k] == order;
    ConnectInstalls(e, builds, order, probe);
    ConnectErrors(e, builds, order, probe);
    ProbeErrorsCount(order, probe);
    assert Failed(order, probe) == (set n | n in builds && probe(n).Some?);
  }

  /**
   * How `Connect` ends: it returns normally exactly when no error is held
   * (from this call or an earlier one), every client could be built and
   * every probe succeeded; held errors always end it with their aggregate.
   */
  lemma ConnectOutcome(e: seq<string>, builds: map<string, Result<ClientOptions>>, order: seq<string>,
                       probe: string -> Option<string>)
    requires Enumerates(order, builds.Keys)
    ensures e != [] ==> Exit(Run(Fresh(e), builds, order, probe)) == Panic(Aggregate(Run(Fresh(e), builds, order, probe).errs))
    ensures Exit(Run(Fresh(e), builds, order, probe)) == Done <==>
      && e == []
      && (forall n :: n in builds ==> builds[n].Ok?)
      && (forall n :: n in builds ==> probe(n).None?)
  {
    var k := Reached(builds, order);
    ConnectErrors(e, builds, order, probe);
    ProbeErrorsEmpty(order[..k], probe);
    if Exit(Run(Fresh(e), builds, order, probe)) == Done {
      assert order[..k] == order;
      forall n | n in builds ensures builds[n].Ok? && probe(n).None? {
        var i :| 0 <= i < |order| && order[i] == n;
      }
    }
  }

  /** The package state of redis.go: `redisList`, `errs`, and the handles closed so far. */
  class Registry {
    /** `redisList`: connection name to client handle. */
    var clients: map<string, Handle>
    /** `errs`: probe errors, accumulated over all `Connect` calls. */
    var errs: seq<string>
    /** Handles `Connect` has closed (`Close()`), oldest first. */
    var closed: seq<Handle>

    /** The zero-valued globals: a nil map and a nil slice. */
    constructor ()
      ensures clients == map[] && errs == [] && closed == []
    {
      clients := map[];
      errs := [];
      closed := [];
    }

    /**
     * `Client(name...)`: the handle under the first name given, or under
     * "default" when none is given; a missing name panics with a message
     * that names it.
     */
    function Client(name: Names): (r: Result<Handle>)
      reads this
      ensures name.Nil? ==> (r.Ok? <==> DefaultName in clients)
      ensures name.Nil? && r.Ok? ==> r.value == clients[DefaultName]
      ensures name.Nil? && r.Err? ==> r.error == NotConfigured(DefaultName)
      ensures name.Slice? && name.items != [] ==> (r.Ok? <==> name.items[0] in clients)
      ensures name.Slice? && name.items != [] && r.Ok? ==> r.value == clients[name.items[0]]
      ensures name.Slice? && name.items != [] && r.Err? ==> r.error == NotConfigured(name.items[0])
      ensures name == Slice([]) ==> r == Err(IndexOutOfRange)
    {
      if name.Slice? && |name.items| == 0 then Err(IndexOutOfRange)
      else
        var key := if name.Nil? then DefaultName else name.items[0];
        if key in clients then Ok(clients[key]) else Err(NotConfigured(key))
    }

    /** The registry holds, as handles, what `b` describes. */
    ghost predicate Mirrors(b: Batch)
      reads this
    {
      && clients.Keys == b.installed.Keys
      && (forall n :: n in clients ==> clients[n].options == b.installed[n])
      && errs == b.errs
    }

    /**
     * One pass of the loop in `Connect` for the entry `name`, with `build`
     * standing for `newRedis`: it does to the registry what `Step`
     * describes. The probed handle is dropped, a second one is built for
     * the registry, and an existing handle under `name` is replaced and then
     * closed.
     */
    method Visit(name: string, conf: Config, probe: string -> Option<string>, build: Config -> Result<ClientOptions>, ghost b: Batch)
      returns (fault: Option<string>)
      requires b.fault.None? && Mirrors(b)
      modifies this
      ensures Mirrors(Step(b, name, build(conf), probe))
      ensures fault == Step(b, name, build(conf), probe).fault
      ensures forall n :: n in clients ==> (n in old(clients) && clients[n] == old(clients)[n]) || fresh(clients[n])
      ensures forall n :: n in old(clients) && n != name ==> n in clients && clients[n] == old(clients)[n]
      ensures build(conf).Ok? && probe(name).None? ==> name in clients && fresh(clients[name])
      ensures build(conf).Err? || probe(name).Some? ==> clients == old(clients) && closed == old(closed)
      ensures Step(b, name, build(conf), probe).closes == b.closes ==> closed == old(closed)
      ensures Step(b, name, build(conf), probe).closes != b.closes ==> name in old(clients) && closed == old(closed) + [old(clients)[name]]
    {
      ghost var next := Step(b, name, build(conf), probe);
      var built := build(conf);
      if built.Err? {
        assert next == b.(fault := Some(built.error));
        return Some(built.error);
      }
      var probed := new Handle(built.value);
      var err := probe(name);
      if err.Some? {
        errs := errs + [err.value];
        assert next == b.(errs := errs);
        return None;
      }
      var client := new Handle(build(conf).value);
      assert next.installed == b.installed[name := client.options];
      if name in clients {
        var previous := clients[name];
        clients := clients[name := client];
        closed := closed + [previous];
      } else {
        clients := clients[name := client];
      }
      return None;
    }

    /**
     * The loop of `Connect` over the entries of `order`, from the freshly
     * reset registry: the registry ends up as `Run` describes, holding only
     * new handles, and nothing is closed.
     */
    method Fill(configs: map<string, Config>, order: seq<string>, probe: string -> Option<string>,
                build: Config -> Result<ClientOptions>, ghost builds: map<string, Result<ClientOptions>>)
      returns (fault: Option<string>)
      requires Enumerates(order, configs.Keys) && builds == Builds(configs, build)
      requires clients == map[]
      modifies this
      ensures Mirrors(Run(Fresh(old(errs)), builds, order, probe))
      ensures fault == Run(Fresh(old(errs)), builds, order, probe).fault
      ensures forall n :: n in clients ==> fresh(clients[n])
      ensures closed == old(closed)
    {
      ghost var start := Fresh(errs);
      fault := None;
      var i := 0;
      while i < |order| && fault.None?
        invariant 0 <= i <= |order|
        invariant Within(order[..i], builds.Keys)
        invariant fault == Run(start, builds, order[..i], probe).fault
        invariant Mirrors(Run(start, builds, order[..i], probe))
        invariant forall n :: n in clients ==> fresh(clients[n])
        invariant closed == old(closed)
        decreases |order| - i
      {
        var name := order[i];
        ghost var before := Run(start, builds, order[..i], probe);
        RunNext(start, builds, order, i, probe);
        PrefixReplacesNothing(start.errs, builds, order, i, probe);
        PrefixReplacesNothing(start.errs, builds, order, i + 1, probe);
        assert builds[name] == build(configs[name]);
        fault := Visit(name, configs[name], probe, build, before);
        i := i + 1;
      }
      RunStuck(start, builds, order, i, probe);
    }

    /**
     * `Connect(configs)`, visiting the entries in `order`: the registry is
     * replaced by a fresh map and then ends up as `Run` describes (see
     * `ConnectInstalls` and `ConnectErrors`); nothing is closed; and the
     * call ends as the deferred check decides (see `ConnectOutcome`).
     */
    method Connect(configs: map<string, Config>, order: seq<string>, probe: string -> Option<string>, x509: X509)
      returns (outcome: Outcome)
      requires Enumerates(order, configs.Keys)
      modifies this
      ensures Mirrors(Run(Fresh(old(errs)), Builds(configs, NewRedisWith(x509)), order, probe))
      ensures forall n :: n in clients ==> fresh(clients[n])
      ensures closed == old(closed)
      ensures outcome == Exit(Run(Fresh(old(errs)), Builds(configs, NewRedisWith(x509)), order, probe))
    {
      clients := map[];
      var build := NewRedisWith(x509);
      var fault := Fill(configs, order, probe, build, Builds(configs, build));
      if errs != [] {
        outcome := Panic(Aggregate(errs));
      } else if fault.Some? {
        outcome := Panic(fault.value);
      } else {
        outcome := Done;
      }
    }
  }
}

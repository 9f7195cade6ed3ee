/** The dispatch registry: an append-only list of adapters, the fan-out of
    one alert to all of them with each fault kept to its own adapter, and
    loading from configuration. The fan-out runs one adapter after another
    here; the source runs them concurrently and waits for all. */
module Registry {
  import opened Wrappers
  import opened Alerts
  import opened Transport
  import opened Config
  import opened Adapters
  import Metrics
  import Factory

  /** One adapter invocation: which adapter, with which alert, and what came of it. */
  datatype Invocation = Invocation(processor: AlertProcessor, alert: Alert, outcome: Outcome)

  /** How many invocations in `log` had outcome `o`. */
  function CountOf(log: seq<Invocation>, o: Outcome): (n: nat)
    ensures n <= |log|
  {
    if log == [] then 0
    else CountOf(log[..|log| - 1], o) + (if log[|log| - 1].outcome == o then 1 else 0)
  }

  /** Every invocation has exactly one of the four outcomes. */
  lemma {:induction false} CountsPartition(log: seq<Invocation>)
    ensures CountOf(log, Delivered) + CountOf(log, TxError) + CountOf(log, Fault) + CountOf(log, Logged) == |log|
  {
    if log != [] {
      CountsPartition(log[..|log| - 1]);
    }
  }

  /** What one descriptor contributes: its adapter, when it is enabled and builds. */
  function Pick(d: ProcessorConfig): seq<AlertProcessor>
  {
    if d.enabled && Factory.Create(d).Success? then [Factory.Create(d).value] else []
  }

  /** The adapters `LoadFromConfig` registers for a descriptor list, in order. */
  function Loaded(ds: seq<ProcessorConfig>): (ps: seq<AlertProcessor>)
    ensures |ps| <= |ds|
  {
    if ds == [] then [] else Loaded(ds[..|ds| - 1]) + Pick(ds[|ds| - 1])
  }

  /** Loading a concatenation appends the loads: configuration order is kept. */
  lemma {:induction false} LoadedAppend(xs: seq<ProcessorConfig>, ys: seq<ProcessorConfig>)
    ensures Loaded(xs + ys) == Loaded(xs) + Loaded(ys)
  {
    if ys == [] {
      assert xs + ys == xs;
    } else {
      assert (xs + ys)[..|xs + ys| - 1] == xs + ys[..|ys| - 1];
      LoadedAppend(xs, ys[..|ys| - 1]);
    }
  }

  /** Exactly the enabled descriptors that build contribute: every loaded
      adapter comes from one, and every such descriptor's adapter is loaded. */
  lemma {:induction false} LoadedExactly(ds: seq<ProcessorConfig>)
    ensures forall p :: p in Loaded(ds) ==>
      exists i :: 0 <= i < |ds| && ds[i].enabled && Factory.Create(ds[i]) == Success(p)
    ensures forall i :: 0 <= i < |ds| && ds[i].enabled && Factory.Create(ds[i]).Success? ==>
      Factory.Create(ds[i]).value in Loaded(ds)
  {
    if ds != [] {
      var init := ds[..|ds| - 1];
      LoadedExactly(init);
      forall p | p in Loaded(ds)
        ensures exists i :: 0 <= i < |ds| && ds[i].enabled && Factory.Create(ds[i]) == Success(p)
      {
        if p in Loaded(init) {
          var i :| 0 <= i < |init| && init[i].enabled && Factory.Create(init[i]) == Success(p);
          assert ds[i] == init[i];
        } else {
          assert ds[|ds| - 1].enabled && Factory.Create(ds[|ds| - 1]) == Success(p);
        }
      }
      forall i | 0 <= i < |ds| && ds[i].enabled && Factory.Create(ds[i]).Success?
        ensures Factory.Create(ds[i]).value in Loaded(ds)
      {
        if i < |init| {
          assert ds[i] == init[i];
        }
      }
    }
  }

  /** A list whose descriptors are all disabled loads nothing. */
  lemma {:induction false} DisabledLoadsNothing(ds: seq<ProcessorConfig>)
    requires forall i :: 0 <= i < |ds| ==> !ds[i].enabled
    ensures Loaded(ds) == []
  {
    if ds != [] {
      DisabledLoadsNothing(ds[..|ds| - 1]);
    }
  }

  class Registry {
    var processors: seq<AlertProcessor>

    /** `NewRegistry`: no adapters yet. */
    constructor ()
      ensures processors == []
    {
      processors := [];
    }

    /** `Register`: appends at the end; the old list stays a prefix. */
    method Register(p: AlertProcessor)
      modifies this
      ensures processors == old(processors) + [p]
    {
      processors := processors + [p];
    }

    /** `ProcessAlert`: every registered adapter is invoked exactly once, in
        list order, with the same alert; `net(i)` is the reply the i-th
        adapter's single attempt gets. A fault in one adapter is recovered
        and the rest still run; nothing is returned to the caller but the
        trace, and the adapter list is left as it was. With no adapters it
        does nothing. */
    method ProcessAlert(alert: Alert, net: nat -> Reply, render: Alert -> string, m: Metrics.Counters)
      returns (log: seq<Invocation>)
      modifies m
      ensures unchanged(this)
      ensures |log| == |processors|
      ensures forall i :: 0 <= i < |log| ==>
        log[i] == Invocation(processors[i], alert, OutcomeOf(processors[i], net(i)))
      ensures m.received == old(m.received)
      ensures m.processed == old(m.processed) + CountOf(log, Delivered)
      ensures m.errors == old(m.errors) + CountOf(log, TxError)
    {
      log := [];
      if |processors| == 0 {
        return;
      }
      var i := 0;
      while i < |processors|
        invariant 0 <= i <= |processors|
        invariant |log| == i
        invariant forall j :: 0 <= j < i ==>
          log[j] == Invocation(processors[j], alert, OutcomeOf(processors[j], net(j)))
        invariant m.received == old(m.received)
        invariant m.processed == old(m.processed) + CountOf(log, Delivered)
        invariant m.errors == old(m.errors) + CountOf(log, TxError)
      {
        var o := Adapters.Process(processors[i], alert, render(alert), net(i), m);
        assert (log + [Invocation(processors[i], alert, o)])[..i] == log;
        log := log + [Invocation(processors[i], alert, o)];
        i := i + 1;
      }
    }

    /** `LoadFromConfig`: registers, in configuration order, the adapter of
        every enabled descriptor whose construction succeeds, skipping the
        rest; it always returns no error. */
    method LoadFromConfig(cfg: Config) returns (err: Option<string>)
      modifies this
      ensures err == None
      ensures processors == old(processors) + Loaded(cfg.processors)
    {
      var factory := new Factory.Factory();
      var ds := cfg.processors;
      var i := 0;
      while i < |ds|
        invariant 0 <= i <= |ds|
        invariant processors == old(processors) + Loaded(ds[..i])
      {
        assert ds[..i + 1][..i] == ds[..i];
        var d := ds[i];
        if !d.enabled {
          i := i + 1;
          continue;
        }
        var p := factory.CreateProcessor(d);
        if p.Failure? {
          i := i + 1;
          continue;
        }
        Register(p.value);
        i := i + 1;
      }
      assert ds[..i] == ds;
      return None;
    }

    /** `GetProcessorCount`. */
    method GetProcessorCount() returns (n: nat)
      ensures n == |processors|
    {
      n := |processors|;
    }
  }
}

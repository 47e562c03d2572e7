/** Reachable states of the server, and what may still follow. */
module Runs {
  import opened Protocol

  ghost predicate Reachable(cfg: Config, start: nat, s: State) {
    exists es :: s == Run(cfg, start, es)
  }

  lemma StepReaches(cfg: Config, start: nat, s: State, e: Event)
    requires Reachable(cfg, start, s)
    ensures Reachable(cfg, start, Step(cfg, s, e))
  {
    var es :| s == Run(cfg, start, es);
    assert (es + [e])[..|es|] == es;
    assert Step(cfg, s, e) == Run(cfg, start, es + [e]);
  }

  /** The state after a continuation of `s`. */
  function After(cfg: Config, s: State, more: seq<Event>): State {
    if more == [] then s else Step(cfg, After(cfg, s, more[..|more| - 1]), more[|more| - 1])
  }

  lemma {:induction false} AfterRun(cfg: Config, start: nat, es: seq<Event>, more: seq<Event>)
    ensures After(cfg, Run(cfg, start, es), more) == Run(cfg, start, es + more)
  {
    if more == [] {
      assert es + more == es;
    } else {
      var init := more[..|more| - 1];
      assert (es + more)[..|es + more| - 1] == es + init;
      AfterRun(cfg, start, es, init);
    }
  }

  lemma AfterReaches(cfg: Config, start: nat, s: State, more: seq<Event>)
    requires Reachable(cfg, start, s)
    ensures Reachable(cfg, start, After(cfg, s, more))
  {
    var es :| s == Run(cfg, start, es);
    AfterRun(cfg, start, es, more);
  }

  lemma {:induction false} AfterAfter(cfg: Config, s: State, a: seq<Event>, b: seq<Event>)
    ensures After(cfg, After(cfg, s, a), b) == After(cfg, s, a + b)
  {
    if b == [] {
      assert a + b == a;
    } else {
      var init := b[..|b| - 1];
      assert (a + b)[..|a + b| - 1] == a + init;
      AfterAfter(cfg, s, a, init);
    }
  }

  lemma AfterOne(cfg: Config, s: State, e: Event)
    ensures After(cfg, s, [e]) == Step(cfg, s, e)
  {
    assert [e][..0] == [];
  }

  /** Some continuation of `s` ends in `e`. */
  ghost predicate Leads(cfg: Config, s: State, e: State) {
    exists more :: e == After(cfg, s, more)
  }

  lemma LeadsOn(cfg: Config, s: State, e: State, f: State)
    requires Leads(cfg, s, e) && Leads(cfg, e, f)
    ensures Leads(cfg, s, f)
  {
    var a :| e == After(cfg, s, a);
    var b :| f == After(cfg, e, b);
    AfterAfter(cfg, s, a, b);
  }

  lemma StepLeads(cfg: Config, s: State, e: Event)
    ensures Leads(cfg, s, Step(cfg, s, e))
  {
    AfterOne(cfg, s, e);
  }

  lemma LeadsReaches(cfg: Config, start: nat, s: State, e: State)
    requires Reachable(cfg, start, s) && Leads(cfg, s, e)
    ensures Reachable(cfg, start, e)
  {
    var more :| e == After(cfg, s, more);
    AfterReaches(cfg, start, s, more);
  }
}

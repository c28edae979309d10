/** The course of a lifespan (k2do/agent/loop.py, 341-807): every registrable catalogue can be
    served, and from every reachable state the active lifespan can come to its end, without
    any cancellation or failure. */
module McpCourse {
  import opened Prelude
  import opened ToolRegistry
  import opened McpFields
  import opened McpProtocol
  import opened McpTransport
  import opened McpLease
  import opened McpProgress

  // ---------- a lifespan that serves a catalogue ----------

  /** Task `t`, in a lifespan of its own at `pc`, on top of the state `s`. */
  function Inside(s: State, t: Task, context: Option<Token>, pc: Pc, f: Fields, gens: map<Gen, Transport>): State {
    s.(scopeLock := Some(t), tasks := s.tasks[t := TaskState(context, [Call(true, pc)], false)], f := f, gens := gens)
  }

  ghost predicate CanOpen(s: State, t: Task, gen: Gen, batch: seq<Tool>) {
    && s.scopeLock.None? && !s.closing && Live(s, t) && s.tasks[t].frames == [] && s.tasks[t].context.None?
    && gen !in s.gens && gen !in s.f.signals && Registrable(s.f.tools, batch)
  }

  function Waiting(s: State, t: Task): State {
    s.(tasks := s.tasks[t := TaskState(None, [Call(true, WaitScope)], false)])
  }

  lemma {:induction false} Overwritten(tasks: map<Task, TaskState>, t: Task, a: TaskState, b: TaskState)
    ensures tasks[t := a][t := b] == tasks[t := b]
  {
  }

  lemma {:induction false} GotoInside(s: State, t: Task, context: Option<Token>, pc: Pc, f: Fields, gens: map<Gen, Transport>, pc': Pc)
    ensures InCall(Inside(s, t, context, pc, f, gens), t)
    ensures Goto(Inside(s, t, context, pc, f, gens), t, pc') == Inside(s, t, context, pc', f, gens)
  {
    var frames := [Call(true, pc)];
    assert frames[0 := frames[0].(pc := pc')] == [Call(true, pc')];
    Overwritten(s.tasks, t, TaskState(context, frames, false), TaskState(context, [Call(true, pc')], false));
  }

  lemma {:induction false} Enters(s: State, t: Task)
    requires !s.closing && Live(s, t) && s.tasks[t].frames == [] && s.tasks[t].context.None?
    ensures Step(s, EnterLifespan(t)) == Waiting(s, t)
  {
    assert [] + [Call(true, WaitScope)] == [Call(true, WaitScope)];
  }

  lemma {:induction false} Takes(s: State, t: Task)
    requires !s.closing && s.scopeLock.None?
    ensures Enabled(Waiting(s, t), TakeScope(t)) && Step(Waiting(s, t), TakeScope(t)) == Inside(s, t, None, BeginConnect, s.f, s.gens)
  {
    var frames := [Call(true, WaitScope)];
    assert frames[0 := frames[0].(pc := BeginConnect)] == [Call(true, BeginConnect)];
    Overwritten(s.tasks, t, TaskState(None, frames, false), TaskState(None, [Call(true, BeginConnect)], false));
  }

  lemma {:induction false} Opens(s: State, t: Task, gen: Gen, batch: seq<Tool>)
    requires CanOpen(s, t, gen, batch)
    ensures Run(s, [EnterLifespan(t), TakeScope(t)], Inside(s, t, None, BeginConnect, s.f, s.gens))
  {
    Enters(s, t);
    Takes(s, t);
    RunTwo(s, EnterLifespan(t), Waiting(s, t), TakeScope(t), Inside(s, t, None, BeginConnect, s.f, s.gens));
  }

  lemma {:induction false} RunTwo(s: State, e: Event, s1: State, e1: Event, s2: State)
    requires Enabled(s, e) && Step(s, e) == s1 && Enabled(s1, e1) && Step(s1, e1) == s2
    ensures Run(s, [e, e1], s2)
  {
    assert [e, e1][1..] == [e1] && [e1][1..] == [];
    assert Run(s2, [], s2);
    assert Run(s1, [e1], s2);
  }

  lemma {:induction false} RunJoin(s: State, first: seq<Event>, mid: State, second: seq<Event>, end: State)
    requires Run(s, first, mid) && Run(mid, second, end)
    ensures Run(s, first + second, end)
    decreases |first|
  {
    if first == [] {
      assert first + second == second;
    } else {
      assert (first + second)[1..] == first[1..] + second;
      RunJoin(Step(s, first[0]), first[1..], mid, second, end);
    }
  }

  function Begun(s: State, gen: Gen, x: Transport): map<Gen, Transport> {
    s.gens[gen := x]
  }

  lemma {:induction false} Connects(s: State, t: Task, gen: Gen)
    requires s.f.transportTask.None? && !s.f.connected && gen !in s.gens && gen !in s.f.signals
    ensures var f := Initiated(s.f, t, gen);
            Run(Inside(s, t, None, BeginConnect, s.f, s.gens), [Connect(t, gen), OwnerRun(gen)],
                Inside(s, t, None, AwaitStart(gen, true), f, Begun(s, gen, Transport(Connecting, None, [], 0, 0))))
  {
    var f := Initiated(s.f, t, gen);
    var s0 := Inside(s, t, None, BeginConnect, s.f, s.gens);
    var s1 := Inside(s, t, None, AwaitStart(gen, true), f, Begun(s, gen, Transport(Created, None, [], 0, 0)));
    var s2 := Inside(s, t, None, AwaitStart(gen, true), f, Begun(s, gen, Transport(Connecting, None, [], 0, 0)));
    GotoInside(s, t, None, BeginConnect, s.f, s.gens, AwaitStart(gen, true));
    assert Step(s0, Connect(t, gen)) == s1;
    assert Step(s1, OwnerRun(gen)).gens == s2.gens;
    RunTwo(s0, Connect(t, gen), s1, OwnerRun(gen), s2);
  }

  lemma {:induction false} Publishes(s: State, t: Task, gen: Gen, batch: seq<Tool>, f: Fields)
    requires Registrable(f.tools, batch)
    ensures var f' := Publish(f.(tools := f.tools + batch), gen, batch);
            Run(Inside(s, t, None, AwaitStart(gen, true), f, Begun(s, gen, Transport(Connecting, None, [], 0, 0))),
                [OwnerRegister(gen, batch), OwnerPublish(gen)],
                Inside(s, t, None, AwaitStart(gen, true), f', Begun(s, gen, Transport(Serving, Some(true), batch, 0, 0))))
  {
    var g := f.(tools := f.tools + batch);
    var s0 := Inside(s, t, None, AwaitStart(gen, true), f, Begun(s, gen, Transport(Connecting, None, [], 0, 0)));
    var s1 := Inside(s, t, None, AwaitStart(gen, true), g, Begun(s, gen, Transport(Connecting, None, batch, 0, 0)));
    var s2 := Inside(s, t, None, AwaitStart(gen, true), Publish(g, gen, batch),
                     Begun(s, gen, Transport(Serving, Some(true), batch, 0, 0)));
    assert [] + batch == batch;
    assert Step(s0, OwnerRegister(gen, batch)).gens == s1.gens;
    assert Step(s1, OwnerPublish(gen)).gens == s2.gens;
    RunTwo(s0, OwnerRegister(gen, batch), s1, OwnerPublish(gen), s2);
  }

  lemma {:induction false} Activates(s: State, t: Task, f: Fields, gens: map<Gen, Transport>)
    ensures var s1 := Inside(s, t, None, Activating(true), f, gens);
            && Enabled(s1, ActivateScope(t, false))
            && Step(s1, ActivateScope(t, false)) ==
               Inside(s, t, Some(s.nextToken), Body(Hold(s.nextToken, true, None)), Activate(f, s.nextToken), gens)
                 .(nextToken := s.nextToken + 1)
  {
    var pc := Body(Hold(s.nextToken, true, None));
    GotoInside(s, t, None, Activating(true), f, gens, pc);
    Overwritten(s.tasks, t, TaskState(None, [Call(true, pc)], false), TaskState(Some(s.nextToken), [Call(true, pc)], false));
  }

  lemma {:induction false} Starts(s: State, t: Task, gen: Gen, f: Fields, gens: map<Gen, Transport>)
    requires gen in gens && gens[gen].started == Some(true)
    ensures Run(Inside(s, t, None, AwaitStart(gen, true), f, gens), [Started(t), ActivateScope(t, false)],
                Inside(s, t, Some(s.nextToken), Body(Hold(s.nextToken, true, None)), Activate(f, s.nextToken), gens)
                  .(nextToken := s.nextToken + 1))
  {
    var s0 := Inside(s, t, None, AwaitStart(gen, true), f, gens);
    var s1 := Inside(s, t, None, Activating(true), f, gens);
    var s2 := Inside(s, t, Some(s.nextToken), Body(Hold(s.nextToken, true, None)), Activate(f, s.nextToken), gens)
                .(nextToken := s.nextToken + 1);
    GotoInside(s, t, None, AwaitStart(gen, true), f, gens, Activating(true));
    Activates(s, t, f, gens);
    RunTwo(s0, Started(t), s1, ActivateScope(t, false), s2);
  }

  /** The events of a lifespan that connects and publishes `batch`. */
  function Openings(t: Task, gen: Gen, batch: seq<Tool>): seq<Event> {
    [EnterLifespan(t), TakeScope(t)] + [Connect(t, gen), OwnerRun(gen)]
    + [OwnerRegister(gen, batch), OwnerPublish(gen)] + [Started(t), ActivateScope(t, false)]
  }

  /** The fields while that lifespan stands in its body. */
  function ServingFields(f: Fields, t: Task, gen: Gen, batch: seq<Tool>, token: Token): Fields {
    f.(tools := f.tools + batch, stack := Some(gen), report := Some(gen), names := Names(batch), published := batch,
       connected := true, ownerTask := Some(t), transportTask := Some(gen), transportStarted := Some(gen),
       transportShutdown := Some(gen), activeToken := Some(token), accepting := true)
  }

  lemma {:induction false} Serves(s: State, t: Task, gen: Gen, batch: seq<Tool>) returns (end: State)
    requires CanOpen(s, t, gen, batch) && s.f.transportTask.None? && !s.f.connected
    ensures Run(s, Openings(t, gen, batch), end)
    ensures end.f == ServingFields(s.f, t, gen, batch, s.nextToken)
    ensures StandsInBody(end, t, s.nextToken) && end.tasks[t] == TaskState(Some(s.nextToken), end.tasks[t].frames, false)
    ensures |end.tasks[t].frames| == 1 && end.tasks == s.tasks[t := end.tasks[t]]
  {
    var f1 := Initiated(s.f, t, gen);
    var f2 := Publish(f1.(tools := f1.tools + batch), gen, batch);
    var s1 := Inside(s, t, None, BeginConnect, s.f, s.gens);
    var s2 := Inside(s, t, None, AwaitStart(gen, true), f1, Begun(s, gen, Transport(Connecting, None, [], 0, 0)));
    var s3 := Inside(s, t, None, AwaitStart(gen, true), f2, Begun(s, gen, Transport(Serving, Some(true), batch, 0, 0)));
    end := Inside(s, t, Some(s.nextToken), Body(Hold(s.nextToken, true, None)), Activate(f2, s.nextToken), s3.gens)
             .(nextToken := s.nextToken + 1);
    Opens(s, t, gen, batch);
    Connects(s, t, gen);
    Publishes(s, t, gen, batch, f1);
    Starts(s, t, gen, f2, s3.gens);
    var first, second := [EnterLifespan(t), TakeScope(t)], [Connect(t, gen), OwnerRun(gen)];
    var third, fourth := [OwnerRegister(gen, batch), OwnerPublish(gen)], [Started(t), ActivateScope(t, false)];
    RunJoin(s, first, s1, second, s2);
    RunJoin(s, first + second, s2, third, s3);
    RunJoin(s, first + second + third, s3, fourth, end);
  }

  /** In every run, whenever no lifespan is active and the agent is open, an idle task without
      an inherited token can open one that publishes any registrable catalogue: the registry
      is then the old one and the catalogue, and the task stands in its body under a fresh
      token that lends. */
  lemma {:induction false} EveryCatalogueCanBeServed(start: State, events: seq<Event>, s: State, t: Task, gen: Gen,
                                                     batch: seq<Tool>)
    returns (end: State)
    requires Initial(start) && Run(start, events, s) && Public(events) && CanOpen(s, t, gen, batch)
    ensures Run(s, Openings(t, gen, batch), end)
    ensures end.f == ServingFields(s.f, t, gen, batch, s.nextToken)
    ensures StandsInBody(end, t, s.nextToken) && Running(end, t) && end.tasks[t].context == Some(s.nextToken)
    ensures end.tasks == s.tasks[t := end.tasks[t]]
  {
    Reachable(start, events, s);
    end := Serves(s, t, gen, batch);
  }
}

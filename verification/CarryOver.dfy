/** The carry-over of `connect` (`src/client.rs`): each successful connect makes a new state
    object with its own session task, copies the packet identifiers and the subscription map
    into it and shares the trie. Here all state objects ever made stay side by side, and any
    task may run; the transition system of `Session`, with one state, is proved to be what
    remains of it. */
module CarryOver {
  import opened Topics
  import opened PacketIds
  import opened Session

  /** One state object, with the session task that belongs to it. */
  datatype StateObject = StateObject(
    ids: Ids<Ref>,
    subs: map<string, Subscription>,
    live: bool,
    reader: bool,
    writer: bool,
    outgoing: seq<Ref>)

  /** `shared` holds what no connect copies: status, call, tokens, trie. Its other fields are
      those of the state object touched last. */
  datatype World = World(shared: Client, states: seq<StateObject>)

  function ObjectOf(c: Client): StateObject {
    StateObject(c.ids, c.subs, c.live, c.reader, c.writer, c.outgoing)
  }

  const BEGINNING := World(Session.INITIAL, [ObjectOf(Session.INITIAL)])

  /** The client as seen through the state object `k`. */
  function View(w: World, k: nat): Client
    requires k < |w.states|
  {
    var o := w.states[k];
    w.shared.(ids := o.ids, subs := o.subs, live := o.live, reader := o.reader, writer := o.writer,
              outgoing := o.outgoing)
  }

  function Put(w: World, k: nat, c: Client): World
    requires k < |w.states|
  {
    World(c, w.states[k := ObjectOf(c)])
  }

  function Last(w: World): nat
    requires w.states != []
  {
    |w.states| - 1
  }

  /** Calls and `connect` work on the newest state object; a task on its own, `k`. */
  datatype WorldStep = ByClient(a: Action) | ByTask(k: nat, s: SessionStep)

  ghost predicate WorldEnabled(w: World, a: WorldStep) {
    && w.states != []
    && match a
       case ByClient(b) => !b.OfSession? && Enabled(View(w, Last(w)), b)
       case ByTask(k, s) => k < |w.states| && SessionEnabled(View(w, k), s)
  }

  ghost function WorldNext(w: World, a: WorldStep): World
    requires WorldEnabled(w, a)
  {
    match a
    case ByTask(k, s) => Put(w, k, SessionNext(View(w, k), s))
    case ByClient(b) =>
      var c := Next(View(w, Last(w)), b);
      if b == OfConnect(ConnectAccept) then World(c, w.states + [ObjectOf(c)])
      else Put(w, Last(w), c)
  }

  /** The state objects left behind have no task any more. */
  ghost predicate OthersEnded(w: World) {
    && w.states != []
    && forall k :: 0 <= k < Last(w) ==> !w.states[k].live && !w.states[k].reader && !w.states[k].writer
  }

  function AsAction(a: WorldStep): Action {
    match a
    case ByClient(b) => b
    case ByTask(_, s) => OfSession(s)
  }

  /** Only the newest state object has a task, so every step is a step of the client seen
      through it; and the objects left behind stay as they are. */
  lemma StepRefines(w: World, a: WorldStep)
    requires OthersEnded(w) && WorldEnabled(w, a) && StatusAgrees(View(w, Last(w)))
    ensures OthersEnded(WorldNext(w, a))
    ensures Enabled(View(w, Last(w)), AsAction(a))
    ensures View(WorldNext(w, a), Last(WorldNext(w, a))) == Next(View(w, Last(w)), AsAction(a))
    ensures forall k :: 0 <= k < Last(w) ==> WorldNext(w, a).states[k] == w.states[k]
  {
    match a
    case ByTask(k, s) =>
      TaskIsLast(w, k, s);
    case ByClient(b) =>
  }

  lemma TaskIsLast(w: World, k: nat, s: SessionStep)
    requires OthersEnded(w) && WorldEnabled(w, ByTask(k, s))
    ensures k == Last(w)
  {
  }

  ghost predicate IsWorldRun(run: seq<World>, steps: seq<WorldStep>) {
    && |run| == |steps| + 1
    && run[0] == BEGINNING
    && forall i :: 0 <= i < |steps| ==> WorldEnabled(run[i], steps[i]) && run[i + 1] == WorldNext(run[i], steps[i])
  }

  ghost predicate WorldInv(w: World) {
    OthersEnded(w) && Inv(View(w, Last(w)))
  }

  lemma {:induction false} RunKeeps(run: seq<World>, steps: seq<WorldStep>, n: nat)
    requires IsWorldRun(run, steps) && n < |run|
    ensures WorldInv(run[n])
  {
    if n == 0 {
      assert View(BEGINNING, 0) == Session.INITIAL;
    } else {
      RunKeeps(run, steps, n - 1);
      var w, a := run[n - 1], steps[n - 1];
      StepRefines(w, a);
      var c := View(w, Last(w));
      StepStatus(c, AsAction(a));
      StepRefs(c, AsAction(a));
      StepTokens(c, AsAction(a));
      StepMap(c, AsAction(a));
    }
  }

  /** Every run with all state objects is, seen through the newest one, a run of the client
      with a single state: copying and sharing cannot be told apart. */
  lemma RunRefines(run: seq<World>, steps: seq<WorldStep>) returns (clients: seq<Client>, actions: seq<Action>)
    requires IsWorldRun(run, steps)
    ensures IsRun(clients, actions) && |clients| == |run|
    ensures forall i :: 0 <= i < |run| ==> run[i].states != [] && clients[i] == View(run[i], Last(run[i]))
  {
    forall i | 0 <= i < |run| ensures WorldInv(run[i]) {
      RunKeeps(run, steps, i);
    }
    clients := seq(|run|, i requires 0 <= i < |run| => View(run[i], Last(run[i])));
    actions := seq(|steps|, i requires 0 <= i < |steps| => AsAction(steps[i]));
    assert View(BEGINNING, 0) == Session.INITIAL;
    forall i | 0 <= i < |actions|
      ensures Enabled(clients[i], actions[i]) && clients[i + 1] == Next(clients[i], actions[i])
    {
      StepRefines(run[i], steps[i]);
    }
  }

  /** At most one session task is ever live, that of the newest state object; and a state
      object left behind by a connect never changes again. */
  lemma {:induction false} LeftBehind(run: seq<World>, steps: seq<WorldStep>, m: nat, n: nat, k: nat)
    requires IsWorldRun(run, steps) && m <= n < |run| && k + 1 < |run[m].states|
    ensures k < |run[n].states| && !run[n].states[k].live && run[n].states[k] == run[m].states[k]
  {
    if m == n {
      RunKeeps(run, steps, m);
    } else {
      LeftBehind(run, steps, m, n - 1, k);
      StatesGrow(run, steps, m, n - 1);
      RunLeaves(run, steps, n, k);
    }
  }

  lemma RunLeaves(run: seq<World>, steps: seq<WorldStep>, n: nat, k: nat)
    requires IsWorldRun(run, steps) && 0 < n < |run| && k + 1 < |run[n - 1].states|
    ensures k < |run[n].states| && run[n].states[k] == run[n - 1].states[k]
  {
    RunKeeps(run, steps, n - 1);
    StepRefines(run[n - 1], steps[n - 1]);
  }

  lemma {:induction false} StatesGrow(run: seq<World>, steps: seq<WorldStep>, m: nat, n: nat)
    requires IsWorldRun(run, steps) && m <= n < |run|
    ensures |run[m].states| <= |run[n].states|
  {
    if m < n {
      StatesGrow(run, steps, m, n - 1);
    }
  }
}

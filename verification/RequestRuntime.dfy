/** agent/request_runtime.go and agent/agent.go: request-local clients and per-user flow locks,
    as objects and as an interleaving of every request's steps. */
module RequestRuntimes {
  import opened Seqs

  datatype Client = Client(model: string, key: string)

  const DEFAULT_USER := "default"

  function StoreUser(id: string): string {
    if id == "" then DEFAULT_USER else id
  }

  /** loadAIClientFromStoreUser: the usable client of that user alone. */
  function ClientFor(models: map<string, Client>, storeUser: string): Option<Client> {
    if StoreUser(storeUser) in models then Some(models[StoreUser(storeUser)]) else None
  }

  /** A user's client is the one stored for that user, the unnamed user's the one stored as "default";
      whatever is stored for anybody else makes no difference. */
  lemma NobodyElsesClient(models: map<string, Client>, others: map<string, Client>, storeUser: string)
    ensures var u := if storeUser == "" then "default" else storeUser;
            && (ClientFor(models, storeUser).Some? <==> u in models)
            && (u in models ==> ClientFor(models, storeUser) == Some(models[u]))
            && ((u in models <==> u in others) && (u in models ==> models[u] == others[u]) ==>
                  ClientFor(models, storeUser) == ClientFor(others, storeUser))
  {
  }

  // ------------------------------------------------------------------ the objects

  class Mutex {
    constructor () {}
  }

  class Store {
    var models: map<string, Client>

    constructor (models: map<string, Client>)
      ensures this.models == models
    {
      this.models := models;
    }
  }

  class Agent {
    const runtimeOwner: Agent?
    const store: Store?
    var aiClient: Option<Client>
    var flowLocks: map<int, Mutex>

    /** An owner serves itself; a runtime's owner is an owner. */
    ghost predicate Valid()
      reads this
    {
      runtimeOwner != null ==> runtimeOwner.runtimeOwner == null
    }

    constructor (owner: Agent?, store: Store?)
      ensures runtimeOwner == owner && this.store == store && aiClient == None && flowLocks == map[]
    {
      runtimeOwner := owner;
      this.store := store;
      aiClient := None;
      flowLocks := map[];
    }

    function StateOwner(): Agent {
      if runtimeOwner != null then runtimeOwner else this
    }

    /** ensureAIClientForStoreUser: this agent's client becomes the store user's own, or none;
        no other agent's field moves. */
    method EnsureAIClientForStoreUser(storeUser: string)
      modifies this`aiClient
      ensures aiClient == if store == null then None else ClientFor(store.models, storeUser)
      ensures var u := if storeUser == "" then "default" else storeUser;
              aiClient == if store != null && u in store.models then Some(store.models[u]) else None
    {
      var user := storeUser;
      if user == "" {
        user := DEFAULT_USER;
      }
      if store != null {
        if user in store.models {
          aiClient := Some(store.models[user]);
          return;
        }
      }
      if aiClient.Some? {
        aiClient := None;
      }
    }

    /** The allocation in requestRuntime: a new agent under the same owner, without a client yet. */
    method NewRuntime() returns (local: Agent)
      requires Valid()
      ensures fresh(local) && local.Valid() && local.runtimeOwner == StateOwner()
      ensures local.store == StateOwner().store && local.aiClient == None
    {
      local := new Agent(StateOwner(), StateOwner().store);
    }

    /** requestRuntime: a new agent under the same owner, holding the chosen client; nothing that
        existed before is changed. */
    method RequestRuntime(storeUser: string) returns (local: Agent)
      requires Valid()
      ensures fresh(local) && local.Valid()
      ensures local.runtimeOwner == StateOwner() && local.StateOwner() == StateOwner()
      ensures local.store == StateOwner().store
      ensures local.aiClient == if local.store == null then None else ClientFor(local.store.models, storeUser)
    {
      local := NewRuntime();
      local.EnsureAIClientForStoreUser(storeUser);
    }

    /** flowLock: one mutex per user, shared by the owner and all its runtimes, never replaced. */
    method FlowLock(user: int) returns (lock: Mutex)
      requires Valid()
      modifies StateOwner()`flowLocks
      ensures user in StateOwner().flowLocks && lock == StateOwner().flowLocks[user]
      ensures forall u :: u in old(StateOwner().flowLocks) ==>
                u in StateOwner().flowLocks && StateOwner().flowLocks[u] == old(StateOwner().flowLocks)[u]
      ensures StateOwner().flowLocks.Keys == old(StateOwner().flowLocks).Keys + {user}
      ensures user !in old(StateOwner().flowLocks) ==> fresh(lock)
    {
      var owner := StateOwner();
      if user !in owner.flowLocks {
        var made := new Mutex();
        owner.flowLocks := owner.flowLocks[user := made];
      }
      lock := owner.flowLocks[user];
    }
  }

  // ------------------------------------------------------- every interleaving of requests

  /** Where a request stands; the lock it looked up, then holds. */
  datatype Stage = Made | Bound | Looked(lock: Mutex) | Turning(lock: Mutex) | Finished

  datatype Request = Request(storeUser: string, user: int, client: Option<Client>, stage: Stage)

  datatype Usage = Usage(request: nat, client: Option<Client>)

  /** `locks` is the owner's table of mutexes, `holders` who is inside each; `chosen` records what
      the store held for a request's store user when its runtime was bound. */
  datatype World = World(
    models: map<string, Client>,
    ownerClient: Option<Client>,
    requests: map<nat, Request>,
    locks: map<int, Mutex>,
    holders: map<Mutex, nat>,
    chosen: map<nat, Option<Client>>,
    uses: seq<Usage>)

  datatype Step =
    | Begin(id: nat, storeUser: string, user: int)
    | Bind(id: nat)
    | Lookup(id: nat, made: Mutex)
    | Lock(id: nat)
    | Use(id: nat)
    | Unlock(id: nat)
    | ChangeModels(models: map<string, Client>)
    | SetOwnerClient(client: Option<Client>)

  function Initial(models: map<string, Client>, ownerClient: Option<Client>): World {
    World(models, ownerClient, map[], map[], map[], map[], [])
  }

  predicate Enabled(w: World, s: Step) {
    match s
    case Begin(id, _, _) => id !in w.requests
    case Bind(id) => id in w.requests && w.requests[id].stage.Made?
    case Lookup(id, made) =>
      && id in w.requests && w.requests[id].stage.Bound?
      && (w.requests[id].user !in w.locks ==> made !in w.locks.Values)
    case Lock(id) => id in w.requests && w.requests[id].stage.Looked? && w.requests[id].stage.lock !in w.holders
    case Use(id) => id in w.requests && !w.requests[id].stage.Made?
    case Unlock(id) => id in w.requests && w.requests[id].stage.Turning?
    case ChangeModels(_) => true
    case SetOwnerClient(_) => true
  }

  function At(w: World, id: nat, stage: Stage): map<nat, Request>
    requires id in w.requests
  {
    w.requests[id := w.requests[id].(stage := stage)]
  }

  /** One atomic step: making a runtime, binding its client, LoadOrStore of the user's mutex,
      locking, a model call, unlocking, or a change from outside. */
  function Apply(w: World, s: Step): World
    requires Enabled(w, s)
  {
    match s
    case Begin(id, storeUser, user) => w.(requests := w.requests[id := Request(storeUser, user, None, Made)])
    case Bind(id) =>
      var client := ClientFor(w.models, w.requests[id].storeUser);
      w.(requests := w.requests[id := w.requests[id].(client := client, stage := Bound)],
         chosen := w.chosen[id := client])
    case Lookup(id, made) =>
      var user := w.requests[id].user;
      if user in w.locks then w.(requests := At(w, id, Looked(w.locks[user])))
      else w.(locks := w.locks[user := made], requests := At(w, id, Looked(made)))
    case Lock(id) =>
      var lock := w.requests[id].stage.lock;
      w.(holders := w.holders[lock := id], requests := At(w, id, Turning(lock)))
    case Use(id) => w.(uses := w.uses + [Usage(id, w.requests[id].client)])
    case Unlock(id) =>
      w.(holders := w.holders - {w.requests[id].stage.lock}, requests := At(w, id, Finished))
    case ChangeModels(models) => w.(models := models)
    case SetOwnerClient(client) => w.(ownerClient := client)
  }

  predicate HasLock(r: Request) {
    r.stage.Looked? || r.stage.Turning?
  }

  /** Every bound request holds the client chosen for it, and every call used that client. */
  ghost predicate ClientsKept(w: World) {
    && (forall id :: id in w.requests && !w.requests[id].stage.Made? ==>
          id in w.chosen && w.requests[id].client == w.chosen[id])
    && (forall id :: id in w.chosen ==> id in w.requests && !w.requests[id].stage.Made?)
    && (forall k :: 0 <= k < |w.uses| ==>
          w.uses[k].request in w.chosen && w.uses[k].client == w.chosen[w.uses[k].request])
  }

  /** Each user has one mutex of its own, and a request only ever looks at its user's. */
  ghost predicate TableKept(w: World) {
    && (forall u, v :: u in w.locks && v in w.locks && w.locks[u] == w.locks[v] ==> u == v)
    && (forall id :: id in w.requests && HasLock(w.requests[id]) ==>
          w.requests[id].user in w.locks && w.locks[w.requests[id].user] == w.requests[id].stage.lock)
  }

  /** The requests inside are exactly the holders of the mutexes they are inside. */
  ghost predicate HoldersKept(w: World) {
    && (forall id :: id in w.requests && w.requests[id].stage.Turning? ==>
          w.requests[id].stage.lock in w.holders && w.holders[w.requests[id].stage.lock] == id)
    && (forall l :: l in w.holders ==>
          w.holders[l] in w.requests && w.requests[w.holders[l]].stage == Turning(l))
  }

  /** What every interleaving keeps. */
  ghost predicate Inv(w: World) {
    ClientsKept(w) && TableKept(w) && HoldersKept(w)
  }

  lemma StepKeepsClients(w: World, s: Step)
    requires ClientsKept(w) && Enabled(w, s)
    ensures ClientsKept(Apply(w, s))
  {
  }

  lemma StepKeepsTable(w: World, s: Step)
    requires TableKept(w) && Enabled(w, s)
    ensures TableKept(Apply(w, s))
  {
  }

  lemma StepKeepsHolders(w: World, s: Step)
    requires HoldersKept(w) && Enabled(w, s)
    ensures HoldersKept(Apply(w, s))
  {
    var n := Apply(w, s);
    if s.Unlock? {
      var l := w.requests[s.id].stage.lock;
      assert n.holders == w.holders - {l};
    }
  }

  lemma StepKeepsInv(w: World, s: Step)
    requires Inv(w) && Enabled(w, s)
    ensures Inv(Apply(w, s))
  {
    hide Enabled, Apply, ClientsKept, TableKept, HoldersKept;
    StepKeepsClients(w, s);
    StepKeepsTable(w, s);
    StepKeepsHolders(w, s);
  }

  /** The worlds a sequence of steps passes through. */
  ghost predicate Run(start: World, steps: seq<Step>, worlds: seq<World>) {
    && |worlds| == |steps| + 1 && worlds[0] == start
    && forall i :: 0 <= i < |steps| ==> Enabled(worlds[i], steps[i]) && worlds[i + 1] == Apply(worlds[i], steps[i])
  }

  lemma {:induction false} RunKeepsInv(models: map<string, Client>, owner: Option<Client>, steps: seq<Step>,
                                       worlds: seq<World>, i: nat)
    requires Run(Initial(models, owner), steps, worlds) && i < |worlds|
    ensures Inv(worlds[i])
    decreases i
  {
    hide Inv, Enabled, Apply;
    if i == 0 {
      InitialInv(models, owner);
    } else {
      RunKeepsInv(models, owner, steps, worlds, i - 1);
      assert worlds[i] == Apply(worlds[i - 1], steps[i - 1]);
      StepKeepsInv(worlds[i - 1], steps[i - 1]);
    }
  }

  lemma InitialInv(models: map<string, Client>, owner: Option<Client>)
    ensures Inv(Initial(models, owner))
  {
  }

  /** In every interleaving, two turns of one user never overlap. */
  lemma TurnsNeverOverlap(models: map<string, Client>, owner: Option<Client>, steps: seq<Step>, worlds: seq<World>,
                          i: nat, a: nat, b: nat)
    requires Run(Initial(models, owner), steps, worlds) && i < |worlds|
    requires a in worlds[i].requests && b in worlds[i].requests
    requires worlds[i].requests[a].stage.Turning? && worlds[i].requests[b].stage.Turning?
    requires worlds[i].requests[a].user == worlds[i].requests[b].user
    ensures a == b
  {
    hide Run;
    RunKeepsInv(models, owner, steps, worlds, i);
  }

  /** A request that has its lock can enter exactly when no turn of the same user is inside: other
      users never block it. */
  lemma LockFreeIff(w: World, id: nat)
    requires Inv(w) && id in w.requests && w.requests[id].stage.Looked?
    ensures Enabled(w, Lock(id)) <==>
            forall b :: b in w.requests && w.requests[b].stage.Turning? ==> w.requests[b].user != w.requests[id].user
  {
  }

  /** A client once chosen is never replaced, whatever the other requests and the store do. */
  lemma ChosenForGood(w: World, s: Step, id: nat)
    requires Inv(w) && Enabled(w, s) && id in w.chosen
    ensures id in Apply(w, s).chosen && Apply(w, s).chosen[id] == w.chosen[id]
  {
  }

  lemma {:induction false} ChosenForGoodRun(models: map<string, Client>, owner: Option<Client>, steps: seq<Step>,
                                            worlds: seq<World>, i: nat, j: nat, id: nat)
    requires Run(Initial(models, owner), steps, worlds) && i <= j < |worlds| && id in worlds[i].chosen
    ensures id in worlds[j].chosen && worlds[j].chosen[id] == worlds[i].chosen[id]
    decreases j
  {
    hide Inv, Enabled, Apply;
    if i < j {
      ChosenForGoodRun(models, owner, steps, worlds, i, j - 1, id);
      RunKeepsInv(models, owner, steps, worlds, j - 1);
      assert worlds[j] == Apply(worlds[j - 1], steps[j - 1]);
      ChosenForGood(worlds[j - 1], steps[j - 1], id);
    }
  }

  /** In every interleaving, every model call of a request uses the client its own store user had
      when the request's runtime was made. */
  lemma UsesOwnClient(models: map<string, Client>, owner: Option<Client>, steps: seq<Step>, worlds: seq<World>, i: nat,
                      j: nat, id: nat)
    requires Run(Initial(models, owner), steps, worlds) && i < j < |worlds| && i < |steps|
    requires steps[i] == Bind(id)
    ensures id in worlds[i].requests
    ensures var stored := worlds[i].requests[id].storeUser;
            var u := if stored == "" then "default" else stored;
            var own := if u in worlds[i].models then Some(worlds[i].models[u]) else None;
            forall k :: 0 <= k < |worlds[j].uses| && worlds[j].uses[k].request == id ==> worlds[j].uses[k].client == own
  {
    hide Inv, ClientFor;
    NobodyElsesClient(worlds[i].models, map[], worlds[i].requests[id].storeUser);
    assert worlds[i + 1] == Apply(worlds[i], steps[i]);
    ChosenForGoodRun(models, owner, steps, worlds, i + 1, j, id);
    RunKeepsInv(models, owner, steps, worlds, j);
    UsesChosen(worlds[j]);
  }

  lemma UsesChosen(w: World)
    requires Inv(w)
    ensures forall k :: 0 <= k < |w.uses| ==>
              w.uses[k].request in w.chosen && w.uses[k].client == w.chosen[w.uses[k].request]
  {
  }

  /** No request step touches the owner's client. */
  lemma {:induction false} OwnerUntouched(start: World, steps: seq<Step>, worlds: seq<World>, i: nat)
    requires Run(start, steps, worlds) && i < |worlds|
    requires forall k :: 0 <= k < |steps| ==> !steps[k].SetOwnerClient?
    ensures worlds[i].ownerClient == start.ownerClient
    decreases i
  {
    if i > 0 {
      OwnerUntouched(start, steps, worlds, i - 1);
      assert worlds[i] == Apply(worlds[i - 1], steps[i - 1]);
    }
  }

  // ------------------------------------------------------ the same interleaving on the heap

  datatype Entry = Entry(runtime: Agent, storeUser: string, user: int, stage: Stage)

  /** The owner, the runtimes of all its requests and their mutexes, as objects.  Whoever is
      scheduled next makes the next call, so any sequence of calls is an interleaving; the ghost
      fields record it as steps of `World`. */
  class Server {
    const owner: Agent
    const store: Store
    var entries: map<nat, Entry>
    ghost var runtimes: set<Agent>
    var holders: map<Mutex, nat>
    ghost var chosen: map<nat, Option<Client>>
    var uses: seq<Usage>
    ghost var steps: seq<Step>
    ghost var worlds: seq<World>

    /** Every runtime in the table is one of this server's. */
    ghost predicate Owned()
      reads this
    {
      forall id :: id in entries ==> entries[id].runtime in runtimes
    }

    function RequestOf(e: Entry): Request
      reads e.runtime
    {
      Request(e.storeUser, e.user, e.runtime.aiClient, e.stage)
    }

    /** What the objects amount to. */
    ghost function View(): World
      reads this, owner, store, runtimes
      requires Owned()
    {
      World(store.models, owner.aiClient, map id | id in entries ::
              RequestOf(entries[id]), owner.flowLocks, holders, chosen, uses)
    }

    /** Each request has a runtime of its own, none is the owner, all serve the owner and its store. */
    ghost predicate Apart()
      reads this
    {
      && owner.runtimeOwner == null && owner.store == store
      && (forall id :: id in entries ==> Serves(entries[id].runtime))
      && (forall a, b :: a in entries && b in entries && a != b ==> entries[a].runtime != entries[b].runtime)
    }

    predicate Serves(a: Agent) {
      a != owner && a.runtimeOwner == owner && a.store == store
    }

    ghost predicate Valid()
      reads this, owner, store, runtimes
    {
      && Owned() && Apart()
      && worlds != [] && Run(worlds[0], steps, worlds) && worlds[0] == Initial(worlds[0].models, worlds[0].ownerClient)
      && View() == worlds[|worlds| - 1]
    }

    constructor (models: map<string, Client>)
      ensures Valid() && fresh(owner) && fresh(store) && entries == map[] && steps == []
    {
      var s := new Store(models);
      store := s;
      owner := new Agent(null, s);
      entries, holders, uses := map[], map[], [];
      chosen, steps, runtimes := map[], [], {};
      new;
      worlds := [View()];
    }

    /** The next step of the recorded run. */
    ghost method Record(s: Step)
      requires Owned() && Apart()
      requires worlds != [] && Run(worlds[0], steps, worlds)
               && worlds[0] == Initial(worlds[0].models, worlds[0].ownerClient)
      requires Enabled(worlds[|worlds| - 1], s) && View() == Apply(worlds[|worlds| - 1], s)
      modifies this`steps, this`worlds
      ensures Valid() && steps == old(steps) + [s] && worlds == old(worlds) + [View()]
    {
      hide Apply, Enabled;
      RunGrows(worlds[0], steps, worlds, s, View());
      steps, worlds := steps + [s], worlds + [View()];
    }

    /** A request is entered with a runtime that is nobody else's. */
    method Enter(id: nat, local: Agent, storeUser: string, user: int)
      requires Owned() && Apart() && id !in entries && Serves(local) && local !in runtimes && local.aiClient == None
      modifies this`entries, this`runtimes
      ensures Owned() && Apart() && entries == old(entries)[id := Entry(local, storeUser, user, Made)]
      ensures View() == old(View()).(requests := old(View()).requests[id := Request(storeUser, user, None, Made)])
    {
      ghost var w := View();
      entries := entries[id := Entry(local, storeUser, user, Made)];
      runtimes := runtimes + {local};
      assert View().requests == w.requests[id := Request(storeUser, user, None, Made)];
    }

    /** A request arrives: its runtime is allocated under the owner. */
    method Begin(id: nat, storeUser: string, user: int)
      requires Valid() && id !in entries
      modifies this
      ensures Valid() && steps == old(steps) + [Step.Begin(id, storeUser, user)]
              && id in entries && entries == old(entries)[id := Entry(entries[id].runtime, storeUser, user, Made)]
      ensures fresh(entries[id].runtime) && Serves(entries[id].runtime) && owner.aiClient == old(owner.aiClient)
              && owner.runtimeOwner == null && owner.store == store
    {
      hide Run, Apply, Enabled, Inv;
      ghost var w := View();
      BeginApplies(w, id, storeUser, user);
      var local := owner.NewRuntime();
      Enter(id, local, storeUser, user);
      Record(Step.Begin(id, storeUser, user));
    }

    /** Its client is chosen: no other runtime and not the owner is touched. */
    method Bind(id: nat)
      requires Valid() && id in entries && entries[id].stage.Made?
      modifies this, entries[id].runtime
      ensures Valid() && steps == old(steps) + [Step.Bind(id)]
              && entries == old(entries)[id := old(entries)[id].(stage := Bound)]
      ensures entries[id].runtime.aiClient == ClientFor(store.models, entries[id].storeUser)
              && owner.aiClient == old(owner.aiClient)
    {
      hide Run, ClientFor;
      entries[id].runtime.EnsureAIClientForStoreUser(entries[id].storeUser);
      entries := entries[id := entries[id].(stage := Bound)];
      chosen := chosen[id := entries[id].runtime.aiClient];
      Record(Step.Bind(id));
    }

    /** requestRuntime as a step of the server, with nothing in between: what Agent.RequestRuntime
        promises of a runtime of the owner is what these two steps leave in the table. */
    method Arrive(id: nat, storeUser: string, user: int)
      requires Valid() && id !in entries
      modifies this
      ensures Valid() && steps == old(steps) + [Step.Begin(id, storeUser, user), Step.Bind(id)]
      ensures id in entries && entries == old(entries)[id := Entry(entries[id].runtime, storeUser, user, Bound)]
      ensures var local := entries[id].runtime;
              && fresh(local) && local.Valid() && local.StateOwner() == owner.StateOwner()
              && local.store == owner.StateOwner().store
              && local.aiClient == if local.store == null then None else ClientFor(local.store.models, storeUser)
    {
      hide Valid, ClientFor;
      Begin(id, storeUser, user);
      Bind(id);
    }

    /** The owner's table after the look-up of one request's user. */
    method LockOf(id: nat) returns (lock: Mutex)
      requires Owned() && Apart() && id in entries
      modifies owner`flowLocks
      ensures Owned() && Apart()
      ensures var user := entries[id].user;
              var locks := old(owner.flowLocks);
              && (if user in locks then lock == locks[user] else lock !in locks.Values)
              && View() == old(View()).(locks := if user in locks then locks else locks[user := lock])
    {
      ghost var w := View();
      var user := entries[id].user;
      lock := entries[id].runtime.FlowLock(user);
      assert entries[id].runtime.StateOwner() == owner;
      assert forall u :: u in w.locks ==> u in owner.flowLocks && owner.flowLocks[u] == w.locks[u];
      assert owner.flowLocks.Keys == w.locks.Keys + {user};
      assert owner.flowLocks == if user in w.locks then w.locks else w.locks[user := lock];
      assert View().requests == w.requests;
    }

    /** Its user's mutex is looked up, and made on first use. */
    method Lookup(id: nat)
      requires Valid() && id in entries && entries[id].stage.Bound?
      modifies this, owner`flowLocks
      ensures Valid() && (exists made :: steps == old(steps) + [Step.Lookup(id, made)])
              && entries.Keys == old(entries).Keys
      ensures entries == old(entries)[id := old(entries)[id].(stage := entries[id].stage)] && entries[id].stage.Looked?
      ensures owner.aiClient == old(owner.aiClient)
    {
      hide Run, Apply, Enabled, Inv;
      ghost var w := View();
      var lock := LockOf(id);
      LookupApplies(w, id, lock);
      entries := entries[id := entries[id].(stage := Looked(lock))];
      assert View().requests == At(w, id, Looked(lock));
      Record(Step.Lookup(id, lock));
    }

    /** It tries to enter: it succeeds exactly when no request of the same user is inside. */
    method Lock(id: nat) returns (entered: bool)
      requires Valid() && id in entries && entries[id].stage.Looked?
      modifies this
      ensures Valid() && owner.aiClient == old(owner.aiClient)
      ensures if entered then entries.Keys == old(entries).Keys && entries == old(entries)[id := entries[id]]
                else entries == old(entries)
      ensures entered <==> forall b :: b in old(entries) && old(entries)[b].stage.Turning? ==>
                old(entries)[b].user != old(entries)[id].user
      ensures steps == old(steps) + if entered then [Step.Lock(id)] else []
    {
      hide Run;
      FreeIff(id);
      ghost var w := View();
      var lock := entries[id].stage.lock;
      if lock in holders {
        return false;
      }
      holders := holders[lock := id];
      entries := entries[id := entries[id].(stage := Turning(lock))];
      assert View().requests == At(w, id, Turning(lock));
      Record(Step.Lock(id));
      return true;
    }

    /** A model call of the request, with the client its runtime holds. */
    method Use(id: nat) returns (client: Option<Client>)
      requires Valid() && id in entries && !entries[id].stage.Made?
      modifies this
      ensures Valid() && steps == old(steps) + [Step.Use(id)] && entries == old(entries)
      ensures client == entries[id].runtime.aiClient && uses == old(uses) + [Usage(id, client)]
              && owner.aiClient == old(owner.aiClient)
    {
      hide Run;
      client := entries[id].runtime.aiClient;
      uses := uses + [Usage(id, client)];
      Record(Step.Use(id));
    }

    method Unlock(id: nat)
      requires Valid() && id in entries && entries[id].stage.Turning?
      modifies this
      ensures Valid() && steps == old(steps) + [Step.Unlock(id)]
              && entries == old(entries)[id := old(entries)[id].(stage := Finished)]
      ensures owner.aiClient == old(owner.aiClient)
    {
      hide Run;
      holders := holders - {entries[id].stage.lock};
      entries := entries[id := entries[id].(stage := Finished)];
      Record(Step.Unlock(id));
    }

    /** The stored model configurations change under everyone. */
    method ChangeModels(models: map<string, Client>)
      requires Valid()
      modifies this, store
      ensures Valid() && steps == old(steps) + [Step.ChangeModels(models)] && entries == old(entries)
      ensures owner.aiClient == old(owner.aiClient)
    {
      hide Run;
      store.models := models;
      Record(Step.ChangeModels(models));
    }

    /** EnsureAIClient on the owner itself, as the background agent does. */
    method EnsureOwner()
      requires Valid()
      modifies this, owner`aiClient
      ensures Valid() && steps == old(steps) + [Step.SetOwnerClient(ClientFor(store.models, DEFAULT_USER))]
      ensures entries == old(entries) && forall id :: id in entries ==>
                entries[id].runtime.aiClient == old(entries[id].runtime.aiClient)
    {
      hide Run, ClientFor;
      owner.EnsureAIClientForStoreUser(DEFAULT_USER);
      Record(Step.SetOwnerClient(owner.aiClient));
    }

    /** Every reachable heap satisfies the invariant of the interleaving. */
    lemma Reached()
      requires Valid()
      ensures Inv(View())
    {
      hide Inv, Apply, Enabled;
      RunKeepsInv(worlds[0].models, worlds[0].ownerClient, steps, worlds, |worlds| - 1);
    }

    /** A looked-up mutex is free exactly when no request of the same user is inside. */
    lemma FreeIff(id: nat)
      requires Valid() && id in entries && entries[id].stage.Looked?
      ensures entries[id].stage.lock !in holders <==>
                forall b :: b in entries && entries[b].stage.Turning? ==> entries[b].user != entries[id].user
    {
      hide Run, Inv;
      Reached();
      LockFreeIff(View(), id);
      assert forall b :: b in entries ==> View().requests[b] == RequestOf(entries[b]);
    }

    /** Two turns of one user never overlap. */
    lemma NeverOverlap(a: nat, b: nat)
      requires Valid() && a in entries && b in entries && entries[a].stage.Turning? && entries[b].stage.Turning?
      requires entries[a].user == entries[b].user
      ensures a == b
    {
      hide Run, Inv;
      assert View().requests[a] == RequestOf(entries[a]) && View().requests[b] == RequestOf(entries[b]);
      TurnsNeverOverlap(worlds[0].models, worlds[0].ownerClient, steps, worlds, |worlds| - 1, a, b);
    }

    /** Every call made so far by a bound request used the client its runtime holds now: the one its own
        store user had when the runtime was bound. */
    lemma OwnClientThroughout(i: nat, id: nat)
      requires Valid() && i < |steps| && steps[i] == Step.Bind(id)
      ensures id in worlds[i].requests && id in entries
      ensures var stored := worlds[i].requests[id].storeUser;
              var u := if stored == "" then "default" else stored;
              var c := if u in worlds[i].models then Some(worlds[i].models[u]) else None;
              && entries[id].runtime.aiClient == c
              && forall k :: 0 <= k < |uses| && uses[k].request == id ==> uses[k].client == c
    {
      hide Inv, ClientFor, Enabled;
      UsesOwnClient(worlds[0].models, worlds[0].ownerClient, steps, worlds, i, |worlds| - 1, id);
      assert worlds[i + 1] == Apply(worlds[i], steps[i]);
      ChosenForGoodRun(worlds[0].models, worlds[0].ownerClient, steps, worlds, i + 1, |worlds| - 1, id);
      NobodyElsesClient(worlds[i].models, map[], worlds[i].requests[id].storeUser);
      Reached();
      ChosenIsHeld(View(), id);
      assert View().requests[id] == RequestOf(entries[id]);
    }

    /** Without a step of its own the owner's client is the one it started with. */
    lemma OwnerKeepsClient()
      requires Valid() && forall k :: 0 <= k < |steps| ==> !steps[k].SetOwnerClient?
      ensures owner.aiClient == worlds[0].ownerClient
    {
      OwnerUntouched(worlds[0], steps, worlds, |worlds| - 1);
    }
  }

  lemma RunGrows(start: World, steps: seq<Step>, worlds: seq<World>, s: Step, w: World)
    requires Run(start, steps, worlds) && Enabled(worlds[|worlds| - 1], s) && w == Apply(worlds[|worlds| - 1], s)
    ensures Run(start, steps + [s], worlds + [w])
  {
    hide Apply, Enabled;
    var ss, ww := steps + [s], worlds + [w];
    forall i | 0 <= i < |ss|
      ensures Enabled(ww[i], ss[i]) && ww[i + 1] == Apply(ww[i], ss[i])
    {
      assert ww[i] == worlds[i];
      if i < |steps| {
        assert ss[i] == steps[i] && ww[i + 1] == worlds[i + 1];
      }
    }
  }

  lemma BeginApplies(w: World, id: nat, storeUser: string, user: int)
    requires id !in w.requests
    ensures var s := Step.Begin(id, storeUser, user);
            Enabled(w, s) && Apply(w, s) == w.(requests := w.requests[id := Request(storeUser, user, None, Made)])
  {
  }

  lemma LookupApplies(w: World, id: nat, made: Mutex)
    requires id in w.requests && w.requests[id].stage.Bound?
    requires var user := w.requests[id].user;
             if user in w.locks then made == w.locks[user] else made !in w.locks.Values
    ensures var s := Step.Lookup(id, made);
            var user := w.requests[id].user;
            && Enabled(w, s)
            && Apply(w, s) == w.(locks := if user in w.locks then w.locks else w.locks[user := made],
                                 requests := At(w, id, Looked(made)))
  {
  }

  lemma ChosenIsHeld(w: World, id: nat)
    requires Inv(w) && id in w.chosen
    ensures id in w.requests && w.requests[id].client == w.chosen[id]
  {
  }
}

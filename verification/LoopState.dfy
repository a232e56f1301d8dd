/**
 The state of the event loop and of its resource graph, with the operations the loop thread
 performs on it, one request at a time. Lists are sequences here; the module EventLoop keeps the
 same state in linked memory and is proved against these operations.
*/
module LoopState {
  import opened Sequences

  type Id = nat        // a resource id
  type Rid = nat       // the address of a request; 0 is NULL
  type Payload = nat   // a non-NULL payload pointer
  type Time = int      // nanoseconds

  /** A resource node, without its list of waiting requests, which is the list of Blocked(id). */
  datatype Node = Node(payload: Option<Payload>, cleanup: bool, refcnt: int, failed: bool, autoRelease: bool)
  {
    predicate Resolved() { payload.Some? || failed }
  }

  const PLACEHOLDER := Node(None, false, 0, false, false)

  /** on_retry: missing, the library's default, or the caller's own. */
  datatype Policy = NoPolicy | DefaultPolicy | OwnPolicy

  /**
   A submitted request: the fields its owner chose, then the loop's bookkeeping.
   `attached` says that the request holds an easy handle added to the multi handle.
   `granted` counts the retries the default policy has granted since submission.
  */
  datatype Request = Request(
    deps: seq<Id>, rateLimited: bool, refresh: bool, onFailure: bool, policy: Policy, maxRetries: int,
    key: Time, isPending: bool, isCancelled: bool, retained: bool, attached: bool,
    startTime: Time, retries: nat, granted: nat)

  /** Where a live request is filed. `Hand` is the request the loop thread is moving right now. */
  datatype Place =
    | Hand | Pending | Work | Blocked(id: Id)
    | Inactive | Refresh | RateLimited | Root | Queued

  /** What the loop thread is in the middle of. */
  datatype Mode =
    | Running                // between two operations
    | Publishing(id: Id)     // inside publish; Work holds the waiters not handled yet
    | Draining               // inside process_cancelled_and_pending_requests
    | Scanning               // rate-limited requests are detached into Root
    | Closing                // inside curl_event_loop_destroy
    | ClosingNode(id: Id)    // destroy_all is failing the waiters of this node

  /** Not inside curl_event_loop_destroy. */
  predicate Open(m: Mode) {
    !m.Closing? && !m.ClosingNode?
  }

  /**
   The resource map, with history the code does not store: `client` counts the references callers
   hold on each node; `accepted` and `cleaned` are the payloads handed over with a cleanup and the
   cleanups run.
  */
  datatype Graph = Graph(
    nodes: map<Id, Node>, client: map<Id, int>, accepted: multiset<Payload>, cleaned: multiset<Payload>)

  /** The lists, each sorted by `key` where the code keeps a multimap, and each request's place. */
  datatype Files = Files(lists: map<Place, seq<Rid>>, place: map<Rid, Place>)

  /**
   `cancelWork` is the cancelled list that process_cancelled_and_pending_requests has detached, and
   `undrained` the one that curl_event_loop_destroy has found.
   The rest is history: `hist` lists the nodes each request has been blocked on, `leaked` counts
   easy handles dropped while still in the multi handle, `failures` and `destroyed` log calls.
  */
  datatype State = State(
    mode: Mode, maxConcurrent: nat,
    g: Graph, f: Files, reqs: map<Rid, Request>,
    cancelled: seq<Rid>, cancelWork: seq<Rid>, undrained: seq<Rid>,
    numMulti: int, leaked: nat,
    hist: map<Rid, seq<Id>>,
    failures: seq<Rid>, destroyed: seq<Rid>, submitted: set<Rid>)

  /** A new loop; curl_event_loop_init sets the limit to 1000. */
  function Initial(maxConcurrent: nat): State {
    State(Running, maxConcurrent, Graph(map[], map[], multiset{}, multiset{}), Files(map[], map[]), map[],
          [], [], [], 0, 0, map[], [], [], {})
  }

  // ----- lists and places

  function ListOf(f: Files, p: Place): seq<Rid> {
    if p in f.lists then f.lists[p] else []
  }

  /** Take `r` out of the list it is filed in. */
  function Unfile(f: Files, r: Rid): Files
    requires r in f.place
  {
    var p := f.place[r];
    Files(f.lists[p := Without(ListOf(f, p), r)], f.place[r := Hand])
  }

  /** File `r` at position `pos` of the list of `p`, or at its end if it is shorter. */
  function File(f: Files, r: Rid, p: Place, pos: nat): Files {
    var l := ListOf(f, p);
    Files(f.lists[p := InsertAt(l, if pos <= |l| then pos else |l|, r)], f.place[r := p])
  }

  /** Hand the whole list of `p` over to `q`. */
  function Move(f: Files, p: Place, q: Place): Files {
    Files(f.lists[p := []][q := ListOf(f, p)],
          map r | r in f.place :: if f.place[r] == p then q else f.place[r])
  }

  // ----- resource nodes

  function Client(g: Graph, id: Id): int {
    if id in g.client then g.client[id] else 0
  }

  predicate Resolved(g: Graph, id: Id) {
    id in g.nodes && g.nodes[id].Resolved()
  }

  function GetOrCreate(g: Graph, id: Id): Graph {
    if id in g.nodes then g else g.(nodes := g.nodes[id := PLACEHOLDER])
  }

  function Owned(n: Node): multiset<Payload> {
    multiset(if n.payload.Some? && n.cleanup then [n.payload.value] else [])
  }

  function Erase(g: Graph, id: Id): Graph
    requires id in g.nodes
  {
    Graph(g.nodes - {id}, g.client - {id}, g.accepted, g.cleaned + Owned(g.nodes[id]))
  }

  /** The node with one caller's reference dropped. */
  function Dropped(g: Graph, id: Id): Graph
    requires id in g.nodes
  {
    g.(nodes := g.nodes[id := g.nodes[id].(refcnt := g.nodes[id].refcnt - 1)],
       client := g.client[id := Client(g, id) - 1])
  }

  /** curl_event_res_release: drop one reference that a caller holds. */
  function Release(g: Graph, id: Id): Graph {
    if id !in g.nodes then g
    else if g.nodes[id].refcnt == 1 then Erase(Dropped(g, id), id)
    else Dropped(g, id)
  }

  /** curl_event_res_addref. */
  function Addref(g: Graph, id: Id): Graph {
    var g1 := GetOrCreate(g, id);
    var n := g1.nodes[id];
    g.(nodes := g1.nodes[id := n.(refcnt := if n.refcnt == 0 then 1 else n.refcnt + 1)],
       client := g.client[id := Client(g, id) + 1])
  }

  /** curl_event_res_autorelease_owner. */
  function SetAuto(g: Graph, id: Id, enable: bool): Graph {
    var g1 := GetOrCreate(g, id);
    g.(nodes := g1.nodes[id := g1.nodes[id].(autoRelease := enable)])
  }

  /** maybe_autorelease_owner; `f` tells whether anyone is blocked on the node. */
  function MaybeAutorelease(g: Graph, f: Files, id: Id): Graph
    requires id in g.nodes
  {
    var n := g.nodes[id];
    if n.autoRelease && n.refcnt == 1 && ListOf(f, Blocked(id)) == [] then Release(g, id) else g
  }

  /** The node with one pin handed back. */
  function Unpinned(g: Graph, d: Id): Graph
    requires d in g.nodes
  {
    var n := g.nodes[d];
    g.(nodes := g.nodes[d := n.(refcnt := if n.refcnt > 0 then n.refcnt - 1 else n.refcnt)])
  }

  /** One turn of the loop in curl_resource_release_request_deps. */
  function ReleaseDep(g: Graph, f: Files, d: Id): Graph {
    if d !in g.nodes then g else MaybeAutorelease(Unpinned(g, d), f, d)
  }

  function ReleaseDeps(g: Graph, f: Files, ds: seq<Id>): Graph
    decreases ds
  {
    if ds == [] then g else ReleaseDeps(ReleaseDep(g, f, ds[0]), f, ds[1..])
  }

  /** One turn of the loop in curl_resource_retain_request_deps. */
  function RetainDep(g: Graph, d: Id): Graph {
    var g1 := GetOrCreate(g, d);
    g.(nodes := g1.nodes[d := g1.nodes[d].(refcnt := g1.nodes[d].refcnt + 1)])
  }

  function RetainDeps(g: Graph, ds: seq<Id>): Graph
    decreases ds
  {
    if ds == [] then g else RetainDeps(RetainDep(g, ds[0]), ds[1..])
  }

  /** The first dependency that is neither published nor failed. */
  function FirstUnmet(g: Graph, ds: seq<Id>): Option<Id> {
    if ds == [] then None
    else if !Resolved(g, ds[0]) then Some(ds[0])
    else FirstUnmet(g, ds[1..])
  }

  /** The head of curl_event_res_publish: store the payload, cleaning up the one it replaces. */
  function Store(g: Graph, id: Id, payload: Option<Payload>, cleanup: bool): Graph {
    var g1 := GetOrCreate(g, id);
    var n := g1.nodes[id];
    var n1 := n.(refcnt := if n.refcnt == 0 then 1 else n.refcnt,
                 payload := payload, cleanup := cleanup, failed := payload == None);
    Graph(g1.nodes[id := n1],
          if n.refcnt == 0 then g.client[id := Client(g, id) + 1] else g.client,
          g.accepted + Owned(n1), g.cleaned + Owned(n))
  }

  // ----- requests

  function SetReq(s: State, r: Rid, q: Request): State {
    s.(reqs := s.reqs[r := q])
  }

  /** Start tracking a submitted request, in hand. */
  function Arrive(s: State, r: Rid, q: Request): State {
    s.(reqs := s.reqs[r := q], f := s.f.(place := s.f.place[r := Hand]),
       hist := s.hist[r := []], submitted := s.submitted + {r})
  }

  /** Take `r` in hand. */
  function Take(s: State, r: Rid): State
    requires r in s.f.place
  {
    s.(f := Unfile(s.f, r))
  }

  function Put(s: State, r: Rid, p: Place, pos: nat): State {
    s.(f := File(s.f, r, p, pos))
  }

  /** Pin every dependency of `r`, the first time the loop thread touches it. */
  function Retain(s: State, r: Rid): State
    requires r in s.reqs
  {
    var q := s.reqs[r];
    if q.retained || q.deps == [] then s
    else SetReq(s, r, q.(retained := true)).(g := RetainDeps(s.g, q.deps))
  }

  /** curl_event_loop_request_cleanup. */
  function Cleanup(s: State, r: Rid): State
    requires r in s.reqs
  {
    if s.reqs[r].attached
    then SetReq(s, r, s.reqs[r].(attached := false)).(numMulti := s.numMulti - 1)
    else s
  }

  function Forget(s: State, r: Rid): State {
    s.(reqs := s.reqs - {r}, f := s.f.(place := s.f.place - {r}), hist := s.hist - {r},
       destroyed := s.destroyed + [r])
  }

  /** The dependencies a request holds pinned. */
  function PinnedDeps(q: Request): seq<Id> {
    if q.retained then q.deps else []
  }

  /** curl_event_request_destroy, of a request that is in no list. */
  function Destroy(s: State, r: Rid): State
    requires r in s.reqs
  {
    Forget(Cleanup(s, r), r).(g := ReleaseDeps(s.g, s.f, PinnedDeps(s.reqs[r])))
  }

  /** Tell the request it was aborted, if it has an on_failure callback. */
  function Abort(s: State, r: Rid): State
    requires r in s.reqs
  {
    s.(failures := if s.reqs[r].onFailure then s.failures + [r] else s.failures)
  }

  /** block_request_on_res, at the tail of the node's list. */
  function Block(s: State, r: Rid, id: Id): State
    requires r in s.hist
  {
    Put(s, r, Blocked(id), |ListOf(s.f, Blocked(id))|).(hist := s.hist[r := s.hist[r] + [id]])
  }

  /** enqueue_request. */
  function EnqueuePlace(q: Request): Place {
    if q.refresh then Refresh else Inactive
  }

  function Rekey(s: State, r: Rid, key: Time): State
    requires r in s.reqs
  {
    SetReq(s, r, s.reqs[r].(key := key))
  }

  /** request_ready: `poll` answers rate_manager_can_proceed, `now` is the clock it reads. */
  predicate Ready(s: State, r: Rid, poll: nat, now: Time)
    requires r in s.reqs
  {
    && |ListOf(s.f, Queued)| < s.maxConcurrent
    && (s.reqs[r].rateLimited ==> poll == 0)
    && FirstUnmet(s.g, s.reqs[r].deps) == None
    && now >= s.reqs[r].key
  }

  /** What the environment answers while a request is started. */
  datatype Launch = Launch(wait: nat, prepared: bool, now: Time, pos: nat)

  predicate Refused(q: Request, l: Launch) {
    q.rateLimited && l.wait > 0
  }

  /** setup_curl_handle forgets an easy handle that is still attached. */
  function Detach(s: State, r: Rid): State
    requires r in s.reqs
  {
    if s.reqs[r].attached
    then SetReq(s, r, s.reqs[r].(attached := false)).(leaked := s.leaked + 1)
    else s
  }

  function Attach(s: State, r: Rid, now: Time): State
    requires r in s.reqs
  {
    SetReq(s, r, s.reqs[r].(attached := true, startTime := now)).(numMulti := s.numMulti + 1)
  }

  /** curl_event_loop_request_start, of a request that is in no list. */
  function Start(s: State, r: Rid, l: Launch): State
    requires r in s.reqs
  {
    if Refused(s.reqs[r], l) then
      Put(Rekey(s, r, l.wait), r, RateLimited, l.pos)
    else if !l.prepared then
      Destroy(Detach(s, r), r)
    else
      Put(Attach(Detach(s, r), r, l.now), r, Queued, l.pos)
  }

  /** `pos` is a place for `key` in the sorted list `l`. */
  predicate FitsAt(l: seq<Rid>, reqs: map<Rid, Request>, key: Time, pos: nat) {
    && pos <= |l|
    && (forall i :: 0 <= i < pos ==> l[i] in reqs && reqs[l[i]].key <= key)
    && (forall i :: pos <= i < |l| ==> l[i] in reqs && key <= reqs[l[i]].key)
  }

  predicate Fits(s: State, p: Place, key: Time, pos: nat) {
    FitsAt(ListOf(s.f, p), s.reqs, key, pos)
  }

  /** The multimap takes the launched request at the position chosen. */
  predicate LaunchFits(s: State, q: Request, l: Launch) {
    if Refused(q, l) then Fits(s, RateLimited, l.wait, l.pos)
    else l.prepared ==> Fits(s, Queued, q.key, l.pos)
  }
}

/**
 * The request lifecycle of the async HTTP JSON node, as a sequential,
 * event-driven controller. Each node's completion callback, watchdog expiry
 * and retry timer become events (methods) delivered one at a time; the
 * static token map shared by all nodes is the CancelRegistry object that
 * every node points to.
 */
module HttpJsonRequestAsync {
  import opened Wrappers
  import opened QuickHttpTypes
  import opened RequestPolicy
  import Backoff
  import TokenGroups

  /** What listeners receive: OnSuccess(response body, status) or OnFailure(error). */
  datatype Outcome = Success(responseJson: string, statusCode: int32) | Failure(error: HttpError)

  /** A node's parameters, fixed once the factory has set them. */
  datatype Config = Config(
    verb: HttpMethod,
    url: string,
    headers: seq<Header>,
    timeoutSeconds: int32,
    maxRetries: int32,
    maxPayloadKB: int32,
    cancelToken: int32,
    body: string)

  /** The field initialisers of a freshly allocated node, before the factory overwrites them. */
  const Defaults: Config := Config(GET, "", [], 30, 2, 1024, 0, "")

  /** The bounds the factory establishes. */
  predicate ConfigValid(c: Config)
  {
    c.timeoutSeconds >= 1 && c.maxRetries >= 0 && 1 <= c.maxPayloadKB <= MaxPayloadCeilingKB
  }

  /** The factory's assignments: every field of the defaults is overwritten, three of them clamped. */
  function FactoryConfig(m: HttpMethod, url: string, headers: seq<Header>, timeoutSeconds: int32,
                         maxRetries: int32, maxPayloadKB: int32, cancelToken: int32, body: string): (c: Config)
    ensures ConfigValid(c)
    ensures c.verb == m && c.url == url && c.headers == headers && c.body == body
    ensures c.cancelToken == cancelToken
    ensures timeoutSeconds >= 1 ==> c.timeoutSeconds == timeoutSeconds
    ensures maxRetries >= 0 ==> c.maxRetries == maxRetries
    ensures 1 <= maxPayloadKB <= MaxPayloadCeilingKB ==> c.maxPayloadKB == maxPayloadKB
  {
    Defaults.(verb := m, url := url, headers := headers,
              timeoutSeconds := ClampTimeoutSeconds(timeoutSeconds),
              maxRetries := ClampMaxRetries(maxRetries),
              maxPayloadKB := ClampMaxPayloadKB(maxPayloadKB),
              cancelToken := cancelToken, body := body)
  }

  /** The defaults already satisfy the bounds the factory enforces. */
  lemma DefaultsAreValid()
    ensures ConfigValid(Defaults)
    ensures Defaults.timeoutSeconds == 30 && Defaults.maxRetries == 2 && Defaults.maxPayloadKB == 1024
    ensures Defaults.cancelToken == 0
  {
  }

  /**
   * The static token map shared by every node, together with the set of
   * nodes that still exist: a weak reference resolves exactly when its node
   * is in `live`.
   */
  class CancelRegistry {
    var tokenMap: map<int32, set<Node>>
    var live: set<Node>

    ghost predicate Valid()
      reads this
    {
      TokenGroups.WellFormed(tokenMap)
    }

    constructor ()
      ensures Valid() && tokenMap == map[] && live == {}
    {
      tokenMap := map[];
      live := {};
    }

    /** The nodes currently grouped under t. */
    function Group(t: int32): set<Node>
      reads this
    {
      TokenGroups.Members(tokenMap, t)
    }

    /** Removes n from t's set and drops the entry when the set becomes empty. */
    method RemoveMember(t: int32, n: Node)
      requires Valid()
      modifies this
      ensures Valid()
      ensures tokenMap == TokenGroups.Unregister(old(tokenMap), t, n)
      ensures live == old(live)
    {
      if t != 0 {
        if t in tokenMap {
          var remaining := tokenMap[t] - {n};
          tokenMap := tokenMap[t := remaining];
          if |remaining| == 0 {
            tokenMap := tokenMap - {t};
          }
        }
      }
    }

    /**
     * Group cancellation: every member that still exists has its active
     * request cancelled (when it has one) and its completed flag set; members
     * already gone are skipped. The token's entry is then removed. No outcome
     * is broadcast.
     */
    method CancelByToken(t: int32)
      requires Valid()
      modifies this, Group(t)
      ensures Valid()
      ensures tokenMap == TokenGroups.CancelGroup(old(tokenMap), t)
      ensures old(t !in tokenMap) ==> tokenMap == old(tokenMap)
      ensures live == old(live)
      ensures forall n :: n in old(Group(t)) && n in live ==>
        n.completed &&
        n.cancelCalls == old(n.cancelCalls) + (if old(n.activeRequest).Some? then 1 else 0)
      ensures forall n :: n in old(Group(t)) && n !in live ==>
        n.completed == old(n.completed) && n.cancelCalls == old(n.cancelCalls)
      ensures forall n :: n in old(Group(t)) ==>
        n.outcomes == old(n.outcomes) && n.attemptIndex == old(n.attemptIndex) &&
        n.activeRequest == old(n.activeRequest) && n.processCalls == old(n.processCalls) &&
        n.scheduledRetries == old(n.scheduledRetries) && n.firedRetries == old(n.firedRetries) &&
        n.activations == old(n.activations)
      ensures forall n :: n in old(Group(t)) && old(n.Valid()) ==> n.Valid()
    {
      if t in tokenMap {
        var group := tokenMap[t];
        var todo := group;
        while todo != {}
          invariant todo <= group
          invariant tokenMap == old(tokenMap) && live == old(live)
          invariant forall n :: n in group - todo && n in live ==>
            n.completed &&
            n.cancelCalls == old(n.cancelCalls) + (if n.activeRequest.Some? then 1 else 0)
          invariant forall n :: n in group && (n in todo || n !in live) ==>
            n.completed == old(n.completed) && n.cancelCalls == old(n.cancelCalls)
          invariant forall n :: n in group ==>
            n.outcomes == old(n.outcomes) && n.attemptIndex == old(n.attemptIndex) &&
            n.activeRequest == old(n.activeRequest) && n.processCalls == old(n.processCalls) &&
            n.scheduledRetries == old(n.scheduledRetries) && n.firedRetries == old(n.firedRetries) &&
            n.activations == old(n.activations)
          decreases todo
        {
          var n :| n in todo;
          if n in live {
            if n.activeRequest.Some? {
              n.cancelCalls := n.cancelCalls + 1;
            }
            n.completed := true;
          }
          todo := todo - {n};
        }
        tokenMap := tokenMap - {t};
      }
    }

    /** The engine releases node n: weak references to it stop resolving. */
    method Collect(n: Node)
      modifies this
      ensures tokenMap == old(tokenMap) && live == old(live) - {n}
    {
      live := live - {n};
    }
  }

  /** One request node: its parameters, its attempt state and what it has done so far. */
  class Node {
    const registry: CancelRegistry
    const config: Config

    var attemptIndex: int32
    var activeRequest: Option<TransportCall>  // never reset once an attempt has issued a call
    var completed: bool                       // the gate against a second decision

    // Effects observable outside the node:
    var activations: nat             // Activate calls made by the engine
    var processCalls: nat            // transport calls put on the wire
    var cancelCalls: nat             // CancelRequest calls made on the active call
    var scheduledRetries: seq<nat>   // backoff multiplier of each retry queued, in order
    var firedRetries: nat            // queued retries whose delay has elapsed
    var outcomes: seq<Outcome>       // OnSuccess / OnFailure broadcasts, in order

    /**
     * The node invariant. The completion callback decides at most once, so at
     * most one retry is queued or one outcome broadcast, and either leaves the
     * completed flag set for good. Each activation puts at most one call on
     * the wire.
     */
    ghost predicate Valid()
      reads this
    {
      ConfigValid(config) &&
      0 <= attemptIndex <= config.maxRetries &&
      attemptIndex as int <= |scheduledRetries| &&
      firedRetries <= |scheduledRetries| &&
      |scheduledRetries| + |outcomes| <= 1 &&
      (scheduledRetries != [] || outcomes != [] ==> completed) &&
      (activeRequest.Some? <==> processCalls > 0) &&
      processCalls <= activations &&
      (activeRequest.Some? ==>
        activeRequest.value == BuildRequest(config.verb, config.url, config.headers, config.body))
    }

    constructor (registry: CancelRegistry, config: Config)
      requires ConfigValid(config)
      ensures Valid()
      ensures this.registry == registry && this.config == config
      ensures attemptIndex == 0 && !completed && activeRequest == None
      ensures activations == 0 && processCalls == 0 && cancelCalls == 0 && firedRetries == 0
      ensures scheduledRetries == [] && outcomes == []
    {
      this.registry := registry;
      this.config := config;
      attemptIndex := 0;
      activeRequest := None;
      completed := false;
      activations, processCalls, cancelCalls, firedRetries := 0, 0, 0, 0;
      scheduledRetries, outcomes := [], [];
    }

    /** Start: reset the attempt index and make the first attempt. */
    method Activate()
      requires Valid()
      modifies this
      ensures Valid()
      ensures attemptIndex == 0 && activations == old(activations) + 1
      ensures old(completed) ==> completed && processCalls == old(processCalls) && activeRequest == old(activeRequest)
      ensures !old(completed) ==>
        !completed && processCalls == old(processCalls) + 1 &&
        activeRequest == Some(BuildRequest(config.verb, config.url, config.headers, config.body))
      ensures cancelCalls == old(cancelCalls) && outcomes == old(outcomes)
      ensures scheduledRetries == old(scheduledRetries) && firedRetries == old(firedRetries)
    {
      activations := activations + 1;
      attemptIndex := 0;
      Attempt();
    }

    /**
     * One attempt. Returns at once when the completed flag is set; otherwise
     * builds the transport call, arms the watchdog, binds the completion
     * callback and issues the call.
     */
    method Attempt()
      requires Valid() && (completed || processCalls < activations)
      modifies this
      ensures Valid() && activations == old(activations)
      ensures old(completed) ==> completed && processCalls == old(processCalls) && activeRequest == old(activeRequest)
      ensures !old(completed) ==>
        !completed && processCalls == old(processCalls) + 1 &&
        activeRequest == Some(BuildRequest(config.verb, config.url, config.headers, config.body))
      ensures attemptIndex == old(attemptIndex) && cancelCalls == old(cancelCalls) && outcomes == old(outcomes)
      ensures scheduledRetries == old(scheduledRetries) && firedRetries == old(firedRetries)
    {
      if completed { return; }

      var verb := VerbName(config.verb);
      var headerCalls := [AcceptJson];
      for i := 0 to |config.headers|
        invariant headerCalls == [AcceptJson] + config.headers[..i]
      {
        headerCalls := headerCalls + [config.headers[i]];
      }
      assert config.headers[..|config.headers|] == config.headers;
      var content := None;
      if config.body != "" && verb != "GET" {
        headerCalls := headerCalls + [ContentTypeJson];
        content := Some(config.body);
      }
      activeRequest := Some(TransportCall(verb, config.url, headerCalls, content));

      completed := false;
      // The watchdog is armed here; its expiry is the separate event WatchdogExpire.
      processCalls := processCalls + 1;
    }

    /**
     * The watchdog's final check for the current attempt: while the flag is
     * clear it cancels the active call, and it never sets the flag itself.
     * The transport later reports the cancelled call through OnRequestComplete.
     */
    method WatchdogExpire()
      requires Valid()
      modifies this
      ensures Valid()
      ensures cancelCalls == old(cancelCalls) + (if !old(completed) && old(activeRequest).Some? then 1 else 0)
      ensures completed == old(completed) && attemptIndex == old(attemptIndex) && activations == old(activations)
      ensures activeRequest == old(activeRequest) && processCalls == old(processCalls)
      ensures outcomes == old(outcomes)
      ensures scheduledRetries == old(scheduledRetries) && firedRetries == old(firedRetries)
    {
      if !completed {
        if activeRequest.Some? {
          cancelCalls := cancelCalls + 1;
        }
      }
    }

    /**
     * The completion callback. A no-op once the flag is set; otherwise it sets
     * the flag first and then applies the decision table.
     */
    method OnRequestComplete(succeeded: bool, response: Option<HttpResponse>)
      requires Valid() && registry.Valid() && processCalls > 0
      modifies this, registry
      ensures Valid() && registry.Valid()
      ensures completed
      ensures registry.live == old(registry.live)
      ensures activeRequest == old(activeRequest) && processCalls == old(processCalls)
      ensures cancelCalls == old(cancelCalls) && firedRetries == old(firedRetries) && activations == old(activations)
      ensures old(completed) ==>
        attemptIndex == old(attemptIndex) && scheduledRetries == old(scheduledRetries) &&
        outcomes == old(outcomes) && registry.tokenMap == old(registry.tokenMap)
      ensures !old(completed) ==>
        var d := Decide(succeeded, response, old(attemptIndex), config.maxRetries, config.maxPayloadKB);
        if d.RetryAfter? then
          attemptIndex == old(attemptIndex) + 1 && scheduledRetries == old(scheduledRetries) + [d.multiplier] &&
          outcomes == old(outcomes) && registry.tokenMap == old(registry.tokenMap)
        else
          attemptIndex == old(attemptIndex) && scheduledRetries == old(scheduledRetries) &&
          registry.tokenMap == TokenGroups.Unregister(old(registry.tokenMap), config.cancelToken, this) &&
          outcomes == old(outcomes) + [
            if d.Succeed? then Success(d.body, d.status)
            else Failure(HttpError(true, d.status, d.message, d.rawBody))]
    {
      if completed { return; }
      completed := true;

      var status: int32 := if response.Some? then response.value.code else 0;
      var content := if response.Some? then response.value.content else "";

      if !succeeded || response.None? {
        if attemptIndex < config.maxRetries {
          var delay := Backoff.Multiplier(attemptIndex);
          attemptIndex := attemptIndex + 1;
          ScheduleRetry(delay);
          return;
        }
        FinishFailure(status, NetworkFailureMessage, content);
        return;
      }

      if |content| / 1024 > config.maxPayloadKB as int {
        FinishFailure(status, PayloadTooLargeMessage, content);
        return;
      }

      if status < 200 || status >= 300 {
        if status >= 500 && attemptIndex < config.maxRetries {
          var delay := Backoff.Multiplier(attemptIndex);
          attemptIndex := attemptIndex + 1;
          ScheduleRetry(delay);
          return;
        }
        FinishFailure(status, HttpErrorMessage, content);
        return;
      }

      FinishSuccess(content, status);
    }

    /** Queues a retry; after the delay the engine delivers RetryFires. */
    method ScheduleRetry(multiplier: nat)
      requires completed && scheduledRetries == [] && outcomes == []
      modifies this
      ensures scheduledRetries == old(scheduledRetries) + [multiplier]
      ensures attemptIndex == old(attemptIndex) && completed == old(completed)
      ensures activeRequest == old(activeRequest) && processCalls == old(processCalls)
      ensures cancelCalls == old(cancelCalls) && firedRetries == old(firedRetries) && outcomes == old(outcomes)
      ensures activations == old(activations)
    {
      scheduledRetries := scheduledRetries + [multiplier];
    }

    /**
     * A queued retry's delay has elapsed and Attempt runs again. The callback
     * that queued it left the completed flag set and nothing clears it, so the
     * attempt returns at its guard: no call is issued and no outcome follows.
     */
    method RetryFires()
      requires Valid() && firedRetries < |scheduledRetries|
      modifies this
      ensures Valid()
      ensures firedRetries == old(firedRetries) + 1
      ensures completed
      ensures processCalls == old(processCalls) && activeRequest == old(activeRequest)
      ensures outcomes == old(outcomes) && attemptIndex == old(attemptIndex)
      ensures scheduledRetries == old(scheduledRetries) && cancelCalls == old(cancelCalls)
      ensures activations == old(activations)
    {
      firedRetries := firedRetries + 1;
      Attempt();
    }

    /** Deregisters this node from its group, then broadcasts OnSuccess. */
    method FinishSuccess(response: string, statusCode: int32)
      requires Valid() && registry.Valid()
      requires completed && scheduledRetries == [] && outcomes == []
      modifies this, registry
      ensures Valid() && registry.Valid()
      ensures registry.tokenMap == TokenGroups.Unregister(old(registry.tokenMap), config.cancelToken, this)
      ensures registry.live == old(registry.live)
      ensures outcomes == old(outcomes) + [Success(response, statusCode)]
      ensures attemptIndex == old(attemptIndex) && completed == old(completed)
      ensures activeRequest == old(activeRequest) && processCalls == old(processCalls)
      ensures cancelCalls == old(cancelCalls) && scheduledRetries == old(scheduledRetries)
      ensures firedRetries == old(firedRetries) && activations == old(activations)
    {
      if config.cancelToken != 0 {
        registry.RemoveMember(config.cancelToken, this);
      }
      outcomes := outcomes + [Success(response, statusCode)];
    }

    /** Deregisters this node from its group, then broadcasts OnFailure with an error record. */
    method FinishFailure(statusCode: int32, message: string, rawBody: string)
      requires Valid() && registry.Valid()
      requires completed && scheduledRetries == [] && outcomes == []
      modifies this, registry
      ensures Valid() && registry.Valid()
      ensures registry.tokenMap == TokenGroups.Unregister(old(registry.tokenMap), config.cancelToken, this)
      ensures registry.live == old(registry.live)
      ensures outcomes == old(outcomes) + [Failure(HttpError(true, statusCode, message, rawBody))]
      ensures attemptIndex == old(attemptIndex) && completed == old(completed)
      ensures activeRequest == old(activeRequest) && processCalls == old(processCalls)
      ensures cancelCalls == old(cancelCalls) && scheduledRetries == old(scheduledRetries)
      ensures firedRetries == old(firedRetries) && activations == old(activations)
    {
      if config.cancelToken != 0 {
        registry.RemoveMember(config.cancelToken, this);
      }
      var err := DefaultError.(isError := true, statusCode := statusCode, message := message, rawBody := rawBody);
      outcomes := outcomes + [Failure(err)];
    }
  }

  /**
   * The factory: allocates a node with the clamped parameters and, for a
   * non-zero token, adds it to that token's group.
   */
  method HttpJsonRequest(registry: CancelRegistry, m: HttpMethod, url: string, headers: seq<Header>,
                         timeoutSeconds: int32, maxRetries: int32, maxPayloadKB: int32,
                         cancelToken: int32, body: string) returns (node: Node)
    requires registry.Valid()
    modifies registry
    ensures fresh(node) && node.Valid() && registry.Valid()
    ensures node.registry == registry
    ensures node.config == FactoryConfig(m, url, headers, timeoutSeconds, maxRetries, maxPayloadKB, cancelToken, body)
    ensures node.attemptIndex == 0 && !node.completed && node.activeRequest == None
    ensures node.activations == 0 && node.processCalls == 0 && node.cancelCalls == 0 && node.firedRetries == 0
    ensures node.scheduledRetries == [] && node.outcomes == []
    ensures registry.tokenMap == TokenGroups.Register(old(registry.tokenMap), cancelToken, node)
    ensures registry.live == old(registry.live) + {node}
  {
    var config := FactoryConfig(m, url, headers, timeoutSeconds, maxRetries, maxPayloadKB, cancelToken, body);
    node := new Node(registry, config);
    registry.live := registry.live + {node};
    if config.cancelToken != 0 {
      var group := if cancelToken in registry.tokenMap then registry.tokenMap[cancelToken] else {};
      registry.tokenMap := registry.tokenMap[cancelToken := group + {node}];
    }
  }

  /**
   * A 503 answer with two retries allowed: the callback queues one retry,
   * the retry issues nothing, and the node ends with one call on the wire,
   * the flag set and no outcome. Since the invariant allows at most one of
   * "retry queued" and "outcome broadcast", no later event can resolve it.
   */
  method ServerErrorRetryScenario(registry: CancelRegistry, url: string) returns (node: Node)
    requires registry.Valid()
    modifies registry
    ensures registry.Valid() && node.Valid()
    ensures fresh(node) && node.registry == registry
    ensures node.config.maxRetries == 2
    ensures node.processCalls == 1 && node.attemptIndex == 1
    ensures node.scheduledRetries == [1] && node.firedRetries == 1
    ensures node.completed && node.outcomes == []
  {
    node := HttpJsonRequest(registry, POST, url, [], 30, 2, 1024, 0, "{}");
    node.Activate();
    node.OnRequestComplete(true, Some(HttpResponse(503, "")));
    node.RetryFires();
  }
  /**
   * Two started requests grouped under token 7 are cancelled together: both
   * have their call cancelled and their flag set, neither broadcasts, and the
   * token's entry is gone. The cancelled call's late failure report is
   * ignored, and cancelling the token again changes nothing.
   */
  method GroupCancelScenario(registry: CancelRegistry) returns (a: Node, b: Node)
    requires registry.Valid() && 7 !in registry.tokenMap
    modifies registry
    ensures registry.Valid() && a.Valid() && b.Valid() && a != b
    ensures fresh(a) && fresh(b) && a.registry == registry && b.registry == registry
    ensures 7 !in registry.tokenMap
    ensures a.completed && b.completed
    ensures a.processCalls == 1 && a.cancelCalls == 1 && b.processCalls == 1 && b.cancelCalls == 1
    ensures a.outcomes == [] && b.outcomes == []
  {
    a := HttpJsonRequest(registry, GET, "a", [], 30, 2, 1024, 7, "");
    b := HttpJsonRequest(registry, GET, "b", [], 30, 2, 1024, 7, "");
    a.Activate();
    b.Activate();
    registry.CancelByToken(7);
    a.OnRequestComplete(false, None);
    var before := registry.tokenMap;
    registry.CancelByToken(7);
    assert registry.tokenMap == before;
  }

  /**
   * With no retries allowed, a call that outlives its timeout is cancelled
   * by the watchdog, the transport reports the failure, and the node
   * broadcasts a network failure with status 0 and an empty body.
   */
  method WatchdogTimeoutScenario(registry: CancelRegistry) returns (node: Node)
    requires registry.Valid()
    modifies registry
    ensures registry.Valid() && node.Valid()
    ensures fresh(node) && node.registry == registry
    ensures node.processCalls == 1 && node.cancelCalls == 1
    ensures node.outcomes == [Failure(HttpError(true, 0, NetworkFailureMessage, ""))]
  {
    node := HttpJsonRequest(registry, GET, "u", [], 1, 0, 1024, 0, "");
    node.Activate();
    node.WatchdogExpire();
    node.OnRequestComplete(false, None);
  }
}

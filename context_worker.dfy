/** The per-context worker of context_worker.cpp: a task queue, the
    preemption test against the task in flight, the content-addressed cache
    of captured context states, and the tail of `ai_run_inference` that
    updates the cache and clears `in_use`.

    One pass of the `while(true)` loop of `run()` is a deterministic step
    over the worker's fields; the backend (token counting, XXH64, the
    generation itself, the captured state) is an oracle. */
module ContextWorker {
  import opened Wrappers
  import opened Inference
  import opened Arithmetic

  /** An unsigned 64-bit value, the type of an XXH64 digest. */
  newtype u64 = x: int | 0 <= x < 0x1_0000_0000_0000_0000

  /** The digits of the "%016llx" conversion. */
  const HexAlphabet: string := "0123456789abcdef"

  /** Number of hex digits in a cache key. */
  const KeyWidth: nat := 16

  /** Size of the `cache_key` character buffer. */
  const KeyBufferSize: nat := 32

  // ---------------------------------------------------------------------
  // Cache key: the 64-bit hash printed as 16 lowercase, zero-padded hex digits
  // ---------------------------------------------------------------------

  function Pow16(n: nat): (p: nat)
    ensures p >= 1
  {
    if n == 0 then 1 else 16 * Pow16(n - 1)
  }

  /** The last `width` hex digits of `v`, most significant first, padded with '0'. */
  function Hex(v: nat, width: nat): string
  {
    if width == 0 then "" else Hex(v / 16, width - 1) + [HexAlphabet[v % 16]]
  }

  /** The key under which a prompt with digest `h` is cached. */
  function CacheKey(h: u64): string
  {
    Hex(h as nat, KeyWidth)
  }

  /** The value of one lowercase hex digit. */
  function DigitValue(c: char): nat
  {
    if '0' <= c <= '9' then c as nat - '0' as nat
    else if 'a' <= c <= 'f' then c as nat - 'a' as nat + 10
    else 0
  }

  /** Reads a string of hex digits back as a number. */
  function ParseHex(s: string): nat
  {
    if s == [] then 0 else ParseHex(s[..|s| - 1]) * 16 + DigitValue(s[|s| - 1])
  }

  lemma ModSplit(v: nat, p: nat)
    requires p >= 1
    ensures (v / 16 % p) * 16 + v % 16 == v % (16 * p)
  {
    var q, r := v / 16, v % 16;
    var a, b := q / p, q % p;
    assert v == 16 * q + r;
    assert q == p * a + b;
    assert v == (16 * p) * a + (16 * b + r);
    assert 0 <= 16 * b + r < 16 * p;
    DivModUnique(v, 16 * p, a, 16 * b + r);
  }

  /** Rendering `v` in `width` hex digits gives exactly `width` lowercase
      hex digits, and reading them back gives `v` modulo 16^width. */
  lemma HexRoundTrip(v: nat, width: nat)
    ensures |Hex(v, width)| == width
    ensures forall i :: 0 <= i < width ==> Hex(v, width)[i] in HexAlphabet
    ensures ParseHex(Hex(v, width)) == v % Pow16(width)
  {
    HexShape(v, width);
    HexParse(v, width);
  }

  lemma {:induction false} HexShape(v: nat, width: nat)
    ensures |Hex(v, width)| == width
    ensures forall i :: 0 <= i < width ==> Hex(v, width)[i] in HexAlphabet
  {
    if width > 0 {
      HexShape(v / 16, width - 1);
    }
  }

  lemma {:induction false} HexParse(v: nat, width: nat)
    ensures ParseHex(Hex(v, width)) == v % Pow16(width)
  {
    if width > 0 {
      var s := Hex(v / 16, width - 1);
      var p := Pow16(width - 1);
      HexParse(v / 16, width - 1);
      ParseHexSnoc(s, v % 16);
      ModSplit(v, p);
    }
  }

  /** Appending the digit for d multiplies the value by 16 and adds d. */
  lemma ParseHexSnoc(s: string, d: nat)
    requires d < 16
    ensures ParseHex(s + [HexAlphabet[d]]) == ParseHex(s) * 16 + d
  {
    assert (s + [HexAlphabet[d]])[..|s|] == s;
    DigitOfHex(d);
  }

  lemma DigitOfHex(d: nat)
    requires d < 16
    ensures DigitValue(HexAlphabet[d]) == d
  {
  }

  lemma Pow16Of16()
    ensures Pow16(KeyWidth) == 0x1_0000_0000_0000_0000
  {
    assert Pow16(4) == 0x1_0000;
    assert Pow16(8) == 0x1_0000_0000 by { Pow16Add(4, 4); }
    Pow16Add(8, 8);
  }

  lemma {:induction false} Pow16Add(a: nat, b: nat)
    ensures Pow16(a + b) == Pow16(a) * Pow16(b)
  {
    if a > 0 {
      Pow16Add(a - 1, b);
    }
  }

  /** A cache key is 16 lowercase hex digits, so it and its terminating 0
      fit the 32-byte `cache_key` buffer, and it can be read back as the
      digest it was printed from. */
  lemma CacheKeyShape(h: u64)
    ensures |CacheKey(h)| == KeyWidth && |CacheKey(h)| + 1 <= KeyBufferSize
    ensures forall i :: 0 <= i < KeyWidth ==> CacheKey(h)[i] in HexAlphabet
    ensures ParseHex(CacheKey(h)) == h as nat
  {
    HexRoundTrip(h as nat, KeyWidth);
    Pow16Of16();
    DivModUnique(h as nat, Pow16(KeyWidth), 0, h as nat);
  }

  /** Two prompts share a cache entry exactly when their digests are equal. */
  lemma CacheKeyInjective(h1: u64, h2: u64)
    ensures CacheKey(h1) == CacheKey(h2) <==> h1 == h2
  {
    CacheKeyShape(h1);
    CacheKeyShape(h2);
  }

  // ---------------------------------------------------------------------
  // The worker's state and one pass of run()
  // ---------------------------------------------------------------------

  /** The fields that run() reads and writes. */
  datatype WorkerState = WorkerState(
    tasks: seq<string>,
    stop: bool,
    inUse: bool,
    currentPriority: int,
    cache: map<string, seq<bv8>>)

  /** Backend answers that depend on the prompt only: the token count that
      get_priority and ai_run_inference read from llama_tokenize, and XXH64
      with seed 10. */
  datatype Backend = Backend(tokenCount: string -> nat, hash: string -> u64)

  /** Backend answers for one run of ai_run_inference: whether the second
      tokenize call succeeds, the decode-loop oracle, and the state that
      llama_state_get_data would capture after generation. */
  datatype Execution = Execution(tokenizeOk: bool, decode: nat -> StepOutcome, captured: seq<bv8>)

  /** What one pass of the loop did. */
  datatype Report =
    | Waiting                       // queue empty, no stop: cv.wait blocks
    | Exited                        // stop set and queue empty: run() returns
    | Requeued(prompt: string)      // preempted: moved from head to tail
    | Ran(prompt: string, key: string, restored: Option<seq<bv8>>, result: InferenceResult)

  /** One pass of run(): wait/stop test, dequeue, preemption test, then
      acceptance, cache lookup and inference. */
  function Next(s: WorkerState, b: Backend, e: Execution): (WorkerState, Report)
  {
    if s.tasks == [] then
      (s, if s.stop then Exited else Waiting)
    else
      var prompt := s.tasks[0];
      var priority := b.tokenCount(prompt);
      if priority > s.currentPriority && s.inUse then
        (s.(tasks := s.tasks[1..] + [prompt]), Requeued(prompt))
      else
        var key := CacheKey(b.hash(prompt));
        var hit := key in s.cache;
        var result := Generate(e.tokenizeOk, b.tokenCount(prompt), e.decode).result;
        var cache := if !hit && result.Generated? then s.cache[key := e.captured] else s.cache;
        (WorkerState(s.tasks[1..], s.stop, !result.Generated?, priority, cache),
         Ran(prompt, key, if hit then Some(s.cache[key]) else None, result))
  }

  /** run() returns exactly when stop is set and the queue is empty, and
      blocks exactly when neither holds; with stop set and work queued it
      goes on dequeuing, so shutdown drains the queue. */
  lemma ExitOnlyWhenDrained(s: WorkerState, b: Backend, e: Execution)
    ensures Next(s, b, e).1 == Exited <==> s.stop && s.tasks == []
    ensures Next(s, b, e).1 == Waiting <==> !s.stop && s.tasks == []
    ensures s.tasks == [] ==> Next(s, b, e).0 == s
    ensures s.tasks != [] ==> Next(s, b, e).1.Requeued? || Next(s, b, e).1.Ran?
  {
  }

  /** Preemption: the head is moved to the tail without being run exactly
      when the worker is in use and the head costs more tokens than the
      task in flight; the queue keeps its length and its prompts, and
      nothing else changes. */
  lemma RequeueRule(s: WorkerState, b: Backend, e: Execution)
    requires s.tasks != []
    ensures var (t, r) := Next(s, b, e);
      && (r.Requeued? <==> s.inUse && b.tokenCount(s.tasks[0]) > s.currentPriority)
      && (r.Requeued? ==>
            && r.prompt == s.tasks[0]
            && t.tasks == s.tasks[1..] + [s.tasks[0]]
            && |t.tasks| == |s.tasks|
            && multiset(t.tasks) == multiset(s.tasks)
            && t.inUse == s.inUse && t.currentPriority == s.currentPriority
            && t.cache == s.cache && t.stop == s.stop)
  {
    var (t, r) := Next(s, b, e);
    if r.Requeued? {
      calc {
        multiset(t.tasks);
        multiset(s.tasks[1..]) + multiset([s.tasks[0]]);
        { assert s.tasks == [s.tasks[0]] + s.tasks[1..]; }
        multiset(s.tasks);
      }
    }
  }

  /** Acceptance: the head is run in FIFO order, current_priority becomes
      its token count, and in_use is left set exactly when the run failed
      (tokenize, decode or piece-conversion failure); only success clears it. */
  lemma AcceptRule(s: WorkerState, b: Backend, e: Execution)
    ensures var (t, r) := Next(s, b, e);
      r.Ran? ==>
        && s.tasks != [] && r.prompt == s.tasks[0]
        && t.tasks == s.tasks[1..] && t.stop == s.stop
        && t.currentPriority == b.tokenCount(r.prompt)
        && r.key == CacheKey(b.hash(r.prompt))
        && r.result == Generate(e.tokenizeOk, b.tokenCount(r.prompt), e.decode).result
        && (t.inUse <==> r.result.Failed?)
  {
  }

  /** The cache is write-once: no entry is removed or overwritten, a key is
      inserted only when its lookup missed and the run succeeded (and then
      with the captured state), and a hit restores the stored state. */
  lemma CacheRules(s: WorkerState, b: Backend, e: Execution)
    ensures var (t, r) := Next(s, b, e);
      && s.cache.Keys <= t.cache.Keys
      && |s.cache| <= |t.cache|
      && (forall k :: k in s.cache ==> t.cache[k] == s.cache[k])
      && (t.cache != s.cache <==> r.Ran? && r.key !in s.cache && r.result.Generated?)
      && (t.cache != s.cache ==> t.cache == s.cache[r.key := e.captured])
      && (r.Ran? ==> r.restored == if r.key in s.cache then Some(s.cache[r.key]) else None)
  {
    var (t, r) := Next(s, b, e);
    if r.Ran? && r.key !in s.cache && r.result.Generated? {
      assert r.key in t.cache && r.key !in s.cache;
      assert t.cache.Keys == s.cache.Keys + {r.key};
    }
  }

  /** A prompt run successfully on a cache miss is found in the cache the
      next time it is run, and that run restores the state captured then. */
  lemma SecondRunHits(s: WorkerState, b: Backend, e1: Execution, e2: Execution)
    requires |s.tasks| >= 2 && s.tasks[0] == s.tasks[1]
    requires Next(s, b, e1).1.Ran? && Next(s, b, e1).1.restored == None
    requires Next(s, b, e1).1.result.Generated?
    ensures var s1 := Next(s, b, e1).0;
      && Next(s1, b, e2).1.Ran?
      && Next(s1, b, e2).1.prompt == s.tasks[0]
      && Next(s1, b, e2).1.restored == Some(e1.captured)
      && Next(s1, b, e2).0.cache == s1.cache
  {
    CacheRules(s, b, e1);
  }

  /** While no run fails, in_use is false whenever the loop dequeues, so
      the preemption branch is never taken: run() executes inference on its
      own thread, and a successful run clears in_use before the next pass. */
  lemma NoRequeueWithoutFailure(s: WorkerState, b: Backend, e: Execution)
    requires !s.inUse
    ensures var (t, r) := Next(s, b, e);
      && !r.Requeued?
      && (s.tasks != [] ==> r.Ran? && |t.tasks| == |s.tasks| - 1)
      && (!r.Ran? || r.result.Generated? <==> !t.inUse)
  {
  }

  /** As written, a failed run leaves in_use set with its own token count
      as current_priority; a prompt that costs more is then moved to the
      tail on every pass and does not run until a prompt costing no more
      than the failed one runs successfully.
      Here: "p" (5 tokens) fails to tokenize, "q" (10 tokens) waits
      behind it and is requeued forever, as the state reached is a fixed
      point of the loop. */
  lemma FailedRunStarvesCostlier(c0: int, fail: Execution, any: Execution)
    requires !fail.tokenizeOk
    ensures var b := Backend(p => if p == "p" then 5 else 10, p => 0);
      var s0 := WorkerState(["p", "q"], false, false, c0, map[]);
      var s1 := Next(s0, b, fail).0;
      && Next(s0, b, fail).1 == Ran("p", CacheKey(0), None, Failed(TokenizeErr))
      && s1 == WorkerState(["q"], false, true, 5, map[])
      && Next(s1, b, any) == (s1, Requeued("q"))
  {
    var b := Backend(p => if p == "p" then 5 else 10, p => 0);
    var s0 := WorkerState(["p", "q"], false, false, c0, map[]);
    assert s0.tasks[1..] == ["q"];
    var s1 := Next(s0, b, fail).0;
    assert s1.tasks[1..] + [s1.tasks[0]] == ["q"];
  }

  /** The corrected pass: in_use is cleared on every path out of
      ai_run_inference, as it is after a successful run. */
  function NextReleasing(s: WorkerState, b: Backend, e: Execution): (WorkerState, Report)
  {
    var (t, r) := Next(s, b, e);
    if r.Ran? then (t.(inUse := false), r) else (t, r)
  }

  /** With in_use cleared on failure too, a worker that starts idle never
      requeues: every pass on a non-empty queue runs its head and shortens
      the queue by one, so every queued prompt runs and a stopped worker
      drains its queue in as many passes as it holds prompts. */
  lemma {:induction false} ReleasingDrains(s: WorkerState, b: Backend, es: seq<Execution>)
    requires !s.inUse && |es| == |s.tasks|
    ensures var (t, rs) := IterateReleasing(s, b, es);
      && t.tasks == [] && !t.inUse && |rs| == |es|
      && (forall i :: 0 <= i < |rs| ==> rs[i].Ran? && rs[i].prompt == s.tasks[i])
    decreases |es|
  {
    if es != [] {
      var (s1, r1) := NextReleasing(s, b, es[0]);
      ReleasingDrains(s1, b, es[1..]);
    }
  }

  /** Passes of the corrected loop, one per execution oracle in `es`. */
  function IterateReleasing(s: WorkerState, b: Backend, es: seq<Execution>): (WorkerState, seq<Report>)
    decreases |es|
  {
    if es == [] then (s, [])
    else
      var (s1, r1) := NextReleasing(s, b, es[0]);
      var (t, rs) := IterateReleasing(s1, b, es[1..]);
      (t, [r1] + rs)
  }

  // ---------------------------------------------------------------------
  // The worker object
  // ---------------------------------------------------------------------

  class Worker {
    const contextId: int
    const ctx: nat
    var tasks: seq<string>
    var stop: bool
    var inUse: bool
    var currentPriority: int
    var cache: map<string, seq<bv8>>

    function State(): WorkerState
      reads this
    {
      WorkerState(tasks, stop, inUse, currentPriority, cache)
    }

    /** A worker for context `context` with identifier `id`: empty queue,
        not stopped, not in use, empty cache. current_priority is left
        uninitialised, as in the source. */
    constructor (id: int, context: nat)
      ensures contextId == id && ctx == context
      ensures tasks == [] && !stop && !inUse && cache == map[]
    {
      contextId := id;
      ctx := context;
      tasks := [];
      stop := false;
      inUse := false;
      cache := map[];
    }

    /** Appends a prompt at the tail of the queue. */
    method Enqueue(prompt: string)
      modifies this`tasks
      ensures tasks == old(tasks) + [prompt]
    {
      tasks := tasks + [prompt];
    }

    /** The destructor's effect on the worker: sets `stop`. */
    method RequestStop()
      modifies this`stop
      ensures stop
    {
      stop := true;
    }

    /** The tail of ai_run_inference: generation, then on success the cache
        update (when asked for) and the reset of in_use. */
    method RunInference(prompt: string, key: string, updateCache: bool, b: Backend, e: Execution)
      returns (result: InferenceResult)
      modifies this`cache, this`inUse
      ensures result == Generate(e.tokenizeOk, b.tokenCount(prompt), e.decode).result
      ensures cache == if updateCache && result.Generated? then old(cache)[key := e.captured] else old(cache)
      ensures inUse == if result.Generated? then false else old(inUse)
    {
      var g := RunDecodeLoop(e.tokenizeOk, b.tokenCount(prompt), e.decode);
      result := g.result;
      if result.Failed? {
        return;
      }
      if updateCache {
        cache := cache[key := e.captured];
      }
      inUse := false;
    }

    /** One pass of the run() loop. */
    method Step(b: Backend, e: Execution) returns (report: Report)
      modifies this
      ensures (State(), report) == Next(old(State()), b, e)
    {
      if tasks == [] {
        report := if stop then Exited else Waiting;
        return;
      }
      var prompt := tasks[0];
      tasks := tasks[1..];
      var priority := b.tokenCount(prompt);
      if priority > currentPriority && inUse {
        tasks := tasks + [prompt];
        report := Requeued(prompt);
        return;
      }
      currentPriority := priority;
      inUse := true;
      var key := CacheKey(b.hash(prompt));
      var restored: Option<seq<bv8>> := None;
      var updateCache := true;
      if key in cache {
        restored := Some(cache[key]);
        updateCache := false;
      }
      var result := RunInference(prompt, key, updateCache, b, e);
      report := Ran(prompt, key, restored, result);
    }
  }
}

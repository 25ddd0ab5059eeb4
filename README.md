# Concurrent llama.cpp context pool — a Dafny model

This project models the sequential decision logic underneath a small C++
server that spreads text-generation prompts over a fixed pool of llama.cpp
contexts:

- **`LlamaSchedular`** (llama_schedular.cpp): builds one `ContextWorker` per
  context and dispatches prompts round-robin with a cursor that advances
  modulo the pool size.
- **`ContextWorker`** (context_worker.cpp): a per-context FIFO of prompts, a
  preemption test that sends a dequeued prompt back to the tail when the
  worker is in use and the prompt costs more tokens than the task in flight,
  a cache from a 16-hex-digit XXH64 key to a captured context state, and the
  generation loop `ai_run_inference` with its bounded append into a
  4096-byte response buffer.
- **The global pool** (main.cpp): `acquire_llama_ctx` hands out the lowest
  free of four slots, `release_llama_ctx` clears a slot after a bounds
  check, and main.cpp's own `ai_run_inference` returns a heap copy of the
  response or NULL.

The backend is an oracle. `Backend` gives the token count of a prompt (what
`llama_tokenize` reports) and its XXH64 digest; `Execution` gives, for one
run of `ai_run_inference`, whether the second tokenize call succeeds, what
each pass of the decode loop yields (`DecodeFailed`, `EndOfGeneration`,
`ConvertFailed` or a `Piece` of bytes) and the state blob
`llama_state_get_data` would capture.

Files: `inference.dfy` (the decode loop and response buffer, identical in
both C++ files), `context_worker.dfy`, `llama_schedular.dfy`, `main.dfy`
(module `Pool`), plus `wrappers.dfy` (Option) and `arithmetic.dfy`
(division facts).

One pass of `run()`'s `while(true)` loop is the pure function
`ContextWorker.Next` over the worker's fields; the class method
`Worker.Step` performs the pass imperatively and is proved to agree with
`Next`, and the lemmas about `Next` carry the properties.

Two behaviours of the code shape the model:

- on shutdown the loop keeps dequeuing until the queue is empty (it drains
  the queue before returning), context_worker.cpp:56-57;
- `in_use` is cleared only at the end of a successful run
  (context_worker.cpp:203); the three failure returns (124-127, 145-149,
  169-173) leave it set, together with the failed prompt's
  `current_priority`.

## Model

| member | source | states |
|---|---|---|
| `Inference.Append` | context_worker.cpp:176-180 | a piece is appended only when the text plus the piece stays under 4095 bytes and is otherwise dropped whole; the text stays under 4095 bytes |
| `Inference.AppendPiece` | context_worker.cpp:139-180 | the memcpy into the zero-filled buffer leaves `response[..len]` equal to `Append` of the old text, `response[len] == 0`, `len <= 4094` and the tail still zero |
| `Inference.RunDecodeLoop` | context_worker.cpp:114-189 | the loop over `n_pos` and the batch size computes exactly the `Generate` outcome (tokenize failure, decode failure, conversion failure, or the response) and its number of decode calls |
| `Inference.DecodeBounds` | context_worker.cpp:143-189 | from any pass on, the decode calls stay within the budget, the response only grows and stays under 4095 bytes |
| `Inference.DecodeBudget` | context_worker.cpp:114-157 | the budget is 0 exactly when the prompt has 20 tokens or more, and otherwise brings the prompt length up to 20, i.e. max(0, 20 - n_prompt); that the loop condition `n_pos + batch.n_tokens < n_prompt + n_predict` allows exactly this many passes is proved by the invariants of `Inference.RunDecodeLoop` |
| `Inference.GenerateBounds` | context_worker.cpp:114-157 | at most max(0, 20 - n_prompt) decode calls; a prompt of 20 or more tokens gets no decode call and an empty response; a response plus its 0 fits the 4096-byte buffer |
| `Inference.DecodeUsesWholeBudget` | context_worker.cpp:143-157 | the bound is tight: when every pass yields a piece, exactly max(0, 20 - n_prompt) decode calls happen and the run succeeds |
| `ContextWorker.HexRoundTrip` | context_worker.cpp:71 | `Hex(v, N)`, the last N lowercase hex digits of v (what `%0Nx` prints when v < 16^N, as for the 64-bit digest with N = 16), has exactly N digits and reads back as v modulo 16^N |
| `ContextWorker.CacheKeyShape` | context_worker.cpp:69-71 | the cache key is 16 lowercase hex digits, fits the 32-byte `cache_key` buffer with its terminator, and reads back as the 64-bit digest |
| `ContextWorker.CacheKeyInjective` | context_worker.cpp:69-73 | two prompts share a cache entry exactly when their XXH64 digests are equal |
| `ContextWorker.ExitOnlyWhenDrained` | context_worker.cpp:56-57 | a pass exits iff `stop` is set and the queue is empty, waits iff neither, changes nothing on an empty queue, and with work queued always requeues or runs (drains on stop) |
| `ContextWorker.RequeueRule` | context_worker.cpp:58-64 | the head is moved to the tail without running iff `in_use` and its token count exceeds `current_priority`; the queue keeps its length and multiset, and `in_use`, `current_priority`, the cache and `stop` are unchanged |
| `ContextWorker.AcceptRule` | context_worker.cpp:65-67 | an accepted prompt is the head (FIFO), the rest of the queue keeps its order, `current_priority` becomes its token count, the key is its hex digest, and `in_use` stays set iff the run failed |
| `ContextWorker.CacheRules` | context_worker.cpp:73-80 | no cache entry is removed or overwritten and the cache never shrinks; it changes iff the lookup missed and the run succeeded, then by inserting the captured state; a hit restores the stored state |
| `ContextWorker.SecondRunHits` | context_worker.cpp:194-201 | a prompt run successfully on a miss hits the cache on its next run, restores the state captured the first time, and does not write the cache |
| `ContextWorker.NoRequeueWithoutFailure` | context_worker.cpp:61-67 | from a state with `in_use` false a pass never requeues, runs the head of a non-empty queue, and leaves `in_use` false unless the run failed: requeueing is reachable only after a failure |
| `ContextWorker.FailedRunStarvesCostlier` | context_worker.cpp:124-127 | after "p" (5 tokens) fails to tokenize, "q" (10 tokens) is requeued by every later pass: the state reached is a fixed point |
| `ContextWorker.ReleasingDrains` | context_worker.cpp:203 | with `in_use` cleared on every exit of the run, an idle worker runs its queue in order, one prompt per pass, and ends idle with an empty queue |
| `ContextWorker.Worker.constructor` | context_worker.cpp:16-18 | a new worker has its id and context, an empty queue and cache, `stop` and `in_use` false; `current_priority` is left arbitrary |
| `ContextWorker.Worker.Enqueue` | context_worker.cpp:29-33 | the prompt is appended at the tail and no other field changes |
| `ContextWorker.Worker.RequestStop` | context_worker.cpp:21-28 | the destructor sets `stop` and changes nothing else |
| `ContextWorker.Worker.RunInference` | context_worker.cpp:108-204 | the run's result is `Generate`'s; on success the captured state is stored under the key when asked and `in_use` is cleared; on any failure cache and `in_use` are untouched |
| `ContextWorker.Worker.Step` | context_worker.cpp:51-89 | the new fields and the report of one pass of `run()` are exactly those of `Next` on the old fields |
| `LlamaSchedular.DispatchLength` | llama_schedular.cpp:19-20 | after m calls worker i has received m / n prompts, plus one when i < m mod n |
| `LlamaSchedular.DispatchOrder` | llama_schedular.cpp:19-20 | call k (0-based) lands on worker k mod n as the (k / n)-th prompt it receives, so each worker gets calls i, i + n, i + 2n, ... in submission order |
| `LlamaSchedular.DispatchBalanced` | llama_schedular.cpp:19-20 | after m calls every worker has received between floor(m/n) and ceil(m/n) prompts |
| `LlamaSchedular.DispatchFourPrompts` | llama_schedular.cpp:17-21 | four prompts over four workers go one to each worker, in order |
| `LlamaSchedular.Schedular.constructor` | llama_schedular.cpp:8-12 | exactly one fresh worker per context, worker i with id i and context i, all idle and empty, cursor 0 |
| `LlamaSchedular.Schedular.Schedule` | llama_schedular.cpp:17-21 | with at least one worker, the k-th call appends the prompt to worker k mod N, leaves every other worker unchanged and keeps the cursor in [0, N); the prompts each worker has been handed are those of `Dispatch` over all calls so far, so after M calls every worker has received between floor(M/N) and ceil(M/N) of them |
| `LlamaSchedular.Schedular.Shutdown` | llama_schedular.cpp:13-15 | every worker's `stop` is set and every other field of every worker (queue, `in_use`, `current_priority`, cache) is unchanged; the worker list is emptied |
| `Pool.FirstFree` | main.cpp:45-55 | the lowest index whose flag is false, or -1 exactly when every slot is busy |
| `Pool.ReleaseProperties` | main.cpp:60-72 | release is idempotent, clears only the named slot, and ignores an index outside [0, 4) |
| `Pool.ReleaseThenAcquire` | main.cpp:41-72 | after releasing slot i with every other slot busy, the next acquire returns slot i |
| `Pool.CStringShape` | main.cpp:150-151 | the returned copy has strlen(response) + 1 bytes, ends in its only 0 byte, and is the whole response plus 0 when no piece carried a 0 byte |
| `Pool.LlamaPool.constructor` | main.cpp:29 | the static pool starts with all four slots free |
| `Pool.LlamaPool.Acquire` | main.cpp:41-58 | returns the lowest free slot and its context and marks only that slot busy, or returns `{NULL, -1}` and changes no slot when all four are busy |
| `Pool.LlamaPool.Release` | main.cpp:60-72 | the flags become `Released` of the old flags for the handle's index |
| `Pool.RunInference` | main.cpp:84-154 | NULL exactly on a tokenize, decode or conversion failure, otherwise the C-string copy of the generated response |

## Findings

| source | as written | input that shows it | evidently intended | confidence | as-written member | corrected member |
|---|---|---|---|---|---|---|
| context_worker.cpp:124-127 | the three failure returns of `ai_run_inference` (also 145-149 and 169-173) leave `in_use` true; since inference runs on the loop's own thread, every later prompt that costs more tokens than the failed one is moved to the tail on every pass and does not run until a prompt costing no more than the failed one runs successfully | queue ["p", "q"], "p" 5 tokens and its tokenize call fails, "q" 10 tokens: after "p" fails, every pass requeues "q" and changes nothing else | `in_use` cleared on every exit of the run, so that a failure moves on to the next prompt | medium, not executed | `ContextWorker.FailedRunStarvesCostlier` | `ContextWorker.ReleasingDrains` |

The corrected pass is `ContextWorker.NextReleasing`. `Worker.Step` itself
keeps the code's behaviour, because the worker class models the code as
written.

## Left out

- Threads, `std::condition_variable`, the queue and pool mutexes and the
  atomic compare-exchange: the model is one sequential interleaving, one
  `Schedule` call or one worker pass at a time; the compare-exchange in
  `acquire_llama_ctx` is a plain test-and-set under the pool lock. A pass
  on an empty, unstopped queue reports `Waiting` where the thread would block.
- `worker.join()` in the worker destructor (waiting for the loop to drain
  and return) is a thread wait and is not modelled; `Shutdown` only sets the
  flags.
- All llama.cpp calls are oracle answers: tokenize, decode, sampling,
  `llama_token_to_piece`, `llama_state_get_size/get_data/set_data`. Restoring
  a cached state appears as the `restored` blob of the `Ran` report.
  `llama_kv_self_clear` and sampler setup/teardown change no modelled state.
- XXH64 is an oracle from prompt to a 64-bit value; xxhash.h is not part of
  this model.
- Timing (`chrono`) and `printf` logging have no effect on state.
- `main()` (model loading, context creation, and its `schedule` call with a
  lambda, which matches no `schedule` of `LlamaSchedular`) and
  threadPool.cpp, which is not part of this model.
- `get_vocab_safe`: a lock around a foreign getter.
- The `preempt` field of `ContextWorker` is initialised and never read.
- `ContextWorker.Next`: the token count is an unbounded `nat` and
  `current_priority` an unbounded `int`; the int32 conversion of counts
  above 2^31 - 1 and the int overflow of `n_pos + batch.n_tokens` for
  prompts of about 2^30 tokens are not modelled.
- `Inference.RunDecodeLoop`: a negative `n_prompt` (which would make the
  `prompt_tokens` vector constructor throw) is excluded by taking the token
  count as a `nat`.
- `Inference.StepOutcome`: a piece longer than the 128-byte `buf` is
  reported by llama.cpp as a negative length, i.e. `ConvertFailed`; the
  model accepts pieces of any length, and the buffer bounds hold regardless.
- `Pool.LlamaPool`: `main()` never fills `llama_pool[i].ctx` (that code is
  commented out), so in the program every acquired handle carries NULL; the
  model takes the four context handles as a constructor parameter.

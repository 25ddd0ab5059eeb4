/** The global context pool of main.cpp: four slots with an in_use flag
    each, a first-free-slot acquire, a bounds-checked release, and the
    variant of ai_run_inference that returns a heap copy of the response
    (or NULL on failure). */
module Pool {
  import opened Wrappers
  import opened Inference

  /** LLAMA_POOL_SIZE */
  const PoolSize: nat := 4

  /** llama_ctx_handle_t: the context (None for NULL) and its slot, -1 for none. */
  datatype Handle = Handle(ctx: Option<nat>, poolIndex: int)

  /** The slot acquire picks: the lowest index whose flag is false, or -1
      when every slot is busy. */
  function FirstFree(busy: seq<bool>): (i: int)
    ensures -1 <= i < |busy|
    ensures i == -1 <==> forall j :: 0 <= j < |busy| ==> busy[j]
    ensures i >= 0 ==> !busy[i] && forall j :: 0 <= j < i ==> busy[j]
  {
    FirstFreeFrom(busy, 0)
  }

  function FirstFreeFrom(busy: seq<bool>, from: nat): (i: int)
    requires from <= |busy|
    requires forall j :: 0 <= j < from ==> busy[j]
    ensures -1 <= i < |busy|
    ensures i == -1 <==> forall j :: from <= j < |busy| ==> busy[j]
    ensures i >= 0 ==> from <= i && !busy[i] && forall j :: 0 <= j < i ==> busy[j]
    decreases |busy| - from
  {
    if from == |busy| then -1
    else if !busy[from] then from
    else FirstFreeFrom(busy, from + 1)
  }

  /** The flags after release_llama_ctx with `index`: a slot outside the
      pool is left alone, a slot inside is cleared whether or not it was held. */
  function Released(busy: seq<bool>, index: int): seq<bool>
  {
    if 0 <= index < |busy| then busy[index := false] else busy
  }

  /** Releasing is idempotent, touches only the named slot, and ignores an
      index outside [0, LLAMA_POOL_SIZE). */
  lemma ReleaseProperties(busy: seq<bool>, index: int)
    ensures Released(Released(busy, index), index) == Released(busy, index)
    ensures |Released(busy, index)| == |busy|
    ensures !(0 <= index < |busy|) ==> Released(busy, index) == busy
    ensures 0 <= index < |busy| ==> !Released(busy, index)[index]
    ensures forall j :: 0 <= j < |busy| && j != index ==> Released(busy, index)[j] == busy[j]
  {
  }

  /** When every other slot is busy, the slot just released is the one the
      next acquire hands out. */
  lemma ReleaseThenAcquire(busy: seq<bool>, index: int)
    requires 0 <= index < |busy|
    requires forall j :: 0 <= j < |busy| && j != index ==> busy[j]
    ensures FirstFree(Released(busy, index)) == index
  {
    var r := Released(busy, index);
    assert !r[index];
  }

  /** What the caller of main.cpp's ai_run_inference receives: the bytes of
      the response up to its first 0 byte (strlen), followed by a 0 (strcpy
      into a buffer of strlen + 1 bytes). */
  function CString(response: seq<bv8>): seq<bv8>
  {
    response[..StrLen(response)] + [0]
  }

  /** Number of bytes before the first 0 byte, or all of them. */
  function StrLen(s: seq<bv8>): (n: nat)
    ensures n <= |s|
    ensures forall j :: 0 <= j < n ==> s[j] != 0
    ensures n < |s| ==> s[n] == 0
  {
    if s == [] || s[0] == 0 then 0 else 1 + StrLen(s[1..])
  }

  /** The copy holds exactly strlen + 1 bytes, ends in its only 0 byte, and
      is the whole response when no piece carried a 0 byte. */
  lemma CStringShape(response: seq<bv8>)
    ensures |CString(response)| == StrLen(response) + 1
    ensures CString(response)[StrLen(response)] == 0
    ensures forall j :: 0 <= j < StrLen(response) ==> CString(response)[j] != 0
    ensures CString(response)[..StrLen(response)] <= response
    ensures (forall j :: 0 <= j < |response| ==> response[j] != 0) ==> CString(response) == response + [0]
  {
    if forall j :: 0 <= j < |response| ==> response[j] != 0 {
      assert StrLen(response) == |response|;
      assert response[..|response|] == response;
    }
  }

  class LlamaPool {
    /** llama_pool[i].ctx */
    const contexts: seq<Option<nat>>
    /** llama_pool[i].in_use */
    const inUse: array<bool>

    ghost predicate Valid()
      reads this
    {
      |contexts| == PoolSize && inUse.Length == PoolSize
    }

    /** The static pool: every slot free. */
    constructor (ctxs: seq<Option<nat>>)
      requires |ctxs| == PoolSize
      ensures Valid() && fresh(inUse) && contexts == ctxs
      ensures forall j :: 0 <= j < PoolSize ==> !inUse[j]
    {
      contexts := ctxs;
      inUse := new bool[PoolSize](_ => false);
    }

    /** acquire_llama_ctx: test-and-set the first free slot under the pool
        lock. Returns that slot and its context, or {NULL, -1} with no slot
        changed when all four are busy. */
    method Acquire() returns (h: Handle)
      requires Valid()
      modifies inUse
      ensures h.poolIndex == FirstFree(old(inUse[..]))
      ensures h.poolIndex == -1 ==> h.ctx == None && inUse[..] == old(inUse[..])
      ensures h.poolIndex >= 0 ==>
        h.ctx == contexts[h.poolIndex] && inUse[..] == old(inUse[..])[h.poolIndex := true]
    {
      h := Handle(None, -1);
      for i := 0 to PoolSize
        invariant forall j :: 0 <= j < i ==> inUse[j]
        invariant inUse[..] == old(inUse[..])
      {
        if !inUse[i] {
          inUse[i] := true;
          h := Handle(contexts[i], i);
          assert FirstFreeFrom(old(inUse[..]), i) == i;
          return;
        }
        assert old(inUse[..])[i];
      }
    }

    /** release_llama_ctx: clears the flag of the handle's slot when the
        index lies inside the pool. */
    method Release(h: Handle)
      requires Valid()
      modifies inUse
      ensures inUse[..] == Released(old(inUse[..]), h.poolIndex)
    {
      if h.poolIndex < 0 || h.poolIndex >= PoolSize {
        return;
      }
      inUse[h.poolIndex] := false;
    }
  }

  /** main.cpp's ai_run_inference: NULL on a tokenize, decode or
      piece-conversion failure, otherwise a copy of the response that is
      strlen(response) + 1 bytes long. */
  method RunInference(tokenizeOk: bool, nPrompt: nat, decode: nat -> StepOutcome) returns (r: Option<seq<bv8>>)
    ensures var g := Generate(tokenizeOk, nPrompt, decode);
      && (r == None <==> g.result.Failed?)
      && (g.result.Generated? ==> r == Some(CString(g.result.response)))
  {
    var g := RunDecodeLoop(tokenizeOk, nPrompt, decode);
    if g.result.Failed? {
      return None;
    }
    r := Some(CString(g.result.response));
  }
}

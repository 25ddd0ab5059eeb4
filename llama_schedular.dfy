/** The round-robin dispatcher of llama_schedular.cpp: one worker per
    context, and `schedule` appends the prompt to the worker at the cursor
    and advances the cursor modulo the pool size. */
module LlamaSchedular {
  import opened ContextWorker
  import opened Arithmetic

  /** The prompts each of n workers receives from a fresh scheduler when
      `prompts` are scheduled in order: call k goes to worker k mod n. */
  function Dispatch(prompts: seq<string>, n: nat): (d: seq<seq<string>>)
    requires n > 0
    ensures |d| == n
  {
    if prompts == [] then seq(n, _ => [])
    else
      var k := |prompts| - 1;
      var d := Dispatch(prompts[..k], n);
      d[k % n := d[k % n] + [prompts[k]]]
  }

  /** How many of m calls land on worker i of n. */
  function Share(m: nat, n: nat, i: nat): nat
    requires n > 0
  {
    m / n + (if i < m % n then 1 else 0)
  }

  lemma ShareStep(k: nat, n: nat, i: nat)
    requires n > 0 && i < n
    ensures Share(k + 1, n, i) == Share(k, n, i) + (if i == k % n then 1 else 0)
  {
    DivModStep(k, n);
  }

  /** Worker i receives |prompts| / n prompts, plus one when
      i < |prompts| mod n. */
  lemma {:induction false} DispatchLength(prompts: seq<string>, n: nat)
    requires n > 0
    ensures forall i :: 0 <= i < n ==> |Dispatch(prompts, n)[i]| == Share(|prompts|, n, i)
  {
    if prompts != [] {
      var k := |prompts| - 1;
      DispatchLength(prompts[..k], n);
      forall i | 0 <= i < n
        ensures |Dispatch(prompts, n)[i]| == Share(|prompts|, n, i)
      {
        ShareStep(k, n, i);
      }
    }
  }

  /** Call k goes to worker k mod n, as the (k / n)-th prompt that worker
      receives; with DispatchLength, worker i receives, in submission order,
      exactly the prompts of calls i, i + n, i + 2n, ... */
  lemma DispatchOrder(prompts: seq<string>, n: nat)
    requires n > 0
    ensures forall k :: 0 <= k < |prompts| ==>
      k / n < |Dispatch(prompts, n)[k % n]| && Dispatch(prompts, n)[k % n][k / n] == prompts[k]
  {
    forall k | 0 <= k < |prompts|
      ensures k / n < |Dispatch(prompts, n)[k % n]| && Dispatch(prompts, n)[k % n][k / n] == prompts[k]
    {
      DispatchAt(prompts, n, k);
    }
  }

  lemma {:induction false} DispatchAt(prompts: seq<string>, n: nat, k: nat)
    requires n > 0 && k < |prompts|
    ensures k / n < |Dispatch(prompts, n)[k % n]| && Dispatch(prompts, n)[k % n][k / n] == prompts[k]
    decreases |prompts|
  {
    var last := |prompts| - 1;
    var p := prompts[..last];
    var d := Dispatch(p, n);
    var t := last % n;
    assert Dispatch(prompts, n) == d[t := d[t] + [prompts[last]]];
    if k == last {
      DispatchLength(p, n);
      assert |d[t]| == Share(last, n, t);
    } else {
      DispatchAt(p, n, k);
      assert p[k] == prompts[k];
    }
  }

  /** Round-robin fairness: after m calls every worker has received
      floor(m/n) or ceil(m/n) prompts. */
  lemma DispatchBalanced(prompts: seq<string>, n: nat)
    requires n > 0
    ensures forall i :: 0 <= i < n ==>
      |prompts| / n <= |Dispatch(prompts, n)[i]| <= (|prompts| + n - 1) / n
  {
    DispatchLength(prompts, n);
    var m := |prompts|;
    var q, r := m / n, m % n;
    assert m == n * q + r;
    if r != 0 {
      assert m + n - 1 == n * (q + 1) + (r - 1);
      DivModUnique(m + n - 1, n, q + 1, r - 1);
    } else {
      assert m + n - 1 == n * q + (n - 1);
      DivModUnique(m + n - 1, n, q, n - 1);
    }
  }

  /** The start-up scenario: four prompts over a pool of four go one to
      each worker, in order. */
  lemma DispatchFourPrompts()
    ensures Dispatch(["Hello", "How are you?", "what is india?", "how is Laos country?"], 4)
      == [["Hello"], ["How are you?"], ["what is india?"], ["how is Laos country?"]]
  {
    var ps := ["Hello", "How are you?", "what is india?", "how is Laos country?"];
    var d := Dispatch(ps, 4);
    DispatchLength(ps, 4);
    DispatchOrder(ps, 4);
    assert d[0][0] == ps[0] && d[1][0] == ps[1] && d[2][0] == ps[2] && d[3][0] == ps[3];
    assert Share(4, 4, 0) == 1 && Share(4, 4, 1) == 1 && Share(4, 4, 2) == 1 && Share(4, 4, 3) == 1;
    assert d[0] == [ps[0]] && d[1] == [ps[1]] && d[2] == [ps[2]] && d[3] == [ps[3]];
  }

  class Schedular {
    var index: int
    var workers: seq<Worker>
    /** Every prompt scheduled so far, in call order. */
    ghost var sent: seq<string>
    /** The prompts each worker has been handed so far, in call order. */
    ghost var received: seq<seq<string>>

    ghost predicate Valid()
      reads this
    {
      && (forall i, j :: 0 <= i < j < |workers| ==> workers[i] != workers[j])
      && 0 <= index
      && (if |workers| == 0 then index == 0 && sent == []
          else index < |workers| && index == |sent| % |workers| && received == Dispatch(sent, |workers|))
    }

    /** One fresh worker per context: worker i has id i and context i. */
    constructor (contexts: seq<nat>)
      ensures Valid() && index == 0 && sent == []
      ensures |workers| == |contexts|
      ensures forall i :: 0 <= i < |received| ==> received[i] == []
      ensures forall i :: 0 <= i < |workers| ==>
        && fresh(workers[i])
        && workers[i].contextId == i && workers[i].ctx == contexts[i]
        && workers[i].tasks == [] && !workers[i].stop && !workers[i].inUse
        && workers[i].cache == map[]
    {
      var ws: seq<Worker> := [];
      for i := 0 to |contexts|
        invariant |ws| == i
        invariant forall j, k :: 0 <= j < k < i ==> ws[j] != ws[k]
        invariant forall j :: 0 <= j < i ==>
          && fresh(ws[j])
          && ws[j].contextId == j && ws[j].ctx == contexts[j]
          && ws[j].tasks == [] && !ws[j].stop && !ws[j].inUse
          && ws[j].cache == map[]
      {
        var w := new Worker(i, contexts[i]);
        ws := ws + [w];
      }
      index := 0;
      workers := ws;
      sent := [];
      received := seq(|ws|, _ => []);
    }

    /** Enqueues the prompt on the worker at the cursor and advances the
        cursor: the k-th call (0-based) goes to worker k mod N, and every
        other worker is left as it was. */
    method Schedule(prompt: string)
      requires Valid() && |workers| > 0
      modifies this, workers[index]
      ensures Valid() && workers == old(workers)
      ensures sent == old(sent) + [prompt]
      ensures old(index) == |old(sent)| % |workers|
      ensures index == (old(index) + 1) % |workers|
      ensures workers[old(index)].State() == old(workers[index].State()).(tasks := old(workers[index].tasks) + [prompt])
      ensures forall j :: 0 <= j < |workers| && j != old(index) ==> unchanged(workers[j])
      ensures received == old(received)[old(index) := old(received)[old(index)] + [prompt]]
      ensures forall i :: 0 <= i < |workers| ==>
        |sent| / |workers| <= |received[i]| <= (|sent| + |workers| - 1) / |workers|
    {
      workers[index].Enqueue(prompt);
      received := received[index := received[index] + [prompt]];
      sent := sent + [prompt];
      assert sent[..|sent| - 1] == old(sent);
      DispatchBalanced(sent, |workers|);
      DivModStep(|sent| - 1, |workers|);
      SuccessorMod(index, |workers|);
      index := (index + 1) % |workers|;
    }

    /** The destructor: clearing the worker list destroys every worker,
        and each worker's destructor sets its stop flag. */
    method Shutdown()
      requires Valid()
      modifies this, set w | w in workers
      ensures workers == []
      ensures forall w :: w in old(workers) ==> w.State() == old(w.State()).(stop := true)
    {
      var i := 0;
      while i < |workers|
        invariant 0 <= i <= |workers|
        invariant workers == old(workers) && Valid()
        invariant forall j :: i <= j < |workers| ==> workers[j].State() == old(workers[j].State())
        invariant forall j :: 0 <= j < i ==> workers[j].State() == old(workers[j].State()).(stop := true)
      {
        workers[i].RequestStop();
        i := i + 1;
      }
      workers := [];
    }
  }
}

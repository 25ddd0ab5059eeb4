/** The generation loop of `ai_run_inference`, which context_worker.cpp and
    main.cpp both contain with the same tokenize step, decode loop and
    bounded append into a 4096-byte response buffer.

    The backend is an oracle: whether the second tokenize call succeeds,
    and, for the i-th pass of the decode loop (0-based), whether
    llama_decode fails, whether the sampled token ends generation, whether
    it converts to a piece of text and which bytes that piece holds. */
module Inference {

  /** MAX_RESPONSE_LENGTH: size of the response buffer in bytes. */
  const MaxResponseLength: nat := 4096

  /** n_predict: the loop runs while the position stays under n_prompt + 20. */
  const NPredict: nat := 20

  /** What the backend does in one pass of the decode loop. */
  datatype StepOutcome =
    | DecodeFailed             // llama_decode returned non-zero
    | EndOfGeneration          // the sampled token is end-of-generation
    | ConvertFailed            // llama_token_to_piece returned a negative length
    | Piece(bytes: seq<bv8>)   // the sampled token converted to these bytes

  datatype InferenceError = TokenizeErr | DecodeErr | ConvErr

  datatype InferenceResult =
    | Generated(response: seq<bv8>)
    | Failed(error: InferenceError)

  /** The outcome of a generation and how many times llama_decode was called. */
  datatype Generation = Generation(result: InferenceResult, decodeCalls: nat)

  /** The number of passes the loop condition allows for a prompt of
      nPrompt tokens. */
  function DecodeBudget(nPrompt: nat): (b: nat)
    ensures b == 0 <==> nPrompt >= NPredict
    ensures b > 0 ==> nPrompt + b == NPredict
  {
    if nPrompt < NPredict then NPredict - nPrompt else 0
  }

  /** The bounded append: a piece is copied only when the text plus the
      piece stays under MAX_RESPONSE_LENGTH - 1 bytes, otherwise it is
      dropped whole. */
  function Append(text: seq<bv8>, piece: seq<bv8>): (r: seq<bv8>)
    requires |text| < MaxResponseLength - 1
    ensures |r| < MaxResponseLength - 1
    ensures r == text + piece || r == text
    ensures r == text + piece <==> |text| + |piece| < MaxResponseLength - 1 || piece == []
  {
    if |text| + |piece| < MaxResponseLength - 1 then text + piece else text
  }

  /** The decode loop from its i-th pass on, with `text` the response so far. */
  function Decode(decode: nat -> StepOutcome, i: nat, budget: nat, text: seq<bv8>): Generation
    requires |text| < MaxResponseLength - 1
    decreases budget - i
  {
    if i >= budget then Generation(Generated(text), i)
    else match decode(i)
      case DecodeFailed => Generation(Failed(DecodeErr), i + 1)
      case EndOfGeneration => Generation(Generated(text), i + 1)
      case ConvertFailed => Generation(Failed(ConvErr), i + 1)
      case Piece(bytes) => Decode(decode, i + 1, budget, Append(text, bytes))
  }

  /** What `ai_run_inference` computes: a tokenize failure before the loop,
      otherwise the loop from an empty response. */
  function Generate(tokenizeOk: bool, nPrompt: nat, decode: nat -> StepOutcome): Generation
  {
    if !tokenizeOk then Generation(Failed(TokenizeErr), 0)
    else Decode(decode, 0, DecodeBudget(nPrompt), [])
  }

  /** From pass i on, the loop makes between i and budget decode calls in
      all, keeps the response under MAX_RESPONSE_LENGTH - 1 bytes, and only
      ever extends the text it started from. */
  lemma {:induction false} DecodeBounds(decode: nat -> StepOutcome, i: nat, budget: nat, text: seq<bv8>)
    requires i <= budget && |text| < MaxResponseLength - 1
    ensures var g := Decode(decode, i, budget, text);
      && i <= g.decodeCalls <= budget
      && (g.result.Generated? ==> text <= g.result.response && |g.result.response| < MaxResponseLength - 1)
    decreases budget - i
  {
    if i < budget && decode(i).Piece? {
      DecodeBounds(decode, i + 1, budget, Append(text, decode(i).bytes));
    }
  }

  /** The decode loop runs at most max(0, 20 - n_prompt) times, so a prompt
      of 20 tokens or more is never decoded and yields an empty response;
      a successful response always fits the buffer with its terminating 0. */
  lemma GenerateBounds(tokenizeOk: bool, nPrompt: nat, decode: nat -> StepOutcome)
    ensures Generate(tokenizeOk, nPrompt, decode).decodeCalls <= DecodeBudget(nPrompt)
    ensures var r := Generate(tokenizeOk, nPrompt, decode).result;
      r.Generated? ==> |r.response| + 1 < MaxResponseLength
    ensures tokenizeOk && nPrompt >= NPredict ==>
      Generate(tokenizeOk, nPrompt, decode) == Generation(Generated([]), 0)
  {
    if tokenizeOk {
      DecodeBounds(decode, 0, DecodeBudget(nPrompt), []);
    }
  }

  /** The bound is reached: when every pass yields a piece, the loop stops
      only by its condition, after exactly the budget of decode calls. */
  lemma {:induction false} DecodeUsesWholeBudget(decode: nat -> StepOutcome, i: nat, budget: nat, text: seq<bv8>)
    requires i <= budget && |text| < MaxResponseLength - 1
    requires forall j :: i <= j < budget ==> decode(j).Piece?
    ensures Decode(decode, i, budget, text).decodeCalls == budget
    ensures Decode(decode, i, budget, text).result.Generated?
    decreases budget - i
  {
    if i < budget {
      DecodeUsesWholeBudget(decode, i + 1, budget, Append(text, decode(i).bytes));
    }
  }

  /** Copies `piece` into the zero-filled tail of `response` at `len` when it
      fits, and terminates the text with a 0 byte (the memcpy and the store
      of '\0' in the source). */
  method AppendPiece(response: array<bv8>, len: nat, piece: seq<bv8>) returns (newLen: nat)
    requires response.Length == MaxResponseLength && len < MaxResponseLength - 1
    requires forall j :: len <= j < response.Length ==> response[j] == 0
    modifies response
    ensures newLen < MaxResponseLength - 1 && response[newLen] == 0
    ensures response[..newLen] == Append(old(response[..len]), piece)
    ensures forall j :: newLen <= j < response.Length ==> response[j] == 0
  {
    if len + |piece| < MaxResponseLength - 1 {
      var k := 0;
      while k < |piece|
        invariant 0 <= k <= |piece|
        invariant response[..len] == old(response[..len])
        invariant forall j :: 0 <= j < k ==> response[len + j] == piece[j]
        invariant forall j :: len + k <= j < response.Length ==> response[j] == 0
      {
        response[len + k] := piece[k];
        k := k + 1;
      }
      newLen := len + |piece|;
      response[newLen] := 0;
      assert response[..newLen] == old(response[..len]) + piece by {
        assert forall j :: 0 <= j < len ==> response[..newLen][j] == response[..len][j];
      }
    } else {
      newLen := len;
    }
  }

  /** The decode loop as the source writes it, over n_pos, the size of the
      current batch and a zero-filled response buffer. */
  method RunDecodeLoop(tokenizeOk: bool, nPrompt: nat, decode: nat -> StepOutcome) returns (g: Generation)
    ensures g == Generate(tokenizeOk, nPrompt, decode)
  {
    if !tokenizeOk {
      return Generation(Failed(TokenizeErr), 0);
    }
    var response := new bv8[MaxResponseLength](_ => 0);
    var responseLen: nat := 0;
    var batchTokens: int := nPrompt;
    var nPos: int := batchTokens;
    var calls: nat := 0;
    ghost var budget := DecodeBudget(nPrompt);
    while nPos + batchTokens < nPrompt + NPredict
      invariant calls <= budget
      invariant calls == 0 ==> nPos == nPrompt && batchTokens == nPrompt
      invariant calls > 0 ==> nPos == 2 * nPrompt + calls - 1 && batchTokens == 1
      invariant responseLen < MaxResponseLength - 1
      invariant forall j :: responseLen <= j < response.Length ==> response[j] == 0
      invariant Decode(decode, calls, budget, response[..responseLen]) == Generate(tokenizeOk, nPrompt, decode)
      decreases budget - calls
    {
      var outcome := decode(calls);
      calls := calls + 1;
      if outcome.DecodeFailed? {
        return Generation(Failed(DecodeErr), calls);
      }
      nPos := nPos + batchTokens;
      if outcome.EndOfGeneration? {
        return Generation(Generated(response[..responseLen]), calls);
      }
      if outcome.ConvertFailed? {
        return Generation(Failed(ConvErr), calls);
      }
      responseLen := AppendPiece(response, responseLen, outcome.bytes);
      batchTokens := 1;
    }
    g := Generation(Generated(response[..responseLen]), calls);
  }
}

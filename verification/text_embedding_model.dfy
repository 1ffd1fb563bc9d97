/** The text-embedding model: turns a token sequence into one fixed-length
    vector by running an inference session and mean-pooling its per-token
    hidden states (src/models/text-embedding.tsx). */
module TextEmbeddingModel {
  import opened Wrappers
  import opened Errors

  // ---------------------------------------------------------------------------
  // Numbers

  /** A 32-bit float with rounding left abstract: a real value, or NaN. */
  datatype Float = Finite(value: real) | NaN

  /** JavaScript `+` on numbers: NaN absorbs everything. */
  function Plus(a: Float, b: Float): (r: Float)
    ensures r.NaN? <==> a.NaN? || b.NaN?
    ensures r.Finite? ==> r.value == a.value + b.value
  {
    if a.NaN? || b.NaN? then NaN else Finite(a.value + b.value)
  }

  /** `sum / n` for a sum of `n` values. When `n` is 0 the sum is the empty
      sum 0, and JavaScript's 0 / 0 is NaN. */
  function Quotient(sum: Float, n: nat): (r: Float)
    requires n == 0 ==> sum == Finite(0.0)
    ensures r.NaN? <==> n == 0 || sum.NaN?
    ensures r.Finite? ==> r.value * n as real == sum.value
  {
    if n == 0 || sum.NaN? then NaN else Finite(sum.value / n as real)
  }

  const TwoTo63: int := 0x8000_0000_0000_0000
  const TwoTo64: int := 0x1_0000_0000_0000_0000

  /** The element a `BigInt64Array` stores for the integer `x`: `x` wrapped
      into the signed 64-bit range. */
  function ToBigInt64(x: int): (r: int)
    ensures -TwoTo63 <= r < TwoTo63
    ensures (x - r) % TwoTo64 == 0
  {
    var m := x % TwoTo64;
    if m >= TwoTo63 then m - TwoTo64 else m
  }

  /** Token ids that fit in 64 bits are stored unchanged. */
  lemma ToBigInt64KeepsInt64(x: int)
    requires -TwoTo63 <= x < TwoTo63
    ensures ToBigInt64(x) == x
  {
    if x < 0 {
      assert x % TwoTo64 == x + TwoTo64;
    } else {
      assert x % TwoTo64 == x;
    }
  }

  // ---------------------------------------------------------------------------
  // Tensors and the inference session

  /** An `int64` input tensor: its flat data and its shape. */
  datatype Int64Tensor = Int64Tensor(data: seq<int>, dims: seq<nat>)

  /** A `float32` output tensor: its flat data and its shape. */
  datatype Float32Tensor = Float32Tensor(data: seq<real>, dims: seq<nat>)

  /** The named input tensors handed to the session. */
  type Feed = map<string, Int64Tensor>

  /** The named output tensors the session returns. */
  type Outputs = map<string, Float32Tensor>

  /** A loaded inference session. Running it is foreign code: it maps the feed
      to the outputs, or throws with a message. */
  datatype Session = Session(run: Feed -> Result<Outputs, string>)

  /** The options the model loader receives. */
  datatype LoadOptions = LoadOptions(
    maxTokens: int,
    verbose: bool,
    externalData: bool,
    executionProviders: seq<string>)

  /** The `input_ids` tensor: the tokens as 64-bit integers, shaped [1, N]. */
  function InputIds(tokens: seq<int>): (t: Int64Tensor)
    ensures t.dims == [1, |tokens|] && |t.data| == |tokens|
    ensures forall i :: 0 <= i < |tokens| ==> t.data[i] == ToBigInt64(tokens[i])
  {
    Int64Tensor(seq(|tokens|, i requires 0 <= i < |tokens| => ToBigInt64(tokens[i])), [1, |tokens|])
  }

  /** The `attention_mask` tensor: N ones, shaped [1, N]. */
  function AttentionMask(n: nat): (t: Int64Tensor)
    ensures t.dims == [1, n] && |t.data| == n
    ensures forall i :: 0 <= i < n ==> t.data[i] == 1
  {
    Int64Tensor(seq(n, _ => 1), [1, n])
  }

  /** The reused feed after embed has written its two input tensors. */
  function Prepared(feed: Feed, tokens: seq<int>): Feed {
    feed["input_ids" := InputIds(tokens)]["attention_mask" := AttentionMask(|tokens|)]
  }

  /** The feed holds the tokens in order, with shape [1, N], an all-ones mask
      of the same shape, and every other entry it held before. */
  lemma PreparedFeedHoldsTokens(feed: Feed, tokens: seq<int>)
    requires forall i :: 0 <= i < |tokens| ==> -TwoTo63 <= tokens[i] < TwoTo63
    ensures Prepared(feed, tokens).Keys == feed.Keys + {"input_ids", "attention_mask"}
    ensures Prepared(feed, tokens)["input_ids"] == Int64Tensor(tokens, [1, |tokens|])
    ensures Prepared(feed, tokens)["attention_mask"] == Int64Tensor(seq(|tokens|, _ => 1), [1, |tokens|])
    ensures forall k :: k in feed && k != "input_ids" && k != "attention_mask" ==>
      Prepared(feed, tokens)[k] == feed[k]
  {
    var t := InputIds(tokens);
    forall i | 0 <= i < |tokens|
      ensures t.data[i] == tokens[i]
    {
      ToBigInt64KeepsInt64(tokens[i]);
    }
    assert t.data == tokens;
  }

  // ---------------------------------------------------------------------------
  // Choosing the hidden-state output

  /** The output names tried, in priority order. */
  const OutputPriority: seq<string> := ["last_hidden_state", "embeddings"]

  /** The position of the first of `names` that `outputs` holds, or |names|. */
  function FirstPresentIndex(names: seq<string>, outputs: Outputs): (k: nat)
    ensures k <= |names|
    ensures forall j :: 0 <= j < k ==> names[j] !in outputs
    ensures k < |names| ==> names[k] in outputs
  {
    if names == [] then 0
    else if names[0] in outputs then 0
    else 1 + FirstPresentIndex(names[1..], outputs)
  }

  /** The hidden-state tensor: the first output of `OutputPriority` present. */
  function HiddenState(outputs: Outputs): (r: Option<Float32Tensor>)
    ensures r.None? <==> forall i :: 0 <= i < |OutputPriority| ==> OutputPriority[i] !in outputs
    ensures r.Some? ==> r.value in outputs.Values
  {
    var k := FirstPresentIndex(OutputPriority, outputs);
    if k < |OutputPriority| then Some(outputs[OutputPriority[k]]) else None
  }

  /** `last_hidden_state` wins when present, `embeddings` is the fallback, and
      without either there is no hidden state. */
  lemma HiddenStatePriority(outputs: Outputs)
    ensures "last_hidden_state" in outputs ==>
      HiddenState(outputs) == Some(outputs["last_hidden_state"])
    ensures "last_hidden_state" !in outputs && "embeddings" in outputs ==>
      HiddenState(outputs) == Some(outputs["embeddings"])
    ensures HiddenState(outputs).None? <==>
      "last_hidden_state" !in outputs && "embeddings" !in outputs
  {
    var k := FirstPresentIndex(OutputPriority, outputs);
    assert OutputPriority[0] == "last_hidden_state" && OutputPriority[1] == "embeddings";
    if "last_hidden_state" !in outputs && "embeddings" in outputs {
      assert k == 1;
    }
  }

  // ---------------------------------------------------------------------------
  // Mean pooling over the sequence axis

  /** What reading `data[i]` yields in the sum: the value, or (past the end of
      the typed array) `undefined`, which turns the sum into NaN. */
  function Element(data: seq<real>, i: nat): (r: Float)
    ensures r.NaN? <==> i >= |data|
    ensures r.Finite? ==> r.value == data[i]
  {
    if i < |data| then Finite(data[i]) else NaN
  }

  /** The running sum `data[0*H + h] + ... + data[(n-1)*H + h]`. */
  function ColumnSum(data: seq<real>, hiddenSize: nat, h: nat, n: nat): Float {
    if n == 0 then Finite(0.0)
    else Plus(ColumnSum(data, hiddenSize, h, n - 1), Element(data, (n - 1) * hiddenSize + h))
  }

  /** `result[h]`: the column sum over the whole sequence, divided by its length. */
  function Mean(data: seq<real>, seqLen: nat, hiddenSize: nat, h: nat): Float {
    Quotient(ColumnSum(data, hiddenSize, h, seqLen), seqLen)
  }

  /** The pooled vector: one mean per hidden unit. */
  function Pooled(data: seq<real>, seqLen: nat, hiddenSize: nat): (v: seq<Float>)
    ensures |v| == hiddenSize
  {
    seq(hiddenSize, h requires 0 <= h < hiddenSize => Mean(data, seqLen, hiddenSize, h))
  }

  /** Fills a fresh zeroed vector of length `hiddenSize`, one hidden unit at a
      time, with the mean over the sequence of that unit's values. */
  method MeanPool(data: seq<real>, seqLen: nat, hiddenSize: nat) returns (result: array<Float>)
    ensures fresh(result)
    ensures result[..] == Pooled(data, seqLen, hiddenSize)
  {
    result := new Float[hiddenSize](_ => Finite(0.0));
    for h := 0 to hiddenSize
      invariant forall k :: 0 <= k < h ==> result[k] == Mean(data, seqLen, hiddenSize, k)
    {
      var sum := Finite(0.0);
      for s := 0 to seqLen
        invariant sum == ColumnSum(data, hiddenSize, h, s)
      {
        sum := Plus(sum, Element(data, s * hiddenSize + h));
      }
      result[h] := Quotient(sum, seqLen);
    }
  }

  /** Every index the pooling loop reads lies in [0, seqLen * hiddenSize). */
  lemma ReadIndexInRange(seqLen: nat, hiddenSize: nat, s: nat, h: nat)
    requires s < seqLen && h < hiddenSize
    ensures s * hiddenSize + h < seqLen * hiddenSize
  {
    calc {
      s * hiddenSize + h;
    <
      s * hiddenSize + hiddenSize;
    ==
      (s + 1) * hiddenSize;
    <=  { assert s + 1 <= seqLen; }
      seqLen * hiddenSize;
    }
  }

  /** The real sum of a sequence. */
  function Sum(xs: seq<real>): real {
    if xs == [] then 0.0 else Sum(xs[..|xs| - 1]) + xs[|xs| - 1]
  }

  /** The values of hidden unit `h` along the sequence, when the data covers
      the whole [seqLen, hiddenSize] block. */
  ghost function Column(data: seq<real>, seqLen: nat, hiddenSize: nat, h: nat): (c: seq<real>)
    requires seqLen * hiddenSize <= |data| && h < hiddenSize
    ensures |c| == seqLen
  {
    seq(seqLen, s requires 0 <= s < seqLen =>
      ReadIndexInRange(seqLen, hiddenSize, s, h); data[s * hiddenSize + h])
  }

  lemma {:induction false} ColumnSumIsSum(data: seq<real>, seqLen: nat, hiddenSize: nat, h: nat, n: nat)
    requires seqLen * hiddenSize <= |data| && h < hiddenSize && n <= seqLen
    ensures ColumnSum(data, hiddenSize, h, n) == Finite(Sum(Column(data, seqLen, hiddenSize, h)[..n]))
  {
    var c := Column(data, seqLen, hiddenSize, h);
    if n == 0 {
      assert c[..0] == [];
    } else {
      ColumnSumIsSum(data, seqLen, hiddenSize, h, n - 1);
      ReadIndexInRange(seqLen, hiddenSize, n - 1, h);
      assert c[..n][..n - 1] == c[..n - 1];
    }
  }

  /** When the data covers the whole block and the sequence is not empty,
      `result[h]` is the arithmetic mean of hidden unit `h` over the sequence. */
  lemma MeanIsAverage(data: seq<real>, seqLen: nat, hiddenSize: nat, h: nat)
    requires 0 < seqLen && seqLen * hiddenSize <= |data| && h < hiddenSize
    ensures Mean(data, seqLen, hiddenSize, h)
         == Finite(Sum(Column(data, seqLen, hiddenSize, h)) / seqLen as real)
  {
    var c := Column(data, seqLen, hiddenSize, h);
    ColumnSumIsSum(data, seqLen, hiddenSize, h, seqLen);
    assert c[..seqLen] == c;
  }

  lemma {:induction false} ColumnSumOfConstant(data: seq<real>, hiddenSize: nat, h: nat, n: nat, x: real)
    requires forall s :: 0 <= s < n ==> Element(data, s * hiddenSize + h) == Finite(x)
    ensures ColumnSum(data, hiddenSize, h, n) == Finite(n as real * x)
  {
    if n > 0 {
      ColumnSumOfConstant(data, hiddenSize, h, n - 1, x);
    }
  }

  /** A hidden unit that holds the same value at every position averages to
      that value. */
  lemma MeanOfConstant(data: seq<real>, seqLen: nat, hiddenSize: nat, h: nat, x: real)
    requires 0 < seqLen
    requires forall s :: 0 <= s < seqLen ==> Element(data, s * hiddenSize + h) == Finite(x)
    ensures Mean(data, seqLen, hiddenSize, h) == Finite(x)
  {
    ColumnSumOfConstant(data, hiddenSize, h, seqLen, x);
  }

  lemma {:induction false} ColumnSumAfterMissingRead(data: seq<real>, hiddenSize: nat, h: nat, s: nat, n: nat)
    requires s < n && s * hiddenSize + h >= |data|
    ensures ColumnSum(data, hiddenSize, h, n) == NaN
  {
    if s < n - 1 {
      ColumnSumAfterMissingRead(data, hiddenSize, h, s, n - 1);
    }
  }

  /** A read past the end of the data (`undefined` in JavaScript) makes that
      hidden unit's mean NaN; so does an empty sequence (0 / 0). */
  lemma MeanIsNaN(data: seq<real>, seqLen: nat, hiddenSize: nat, h: nat)
    requires seqLen == 0 || exists s :: 0 <= s < seqLen && s * hiddenSize + h >= |data|
    ensures Mean(data, seqLen, hiddenSize, h) == NaN
  {
    if seqLen > 0 {
      var s :| 0 <= s < seqLen && s * hiddenSize + h >= |data|;
      ColumnSumAfterMissingRead(data, hiddenSize, h, s, seqLen);
    }
  }

  // ---------------------------------------------------------------------------
  // The embed operation, as a function of the state it reads

  /** What embed makes of the session's outputs: pick the hidden state, check
      its shape [batch, seqLen, hiddenSize], and mean-pool it. */
  function FromOutputs(outputs: Outputs): Result<seq<Float>, Error> {
    match HiddenState(outputs)
    case None => Failure(NoEmbeddingOutput)
    case Some(t) =>
      if |t.dims| < 3 then Failure(InvalidDimensions(t.dims))
      else Success(Pooled(t.data, t.dims[1], t.dims[2]))
  }

  /** The result of embed for the given session, feed and tokens. */
  function EmbedOutcome(sess: Option<Session>, feed: Feed, tokens: seq<int>): Result<seq<Float>, Error> {
    if sess.None? then Failure(SessionUndefined)
    else if tokens == [] then Failure(EmptyTokens)
    else
      match sess.value.run(Prepared(feed, tokens))
      case Failure(message) => Failure(Thrown(message))
      case Success(outputs) => FromOutputs(outputs)
  }

  /** The feed after embed: rewritten once both guards have passed, even when
      a later step fails. */
  function FeedAfter(sess: Option<Session>, feed: Feed, tokens: seq<int>): Feed {
    if sess.None? || tokens == [] then feed else Prepared(feed, tokens)
  }

  /** Without a session, or with no tokens, embed fails before it touches the
      feed, and what the session would do makes no difference. */
  lemma GuardsPrecedeInference(sess: Option<Session>, other: Session, feed: Feed, tokens: seq<int>)
    requires sess.None? || tokens == []
    ensures FeedAfter(sess, feed, tokens) == feed
    ensures sess.None? ==> EmbedOutcome(sess, feed, tokens) == Failure(SessionUndefined)
    ensures sess.Some? ==>
      EmbedOutcome(sess, feed, tokens) == Failure(EmptyTokens) &&
      EmbedOutcome(Some(other), feed, tokens) == Failure(EmptyTokens)
  {
  }

  /** With no usable hidden state, embed fails: no known output name, or a
      shape without a sequence length or hidden size. */
  lemma OutputFailures(outputs: Outputs)
    ensures FromOutputs(outputs) == Failure(NoEmbeddingOutput) <==>
      "last_hidden_state" !in outputs && "embeddings" !in outputs
    ensures forall t :: HiddenState(outputs) == Some(t) ==>
      (FromOutputs(outputs).Failure? <==> |t.dims| < 3) &&
      (|t.dims| < 3 ==> FromOutputs(outputs) == Failure(InvalidDimensions(t.dims)))
  {
    HiddenStatePriority(outputs);
  }

  /** A successful embed returns exactly `hiddenSize` values, whatever the
      number of tokens, and value `h` is the mean of hidden unit `h`. */
  lemma EmbeddingIsMeanOfHiddenState(outputs: Outputs, t: Float32Tensor)
    requires HiddenState(outputs) == Some(t) && |t.dims| >= 3
    ensures FromOutputs(outputs).Success?
    ensures |FromOutputs(outputs).value| == t.dims[2]
    ensures forall h :: 0 <= h < t.dims[2] ==>
      FromOutputs(outputs).value[h] == Mean(t.data, t.dims[1], t.dims[2], h)
  {
  }

  // ---------------------------------------------------------------------------
  // The model object

  class TextEmbedding {
    /** The loaded inference session, if any. */
    var sess: Option<Session>
    /** The input tensors, reused from one call to the next. */
    var feed: Feed

    constructor ()
      ensures sess == None && feed == map[]
    {
      sess := None;
      feed := map[];
    }

    /** Opens the session for the model at `onnxPath`; `runtime` is the
        inference runtime's answer. A failure leaves the session as it was. */
    method Load(modelName: string, onnxPath: string, options: LoadOptions,
                runtime: (string, string, LoadOptions) -> Result<Session, string>)
      returns (r: Result<(), Error>)
      modifies this`sess
      ensures runtime(modelName, onnxPath, options).Success? ==>
        sess == Some(runtime(modelName, onnxPath, options).value) && r == Success(())
      ensures runtime(modelName, onnxPath, options).Failure? ==>
        sess == old(sess) && r == Failure(Thrown(runtime(modelName, onnxPath, options).error))
    {
      var loaded := runtime(modelName, onnxPath, options);
      if loaded.Failure? {
        return Failure(Thrown(loaded.error));
      }
      sess := Some(loaded.value);
      r := Success(());
    }

    /** Releases the session; safe to call when none is loaded. */
    method Release()
      modifies this`sess
      ensures sess == None
    {
      sess := None;
    }

    /** Embeds a token sequence: checks the session and the tokens, writes
        `input_ids` and `attention_mask` into the feed, runs the session, picks
        the hidden state, checks its shape and mean-pools it. */
    method Embed(tokens: seq<int>) returns (r: Result<seq<Float>, Error>)
      modifies this`feed
      ensures r == EmbedOutcome(sess, old(feed), tokens)
      ensures feed == FeedAfter(sess, old(feed), tokens)
    {
      if sess.None? {
        return Failure(SessionUndefined);
      }
      if |tokens| == 0 {
        return Failure(EmptyTokens);
      }
      feed := feed["input_ids" := InputIds(tokens)];
      feed := feed["attention_mask" := AttentionMask(|tokens|)];

      var run := sess.value.run(feed);
      if run.Failure? {
        return Failure(Thrown(run.error));
      }
      var embeddings := HiddenState(run.value);
      if embeddings.None? {
        return Failure(NoEmbeddingOutput);
      }
      var dims := embeddings.value.dims;
      if |dims| < 3 {
        return Failure(InvalidDimensions(dims));
      }
      var seqLen, hiddenSize := dims[1], dims[2];
      var result := MeanPool(embeddings.value.data, seqLen, hiddenSize);
      r := Success(result[..]);
    }
  }
}

/** The text-embedding pipeline: owns the tokenizer and the options record,
    and drives the model through init / embed / release
    (src/pipelines/text-embedding.tsx). The module-level variables of the
    source become the fields of one `Pipeline` object. */
module TextEmbeddingPipeline {
  import opened Wrappers
  import opened Errors
  import opened TextEmbeddingModel

  // ---------------------------------------------------------------------------
  // Options

  /** The options record (`show_special`, `max_tokens`, `verbose`,
      `externalData`, `executionProviders`). */
  datatype Options = Options(
    showSpecial: bool,
    maxTokens: int,
    verbose: bool,
    externalData: bool,
    executionProviders: seq<string>)
  {
    /** The part of the record the model loader reads. */
    function ForLoad(): LoadOptions {
      LoadOptions(maxTokens, verbose, externalData, executionProviders)
    }
  }

  /** The record in force before any `init`. */
  const DefaultOptions: Options := Options(
    showSpecial := false,
    maxTokens := 512,
    verbose := false,
    externalData := false,
    executionProviders := ["cpu"])

  /** The defaults: no special tokens, at most 512 tokens, quiet, weights in
      one file, CPU execution. */
  lemma DefaultOptionsValues()
    ensures DefaultOptions.showSpecial == false && DefaultOptions.maxTokens == 512
    ensures DefaultOptions.verbose == false && DefaultOptions.externalData == false
    ensures DefaultOptions.executionProviders == ["cpu"]
  {
  }

  /** A caller's partial options: each field either given or absent. */
  datatype Overrides = Overrides(
    showSpecial: Option<bool>,
    maxTokens: Option<int>,
    verbose: Option<bool>,
    externalData: Option<bool>,
    executionProviders: Option<seq<string>>)

  const NoOverrides: Overrides := Overrides(None, None, None, None, None)

  function Pick<T>(given: Option<T>, current: T): T {
    if given.Some? then given.value else current
  }

  /** `{ ...current, ...given }`: a shallow merge in which every field the
      caller gives wins and every other field keeps its current value. */
  function Merge(current: Options, given: Overrides): (merged: Options)
    ensures given.showSpecial.Some? ==> merged.showSpecial == given.showSpecial.value
    ensures given.showSpecial.None? ==> merged.showSpecial == current.showSpecial
    ensures given.maxTokens.Some? ==> merged.maxTokens == given.maxTokens.value
    ensures given.maxTokens.None? ==> merged.maxTokens == current.maxTokens
    ensures given.verbose.Some? ==> merged.verbose == given.verbose.value
    ensures given.verbose.None? ==> merged.verbose == current.verbose
    ensures given.externalData.Some? ==> merged.externalData == given.externalData.value
    ensures given.externalData.None? ==> merged.externalData == current.externalData
    ensures given.executionProviders.Some? ==>
      merged.executionProviders == given.executionProviders.value
    ensures given.executionProviders.None? ==>
      merged.executionProviders == current.executionProviders
  {
    Options(
      Pick(given.showSpecial, current.showSpecial),
      Pick(given.maxTokens, current.maxTokens),
      Pick(given.verbose, current.verbose),
      Pick(given.externalData, current.externalData),
      Pick(given.executionProviders, current.executionProviders))
  }

  /** The overrides of `first` with those of `second` laid over them. */
  function Overlay(first: Overrides, second: Overrides): Overrides {
    Overrides(
      if second.showSpecial.Some? then second.showSpecial else first.showSpecial,
      if second.maxTokens.Some? then second.maxTokens else first.maxTokens,
      if second.verbose.Some? then second.verbose else first.verbose,
      if second.externalData.Some? then second.externalData else first.externalData,
      if second.executionProviders.Some? then second.executionProviders else first.executionProviders)
  }

  /** Merging nothing changes nothing; merging the same overrides again
      changes nothing more; two merges in a row are one merge of the overlaid
      overrides. */
  lemma MergeLaws(current: Options, first: Overrides, second: Overrides)
    ensures Merge(current, NoOverrides) == current
    ensures Merge(Merge(current, first), first) == Merge(current, first)
    ensures Merge(Merge(current, first), second) == Merge(current, Overlay(first, second))
  {
  }

  // ---------------------------------------------------------------------------
  // The tokenizer

  /** The options the tokenizer is called with. */
  datatype CallOptions = CallOptions(
    returnTensor: bool,
    padding: bool,
    truncation: bool,
    maxLength: int)

  /** What the tokenizer returns; `input_ids` may be missing. */
  datatype Tokenized = Tokenized(inputIds: Option<seq<int>>)

  /** A loaded tokenizer. Calling it is foreign code that may throw. */
  datatype Tokenizer = Tokenizer(call: (string, CallOptions) -> Result<Tokenized, string>)

  /** Plain arrays, padding and truncation on, at most `max_tokens` tokens. */
  function TokenizeRequest(options: Options): (c: CallOptions)
    ensures !c.returnTensor && c.padding && c.truncation
    ensures c.maxLength == options.maxTokens
  {
    CallOptions(returnTensor := false, padding := true, truncation := true, maxLength := options.maxTokens)
  }

  /** The token ids embed hands to the model, or the error it throws first. */
  function TokenIds(tokenizer: Option<Tokenizer>, options: Options, text: string): (r: Result<seq<int>, Error>)
    ensures r.Success? ==> tokenizer.Some? && |r.value| > 0
    ensures r == Failure(TokenizerUndefined) <==> tokenizer.None?
    ensures tokenizer.Some? && tokenizer.value.call(text, TokenizeRequest(options)).Failure? ==>
      r == Failure(Thrown(tokenizer.value.call(text, TokenizeRequest(options)).error))
    ensures tokenizer.Some? && tokenizer.value.call(text, TokenizeRequest(options)).Success? ==>
      var ids := tokenizer.value.call(text, TokenizeRequest(options)).value.inputIds;
      (ids.Some? && |ids.value| > 0 ==> r == Success(ids.value)) &&
      (ids.None? || |ids.value| == 0 ==> r == Failure(EmptyInputIds))
  {
    if tokenizer.None? then Failure(TokenizerUndefined)
    else
      match tokenizer.value.call(text, TokenizeRequest(options))
      case Failure(message) => Failure(Thrown(message))
      case Success(tokenized) =>
        if tokenized.inputIds.None? || |tokenized.inputIds.value| == 0 then Failure(EmptyInputIds)
        else Success(tokenized.inputIds.value)
  }

  /** The result of the pipeline's embed. */
  function PipelineOutcome(tokenizer: Option<Tokenizer>, options: Options, sess: Option<Session>,
                           feed: Feed, text: string): Result<seq<Float>, Error>
  {
    match TokenIds(tokenizer, options, text)
    case Failure(e) => Failure(e)
    case Success(ids) => EmbedOutcome(sess, feed, ids)
  }

  /** The model's feed after the pipeline's embed. */
  function PipelineFeedAfter(tokenizer: Option<Tokenizer>, options: Options, sess: Option<Session>,
                             feed: Feed, text: string): Feed
  {
    match TokenIds(tokenizer, options, text)
    case Failure(_) => feed
    case Success(ids) => FeedAfter(sess, feed, ids)
  }

  /** The tokenizer is consulted once, with `padding` and `truncation` on, no
      tensor output and `max_length` the current `max_tokens`: two tokenizers
      that agree on that one call give the same outcome. */
  lemma TokenizerCalledOnceWithRequest(tok: Tokenizer, other: Tokenizer, options: Options, sess: Option<Session>,
                                       feed: Feed, text: string)
    requires tok.call(text, CallOptions(false, true, true, options.maxTokens))
          == other.call(text, CallOptions(false, true, true, options.maxTokens))
    ensures PipelineOutcome(Some(tok), options, sess, feed, text)
         == PipelineOutcome(Some(other), options, sess, feed, text)
    ensures PipelineFeedAfter(Some(tok), options, sess, feed, text)
         == PipelineFeedAfter(Some(other), options, sess, feed, text)
  {
    assert TokenizeRequest(options) == CallOptions(false, true, true, options.maxTokens);
  }

  /** Missing or empty `input_ids` fail before the model is called: the
      model's session and feed make no difference. */
  lemma EmptyTokenizationSkipsModel(tok: Tokenizer, options: Options, sess: Option<Session>, other: Option<Session>,
                                    feed: Feed, text: string)
    requires tok.call(text, TokenizeRequest(options)).Success?
    requires tok.call(text, TokenizeRequest(options)).value.inputIds in {None, Some([])}
    ensures PipelineOutcome(Some(tok), options, sess, feed, text) == Failure(EmptyInputIds)
    ensures PipelineOutcome(Some(tok), options, other, map[], text) == Failure(EmptyInputIds)
    ensures PipelineFeedAfter(Some(tok), options, sess, feed, text) == feed
  {
  }

  /** Once tokenization succeeds, embed returns the model's result unchanged,
      error or not. */
  lemma EmbedDelegatesToModel(tokenizer: Option<Tokenizer>, options: Options, sess: Option<Session>,
                              feed: Feed, text: string)
    requires TokenIds(tokenizer, options, text).Success?
    ensures PipelineOutcome(tokenizer, options, sess, feed, text)
         == EmbedOutcome(sess, feed, TokenIds(tokenizer, options, text).value)
  {
  }

  // ---------------------------------------------------------------------------
  // The pipeline object

  class Pipeline {
    /** The tokenizer, once loaded. */
    var tokenizer: Option<Tokenizer>
    /** The options record in force. */
    var options: Options
    /** The one model instance the pipeline drives. */
    const model: TextEmbedding

    /** The state before any `init`: no tokenizer, default options, a model
        with no session. */
    constructor ()
      ensures tokenizer == None && fresh(model) && model.sess == None && model.feed == map[]
      ensures options.showSpecial == false && options.maxTokens == 512 && options.verbose == false
      ensures options.externalData == false && options.executionProviders == ["cpu"]
    {
      tokenizer := None;
      options := DefaultOptions;
      model := new TextEmbedding();
    }

    /** Merges the caller's options, then loads the tokenizer (`hub` is the
        tokenizer hub's answer for `modelName`), then loads the model with the
        merged options (`runtime` is the inference runtime's answer). The
        first failure is re-thrown; the steps already done stay done. */
    method Init(modelName: string, onnxPath: string, given: Overrides,
                hub: string -> Result<Tokenizer, string>,
                runtime: (string, string, LoadOptions) -> Result<Session, string>)
      returns (r: Result<(), Error>)
      modifies this, model`sess
      ensures options == Merge(old(options), given)
      ensures hub(modelName).Failure? ==>
        tokenizer == old(tokenizer) && model.sess == old(model.sess) &&
        r == Failure(Thrown(hub(modelName).error))
      ensures hub(modelName).Success? ==>
        tokenizer == Some(hub(modelName).value) &&
        var loaded := runtime(modelName, onnxPath, options.ForLoad());
        (loaded.Success? ==> model.sess == Some(loaded.value) && r == Success(())) &&
        (loaded.Failure? ==> model.sess == old(model.sess) && r == Failure(Thrown(loaded.error)))
    {
      options := Merge(options, given);
      var fetched := hub(modelName);
      if fetched.Failure? {
        return Failure(Thrown(fetched.error));
      }
      tokenizer := Some(fetched.value);
      r := model.Load(modelName, onnxPath, options.ForLoad(), runtime);
    }

    /** Tokenizes `text` with the current options and embeds the token ids. */
    method Embed(text: string) returns (r: Result<seq<Float>, Error>)
      modifies model`feed
      ensures r == PipelineOutcome(tokenizer, options, model.sess, old(model.feed), text)
      ensures model.feed == PipelineFeedAfter(tokenizer, options, model.sess, old(model.feed), text)
    {
      if tokenizer.None? {
        return Failure(TokenizerUndefined);
      }
      var tokenized := tokenizer.value.call(text, TokenizeRequest(options));
      if tokenized.Failure? {
        return Failure(Thrown(tokenized.error));
      }
      var ids := tokenized.value.inputIds;
      if ids.None? || |ids.value| == 0 {
        return Failure(EmptyInputIds);
      }
      r := model.Embed(ids.value);
    }

    /** Releases the model, then forgets the tokenizer. */
    method Release()
      modifies this`tokenizer, model`sess
      ensures tokenizer == None && model.sess == None
    {
      model.Release();
      tokenizer := None;
    }
  }

  /** After `release`, embed fails with the uninitialised-tokenizer error and
      leaves the feed alone. */
  method EmbedAfterRelease(p: Pipeline, text: string) returns (r: Result<seq<Float>, Error>)
    modifies p`tokenizer, p.model
    ensures r == Failure(TokenizerUndefined) && p.model.feed == old(p.model.feed)
  {
    p.Release();
    r := p.Embed(text);
  }

  // ---------------------------------------------------------------------------
  // An end-to-end scenario

  /** A tokenizer that turns any text into [101, 2003, 102]. */
  const ThreeTokenTokenizer: Tokenizer :=
    Tokenizer((text: string, call: CallOptions) => Success(Tokenized(Some([101, 2003, 102]))))

  /** A session whose hidden state is an all-ones [1, 3, 4] tensor. */
  const AllOnesSession: Session :=
    Session((feed: Feed) => Success(map["last_hidden_state" := Float32Tensor(seq(12, _ => 1.0), [1, 3, 4])]))

  /** Embedding "hi" through those two gives [1, 1, 1, 1]. */
  lemma AllOnesEmbedding(feed: Feed)
    ensures PipelineOutcome(Some(ThreeTokenTokenizer), DefaultOptions, Some(AllOnesSession), feed, "hi")
         == Success([Finite(1.0), Finite(1.0), Finite(1.0), Finite(1.0)])
  {
    var t := Float32Tensor(seq(12, _ => 1.0), [1, 3, 4]);
    var outputs := map["last_hidden_state" := t];
    HiddenStatePriority(outputs);
    forall h | 0 <= h < 4
      ensures Mean(t.data, 3, 4, h) == Finite(1.0)
    {
      MeanOfConstant(t.data, 3, 4, h, 1.0);
    }
    assert Pooled(t.data, 3, 4) == [Finite(1.0), Finite(1.0), Finite(1.0), Finite(1.0)];
  }
}

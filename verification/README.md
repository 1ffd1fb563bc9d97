# Text embedding: a Dafny model

This project models a small library that turns text into one fixed-length
embedding vector. It has two parts:

- **The model** (`TextEmbeddingModel`, `text_embedding_model.dfy`). A
  `TextEmbedding` object holds an optional inference session and a reused
  map of input tensors (the feed). `Embed(tokens)` works in this order:
  1. It checks for a session, then checks that the tokens are not empty.
  2. It writes `input_ids` (the tokens as 64-bit integers) and an all-ones
     `attention_mask` into the feed. Both have shape `[1, N]`.
  3. It runs the session.
  4. It takes the `last_hidden_state` output, or `embeddings` when that is
     missing.
  5. It checks that the output's shape gives a sequence length and a hidden
     size.
  6. It mean-pools the flat `[1, seqLen, hiddenSize]` data into a vector of
     `hiddenSize` values, using a nested loop over an array (`MeanPool`).
- **The pipeline** (`TextEmbeddingPipeline`, `text_embedding_pipeline.dfy`).
  A `Pipeline` object holds the tokenizer, the options record and the one
  model.
  - `Init` merges the caller's options over the current ones, loads the
    tokenizer, then loads the model with the merged options.
  - `Embed` tokenizes the text with the current `max_tokens`, rejects
    missing or empty `input_ids`, and hands the ids to the model.
  - `Release` releases the model and forgets the tokenizer.

Every error the source throws is a value of `Errors.Error`. `Errors.Message`
gives its message text. Errors raised by foreign code (the tokenizer, the
inference runtime, the loaders) are `Thrown(message)` and are passed on
unchanged. Foreign code is modelled as follows:

- The inference session is a function from the feed to the outputs, or to a
  thrown message.
- The tokenizer is a function from the text and its call options to the
  tokenized result, or to a thrown message.
- The tokenizer hub and the model loader appear as the `hub` and `runtime`
  parameters of `Init`.

Hidden-state values are reals. A sum becomes NaN when the loop reads past
the end of the data, as JavaScript's `undefined` would make it. An empty
sequence gives 0 / 0, which is also NaN.

Notes on the code's behaviour:

- `init` merges the caller's options over the *current* record, not over the
  defaults, so successive `init` calls add up (`MergeLaws`).
- Errors from the tokenizer, the session and the loaders are re-thrown as
  they are, not turned into separate error kinds.
- This version builds no `token_type_ids` tensor.

## Model

| member | source | states |
|---|---|---|
| `TextEmbeddingModel.TextEmbedding.Embed` | src/models/text-embedding.tsx:15-73 | The result is `EmbedOutcome` of the session, the old feed and the tokens. The feed afterwards is `FeedAfter`: it is rewritten once both guards pass, even if a later step fails. |
| `TextEmbeddingModel.GuardsPrecedeInference` | src/models/text-embedding.tsx:16-25 | With no session, embed fails with "Session is undefined". With a session but no tokens, it fails with "Input tokens array cannot be empty", and the session's behaviour makes no difference (it is not run). In both cases the feed is untouched. |
| `TextEmbeddingModel.ToBigInt64` | src/models/text-embedding.tsx:29 | A stored `int64` element lies in the signed 64-bit range and is congruent to the token modulo 2^64. |
| `TextEmbeddingModel.ToBigInt64KeepsInt64` | src/models/text-embedding.tsx:29 | A token that fits in 64 bits is stored unchanged. |
| `TextEmbeddingModel.InputIds` | src/models/text-embedding.tsx:27-31 | The `input_ids` tensor has shape `[1, N]` and N elements. Element i is token i converted to `int64`. |
| `TextEmbeddingModel.AttentionMask` | src/models/text-embedding.tsx:34-40 | The attention mask has shape `[1, N]` and N elements, and every element is 1. |
| `TextEmbeddingModel.PreparedFeedHoldsTokens` | src/models/text-embedding.tsx:27-40 | When every token lies in the signed 64-bit range, after the writes `feed.input_ids` holds exactly the tokens in order with shape `[1, N]`, and `feed.attention_mask` holds N ones with shape `[1, N]`. Every other entry of the reused feed is kept. |
| `TextEmbeddingModel.HiddenState` | src/models/text-embedding.tsx:47 | `outputs.last_hidden_state`, else `outputs.embeddings`: there is no hidden state exactly when no candidate name is present; otherwise it is one of the outputs. |
| `TextEmbeddingModel.FirstPresentIndex` | src/models/text-embedding.tsx:47 | Gives the position of the first candidate name present in the outputs. No earlier name is present, and the name at that position is present (or the result is past the end). |
| `TextEmbeddingModel.HiddenStatePriority` | src/models/text-embedding.tsx:47-51 | `last_hidden_state` is chosen when present, otherwise `embeddings`. There is no hidden state exactly when neither is present. |
| `TextEmbeddingModel.OutputFailures` | src/models/text-embedding.tsx:47-60 | Embed fails with "No embedding output found in model outputs" exactly when neither output name is present. Given a hidden state, it fails exactly when the shape has fewer than three entries, and the error carries that shape. |
| `Errors.Message` | src/models/text-embedding.tsx:17-59 | The thrown message texts. A foreign error keeps its own message, every other message is non-empty, and the invalid-dimensions message reports exactly the dims it was built from. |
| `Errors.InvalidDimensionsMessageCarriesDims` | src/models/text-embedding.tsx:58-60 | The text "Invalid embedding dimensions: [", the dims joined by ", ", then "]" reads back to the exact dims list. |
| `Errors.Join` | src/models/text-embedding.tsx:59 | `dims.join(', ')`: empty exactly when the list is empty, and made only of digits, commas and spaces. |
| `Errors.ParseItemsOfJoin` | src/models/text-embedding.tsx:59 | Parsing the ", "-joined decimal rendering of a non-empty dims list gives the list back. |
| `Errors.NatToString` | src/models/text-embedding.tsx:59 | A dimension renders as a non-empty string of decimal digits. |
| `Errors.DigitsValueOfNatToString` | src/models/text-embedding.tsx:59 | The decimal rendering of a dimension reads back as the same number. |
| `TextEmbeddingModel.Element` | src/models/text-embedding.tsx:67 | Reading `data[i]`: the stored value when `i` is inside the data, NaN (JavaScript's `undefined` in a sum) exactly when it is past the end. |
| `TextEmbeddingModel.Plus` | src/models/text-embedding.tsx:67 | `sum += ...`: NaN exactly when either operand is NaN, otherwise the real sum. |
| `TextEmbeddingModel.Quotient` | src/models/text-embedding.tsx:69 | `sum / seqLen`: NaN exactly when the length is 0 (0 / 0) or the sum is NaN; otherwise a value that times the length gives the sum back. |
| `TextEmbeddingModel.Pooled` | src/models/text-embedding.tsx:62 | The pooled vector has exactly `hiddenSize` entries. |
| `TextEmbeddingModel.MeanPool` | src/models/text-embedding.tsx:62-70 | The nested loop fills a freshly allocated vector, one hidden unit at a time. Each entry equals `Mean` of that unit: the sum over positions `s < seqLen` of `data[s*hiddenSize + h]`, divided by `seqLen`. |
| `TextEmbeddingModel.ReadIndexInRange` | src/models/text-embedding.tsx:64-67 | Every index the loop reads, `s*hiddenSize + h`, lies in `[0, seqLen*hiddenSize)`. |
| `TextEmbeddingModel.ColumnSumIsSum` | src/models/text-embedding.tsx:65-68 | When the data covers the block, the running sum after n steps is the real sum of the first n values of the unit's column. |
| `TextEmbeddingModel.MeanIsAverage` | src/models/text-embedding.tsx:64-70 | When the data covers `seqLen*hiddenSize` values and `seqLen > 0`, entry h is the arithmetic mean of unit h's values over the sequence. |
| `TextEmbeddingModel.MeanOfConstant` | src/models/text-embedding.tsx:64-70 | A unit with the same value at every position averages to that value. |
| `TextEmbeddingModel.MeanIsNaN` | src/models/text-embedding.tsx:66-69 | A read past the end of the data makes that entry NaN. An empty sequence (0 / 0) does too. |
| `TextEmbeddingModel.EmbeddingIsMeanOfHiddenState` | src/models/text-embedding.tsx:53-72 | Once a hidden state with at least three dims is found, embed succeeds. The result has exactly `dims[2]` entries whatever the number of tokens, and entry h is the mean of unit h. |
| `TextEmbeddingModel.TextEmbedding.constructor` | src/pipelines/text-embedding.tsx:17 | A new model has no session and an empty feed. |
| `TextEmbeddingModel.TextEmbedding.Load` | src/pipelines/text-embedding.tsx:83 | Loading sets the session the runtime opens for the name, path and options. On failure the session is unchanged and the runtime's error is re-thrown. |
| `TextEmbeddingModel.TextEmbedding.Release` | src/pipelines/text-embedding.tsx:96 | Afterwards there is no session. |
| `TextEmbeddingPipeline.Pipeline.constructor` | src/pipelines/text-embedding.tsx:15-27 | Initial state: no tokenizer and a model with no session. The options are `show_special=false`, `max_tokens=512`, `verbose=false`, `externalData=false` and `executionProviders=["cpu"]`. |
| `TextEmbeddingPipeline.DefaultOptionsValues` | src/pipelines/text-embedding.tsx:20-27 | The default record is `show_special=false`, `max_tokens=512`, `verbose=false`, `externalData=false`, `executionProviders=["cpu"]`. |
| `TextEmbeddingPipeline.Merge` | src/pipelines/text-embedding.tsx:75 | The spread `{ ..._options, ...options }`: every field the caller gives takes the caller's value and every other field keeps its current value. |
| `TextEmbeddingPipeline.MergeLaws` | src/pipelines/text-embedding.tsx:75 | Merging no overrides changes nothing. Repeating a merge changes nothing more. Two merges in a row equal one merge of the overlaid overrides. |
| `TextEmbeddingPipeline.Pipeline.Init` | src/pipelines/text-embedding.tsx:69-90 | The options are always merged first. On a tokenizer failure the error is re-thrown, the model is not loaded, and the tokenizer and session are unchanged. Otherwise the new tokenizer is set and the model is loaded with the merged options. On a load failure the error is re-thrown and the new tokenizer stays. |
| `TextEmbeddingPipeline.TokenizeRequest` | src/pipelines/text-embedding.tsx:42-47 | The tokenizer call options: `return_tensor` off, `padding` and `truncation` on, `max_length` equal to the current `max_tokens`. |
| `TextEmbeddingPipeline.TokenIds` | src/pipelines/text-embedding.tsx:35-55 | Fails with "Tokenizer undefined, please initialize first." exactly when there is no tokenizer. A tokenizer throw is re-thrown as the same error. Missing or empty `input_ids` fail with "Tokenization resulted in empty input_ids". Otherwise the ids passed on are the tokenizer's `input_ids` themselves, and they are non-empty. |
| `TextEmbeddingPipeline.TokenizerCalledOnceWithRequest` | src/pipelines/text-embedding.tsx:42-47 | The tokenizer is consulted only with `return_tensor: false`, `padding: true`, `truncation: true` and `max_length` equal to the current `max_tokens`. Two tokenizers that agree on that call give the same result and feed. |
| `TextEmbeddingPipeline.EmptyTokenizationSkipsModel` | src/pipelines/text-embedding.tsx:49-52 | Missing or empty `input_ids` fail with "Tokenization resulted in empty input_ids". The model's session and feed make no difference, and the feed is untouched. |
| `TextEmbeddingPipeline.EmbedDelegatesToModel` | src/pipelines/text-embedding.tsx:54-59 | Once tokenization succeeds, the pipeline returns the model's result unchanged, whether a vector or an error. |
| `TextEmbeddingPipeline.Pipeline.Embed` | src/pipelines/text-embedding.tsx:35-60 | The result is `PipelineOutcome` of the tokenizer, options, session, old feed and text. The model's feed becomes `PipelineFeedAfter`. |
| `TextEmbeddingPipeline.Pipeline.Release` | src/pipelines/text-embedding.tsx:95-99 | Afterwards there is no tokenizer and the model has no session. |
| `TextEmbeddingPipeline.EmbedAfterRelease` | src/pipelines/text-embedding.tsx:95-99 | An embed after release fails with the uninitialised-tokenizer error and leaves the feed alone. |
| `TextEmbeddingPipeline.AllOnesEmbedding` | src/pipelines/text-embedding.tsx:35-60 | With a tokenizer giving `[101, 2003, 102]` and a session giving an all-ones `[1, 3, 4]` hidden state, embedding "hi" returns `[1, 1, 1, 1]`. |

## Left out

- Float32 rounding and infinities are not modelled. Values are reals, and NaN
  arises only from a read past the end of the data or from 0 / 0. NaN or
  infinite values inside the session's data are not modelled.
- The returned `Float32Array` is modelled by its contents, a `seq<Float>`.
  Callers cannot observe its identity in the source.
- The `Base` class (src/models/base) is not part of this model. Its load,
  release and initial feed are abstract transitions:
  - load sets the session the runtime opens, and a failed load keeps the
    previous session;
  - release clears the session;
  - a new model starts with an empty feed.
- `TextEmbeddingModel.TextEmbedding.Load`: receives only the loader's part
  of the options record (`max_tokens`, `verbose`, `externalData`,
  `executionProviders`). The source passes the whole record, including
  `show_special`, to a loader that is not part of this model.
- The session's outputs are taken to be `float32` tensors. The source casts
  `data` without checking. An `int64` output would make JavaScript throw a
  `TypeError` on `sum +=`, and that is not modelled.
- The `fetch` option is not modelled, because it is a function value.
- An override whose value is explicitly `undefined` is not modelled. The
  spread would copy that `undefined`; the model treats a field as either
  given or absent.
- Option keys outside the five known fields are not modelled.
- Tokens are integers. `BigInt` conversion of a non-integer number is not
  modelled, because the source types the tokens as `bigint`.
- Logging (`console.log`/`console.error`) is not modelled.
- The `env.allowRemoteModels` / `env.allowLocalModels` settings are not
  modelled.
- The remote fetching behind `AutoTokenizer.from_pretrained` is not modelled.
- Async scheduling is not modelled. Every call runs to completion before the
  next one starts.
- `show_special` is only stored. The source never passes it to the tokenizer.

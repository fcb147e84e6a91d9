# Incremental multi-head attention: a verified model of its decoding cache

This project models `MultiheadAttention` from `simdltk/module/activation.py`. It covers
the checks the constructor makes and the cache state machine of the incremental
forward pass `_recurrent_forward`. That pass takes one query step per call and caches
the projected keys and values across calls. It has two regimes:

- **Static mode** (`static_kv`, cross-attention to a fixed source). The first call
  projects the source and returns it as `static_key`/`static_value`. Later calls reuse
  that cache unchanged.
- **Growing mode** (self-attention over the decoding history). Every call appends its
  projected key and value to `prev_key`/`prev_value`. When a key-padding mask is passed,
  it is appended to `prev_key_padding_mask`.

The floating-point attention itself is not modelled. What is kept is which key, value
and padding mask the attention runs over, the source length of the attention weights,
the errors raised, and the state dictionary returned.

Files and modules:

- `wrappers.dfy` (`Wrappers`): `Option` and `Result`.
- `tensors.dfy` (`Tensors`):
  - a tensor is the sequence of its positions along the sequence axis, and each
    position is an opaque payload (one feature vector per batch item);
  - `F.linear` is an uninterpreted function value applied at each position (`Project`);
  - `SplitQkv` is the three-way `torch.chunk` of the combined projection.
- `activation.dfy` (`Activation`):
  - `Configure`: the checks of `__init__`, in order;
  - the class `MultiheadAttention`, with immutable fields and its constructor;
  - `RecurrentForward`: one incremental call. It is built from `ResolveCache` (what
    key and value are used and which entries are written), `AccumulateMask` and
    `Attend` (the shape checks and the returned state). `QueryProjection`,
    `KeyProjection` and `ValueProjection` are the `F.linear` calls of lines 212,
    215-216 and 218-219: `Project` with the matching part of `SplitQkv` of the
    combined weight and bias.
- `decoding.dfy` (`Decoding`): runs of successive calls over one state. Between calls,
  `Merge` folds each returned state into the caller's state, as `dict.update` does.
  `Run` chains the calls.

The source returns a fresh dictionary `new_state` and never writes to the incoming
`prev_state`. The model follows this by taking the state by value and returning a new
one. How callers combine the returned dictionary with their own is not in
`activation.py`. `Merge` is one natural protocol ("entries returned replace the stored
ones"), and the results about runs depend on it.

Where the code departs from the behaviour usually described for this design, the model follows the code:

- A query with zero steps is accepted. Only `tgt_len > 1` raises.
- A state may hold static and growing entries at once; nothing rejects it. The flag of
  each call decides which entries it consults.
- Growing mode appends the whole passed key, whatever its length. The history grows
  by one position per call only when a one-position key is passed (`GrowingRunLength`).
- `add_zero_attn` and differing key/value widths are rejected at construction, not at
  call time. The forward pass still raises `NotImplementedError` for separate
  projection weights (`SeparateProjectionUnsupported`). Such an object cannot be
  obtained from the constructor.
- In growing mode, a call without a padding mask returns no mask entry. The returned
  state therefore drops the accumulated mask. Under `Merge` the caller's stored
  `prev_key_padding_mask` then stays as it was, while the history grows past it, so the
  stored mask no longer covers the history. This is why `GrowingRunMask` and
  `GrowingRunSucceeds` ask for a mask on every call or on none.
- A module built with `bias=False` cannot run incrementally: `torch.chunk` of the
  absent `in_proj_bias` raises. This is `ForwardError.MissingBias`.
- `dropout` is stored unchecked, so any value constructs. `F.dropout` rejects a
  probability outside [0, 1] on every call, in training and evaluation mode alike. The
  forward pass then raises after the mask checks and before the query-length check
  (`DropoutRange`; `DropoutOutOfRangeRejected`, `DropoutOutOfRangeRunFails`).
- A query with no step over a one-position source accepts a padding mask of any width:
  the out-of-place masked fill broadcasts the one column against the mask, and both
  views of the empty weights succeed (`ZeroStepWideMaskAccepted`).
- A negative `num_heads` that divides `embed_dim` passes construction. The per-head
  view of the query then fails (`NegativeHeads`).
- In static mode with a cache, `src_len` is still the length of the passed key. When a
  padding mask is given, the weights are viewed with that length, so the view fails
  unless it equals the cached length and the query has a step. (With no query step the
  weights are empty and every view of them succeeds.) This failure is modelled as the error
  `WeightsView`, not as a precondition: without a mask the call succeeds whatever key
  is passed (`StaticLengthMismatchRejected`, `StaticCachedIgnoresSource`).

## Model

| member | source | states |
|---|---|---|
| `Activation.FloorDiv` | simdltk/module/activation.py:50 | Python's `//` rounds toward negative infinity: the result q satisfies b·q ≤ a < b·q + b for b > 0, and the mirrored bounds for b < 0 |
| `Activation.FloorDivExact` | simdltk/module/activation.py:50-52 | `head_dim * num_heads == embed_dim` holds exactly when num_heads divides embed_dim, and then head_dim is the exact quotient |
| `Activation.Configure` | simdltk/module/activation.py:41-79 | construction succeeds iff num_heads ≠ 0, embed_dim > 0, num_heads divides embed_dim, kdim and vdim are absent or equal embed_dim, and add_zero_attn is false; then head_dim = embed_dim / num_heads, head_dim·num_heads = embed_dim, kdim = vdim = embed_dim and the flags are kept; zero heads is a division error |
| `Activation.TenFeaturesThreeHeadsRejected` | simdltk/module/activation.py:50-52 | embed_dim 10 with 3 heads is rejected as not divisible |
| `Activation.MultiheadAttention.constructor` | simdltk/module/activation.py:41-81 | a constructed module satisfies its invariant (num_heads ≠ 0, embed_dim > 0, head_dim·num_heads = embed_dim) and holds the configuration `Configure` accepts, with shared widths; its combined weight has 3·embed_dim rows, and its combined bias exists exactly when `bias` is set |
| `Tensors.SplitQkv` | simdltk/module/activation.py:209-210 | the 3·E combined parameter splits into three parts of E rows that concatenate back to it in query, key, value order |
| `Tensors.SplitQkvRows` | simdltk/module/activation.py:209-210 | the query part is rows [0,E), the key part rows [E,2E), the value part rows [2E,3E) |
| `Tensors.SplitQkvOfJoin` | simdltk/module/activation.py:209-210 | splitting a parameter laid out as query ++ key ++ value gives those three parts back |
| `Tensors.Project` | simdltk/module/activation.py:212-219 | the projection of a tensor has one position per input position |
| `Tensors.ProjectAt` | simdltk/module/activation.py:212-219 | position i of a projection is the linear map applied to position i alone |
| `Tensors.ProjectAppend` | simdltk/module/activation.py:237-242 | projecting a concatenation along the sequence axis is concatenating the projections |
| `Activation.MultiheadAttention.RecurrentForward` | simdltk/module/activation.py:186-301 | a successful call has a module with a splittable combined projection, a positive head count and a dropout probability in [0, 1]; it has at most one query step, with the projected query as long as the passed one; the value is as long as the source length of the weights, and with one query step that length is the resolved key's |
| `Activation.MultiheadAttention.ResolveCache` | simdltk/module/activation.py:208-242 | which key and value a call attends over and which entries it writes: with a static cache, the cached pair, nothing written, and the passed key's length as source length; static mode without a cache, the projected source, written as exactly `static_key`/`static_value`; growing mode, the old history (if any) followed by this step's projection, written as exactly `prev_key`/`prev_value`, with the grown length as source length (used by `StaticFirstCall`, `StaticCachedCall`, `GrowingCall`) |
| `Activation.AccumulateMask` | simdltk/module/activation.py:268-273 | without a passed mask none is applied; in static mode the passed mask is applied as given; in growing mode it follows the stored mask, or stands alone when none is stored (used by `GrowingMask`) |
| `Activation.Attend` | simdltk/module/activation.py:249-295 | more than one query step raises; a dropout probability outside [0, 1] raises, and without a mask that is the error returned; with a mask and a query step, a source length differing from the resolved key's raises the weights-view error; on success the output carries the query, resolved key, value and mask, the mask is as long as the source or one column (or the query has no step and the source one position), the value as long as the source, and the returned state is the entries written plus, in growing mode with a mask, the accumulated mask (used by `StaticLengthMismatchRejected`, `MultiStepQueryRejected`) |
| `Activation.SeparateProjectionUnsupported` | simdltk/module/activation.py:208-221 | with separate projection weights an incremental call raises NotImplementedError |
| `Activation.DropoutOutOfRangeRejected` | simdltk/module/activation.py:286 | with a dropout probability outside [0, 1] every incremental call raises; a growing-mode call without a mask on a well-formed state raises exactly the dropout range error |
| `Activation.MultiStepQueryRejected` | simdltk/module/activation.py:292-293 | a call with more than one query step raises and returns no state |
| `Activation.StaticFirstCall` | simdltk/module/activation.py:213-235 | static mode without a cache: key and value are projected from the passed source, the returned state holds exactly `static_key`/`static_value` of the source's length and no `prev_*` entry, and the passed mask is applied as given |
| `Activation.StaticCachedCall` | simdltk/module/activation.py:227-229 | static mode with a cache: the cached key and value are used unchanged, the returned state is empty, and the passed mask is applied as given |
| `Activation.StaticCachedIgnoresSource` | simdltk/module/activation.py:213-216 | with a static cache the passed key and value are not projected: any key and value of the same length give the same result |
| `Activation.StaticLengthMismatchRejected` | simdltk/module/activation.py:274-281 | with a static cache, a padding mask and a query step, a passed key whose length differs from the cached length makes the call fail |
| `Activation.ZeroStepWideMaskAccepted` | simdltk/module/activation.py:275-295 | a query with no step over a one-position static cache succeeds with a padding mask of any width, and that mask is the one applied |
| `Activation.StaticWritesNoHistory` | simdltk/module/activation.py:268-273 | in static mode the padding mask is never stored and no history entry is written |
| `Activation.GrowingCall` | simdltk/module/activation.py:237-242 | growing mode: the new `prev_key`/`prev_value` are the old history (if any) followed by this step's projected key/value, the source length is the old length plus the key's, and no static entry is written |
| `Activation.GrowingMask` | simdltk/module/activation.py:268-273 | growing mode: a passed mask follows the stored one (or stands alone) and becomes the stored mask; without a passed mask the returned state has no mask entry |
| `Decoding.GrowingRunHistory` | simdltk/module/activation.py:237-242 | after a run of growing-mode calls the history is the old history followed by the projection of all the keys (and values) passed, which equals projecting the whole source at once; static entries are left as they were |
| `Decoding.GrowingRunMask` | simdltk/module/activation.py:268-273 | when every growing-mode call passes a mask, the stored mask is the old one followed by all the passed masks in call order |
| `Decoding.DropoutOutOfRangeRunFails` | simdltk/module/activation.py:286 | with a dropout probability outside [0, 1] no run of one call or more succeeds |
| `Decoding.GrowingRunSucceeds` | simdltk/module/activation.py:237-293 | a growing-mode run of one-step queries, each with key and value of one length and a matching mask on every call or on none, always succeeds on a module with a splittable combined projection, a positive head count and a dropout probability in [0, 1]; it keeps history and mask aligned and grows the history by the total key length |
| `Decoding.GrowingRunLength` | simdltk/module/activation.py:237-293 | on a module with a splittable combined projection, a positive head count and a dropout probability in [0, 1], from an empty state, single-position growing steps succeed and leave a history as long as the number of calls |
| `Decoding.StaticRunKeepsState` | simdltk/module/activation.py:227-229 | once the static cache is populated, a static-mode run leaves the state exactly as it was |
| `Decoding.StaticRunFromEmpty` | simdltk/module/activation.py:213-235 | a static-mode run from an empty state projects only the first call's source and ends holding exactly that projection as its static entries, with no `prev_*` entries |
| `Decoding.StaticCachedRunSucceeds` | simdltk/module/activation.py:227-293 | static-mode calls of one query step passing keys and values of the cached length, and masks that are absent or of the cached length or one column, always succeed on that cache (on a module with a splittable combined projection, a positive head count and a dropout probability in [0, 1]) |
| `Decoding.StaticRunSucceeds` | simdltk/module/activation.py:213-293 | on a module with a splittable combined projection, a positive head count and a dropout probability in [0, 1], from an empty state, a static-mode run over one source length succeeds |

## Left out

- The attention numerics, which are floating point and library calls: query scaling,
  the `bmm` scores, the additive `attn_mask`, the `-inf` fill, softmax, dropout's random zeroing, the
  weighted sum and `out_proj`. Only the shape checks on these paths are modelled: the
  weights' view, the mask broadcast, the query-length check and the value length in
  the final `bmm`. A mismatched `attn_mask` shape is not modelled.
- The non-incremental path `F.multi_head_attention_forward`. It is a library function
  whose source is not part of this model.
- Parameter initialisation (xavier, constant) and `__setstate__`. They are random or
  torch-specific. The constructor takes the initial parameter values as arguments.
- The scaling factor `head_dim ** -0.5`. It is a real power. Its one observable effect,
  the error when head_dim is zero, is modelled.
- `_recurrent_forwardxx`. It is never called, and its output comes from the library
  forward.
- Memory layout. Reshape, transpose, `contiguous` and the per-head view
  (batch·heads, S, head_dim) ↔ (batch, heads, S, head_dim) only rearrange the payload
  at each position. The model treats that rearrangement as the identity.
- Batch and feature dimensions. They live inside the opaque payload, so mismatched
  batch sizes and a batch of size zero are not modelled. With a zero batch every call
  raises at the query's per-head view (line 226 of `simdltk/module/activation.py`); the
  model lets such calls succeed.
- `add_bias_kv`. The flag is recorded, but the incremental path never uses `bias_k`
  or `bias_v`.
- Training mode and concurrency. Dropout's zeroing is numeric (only its range check is
  modelled), and each call runs synchronously on a state owned by one caller.
- How callers combine returned states. It is outside the source; `Merge` (dictionary
  update) is the protocol assumed by the `Decoding` results.
- Python's `-O` mode. The divisibility, shared-width and `add_zero_attn` checks of
  `__init__` are `assert`s (lines 52, 53 and 79), which `-O` strips. The model takes assertions as enabled, and the iff of
  `Configure` holds only then. Under `-O`, embed_dim 10 with 3 heads, or `add_zero_attn`,
  would construct.

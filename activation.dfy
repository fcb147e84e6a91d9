/** The multi-head attention module of simdltk/module/activation.py: its construction
    checks and the cache state machine of its incremental (one query step per call)
    forward pass. The attention numerics are outside this model; what is kept is which
    key, value and padding mask the attention is computed over, and the state returned. */
module Activation {
  import opened Wrappers
  import opened Tensors

  /** Python's floor division `a // b`, which rounds toward negative infinity
      (Dafny's `/` is Euclidean). */
  function FloorDiv(a: int, b: int): (q: int)
    requires b != 0
    ensures b > 0 ==> b * q <= a < b * q + b
    ensures b < 0 ==> b * q + b < a <= b * q
  {
    if b > 0 then a / b else (-a) / (-b)
  }

  /** Euclidean division by a positive divisor of an exact multiple gives the factor back. */
  lemma MultipleDiv(x: int, d: int, t: int)
    requires d > 0 && x == d * t
    ensures x / d == t && x % d == 0
  {
    var q, r := x / d, x % d;
    assert x == d * q + r && 0 <= r < d;
    assert d * (t - q) == r;
    // otherwise d * (t - q) would be at least d or below zero
    if t - q >= 1 {
      assert false;
    } else if t - q <= -1 {
      assert false;
    }
  }

  /** `b * (a // b) == a` holds exactly when `b` divides `a`, and then `a // b` is `a / b`. */
  lemma FloorDivExact(a: int, b: int)
    requires b != 0
    ensures b * FloorDiv(a, b) == a <==> a % b == 0
    ensures b * FloorDiv(a, b) == a ==> FloorDiv(a, b) == a / b
  {
    if b > 0 {
      assert a == b * (a / b) + a % b;
    } else {
      var q := (-a) / (-b);
      assert FloorDiv(a, b) == q;
      assert (-a) == (-b) * q + (-a) % (-b);
      assert a == b * (a / b) + a % b;
      if b * q == a {
        assert a == b * q;
        assert a == (-b) * (-q);
        MultipleDiv(-a, -b, q);
        assert a == b * (-(-q));
        assert a % b == 0 && a / b == q by {
          assert a - b * q == 0;
          assert 0 <= a % b < -b;
          assert b * (a / b - q) == - (a % b);
          // otherwise b * (a / b - q) would be at most b or above zero
          if a / b - q >= 1 {
            assert false;
          } else if a / b - q <= -1 {
            assert false;
          }
        }
      }
      if a % b == 0 {
        assert a == b * (a / b);
        assert -a == (-b) * (a / b);
        MultipleDiv(-a, -b, a / b);
      }
    }
  }

  /** The configuration fields `__init__` sets. */
  datatype Config = Config(
    embedDim: int, kdim: int, vdim: int, numHeads: int, headDim: int,
    dropout: real, bias: bool, addBiasKv: bool, addZeroAttn: bool)
  {
    /** `_qkv_same_embed_dim`: query, key and value have one embedding width. */
    predicate SameEmbedDim()
    {
      kdim == embedDim && vdim == embedDim
    }
  }

  /** Why construction fails. */
  datatype ConfigError =
    | ZeroDivision        // `embed_dim // num_heads` by zero, or `head_dim ** -0.5` with head_dim == 0
    | NotDivisible        // "embed_dim must be divisible by num_heads"
    | SeparateProjection  // kdim or vdim differs from embed_dim: not supported
    | NegativeDimension   // the combined weight of shape (3·embed_dim, embed_dim) cannot be allocated
    | ZeroAttn            // add_zero_attn is not supported

  /** The checks of `__init__`, in the order it makes them, and the fields it sets. */
  function Configure(
    embedDim: int, numHeads: int, dropout: real, bias: bool, addBiasKv: bool,
    addZeroAttn: bool, kdim: Option<int>, vdim: Option<int>): (r: Result<Config, ConfigError>)
    ensures r.Ok? <==>
      numHeads != 0 && embedDim > 0 && embedDim % numHeads == 0 &&
      (kdim.None? || kdim.value == embedDim) && (vdim.None? || vdim.value == embedDim) &&
      !addZeroAttn
    ensures r.Ok? ==>
      r.value.embedDim == embedDim && r.value.numHeads == numHeads &&
      r.value.headDim == embedDim / numHeads && r.value.headDim * numHeads == embedDim &&
      r.value.kdim == embedDim && r.value.vdim == embedDim && r.value.SameEmbedDim() &&
      r.value.dropout == dropout && r.value.bias == bias &&
      r.value.addBiasKv == addBiasKv && !r.value.addZeroAttn
    ensures numHeads == 0 ==> r == Err(ZeroDivision)
  {
    var k := if kdim.Some? then kdim.value else embedDim;
    var v := if vdim.Some? then vdim.value else embedDim;
    if numHeads == 0 then Err(ZeroDivision)
    else
      var headDim := FloorDiv(embedDim, numHeads);
      FloorDivExact(embedDim, numHeads);
      if headDim == 0 then Err(ZeroDivision)
      else if headDim * numHeads != embedDim then Err(NotDivisible)
      else if !(k == embedDim && v == embedDim) then Err(SeparateProjection)
      else if embedDim < 0 then Err(NegativeDimension)
      else if addZeroAttn then Err(ZeroAttn)
      else Ok(Config(embedDim, k, v, numHeads, headDim, dropout, bias, addBiasKv, addZeroAttn))
  }

  /** Ten features cannot be shared among three heads. */
  lemma TenFeaturesThreeHeadsRejected(dropout: real, bias: bool, addBiasKv: bool)
    ensures Configure(10, 3, dropout, bias, addBiasKv, false, None, None) == Err(NotDivisible)
  {
  }

  /** The per-sequence decoding state: a dictionary with five optional entries. The
      module does not reject a state holding both static and growing entries; the
      `static_kv` flag of a call decides which entries it consults. */
  datatype State = State(
    staticKey: Option<Tensor>, staticValue: Option<Tensor>,
    prevKey: Option<Tensor>, prevValue: Option<Tensor>,
    prevKeyPaddingMask: Option<Mask>)

  const Empty := State(None, None, None, None, None)

  /** The arguments of one incremental call: query (tgt_len, batch, E), key and value
      (src_len, batch, E), an optional key-padding mask (batch, S) and the mode flag. */
  datatype Call = Call(query: Tensor, key: Tensor, value: Tensor, keyPaddingMask: Option<Mask>, staticKv: bool)

  /** What an incremental call computes attention over, and the state it returns:
      the projected query, the resolved key and value, the effective padding mask,
      the target length and the source length of the attention weights. */
  datatype Output = Output(
    query: Tensor, key: Tensor, value: Tensor, keyPaddingMask: Option<Mask>,
    tgtLen: nat, srcLen: nat, newState: State)

  /** Why an incremental call raises. */
  datatype ForwardError =
    | NotImplemented      // separate query/key/value projection weights
    | MissingBias         // no combined bias to split: chunking None fails
    | NegativeHeads       // a negative head count cannot scale and view the query per head
    | MissingStaticValue  // a cached static key without its static value
    | MissingPrevValue    // a cached history key without its history value
    | WeightsView         // the weights cannot be viewed with the passed key's length
    | MaskShape           // the padding mask does not broadcast over the source length
    | DropoutRange        // a dropout probability outside [0, 1]
    | MultiStepQuery      // more than one query step
    | ValueLength         // the value's length differs from the weights' source length

  class MultiheadAttention {
    const config: Config
    /** `in_proj_weight`: 3·embed_dim rows, query then key then value; absent with separate weights. */
    const inProjWeight: Option<Matrix>
    /** `in_proj_bias`: 3·embed_dim entries; absent when built without bias. */
    const inProjBias: Option<Vector>

    /** The configuration facts construction establishes, and the shapes the
        parameters have for it. */
    predicate Valid()
    {
      config.numHeads != 0 && config.embedDim > 0 &&
      config.headDim * config.numHeads == config.embedDim &&
      (config.SameEmbedDim() <==> inProjWeight.Some?) &&
      (inProjWeight.Some? ==> |inProjWeight.value| == 3 * config.embedDim) &&
      (config.bias <==> inProjBias.Some?) &&
      (inProjBias.Some? ==> |inProjBias.value| == 3 * config.embedDim)
    }

    /** `__init__`. The initial parameter values stand for what initialisation or a
        checkpoint puts there; their shape is the one the module allocates. */
    constructor (
      embedDim: int, numHeads: int, dropout: real, bias: bool, addBiasKv: bool,
      addZeroAttn: bool, kdim: Option<int>, vdim: Option<int>, weight: Matrix, biasValues: Vector)
      requires Configure(embedDim, numHeads, dropout, bias, addBiasKv, addZeroAttn, kdim, vdim).Ok?
      requires |weight| == 3 * embedDim
      requires bias ==> |biasValues| == 3 * embedDim
      ensures Valid()
      ensures config == Configure(embedDim, numHeads, dropout, bias, addBiasKv, addZeroAttn, kdim, vdim).value
      ensures config.headDim * config.numHeads == config.embedDim == embedDim
      ensures config.kdim == embedDim && config.vdim == embedDim && config.SameEmbedDim()
      ensures inProjWeight == Some(weight)
      ensures inProjBias == if bias then Some(biasValues) else None
    {
      config := Configure(embedDim, numHeads, dropout, bias, addBiasKv, addZeroAttn, kdim, vdim).value;
      inProjWeight := Some(weight);
      inProjBias := if bias then Some(biasValues) else None;
    }

    /** The combined projection exists and can be split into thirds. */
    predicate CanProject()
    {
      Valid() && config.SameEmbedDim() && inProjBias.Some?
    }

    function QueryProjection(lin: Linear, xs: Tensor): Tensor
      requires CanProject()
    {
      Project(lin, SplitQkv(inProjWeight.value).0, SplitQkv(inProjBias.value).0, xs)
    }

    function KeyProjection(lin: Linear, xs: Tensor): Tensor
      requires CanProject()
    {
      Project(lin, SplitQkv(inProjWeight.value).1, SplitQkv(inProjBias.value).1, xs)
    }

    function ValueProjection(lin: Linear, xs: Tensor): Tensor
      requires CanProject()
    {
      Project(lin, SplitQkv(inProjWeight.value).2, SplitQkv(inProjBias.value).2, xs)
    }

    /** The key and value attention is computed over, the entries written for them, and
        `src_len`: the cached static pair, a freshly projected static pair, or the
        history grown by this step's projected key and value. */
    function ResolveCache(lin: Linear, call: Call, prev: State): (r: Resolved)
      requires CanProject()
      requires prev.staticKey.Some? && call.staticKv ==> prev.staticValue.Some?
      requires prev.prevKey.Some? && !call.staticKv ==> prev.prevValue.Some?
      ensures call.staticKv && prev.staticKey.Some? ==>
        r == Resolved(prev.staticKey.value, prev.staticValue.value, Empty, |call.key|)
      ensures call.staticKv && prev.staticKey.None? ==>
        r.key == KeyProjection(lin, call.key) && r.value == ValueProjection(lin, call.value) &&
        r.written == State(Some(r.key), Some(r.value), None, None, None) && r.srcLen == |call.key|
      ensures !call.staticKv ==>
        r.key == HistoryKey(prev) + KeyProjection(lin, call.key) &&
        r.value == HistoryValue(prev) + ValueProjection(lin, call.value) &&
        r.written == State(None, None, Some(r.key), Some(r.value), None) && r.srcLen == |r.key|
    {
      if call.staticKv && prev.staticKey.Some? then
        Resolved(prev.staticKey.value, prev.staticValue.value, Empty, |call.key|)
      else
        var k := KeyProjection(lin, call.key);
        var v := ValueProjection(lin, call.value);
        if call.staticKv then
          Resolved(k, v, State(Some(k), Some(v), None, None, None), |call.key|)
        else if prev.prevKey.Some? then
          var k' := prev.prevKey.value + k;
          var v' := prev.prevValue.value + v;
          Resolved(k', v', State(None, None, Some(k'), Some(v'), None), |k'|)
        else
          assert [] + k == k && [] + v == v;
          Resolved(k, v, State(None, None, Some(k), Some(v), None), |call.key|)
    }

    /** `_recurrent_forward`: one incremental call. `prev` is read and never changed;
        the returned state is a fresh dictionary holding only the entries written. */
    function RecurrentForward(lin: Linear, call: Call, prev: State): (r: Result<Output, ForwardError>)
      requires Valid()
      ensures r.Ok? ==> CanProject() && config.numHeads > 0 && 0.0 <= config.dropout <= 1.0
      ensures r.Ok? ==> r.value.tgtLen == |call.query| == |r.value.query| <= 1
      ensures r.Ok? ==> |r.value.value| == r.value.srcLen
      ensures r.Ok? && r.value.tgtLen == 1 ==> r.value.srcLen == |r.value.key|
    {
      if !config.SameEmbedDim() then Err(NotImplemented)
      else if inProjBias.None? then Err(MissingBias)
      else if config.numHeads < 0 then Err(NegativeHeads)
      else if call.staticKv && prev.staticKey.Some? && prev.staticValue.None? then Err(MissingStaticValue)
      else if !call.staticKv && prev.prevKey.Some? && prev.prevValue.None? then Err(MissingPrevValue)
      else Attend(QueryProjection(lin, call.query), ResolveCache(lin, call, prev), AccumulateMask(call, prev),
        config.dropout, call)
    }
  }

  /** What `ResolveCache` gives: key, value, the cache entries written, and `src_len`. */
  datatype Resolved = Resolved(key: Tensor, value: Tensor, written: State, srcLen: nat)

  /** The padding mask applied: in growing mode a passed mask follows the stored one;
      in static mode the passed mask is used as it is. */
  function AccumulateMask(call: Call, prev: State): (r: Option<Mask>)
    ensures call.keyPaddingMask.None? ==> r.None?
    ensures call.keyPaddingMask.Some? && call.staticKv ==> r == call.keyPaddingMask
    ensures call.keyPaddingMask.Some? && !call.staticKv ==>
      r == Some(OrEmpty(prev.prevKeyPaddingMask) + call.keyPaddingMask.value)
  {
    assert call.keyPaddingMask.Some? ==> [] + call.keyPaddingMask.value == call.keyPaddingMask.value;
    if call.keyPaddingMask.Some? && !call.staticKv && prev.prevKeyPaddingMask.Some? then
      Some(prev.prevKeyPaddingMask.value + call.keyPaddingMask.value)
    else call.keyPaddingMask
  }

  /** The shape checks of the attention over the resolved key and value, and the state
      returned: the entries written, with the mask stored in growing mode. */
  function Attend(query: Tensor, res: Resolved, mask: Option<Mask>, dropout: real, call: Call)
    : (r: Result<Output, ForwardError>)
    ensures |call.query| > 1 ==> r.Err?
    ensures !(0.0 <= dropout <= 1.0) ==> r.Err?
    ensures !(0.0 <= dropout <= 1.0) && mask.None? ==> r == Err(DropoutRange)
    ensures mask.Some? && |call.query| > 0 && res.srcLen != |res.key| ==> r == Err(WeightsView)
    ensures r.Ok? ==>
      r.value.query == query && r.value.key == res.key && r.value.value == res.value &&
      r.value.keyPaddingMask == mask && r.value.tgtLen == |call.query| && |res.value| == r.value.srcLen
    ensures r.Ok? && mask.Some? ==>
      |mask.value| == r.value.srcLen || |mask.value| == 1 || (r.value.tgtLen == 0 && r.value.srcLen == 1)
    ensures r.Ok? && call.keyPaddingMask.Some? && !call.staticKv ==>
      r.value.newState == res.written.(prevKeyPaddingMask := mask)
    ensures r.Ok? && (call.keyPaddingMask.None? || call.staticKv) ==> r.value.newState == res.written
  {
    var tgtLen := |call.query|;
    var newState :=
      if call.keyPaddingMask.Some? && !call.staticKv then res.written.(prevKeyPaddingMask := mask)
      else res.written;
    // the source length of the attention weights: src_len once viewed for masking
    var cols := if mask.Some? then res.srcLen else |res.key|;
    if mask.Some? && tgtLen > 0 && res.srcLen != |res.key| then Err(WeightsView)
    // a one-column source broadcasts against any mask; with no query step both views are empty
    else if mask.Some? && |mask.value| != res.srcLen && |mask.value| != 1 && !(tgtLen == 0 && res.srcLen == 1)
    then Err(MaskShape)
    else if !(0.0 <= dropout <= 1.0) then Err(DropoutRange)
    else if tgtLen > 1 then Err(MultiStepQuery)
    else if |res.value| != cols then Err(ValueLength)
    else Ok(Output(query, res.key, res.value, mask, tgtLen, cols, newState))
  }

  /** The history a state holds for growing mode: consulted only through `prev_key`. */
  function HistoryKey(st: State): Tensor
  {
    OrEmpty(st.prevKey)
  }

  function HistoryValue(st: State): Tensor
  {
    if st.prevKey.Some? then OrEmpty(st.prevValue) else []
  }

  /** Separate projection weights are not implemented for incremental calls. */
  lemma SeparateProjectionUnsupported(m: MultiheadAttention, lin: Linear, call: Call, prev: State)
    requires m.Valid() && !m.config.SameEmbedDim()
    ensures m.RecurrentForward(lin, call, prev) == Err(NotImplemented)
  {
  }

  /** A dropout probability outside [0, 1] makes every call raise. */
  lemma DropoutOutOfRangeRejected(m: MultiheadAttention, lin: Linear, call: Call, prev: State)
    requires m.Valid() && !(0.0 <= m.config.dropout <= 1.0)
    ensures m.RecurrentForward(lin, call, prev).Err?
    ensures m.CanProject() && m.config.numHeads > 0 && !call.staticKv && call.keyPaddingMask.None? &&
            (prev.prevKey.Some? ==> prev.prevValue.Some?)
         ==> m.RecurrentForward(lin, call, prev) == Err(DropoutRange)
  {
  }

  /** A call with more than one query step raises and returns no state. */
  lemma MultiStepQueryRejected(m: MultiheadAttention, lin: Linear, call: Call, prev: State)
    requires m.Valid() && |call.query| > 1
    ensures m.RecurrentForward(lin, call, prev).Err?
  {
  }

  /** Static mode, first call: key and value are projected from the passed source and
      stored as the static entries, with the source's length; nothing else is written. */
  lemma StaticFirstCall(m: MultiheadAttention, lin: Linear, call: Call, prev: State)
    requires m.Valid() && call.staticKv && prev.staticKey.None?
    requires m.RecurrentForward(lin, call, prev).Ok?
    ensures m.CanProject()
    ensures var out := m.RecurrentForward(lin, call, prev).value;
      out.key == m.KeyProjection(lin, call.key) && out.value == m.ValueProjection(lin, call.value) &&
      out.newState == State(Some(out.key), Some(out.value), None, None, None) &&
      |out.newState.staticKey.value| == |call.key| &&
      out.keyPaddingMask == call.keyPaddingMask
  {
  }

  /** Static mode with a cache: the cached key and value are used unchanged, the
      returned state is empty and the passed mask is applied as given. */
  lemma StaticCachedCall(m: MultiheadAttention, lin: Linear, call: Call, prev: State)
    requires m.Valid() && call.staticKv && prev.staticKey.Some?
    requires m.RecurrentForward(lin, call, prev).Ok?
    ensures var out := m.RecurrentForward(lin, call, prev).value;
      prev.staticValue.Some? &&
      out.key == prev.staticKey.value && out.value == prev.staticValue.value &&
      out.newState == Empty && out.keyPaddingMask == call.keyPaddingMask
  {
  }

  /** With a static cache the passed key and value are never projected: any key and value
      of the same length give the same result. */
  lemma StaticCachedIgnoresSource(m: MultiheadAttention, lin: Linear, call: Call, other: Call, prev: State)
    requires m.Valid() && call.staticKv && prev.staticKey.Some?
    requires other == call.(key := other.key, value := other.value) && |other.key| == |call.key|
    ensures m.RecurrentForward(lin, other, prev) == m.RecurrentForward(lin, call, prev)
  {
  }

  /** With a static cache and a padding mask, a passed key whose length is not the cached
      length makes the weights' view fail. */
  lemma StaticLengthMismatchRejected(m: MultiheadAttention, lin: Linear, call: Call, prev: State)
    requires m.Valid() && call.staticKv && prev.staticKey.Some?
    requires call.keyPaddingMask.Some? && |call.query| > 0 && |call.key| != |prev.staticKey.value|
    ensures m.RecurrentForward(lin, call, prev).Err?
  {
  }

  /** A query with no step over a one-position static cache is accepted with a mask of any
      width: the masked fill broadcasts and both views of the weights are empty. */
  lemma ZeroStepWideMaskAccepted(m: MultiheadAttention, lin: Linear, call: Call, prev: State)
    requires m.CanProject() && m.config.numHeads > 0 && 0.0 <= m.config.dropout <= 1.0
    requires call.staticKv && |call.query| == 0 && |call.key| == 1 && call.keyPaddingMask.Some?
    requires prev.staticKey.Some? && prev.staticValue.Some?
    requires |prev.staticKey.value| == 1 && |prev.staticValue.value| == 1
    ensures m.RecurrentForward(lin, call, prev).Ok?
    ensures m.RecurrentForward(lin, call, prev).value.keyPaddingMask == call.keyPaddingMask
  {
  }

  /** In static mode the padding mask is never stored and no history entry is written. */
  lemma StaticWritesNoHistory(m: MultiheadAttention, lin: Linear, call: Call, prev: State)
    requires m.Valid() && call.staticKv
    requires m.RecurrentForward(lin, call, prev).Ok?
    ensures var s := m.RecurrentForward(lin, call, prev).value.newState;
      s.prevKey.None? && s.prevValue.None? && s.prevKeyPaddingMask.None?
  {
  }

  /** Growing mode: the new history is the old one followed by this step's projected key
      and value, the source length is the grown length, and no static entry is written. */
  lemma GrowingCall(m: MultiheadAttention, lin: Linear, call: Call, prev: State)
    requires m.Valid() && !call.staticKv
    requires m.RecurrentForward(lin, call, prev).Ok?
    ensures m.CanProject()
    ensures var out := m.RecurrentForward(lin, call, prev).value;
      out.key == HistoryKey(prev) + m.KeyProjection(lin, call.key) &&
      out.value == HistoryValue(prev) + m.ValueProjection(lin, call.value) &&
      out.newState.prevKey == Some(out.key) && out.newState.prevValue == Some(out.value) &&
      out.srcLen == |HistoryKey(prev)| + |call.key| &&
      out.newState.staticKey.None? && out.newState.staticValue.None?
  {
  }

  /** Growing mode: a given mask is appended to the stored one (or stands alone) and
      becomes the stored mask; without a mask the returned state has no mask entry. */
  lemma GrowingMask(m: MultiheadAttention, lin: Linear, call: Call, prev: State)
    requires m.Valid() && !call.staticKv
    requires m.RecurrentForward(lin, call, prev).Ok?
    ensures var out := m.RecurrentForward(lin, call, prev).value;
      out.newState.prevKeyPaddingMask == out.keyPaddingMask &&
      (call.keyPaddingMask.None? ==> out.keyPaddingMask.None?) &&
      (call.keyPaddingMask.Some? ==>
        out.keyPaddingMask == Some(OrEmpty(prev.prevKeyPaddingMask) + call.keyPaddingMask.value))
  {
    if call.keyPaddingMask.Some? && prev.prevKeyPaddingMask.None? {
      assert [] + call.keyPaddingMask.value == call.keyPaddingMask.value;
    }
  }
}

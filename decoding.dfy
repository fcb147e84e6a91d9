/** Successive incremental calls over one decoding state. Between calls the caller folds
    each returned state into the one it keeps, as `dict.update` does: an entry the call
    returned replaces the stored one, and the others stay. */
module Decoding {
  import opened Wrappers
  import opened Tensors
  import opened Activation

  /** The caller's `state.update(new_state)`. */
  function Merge(st: State, upd: State): State
  {
    State(
      Or(upd.staticKey, st.staticKey), Or(upd.staticValue, st.staticValue),
      Or(upd.prevKey, st.prevKey), Or(upd.prevValue, st.prevValue),
      Or(upd.prevKeyPaddingMask, st.prevKeyPaddingMask))
  }

  /** The calls in order, each on the state the previous ones left; the first error ends the run. */
  function Run(m: MultiheadAttention, lin: Linear, calls: seq<Call>, st: State): Result<State, ForwardError>
    requires m.Valid()
    decreases |calls|
  {
    if calls == [] then Ok(st)
    else match m.RecurrentForward(lin, calls[0], st)
      case Err(e) => Err(e)
      case Ok(out) => Run(m, lin, calls[1..], Merge(st, out.newState))
  }

  /** The keys of the calls, concatenated along the sequence axis. */
  function Keys(calls: seq<Call>): Tensor
  {
    if calls == [] then [] else calls[0].key + Keys(calls[1..])
  }

  function Values(calls: seq<Call>): Tensor
  {
    if calls == [] then [] else calls[0].value + Values(calls[1..])
  }

  function Masks(calls: seq<Call>): Mask
  {
    if calls == [] then [] else OrEmpty(calls[0].keyPaddingMask) + Masks(calls[1..])
  }

  predicate Growing(calls: seq<Call>)
  {
    forall i :: 0 <= i < |calls| ==> !calls[i].staticKv
  }

  predicate Static(calls: seq<Call>)
  {
    forall i :: 0 <= i < |calls| ==> calls[i].staticKv
  }

  predicate AllMasked(calls: seq<Call>)
  {
    forall i :: 0 <= i < |calls| ==> calls[i].keyPaddingMask.Some?
  }

  /** A run continues from the state its first call leaves. */
  lemma RunStep(m: MultiheadAttention, lin: Linear, calls: seq<Call>, st: State)
    requires m.Valid() && calls != [] && Run(m, lin, calls, st).Ok?
    ensures m.RecurrentForward(lin, calls[0], st).Ok?
    ensures Run(m, lin, calls[1..], Merge(st, m.RecurrentForward(lin, calls[0], st).value.newState))
      == Run(m, lin, calls, st)
  {
  }

  /** One growing-mode call, folded into the caller's state. */
  lemma GrowingStep(m: MultiheadAttention, lin: Linear, c: Call, st: State)
    requires m.Valid() && !c.staticKv && m.RecurrentForward(lin, c, st).Ok?
    ensures m.CanProject()
    ensures var st1 := Merge(st, m.RecurrentForward(lin, c, st).value.newState);
      st1.prevKey == Some(HistoryKey(st) + m.KeyProjection(lin, c.key)) &&
      st1.prevValue == Some(HistoryValue(st) + m.ValueProjection(lin, c.value)) &&
      st1.staticKey == st.staticKey && st1.staticValue == st.staticValue &&
      (c.keyPaddingMask.Some? ==>
        st1.prevKeyPaddingMask == Some(OrEmpty(st.prevKeyPaddingMask) + c.keyPaddingMask.value))
  {
    GrowingCall(m, lin, c, st);
    GrowingMask(m, lin, c, st);
  }

  /** The rest of a masked growing-mode run is one as well. */
  lemma MaskedTail(calls: seq<Call>)
    requires Growing(calls) && AllMasked(calls) && calls != []
    ensures calls[0].keyPaddingMask.Some? && !calls[0].staticKv
    ensures Growing(calls[1..]) && AllMasked(calls[1..])
    ensures Masks(calls) == calls[0].keyPaddingMask.value + Masks(calls[1..])
  {
    forall i | 0 <= i < |calls[1..]| ensures !calls[1..][i].staticKv && calls[1..][i].keyPaddingMask.Some? {
      assert calls[1..][i] == calls[i + 1];
    }
  }

  /** A stored mask extended by one step and then by the rest is extended by both. */
  lemma MaskChain(a: Mask, mk: Mask, rest: Mask, s1: Option<Mask>, f: Option<Mask>)
    requires s1 == Some(a + mk) && f == Some(OrEmpty(s1) + rest)
    ensures f == Some(a + (mk + rest))
  {
    assert (a + mk) + rest == a + (mk + rest);
  }

  /** The first call of a masked growing-mode run appends its mask to the caller's stored
      one, and the run goes on from the state it leaves. */
  lemma GrowingMaskStep(m: MultiheadAttention, lin: Linear, calls: seq<Call>, st: State, fin: State)
      returns (st1: State)
    requires m.Valid() && calls != [] && !calls[0].staticKv && calls[0].keyPaddingMask.Some?
    requires Run(m, lin, calls, st) == Ok(fin)
    ensures Run(m, lin, calls[1..], st1) == Ok(fin)
    ensures calls[1..] == [] ==> fin == st1
    ensures st1.prevKeyPaddingMask == Some(OrEmpty(st.prevKeyPaddingMask) + calls[0].keyPaddingMask.value)
  {
    RunStep(m, lin, calls, st);
    GrowingMask(m, lin, calls[0], st);
    st1 := Merge(st, m.RecurrentForward(lin, calls[0], st).value.newState);
  }

  /** A history extended by one step's projection and then by the rest's is the history
      extended by the projection of both. */
  lemma ExtendHistory(lin: Linear, w: Matrix, b: Vector, h: Tensor, k: Tensor, ks: Tensor)
    ensures h + Project(lin, w, b, k) + Project(lin, w, b, ks) == h + Project(lin, w, b, k + ks)
    ensures ks == [] ==> h + Project(lin, w, b, k) == h + Project(lin, w, b, k + ks)
  {
    ProjectAppend(lin, w, b, k, ks);
    if ks == [] {
      assert k + ks == k;
    }
  }

  /** A growing-mode run leaves as history the old history followed by the projection of
      all the keys and values passed, which is what projecting the whole source at once
      gives; the static entries are left as they were. */
  lemma {:induction false} GrowingRunHistory(m: MultiheadAttention, lin: Linear, calls: seq<Call>, st: State, fin: State)
    requires m.Valid() && Growing(calls) && |calls| > 0
    requires Run(m, lin, calls, st) == Ok(fin)
    ensures m.CanProject()
    ensures fin.prevKey == Some(HistoryKey(st) + m.KeyProjection(lin, Keys(calls)))
    ensures fin.prevValue == Some(HistoryValue(st) + m.ValueProjection(lin, Values(calls)))
    ensures fin.staticKey == st.staticKey && fin.staticValue == st.staticValue
    decreases |calls|
  {
    RunStep(m, lin, calls, st);
    GrowingStep(m, lin, calls[0], st);
    var st1 := Merge(st, m.RecurrentForward(lin, calls[0], st).value.newState);
    var rest := calls[1..];
    var k, v := calls[0].key, calls[0].value;
    assert Run(m, lin, rest, st1) == Ok(fin);
    assert Keys(calls) == k + Keys(rest) && Values(calls) == v + Values(rest);
    var wk, bk := SplitQkv(m.inProjWeight.value).1, SplitQkv(m.inProjBias.value).1;
    var wv, bv := SplitQkv(m.inProjWeight.value).2, SplitQkv(m.inProjBias.value).2;
    ExtendHistory(lin, wk, bk, HistoryKey(st), k, Keys(rest));
    ExtendHistory(lin, wv, bv, HistoryValue(st), v, Values(rest));
    if rest == [] {
      assert fin == st1;
    } else {
      assert Growing(rest) by {
        forall i | 0 <= i < |rest| ensures !rest[i].staticKv { assert rest[i] == calls[i + 1]; }
      }
      GrowingRunHistory(m, lin, rest, st1, fin);
    }
  }

  /** When every call of a growing-mode run passes a mask, the stored mask is the old
      one followed by all the passed masks in call order. */
  lemma {:induction false} GrowingRunMask(m: MultiheadAttention, lin: Linear, calls: seq<Call>, st: State, fin: State)
    requires m.Valid() && Growing(calls) && AllMasked(calls) && |calls| > 0
    requires Run(m, lin, calls, st) == Ok(fin)
    ensures fin.prevKeyPaddingMask == Some(OrEmpty(st.prevKeyPaddingMask) + Masks(calls))
    decreases |calls|
  {
    MaskedTail(calls);
    var st1 := GrowingMaskStep(m, lin, calls, st, fin);
    var rest, mk := calls[1..], calls[0].keyPaddingMask.value;
    if rest == [] {
      assert Masks(calls) == mk by { assert Masks(rest) == [] && mk + [] == mk; }
    } else {
      GrowingRunMask(m, lin, rest, st1, fin);
      MaskChain(OrEmpty(st.prevKeyPaddingMask), mk, Masks(rest), st1.prevKeyPaddingMask, fin.prevKeyPaddingMask);
    }
  }

  /** A call of one query step whose key and value have one length and whose mask (when
      `masked`) covers its key, or (when not) is absent. */
  predicate StepShaped(c: Call, masked: bool)
  {
    |c.query| == 1 && |c.value| == |c.key| &&
    (if masked then c.keyPaddingMask.Some? && |c.keyPaddingMask.value| == |c.key| else c.keyPaddingMask.None?)
  }

  /** A growing-mode state whose history key and value, and (when `masked`) stored mask,
      have one length. */
  predicate HistoryAligned(st: State, masked: bool)
  {
    (st.prevKey.Some? ==> st.prevValue.Some? && |st.prevValue.value| == |st.prevKey.value|) &&
    (masked ==> st.prevKeyPaddingMask.Some? == st.prevKey.Some? &&
                |OrEmpty(st.prevKeyPaddingMask)| == |HistoryKey(st)|)
  }

  /** With a dropout probability outside [0, 1] no run of one call or more succeeds. */
  lemma DropoutOutOfRangeRunFails(m: MultiheadAttention, lin: Linear, calls: seq<Call>, st: State)
    requires m.Valid() && !(0.0 <= m.config.dropout <= 1.0) && calls != []
    ensures Run(m, lin, calls, st).Err?
  {
    DropoutOutOfRangeRejected(m, lin, calls[0], st);
  }

  /** A growing-mode run of well-shaped single-step calls always succeeds; its history ends
      as long as the old history plus all the keys passed. */
  lemma {:induction false} GrowingRunSucceeds(m: MultiheadAttention, lin: Linear, calls: seq<Call>, st: State, masked: bool)
    requires m.CanProject() && m.config.numHeads > 0 && 0.0 <= m.config.dropout <= 1.0
    requires Growing(calls) && forall i :: 0 <= i < |calls| ==> StepShaped(calls[i], masked)
    requires HistoryAligned(st, masked)
    ensures Run(m, lin, calls, st).Ok?
    ensures HistoryAligned(Run(m, lin, calls, st).value, masked)
    ensures |HistoryKey(Run(m, lin, calls, st).value)| == |HistoryKey(st)| + |Keys(calls)|
    decreases |calls|
  {
    if calls != [] {
      var c := calls[0];
      var r := m.RecurrentForward(lin, c, st);
      assert StepShaped(c, masked);
      if masked {
        assert |OrEmpty(st.prevKeyPaddingMask) + c.keyPaddingMask.value| == |HistoryKey(st)| + |c.key|;
      }
      assert r.Ok?;
      GrowingCall(m, lin, c, st);
      GrowingMask(m, lin, c, st);
      var st1 := Merge(st, r.value.newState);
      var rest := calls[1..];
      assert Growing(rest) && forall i :: 0 <= i < |rest| ==> StepShaped(rest[i], masked) by {
        forall i | 0 <= i < |rest| ensures !rest[i].staticKv && StepShaped(rest[i], masked) {
          assert rest[i] == calls[i + 1];
        }
      }
      GrowingRunSucceeds(m, lin, rest, st1, masked);
    }
  }

  /** With single-position keys the history grows by exactly one position per call:
      from an empty state it ends as long as the run. */
  lemma {:induction false} GrowingRunLength(m: MultiheadAttention, lin: Linear, calls: seq<Call>, masked: bool)
    requires m.CanProject() && m.config.numHeads > 0 && 0.0 <= m.config.dropout <= 1.0
    requires Growing(calls) && forall i :: 0 <= i < |calls| ==> StepShaped(calls[i], masked) && |calls[i].key| == 1
    ensures Run(m, lin, calls, Empty).Ok?
    ensures |HistoryKey(Run(m, lin, calls, Empty).value)| == |calls|
  {
    GrowingRunSucceeds(m, lin, calls, Empty, masked);
    SingleStepKeys(calls);
  }

  lemma {:induction false} SingleStepKeys(calls: seq<Call>)
    requires forall i :: 0 <= i < |calls| ==> |calls[i].key| == 1
    ensures |Keys(calls)| == |calls|
    decreases |calls|
  {
    if calls != [] {
      assert forall i :: 0 <= i < |calls[1..]| ==> |calls[1..][i].key| == 1 by {
        forall i | 0 <= i < |calls[1..]| ensures |calls[1..][i].key| == 1 { assert calls[1..][i] == calls[i + 1]; }
      }
      SingleStepKeys(calls[1..]);
    }
  }

  /** Once the static cache is populated, a static-mode run leaves the state exactly as it was. */
  lemma {:induction false} StaticRunKeepsState(m: MultiheadAttention, lin: Linear, calls: seq<Call>, st: State)
    requires m.Valid() && Static(calls) && st.staticKey.Some?
    requires Run(m, lin, calls, st).Ok?
    ensures Run(m, lin, calls, st) == Ok(st)
    decreases |calls|
  {
    if calls != [] {
      RunStep(m, lin, calls, st);
      StaticCachedCall(m, lin, calls[0], st);
      assert Merge(st, Empty) == st;
      var rest := calls[1..];
      assert Static(rest) by {
        forall i | 0 <= i < |rest| ensures rest[i].staticKv { assert rest[i] == calls[i + 1]; }
      }
      StaticRunKeepsState(m, lin, rest, st);
    }
  }

  /** A static-mode run from an empty state projects the source once, at its first call,
      and ends holding exactly that projection as its static entries. */
  lemma StaticRunFromEmpty(m: MultiheadAttention, lin: Linear, calls: seq<Call>)
    requires m.Valid() && Static(calls) && |calls| > 0
    requires Run(m, lin, calls, Empty).Ok?
    ensures m.CanProject()
    ensures Run(m, lin, calls, Empty) ==
      Ok(State(Some(m.KeyProjection(lin, calls[0].key)), Some(m.ValueProjection(lin, calls[0].value)), None, None, None))
  {
    RunStep(m, lin, calls, Empty);
    StaticFirstCall(m, lin, calls[0], Empty);
    var st1 := Merge(Empty, m.RecurrentForward(lin, calls[0], Empty).value.newState);
    var rest := calls[1..];
    assert Static(rest) by {
      forall i | 0 <= i < |rest| ensures rest[i].staticKv { assert rest[i] == calls[i + 1]; }
    }
    StaticRunKeepsState(m, lin, rest, st1);
  }

  /** A static-mode call of one query step whose key and value have the source length `n`
      and whose mask, if any, covers the source or is a single column. */
  predicate StaticShaped(c: Call, n: nat)
  {
    |c.query| == 1 && |c.key| == n && |c.value| == n &&
    (c.keyPaddingMask.Some? ==> |c.keyPaddingMask.value| == n || |c.keyPaddingMask.value| == 1)
  }

  /** A static-mode run that passes the same source length on every call succeeds on a
      cache of that length. */
  lemma {:induction false} StaticCachedRunSucceeds(m: MultiheadAttention, lin: Linear, calls: seq<Call>, st: State, n: nat)
    requires m.CanProject() && m.config.numHeads > 0 && 0.0 <= m.config.dropout <= 1.0
    requires Static(calls) && forall i :: 0 <= i < |calls| ==> StaticShaped(calls[i], n)
    requires st.staticKey.Some? && st.staticValue.Some?
    requires |st.staticKey.value| == n && |st.staticValue.value| == n
    ensures Run(m, lin, calls, st) == Ok(st)
    decreases |calls|
  {
    if calls != [] {
      assert StaticShaped(calls[0], n);
      assert m.RecurrentForward(lin, calls[0], st).Ok?;
      StaticCachedCall(m, lin, calls[0], st);
      assert Merge(st, Empty) == st;
      var rest := calls[1..];
      assert Static(rest) && forall i :: 0 <= i < |rest| ==> StaticShaped(rest[i], n) by {
        forall i | 0 <= i < |rest| ensures rest[i].staticKv && StaticShaped(rest[i], n) {
          assert rest[i] == calls[i + 1];
        }
      }
      StaticCachedRunSucceeds(m, lin, rest, st, n);
    }
  }

  /** From an empty state, a static-mode run over one source length succeeds. */
  lemma StaticRunSucceeds(m: MultiheadAttention, lin: Linear, calls: seq<Call>)
    requires m.CanProject() && m.config.numHeads > 0 && 0.0 <= m.config.dropout <= 1.0
    requires Static(calls) && |calls| > 0
    requires forall i :: 0 <= i < |calls| ==> StaticShaped(calls[i], |calls[0].key|)
    ensures Run(m, lin, calls, Empty).Ok?
  {
    var n := |calls[0].key|;
    assert StaticShaped(calls[0], n);
    assert m.RecurrentForward(lin, calls[0], Empty).Ok?;
    StaticFirstCall(m, lin, calls[0], Empty);
    var st1 := Merge(Empty, m.RecurrentForward(lin, calls[0], Empty).value.newState);
    var rest := calls[1..];
    assert Static(rest) && forall i :: 0 <= i < |rest| ==> StaticShaped(rest[i], n) by {
      forall i | 0 <= i < |rest| ensures rest[i].staticKv && StaticShaped(rest[i], n) {
        assert rest[i] == calls[i + 1];
      }
    }
    StaticCachedRunSucceeds(m, lin, rest, st1, n);
  }
}

/**
 * The late lint pass as the host drives it: `check_item` is called once for
 * each item of the crate, in order, and every diagnostic it emits is
 * appended to the sink. `CheckCrateInOrder` says that the collected
 * diagnostics are exactly one per empty drop impl, each at that impl's span,
 * in item order; the other lemmas state parts of this on their own.
 */
module LintPass {
  import opened Wrappers
  import opened Hir
  import opened EmptyDrop

  /** The sink: zero or one diagnostic per call of `check_item`. */
  function Emitted(r: Option<Finding>): (d: seq<Finding>)
    ensures |d| <= 1
    ensures r.None? ==> d == []
    ensures r.Some? ==> d == [r.value]
  {
    match r
    case None => []
    case Some(f) => [f]
  }

  /** The diagnostics emitted while the pass visits `items` in order. */
  function CheckCrate(cx: LateContext, items: seq<Item>): (d: seq<Finding>)
    requires forall item | item in items :: BodyResolves(cx, item)
    ensures |d| <= |items|
    ensures forall f | f in d :: f.lint == EmptyDropLint && f.message == Message && f.help == Help && f.helpSpan == None
    decreases |items|
  {
    if items == [] then []
    else Emitted(CheckItem(cx, items[0])) + CheckCrate(cx, items[1..])
  }

  /** The empty drop impls among `items`, in their order. */
  function EmptyDropImpls(cx: LateContext, items: seq<Item>): (r: seq<Item>)
    ensures |r| <= |items|
    ensures forall item | item in r :: item in items && IsEmptyDropImpl(cx, item)
    decreases |items|
  {
    if items == [] then []
    else (if IsEmptyDropImpl(cx, items[0]) then [items[0]] else []) + EmptyDropImpls(cx, items[1..])
  }

  /**
   * The diagnostics of a crate are one per empty drop impl, in item order,
   * each the lint's finding at that impl's span.
   */
  lemma {:induction false} CheckCrateInOrder(cx: LateContext, items: seq<Item>)
    requires forall item | item in items :: BodyResolves(cx, item)
    ensures |CheckCrate(cx, items)| == |EmptyDropImpls(cx, items)|
    ensures forall k | 0 <= k < |CheckCrate(cx, items)| ::
      CheckCrate(cx, items)[k] == Finding(EmptyDropLint, EmptyDropImpls(cx, items)[k].span, Message, None, Help)
  {
    if items != [] {
      CheckCrateInOrder(cx, items[1..]);
      var d := CheckCrate(cx, items);
      var e := EmptyDropImpls(cx, items);
      var dRest := CheckCrate(cx, items[1..]);
      var eRest := EmptyDropImpls(cx, items[1..]);
      if IsEmptyDropImpl(cx, items[0]) {
        assert d == [Finding(EmptyDropLint, items[0].span, Message, None, Help)] + dRest;
        assert e == [items[0]] + eRest;
        forall k | 0 <= k < |d|
          ensures d[k] == Finding(EmptyDropLint, e[k].span, Message, None, Help)
        {
          if k > 0 {
            assert d[k] == dRest[k - 1] && e[k] == eRest[k - 1];
          }
        }
      } else {
        assert d == dRest && e == eRest;
      }
    }
  }

  /** Each item contributes its own diagnostics independently of the others. */
  lemma {:induction false} CheckCrateAppend(cx: LateContext, xs: seq<Item>, ys: seq<Item>)
    requires forall item | item in xs + ys :: BodyResolves(cx, item)
    ensures CheckCrate(cx, xs + ys) == CheckCrate(cx, xs) + CheckCrate(cx, ys)
  {
    if xs == [] {
      assert xs + ys == ys;
    } else {
      assert (xs + ys)[0] == xs[0];
      assert (xs + ys)[1..] == xs[1..] + ys;
      CheckCrateAppend(cx, xs[1..], ys);
    }
  }

  /** Every collected diagnostic comes from an empty drop impl of the crate and sits at its span. */
  lemma {:induction false} CheckCrateSound(cx: LateContext, items: seq<Item>)
    requires forall item | item in items :: BodyResolves(cx, item)
    ensures forall f | f in CheckCrate(cx, items) ::
      exists i | 0 <= i < |items| :: IsEmptyDropImpl(cx, items[i]) && f.span == items[i].span
  {
    if items != [] {
      var head := Emitted(CheckItem(cx, items[0]));
      var rest := CheckCrate(cx, items[1..]);
      assert CheckCrate(cx, items) == head + rest;
      CheckCrateSound(cx, items[1..]);
      forall f | f in CheckCrate(cx, items)
        ensures exists i | 0 <= i < |items| :: IsEmptyDropImpl(cx, items[i]) && f.span == items[i].span
      {
        if f in head {
          assert IsEmptyDropImpl(cx, items[0]) && f.span == items[0].span;
        } else {
          assert f in rest;
          var j :| 0 <= j < |items[1..]| && IsEmptyDropImpl(cx, items[1..][j]) && f.span == items[1..][j].span;
          assert items[1..][j] == items[j + 1];
          assert IsEmptyDropImpl(cx, items[j + 1]) && f.span == items[j + 1].span;
        }
      }
    }
  }

  /** Every empty drop impl of the crate gets a diagnostic at its span. */
  lemma {:induction false} CheckCrateComplete(cx: LateContext, items: seq<Item>, i: nat)
    requires forall item | item in items :: BodyResolves(cx, item)
    requires i < |items| && IsEmptyDropImpl(cx, items[i])
    ensures Finding(EmptyDropLint, items[i].span, Message, None, Help) in CheckCrate(cx, items)
  {
    if i > 0 {
      assert items[1..][i - 1] == items[i];
      CheckCrateComplete(cx, items[1..], i - 1);
    }
  }

  /** A crate without empty drop impls gets no diagnostics at all. */
  lemma {:induction false} CheckCrateQuiet(cx: LateContext, items: seq<Item>)
    requires forall item | item in items :: BodyResolves(cx, item) && !IsEmptyDropImpl(cx, item)
    ensures CheckCrate(cx, items) == []
  {
    if items != [] {
      CheckCrateQuiet(cx, items[1..]);
    }
  }
}

/** The two mixing directions as inverse permutations, and the product carried through them. */
module LayoutRoundTrip {
  import opened Convolution
  import opened Spectrum
  import opened SpectrumLayout
  import opened SpectrumForms

  lemma {:induction false} MixOne(x: Samples)
    ensures Mix([x], [1.0], |x|) == x
  {
    var y := Mix([x], [1.0], |x|);
    forall j | 0 <= j < |x|
      ensures y[j] == x[j]
    {
      var f := MixTerm([x], [1.0], j);
      SumFew(f);
      assert f(0) == x[j] * 1.0;
    }
  }

  lemma {:induction false} MixOneQuad(b: Layout, q: nat)
    requires q < |b|
    ensures MixQuad([b], [1.0], q) == b[q]
  {
    forall j: nat | j < 4
      ensures MixLane([b], [1.0], q, j) == Lane(b[q], j)
    {
      var f := DotTerm(LaneColumn([b], q, j), [1.0]);
      SumFew(f);
      assert f(0) == Lane(b[q], j) * 1.0;
    }
  }

  lemma {:induction false} MixOneLayout(b: Layout, n: nat)
    requires Divided(n) && n == 4 * |b|
    ensures MixLayouts([b], [1.0], n) == b
  {
    var y := MixLayouts([b], [1.0], n);
    forall q | 0 <= q < |b|
      ensures y[q] == b[q]
    {
      MixOneQuad(b, q);
    }
  }

  /** Into the layout and out of it again, at scale one: the ordered buffer is unchanged. */
  lemma {:induction false} InputThenOutput(x: Samples, b: Layout, o: Samples)
    requires Divided(|x|) && |o| == |x| && IsLayoutOf(b, Mix([x], [1.0], |x|))
    requires IsLayoutOf(MixLayouts([b], [1.0], |x|), o)
    ensures o == x
  {
    MixOne(x);
    MixOneLayout(b, |x|);
    LayoutInjective(b, b, o, x);
  }

  /** Out of the layout and into it again: the layout buffer is unchanged. */
  lemma {:induction false} OutputThenInput(b: Layout, o: Samples, d: Layout)
    requires Divided(|o|) && |o| == 4 * |b| && IsLayoutOf(MixLayouts([b], [1.0], |o|), o)
    requires IsLayoutOf(d, Mix([o], [1.0], |o|))
    ensures d == b
  {
    MixOne(o);
    MixOneLayout(b, |o|);
    LayoutInjective(b, d, o, o);
  }

  /** Input, product in layout order, output: what the ordered in-place loop computes. */
  method ProductThroughLayout(x: Samples, y: Samples) returns (o: array<real>)
    requires Divided(|x|) && |x| == |y|
    ensures fresh(o) && o.Length == |x| && o[..] == OrderedProduct(x, y)
  {
    var n := |x|;
    var b, c := new Quad[n / 4](_ => Quad(0.0, 0.0, 0.0, 0.0)), new Quad[n / 4](_ => Quad(0.0, 0.0, 0.0, 0.0));
    MixScaleInput([x], [1.0], n, b);
    MixScaleInput([y], [1.0], n, c);
    MixOne(x);
    MixOne(y);
    ghost var bs, cs := b[..], c[..];
    HalfMultipliable(bs, cs, n);
    ConvolveInplace(b, c[..]);
    ProductOfLayouts(bs, cs, x, y);
    o := new real[n](_ => 0.0);
    MixOneLayout(b[..], n);
    MixScaleOutput([b[..]], [1.0], o);
    LayoutInjective(b[..], b[..], o[..], OrderedProduct(x, y));
  }

  lemma {:induction false} HalfMultipliable(b: Layout, c: Layout, n: nat)
    requires Divided(n) && 4 * |b| == n == 4 * |c|
    ensures Multipliable(b, c)
  {
    assert n == 8 * (n / 8);
    assert |b| == 2 * (n / 8);
  }

  /** Both routes on the same buffers: the ordered loop and the product in layout order agree. */
  method RoutesAgree(x: array<real>, y: Samples) returns (o: array<real>)
    requires Divided(x.Length) && x.Length == |y|
    modifies x
    ensures fresh(o) && o[..] == x[..] == OrderedProduct(old(x[..]), y)
  {
    o := ProductThroughLayout(x[..], y);
    ConvolveInplaceOrdered(x, y);
  }
}

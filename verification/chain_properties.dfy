/** What the condiment chain promises as a whole: how its price is made up,
    how its description is ordered, and that every handle on one chain sees
    the single size stored in the innermost base drink. */
module ChainProperties {
  import opened Beverages
  import opened Condiments

  /** Surcharges of layers wrapped in two rounds add up. */
  lemma {:induction false} SurchargeTotalAppend(a: seq<CondimentKind>, b: seq<CondimentKind>, size: Size)
    ensures SurchargeTotal(a + b, size) == SurchargeTotal(a, size) + SurchargeTotal(b, size)
    decreases |b|
  {
    if b == [] {
      assert a + b == a;
    } else {
      var b' := b[..|b| - 1];
      assert (a + b)[..|a + b| - 1] == a + b';
      SurchargeTotalAppend(a, b', size);
    }
  }

  /** The surcharge total counted by kind: 10 cents per Milk or Whip, 20 per
      Mocha or Caramel, and Soy's size-dependent amount per Soy. */
  lemma {:induction false} SurchargeTotalByCount(layers: seq<CondimentKind>, size: Size)
    ensures SurchargeTotal(layers, size)
         == 10 * (multiset(layers)[Milk] + multiset(layers)[Whip])
          + 20 * (multiset(layers)[Mocha] + multiset(layers)[Caramel])
          + multiset(layers)[Soy] * SoySurcharge(size)
    decreases |layers|
  {
    if layers != [] {
      var init := layers[..|layers| - 1];
      assert layers == init + [layers[|layers| - 1]];
      assert multiset(layers) == multiset(init) + multiset{layers[|layers| - 1]};
      SurchargeTotalByCount(init, size);
    }
  }

  /** A chain's price depends on which condiments it has, not on their order. */
  lemma CostIgnoresOrder(kind: BaseKind, size: Size, a: seq<CondimentKind>, b: seq<CondimentKind>)
    requires multiset(a) == multiset(b)
    ensures ChainCost(kind, size, a) == ChainCost(kind, size, b)
  {
    SurchargeTotalByCount(a, size);
    SurchargeTotalByCount(b, size);
  }

  /** Without a Soy layer, the size does not change a chain's price. */
  lemma CostIgnoresSizeWithoutSoy(kind: BaseKind, layers: seq<CondimentKind>, s1: Size, s2: Size)
    requires Soy !in layers
    ensures ChainCost(kind, s1, layers) == ChainCost(kind, s2, layers)
  {
    assert multiset(layers)[Soy] == 0;
    SurchargeTotalByCount(layers, s1);
    SurchargeTotalByCount(layers, s2);
  }

  /** Each layer adds between 10 and 20 cents, and a larger size never makes
      a chain cheaper. */
  lemma {:induction false} ChainCostBounds(kind: BaseKind, layers: seq<CondimentKind>)
    ensures BasePrice(kind) + 10 * |layers| <= ChainCost(kind, Tall, layers)
    ensures ChainCost(kind, Tall, layers) <= ChainCost(kind, Grande, layers)
    ensures ChainCost(kind, Grande, layers) <= ChainCost(kind, Venti, layers)
    ensures ChainCost(kind, Venti, layers) <= BasePrice(kind) + 20 * |layers|
    decreases |layers|
  {
    if layers != [] {
      ChainCostBounds(kind, layers[..|layers| - 1]);
    }
  }

  /** Labels of layers wrapped in two rounds appear in that order. */
  lemma {:induction false} SuffixesAppend(a: seq<CondimentKind>, b: seq<CondimentKind>)
    ensures Suffixes(a + b) == Suffixes(a) + Suffixes(b)
    decreases |b|
  {
    if b == [] {
      assert a + b == a;
    } else {
      var b' := b[..|b| - 1];
      assert (a + b)[..|a + b| - 1] == a + b';
      SuffixesAppend(a, b');
    }
  }

  /** Wrapping `kind` first and then `layers` puts its label first among
      the suffixes: the innermost condiment is listed right after the base. */
  lemma InnermostLabelFirst(kind: CondimentKind, layers: seq<CondimentKind>)
    ensures Suffixes([kind] + layers) == ", " + Label(kind) + Suffixes(layers)
  {
    SuffixesAppend([kind], layers);
    SuffixesSingle(kind);
  }

  lemma SuffixesSingle(kind: CondimentKind)
    ensures Suffixes([kind]) == ", " + Label(kind)
  {
    assert [kind][..0] == [];
  }

  /** No condiment label contains a blank. */
  lemma LabelHasNoBlank(kind: CondimentKind)
    ensures HasNoBlank(Label(kind))
  {
  }

  /** No base name contains a comma. */
  lemma BaseDescriptionHasNoComma(kind: BaseKind)
    ensures forall i :: 0 <= i < |BaseDescription(kind)| ==> BaseDescription(kind)[i] != ','
  {
  }

  /** The four base names are distinct. */
  lemma BaseDescriptionInjective(k1: BaseKind, k2: BaseKind)
    requires BaseDescription(k1) == BaseDescription(k2)
    ensures k1 == k2
  {
  }

  ghost predicate HasNoBlank(s: string)
  {
    forall i :: 0 <= i < |s| ==> s[i] != ' '
  }

  /** Where the ", " separator sits in `p + ", " + a`. */
  lemma SeparatorAt(p: string, a: string)
    ensures |p + ", " + a| == |p| + 2 + |a|
    ensures (p + ", " + a)[|p|] == ',' && (p + ", " + a)[|p| + 1] == ' '
    ensures (p + ", " + a)[..|p|] == p && (p + ", " + a)[|p| + 2..] == a
  {
    var d := p + ", " + a;
    assert d[..|p|] == p;
    assert d[|p| + 2..] == a;
  }

  /** Text ending in ", " + a label without blanks splits in one way only. */
  lemma LastLabelUnique(p1: string, a: string, p2: string, b: string)
    requires HasNoBlank(a) && HasNoBlank(b)
    requires p1 + ", " + a == p2 + ", " + b
    ensures a == b && p1 == p2
  {
    SeparatorAt(p1, a);
    SeparatorAt(p2, b);
    if |a| != |b| {
      assert false;
    }
  }

  /** Text without a comma never ends in ", " + something. */
  lemma CommaFreeIsNotLayered(x: string, p: string, a: string)
    requires forall i :: 0 <= i < |x| ==> x[i] != ','
    ensures x != p + ", " + a
  {
    SeparatorAt(p, a);
  }

  /** The five labels are distinct. */
  lemma LabelInjective(c1: CondimentKind, c2: CondimentKind)
    requires Label(c1) == Label(c2)
    ensures c1 == c2
  {
  }

  /** The outermost layer's label comes last. */
  lemma DescriptionSnoc(k: BaseKind, l: seq<CondimentKind>)
    requires l != []
    ensures ChainDescription(k, l) == ChainDescription(k, l[..|l| - 1]) + ", " + Label(l[|l| - 1])
  {
  }

  /** A bare base prints its name alone. */
  lemma BareDescription(k: BaseKind)
    ensures ChainDescription(k, []) == BaseDescription(k)
  {
    assert BaseDescription(k) + "" == BaseDescription(k);
  }

  /** A bare base never prints like a wrapped chain. */
  lemma BareIsNotLayered(k: BaseKind, k': BaseKind, l': seq<CondimentKind>)
    requires l' != []
    ensures BaseDescription(k) != ChainDescription(k', l')
  {
    var init := l'[..|l'| - 1];
    DescriptionSnoc(k', l');
    BaseDescriptionHasNoComma(k);
    CommaFreeIsNotLayered(BaseDescription(k), ChainDescription(k', init), Label(l'[|l'| - 1]));
  }

  /** Two wrapped chains that print alike have the same outermost layer and
      inner chains that print alike. */
  lemma OutermostLayerUnique(k1: BaseKind, l1: seq<CondimentKind>, k2: BaseKind, l2: seq<CondimentKind>)
    requires l1 != [] && l2 != []
    requires ChainDescription(k1, l1) == ChainDescription(k2, l2)
    ensures l1[|l1| - 1] == l2[|l2| - 1]
    ensures ChainDescription(k1, l1[..|l1| - 1]) == ChainDescription(k2, l2[..|l2| - 1])
  {
    var c1, c2 := l1[|l1| - 1], l2[|l2| - 1];
    var p1, p2 := ChainDescription(k1, l1[..|l1| - 1]), ChainDescription(k2, l2[..|l2| - 1]);
    DescriptionSnoc(k1, l1);
    DescriptionSnoc(k2, l2);
    LabelHasNoBlank(c1);
    LabelHasNoBlank(c2);
    LastLabelUnique(p1, Label(c1), p2, Label(c2));
    LabelInjective(c1, c2);
  }

  /** A description determines the base and every layer, in wrap order: two
      chains print the same text only if they have the same base kind and the
      same condiments in the same order. */
  lemma {:induction false} DescriptionDeterminesChain(k1: BaseKind, l1: seq<CondimentKind>, k2: BaseKind, l2: seq<CondimentKind>)
    requires ChainDescription(k1, l1) == ChainDescription(k2, l2)
    ensures k1 == k2 && l1 == l2
    decreases |l1| + |l2|
  {
    if l1 == [] && l2 == [] {
      BareDescription(k1);
      BareDescription(k2);
      BaseDescriptionInjective(k1, k2);
    } else if l1 == [] {
      BareIsNotLayered(k1, k2, l2);
    } else if l2 == [] {
      BareIsNotLayered(k2, k1, l1);
    } else {
      OutermostLayerUnique(k1, l1, k2, l2);
      var i1, i2 := l1[..|l1| - 1], l2[..|l2| - 1];
      DescriptionDeterminesChain(k1, i1, k2, i2);
      assert l1 == i1 + [l1[|l1| - 1]];
      assert l2 == i2 + [l2[|l2| - 1]];
    }
  }

  /** The handle `k` layers in from `h`. */
  ghost function Unwrap(h: Drink, k: nat): Drink
    requires h.Valid() && k <= |h.Layers()|
    decreases k
  {
    if k == 0 then h else Unwrap(h.decorator.inner, k - 1)
  }

  /** Every handle inside a chain is well formed, has the same root, and
      wraps the corresponding prefix of the layers. */
  lemma {:induction false} UnwrapSharesRoot(h: Drink, k: nat)
    requires h.Valid() && k <= |h.Layers()|
    ensures Unwrap(h, k).Valid()
    ensures Unwrap(h, k).Root() == h.Root()
    ensures Unwrap(h, k).Layers() == h.Layers()[..|h.Layers()| - k]
    decreases k
  {
    if k > 0 {
      var inner := h.decorator.inner;
      UnwrapSharesRoot(inner, k - 1);
      var n := |h.Layers()|;
      assert inner.Layers() == h.Layers()[..n - 1];
      assert h.Layers()[..n - 1][..n - 1 - (k - 1)] == h.Layers()[..n - k];
    }
  }

  /** Peeling every layer leaves the bare root drink. */
  lemma UnwrapAllIsRoot(h: Drink)
    requires h.Valid()
    ensures Unwrap(h, |h.Layers()|) == Bare(h.Root())
  {
    UnwrapSharesRoot(h, |h.Layers()|);
  }

  /** All handles of one chain report the same size, whatever the depth. */
  lemma ChainSharesSize(h: Drink, k: nat)
    requires h.Valid() && k <= |h.Layers()|
    ensures Unwrap(h, k).Valid() && Unwrap(h, k).GetSize() == h.GetSize()
  {
    UnwrapSharesRoot(h, k);
  }
}

/** What the builder promises about names: lookups ignore case, each table
    is exactly its four, five or three keys, the size name never fails, and
    a built chain lists its condiments in the order they were named. */
module BuilderProperties {
  import opened Wrappers
  import opened Beverages
  import opened Condiments
  import opened Builder
  import opened ChainProperties

  /** Lowering twice is lowering once. */
  lemma LowerIdempotent(s: string)
    ensures Lower(Lower(s)) == Lower(s)
  {
    assert forall i :: 0 <= i < |s| ==> Lower(Lower(s))[i] == Lower(s)[i];
  }

  /** Text without capitals is left as it is. */
  lemma LowerKeepsLowercase(s: string)
    requires forall i :: 0 <= i < |s| ==> !('A' <= s[i] <= 'Z')
    ensures Lower(s) == s
  {
    assert forall i :: 0 <= i < |s| ==> Lower(s)[i] == s[i];
  }

  /** Names that agree after lowering resolve alike: lookups ignore case. */
  lemma LookupsIgnoreCase(name: string)
    ensures LookupBase(name) == LookupBase(Lower(name))
    ensures LookupCondiment(name) == LookupCondiment(Lower(name))
    ensures ParseSize(name) == ParseSize(Lower(name))
  {
    LowerIdempotent(name);
  }

  /** A base name resolves to `kind` exactly when it lowers to that kind's key. */
  lemma LookupBaseExact(name: string, kind: BaseKind)
    ensures LookupBase(name) == Some(kind) <==> Lower(name) == BaseKey(kind)
  {
    if Lower(name) == BaseKey(kind) {
      match LookupBase(name)
      case None =>
      case Some(k) => assert BaseKey(k) == BaseKey(kind);
    }
  }

  /** A condiment name resolves to `kind` exactly when it lowers to that key. */
  lemma LookupCondimentExact(name: string, kind: CondimentKind)
    ensures LookupCondiment(name) == Some(kind) <==> Lower(name) == CondimentKey(kind)
  {
    if Lower(name) == CondimentKey(kind) {
      match LookupCondiment(name)
      case None =>
      case Some(k) => assert CondimentKey(k) == CondimentKey(kind);
    }
  }

  /** A size name gives `size` exactly when it lowers to that size's key, or
      when it is no size key at all and `size` is TALL. */
  lemma ParseSizeExact(name: string, size: Size)
    ensures ParseSize(name) == size <==>
              Lower(name) == SizeKey(size) || (size == Tall && forall t :: Lower(name) != SizeKey(t))
  {
    var s := ParseSize(name);
    if Lower(name) == SizeKey(size) {
      assert SizeKey(s) == SizeKey(size) || forall t :: Lower(name) != SizeKey(t);
    }
  }

  /** Every key, in any mix of capitals, resolves to its own value. */
  lemma KeysResolve(base: BaseKind, cond: CondimentKind, size: Size, b: string, c: string, s: string)
    requires Lower(b) == BaseKey(base) && Lower(c) == CondimentKey(cond) && Lower(s) == SizeKey(size)
    ensures LookupBase(b) == Some(base)
    ensures LookupCondiment(c) == Some(cond)
    ensures ParseSize(s) == size
  {
    LookupBaseExact(b, base);
    LookupCondimentExact(c, cond);
    ParseSizeExact(s, size);
  }

  /** The condiment list resolves to `kinds` exactly when it has one name
      per kind and each name resolves to the kind at its position. */
  lemma ResolveCondimentsExact(names: seq<string>, kinds: seq<CondimentKind>)
    ensures ResolveCondiments(names) == Success(kinds) <==>
              |names| == |kinds| && forall i :: 0 <= i < |names| ==> LookupCondiment(names[i]) == Some(kinds[i])
  {
    if |names| == |kinds| && forall i :: 0 <= i < |names| ==> LookupCondiment(names[i]) == Some(kinds[i]) {
      ResolveCondimentsSucceeds(names, kinds);
    }
  }

  /** The size name never makes a build fail, and changing it changes only
      the size of the result. */
  lemma SizeNameNeverFails(base: string, s1: string, s2: string, condiments: seq<string>)
    ensures Resolve(base, s1, condiments).Success? == Resolve(base, s2, condiments).Success?
    ensures Resolve(base, s1, condiments).Failure? ==>
              Resolve(base, s1, condiments).error == Resolve(base, s2, condiments).error
    ensures Resolve(base, s1, condiments).Success? ==>
              Resolve(base, s1, condiments).value.(size := ParseSize(s2)) == Resolve(base, s2, condiments).value
  {
  }

  /** A built drink has one layer per condiment name. With no names it is
      the bare base at the base price and with the bare name; otherwise the
      first name's label comes first after the base name and the last name's
      label comes last. */
  lemma BuiltChain(base: string, size: string, condiments: seq<string>)
    requires Resolve(base, size, condiments).Success?
    ensures var o := Resolve(base, size, condiments).value;
            |o.layers| == |condiments|
    ensures var o := Resolve(base, size, condiments).value;
            condiments == [] ==> SurchargeTotal(o.layers, o.size) == 0 && Suffixes(o.layers) == ""
    ensures var o := Resolve(base, size, condiments).value;
            condiments != [] ==>
              Suffixes(o.layers)
              == ", " + Label(LookupCondiment(condiments[0]).value) + Suffixes(o.layers[1..])
    ensures var o := Resolve(base, size, condiments).value;
            condiments != [] ==>
              Suffixes(o.layers)
              == Suffixes(o.layers[..|o.layers| - 1]) + ", "
                 + Label(LookupCondiment(condiments[|condiments| - 1]).value)
  {
    var layers := Resolve(base, size, condiments).value.layers;
    if condiments != [] {
      assert layers == [layers[0]] + layers[1..];
      InnermostLabelFirst(layers[0], layers[1..]);
    }
  }
}

/**
 What a Swagger 2.0 consumer does with a generated parameter list: every
 `#/parameters/<name>` reference object stands for the catalog entry filed
 under `<name>`, and an inline parameter object stands for itself. The
 Swagger 2.0 specification requires the parameters of an operation to be
 unique by the combination of `name` and `in`.
 */
module Resolution {
  import opened Swagger
  import opened Parameters

  /** The parameter object an entry stands for, if its reference resolves. */
  function Resolve(catalog: map<string, Descriptor>, p: Param): Option<Descriptor>
  {
    match p
    case Inline(d) => Some(d)
    case Ref(ref) => if Resolves(catalog, ref) then Some(catalog[ParameterName(ref).value]) else None
  }

  /** Resolves a whole list; fails exactly when some entry does not resolve,
      and otherwise replaces each entry by what it stands for, in place. */
  function ResolveAll(catalog: map<string, Descriptor>, r: seq<Param>): (out: Option<seq<Descriptor>>)
    ensures out.Some? <==> forall k | 0 <= k < |r| :: Resolve(catalog, r[k]).Some?
    ensures out.Some? ==> |out.value| == |r|
    ensures out.Some? ==> forall k | 0 <= k < |r| :: Resolve(catalog, r[k]) == Some(out.value[k])
  {
    if r == [] then Some([])
    else
      match (Resolve(catalog, r[0]), ResolveAll(catalog, r[1..]))
      case (Some(d), Some(ds)) => Some([d] + ds)
      case _ => None
  }

  /** No two parameter objects share both `name` and `in`. */
  predicate UniqueParameters(ds: seq<Descriptor>)
  {
    forall j, k | 0 <= j < k < |ds| :: ds[j].name != ds[k].name || ds[j].location != ds[k].location
  }

  /** A catalog whose entries are filed under their own names. */
  predicate NamedByKey(catalog: map<string, Descriptor>)
  {
    forall n | n in catalog :: catalog[n].name == n
  }

  /** References to names that are all catalog keys resolve. */
  lemma ResolvesByNames(catalog: map<string, Descriptor>, r: seq<Param>, names: set<string>)
    requires names <= catalog.Keys
    requires forall q | q in r && q.Ref? :: ParameterName(q.ref).Some? && ParameterName(q.ref).value in names
    ensures forall q | q in r && q.Ref? :: Resolves(catalog, q.ref)
  {
  }

  /** No entry appears twice. */
  predicate Distinct(r: seq<Param>)
  {
    forall j, k | 0 <= j < k < |r| :: r[j] != r[k]
  }

  /** Nothing but references follows an inline object, so there is at most one. */
  predicate InlineLast(r: seq<Param>)
  {
    forall j, k | 0 <= j < k < |r| && r[j].Inline? :: r[k].Ref?
  }

  /** Every reference resolves against the catalog and no inline object is
      named like a catalog entry. */
  predicate ResolvesWithoutShadowing(catalog: map<string, Descriptor>, r: seq<Param>)
  {
    forall p | p in r :: if p.Ref? then Resolves(catalog, p.ref) else p.descriptor.name !in catalog
  }

  /** A list of distinct entries with at most one inline object resolves to
      unique parameters, provided the catalog files each entry under its own
      name and the inline object's name is not a catalog key. */
  lemma ResolvedDistinctEntriesAreUnique(catalog: map<string, Descriptor>, r: seq<Param>)
    requires NamedByKey(catalog)
    requires ResolvesWithoutShadowing(catalog, r)
    requires Distinct(r) && InlineLast(r)
    ensures ResolveAll(catalog, r).Some?
    ensures UniqueParameters(ResolveAll(catalog, r).value)
  {
    assert forall k | 0 <= k < |r| :: Resolve(catalog, r[k]).Some? by {
      forall k | 0 <= k < |r| ensures Resolve(catalog, r[k]).Some? {
        assert r[k] in r;
      }
    }
    var ds := ResolveAll(catalog, r).value;
    forall j, k | 0 <= j < k < |ds|
      ensures ds[j].name != ds[k].name || ds[j].location != ds[k].location
    {
      assert Resolve(catalog, r[j]) == Some(ds[j]) && Resolve(catalog, r[k]) == Some(ds[k]);
      if r[j].Ref? && r[k].Ref? {
        var a, b := r[j].ref, r[k].ref;
        StripPrefixSplits(PARAMETERS_PREFIX, a);
        StripPrefixSplits(PARAMETERS_PREFIX, b);
        assert ds[j].name == ParameterName(a).value && ds[k].name == ParameterName(b).value;
      } else if r[j].Ref? {
        assert r[k] in r;
        assert ds[j].name in catalog && ds[k].name !in catalog;
      } else {
        assert r[j] in r;
        assert ds[k].name in catalog && ds[j].name !in catalog;
      }
    }
  }

  /** The three conditions above survive putting a list of references in
      front of a list that shares none of its entries. */
  lemma ConcatKeepsConditions(catalog: map<string, Descriptor>, a: seq<Param>, b: seq<Param>)
    requires forall p | p in a :: p.Ref?
    requires forall p | p in a :: p !in b
    requires ResolvesWithoutShadowing(catalog, a) && ResolvesWithoutShadowing(catalog, b)
    requires Distinct(a) && Distinct(b) && InlineLast(b)
    ensures ResolvesWithoutShadowing(catalog, a + b)
    ensures Distinct(a + b) && InlineLast(a + b)
  {
    var r := a + b;
    forall j, k | 0 <= j < k < |r|
      ensures r[j] != r[k]
      ensures r[j].Inline? ==> r[k].Ref?
    {
      if k < |a| {
        assert r[j] == a[j] && r[k] == a[k];
      } else if j < |a| {
        assert r[j] == a[j] && r[k] == b[k - |a|];
        assert a[j] in a;
      } else {
        assert r[j] == b[j - |a|] && r[k] == b[k - |a|];
      }
    }
  }
}

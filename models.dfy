/** The model registry (lib/models.ts): a fixed catalog, ordered by tier,
    with tier filtering, the default model, the free -> mid -> high fallback
    chain and lookup by id. */
module Models {
  import opened Wrappers
  import opened Types

  /** The catalog, in source order. */
  const MODELS: seq<LLMModel> := [
    LLMModel("meta-llama/llama-3.1-70b-instruct:free", "Llama 3.1 70B (Free)", OpenRouter, Free, 8192, None, Some(true)),
    LLMModel("llama-3.1-8b-instant", "Llama 3.1 8B Instant", Groq, Free, 8192, None, Some(true)),
    LLMModel("gemma-7b-it", "Gemma 7B IT", Groq, Free, 8192, None, Some(true)),
    LLMModel("llama-3.1-70b-instruct", "Llama 3.1 70B Instruct", Groq, Mid, 8192, Some(0.0001), None),
    LLMModel("mixtral-8x7b-32768", "Mixtral 8x7B", Groq, Mid, 32768, Some(0.0002), None),
    LLMModel("meta-llama/Meta-Llama-3-70B-Instruct", "Meta Llama 3 70B Instruct", OpenRouter, High, 8192, Some(0.0005), None)
  ]

  // ---------------------------------------------------------------------
  // Tier filtering

  /** `s.filter(m => m.tier === t)`. */
  function ModelsOfTier(s: seq<LLMModel>, t: Tier): (r: seq<LLMModel>)
    ensures |r| <= |s|
    decreases |s|
  {
    if |s| == 0 then []
    else (if s[0].tier == t then [s[0]] else []) + ModelsOfTier(s[1..], t)
  }

  /** The filter keeps exactly the entries of tier t. */
  lemma {:induction false} ModelsOfTierMembers(s: seq<LLMModel>, t: Tier)
    ensures forall m :: m in ModelsOfTier(s, t) <==> m in s && m.tier == t
    decreases |s|
  {
    if |s| > 0 {
      ModelsOfTierMembers(s[1..], t);
      assert s == [s[0]] + s[1..];
    }
  }

  /** Filtering distributes over concatenation, so it keeps the relative
      order of what it keeps. */
  lemma {:induction false} ModelsOfTierAppend(a: seq<LLMModel>, b: seq<LLMModel>, t: Tier)
    ensures ModelsOfTier(a + b, t) == ModelsOfTier(a, t) + ModelsOfTier(b, t)
    decreases |a|
  {
    if |a| == 0 {
      assert a + b == b;
    } else {
      ModelsOfTierAppend(a[1..], b, t);
      AppendStep(a, b, t);
    }
  }

  lemma AppendStep(a: seq<LLMModel>, b: seq<LLMModel>, t: Tier)
    requires |a| > 0
    requires ModelsOfTier(a[1..] + b, t) == ModelsOfTier(a[1..], t) + ModelsOfTier(b, t)
    ensures ModelsOfTier(a + b, t) == ModelsOfTier(a, t) + ModelsOfTier(b, t)
  {
    var h := if a[0].tier == t then [a[0]] else [];
    var x, y := ModelsOfTier(a[1..], t), ModelsOfTier(b, t);
    ConcatHeadTail(a, b);
    ModelsOfTierUnfold(a + b, t);
    ModelsOfTierUnfold(a, t);
    ConcatAssoc(h, x, y);
  }

  lemma ConcatHeadTail<T>(a: seq<T>, b: seq<T>)
    requires |a| > 0
    ensures (a + b)[0] == a[0] && (a + b)[1..] == a[1..] + b
  {
  }

  lemma ConcatAssoc<T>(a: seq<T>, b: seq<T>, c: seq<T>)
    ensures a + (b + c) == (a + b) + c
  {
  }

  lemma ModelsOfTierUnfold(s: seq<LLMModel>, t: Tier)
    requires |s| > 0
    ensures ModelsOfTier(s, t) == (if s[0].tier == t then [s[0]] else []) + ModelsOfTier(s[1..], t)
  {
  }

  /** A block all of tier t is kept whole; a block with no entry of tier t
      is dropped. */
  lemma {:induction false} ModelsOfTierUniform(s: seq<LLMModel>, t: Tier)
    ensures (forall i :: 0 <= i < |s| ==> s[i].tier == t) ==> ModelsOfTier(s, t) == s
    ensures (forall i :: 0 <= i < |s| ==> s[i].tier != t) ==> ModelsOfTier(s, t) == []
    decreases |s|
  {
    if |s| > 0 {
      ModelsOfTierUniform(s[1..], t);
      if forall i :: 0 <= i < |s| ==> s[i].tier == t {
        assert forall i :: 0 <= i < |s[1..]| ==> s[1..][i].tier == t by {
          forall i | 0 <= i < |s[1..]| ensures s[1..][i].tier == t { assert s[1..][i] == s[i + 1]; }
        }
        assert [s[0]] + s[1..] == s;
      }
      if forall i :: 0 <= i < |s| ==> s[i].tier != t {
        assert forall i :: 0 <= i < |s[1..]| ==> s[1..][i].tier != t by {
          forall i | 0 <= i < |s[1..]| ensures s[1..][i].tier != t { assert s[1..][i] == s[i + 1]; }
        }
      }
    }
  }

  /** `getModelsByTier(tier)`. */
  function GetModelsByTier(t: Tier): (r: seq<LLMModel>)
    ensures forall m :: m in r <==> m in MODELS && m.tier == t
  {
    ModelsOfTierMembers(MODELS, t);
    ModelsOfTier(MODELS, t)
  }

  /** The three tiers of the catalog, each in catalog order. */
  lemma CatalogTiers()
    ensures GetModelsByTier(Free) == MODELS[..3]
    ensures GetModelsByTier(Mid) == MODELS[3..5]
    ensures GetModelsByTier(High) == MODELS[5..]
  {
    var a, b, c := MODELS[..3], MODELS[3..5], MODELS[5..];
    assert MODELS == a + b + c;
    CatalogIsTierSorted();
    BlocksOfTier(a, b, c, Free);
    BlocksOfTier(a, b, c, Mid);
    BlocksOfTier(a, b, c, High);
    ModelsOfTierUniform(a, Free);
    ModelsOfTierUniform(b, Mid);
    ModelsOfTierUniform(c, High);
  }

  lemma BlocksOfTier(a: seq<LLMModel>, b: seq<LLMModel>, c: seq<LLMModel>, t: Tier)
    requires forall i :: 0 <= i < |a| ==> a[i].tier == Free
    requires forall i :: 0 <= i < |b| ==> b[i].tier == Mid
    requires forall i :: 0 <= i < |c| ==> c[i].tier == High
    ensures t == Free ==> ModelsOfTier(a + b + c, t) == ModelsOfTier(a, t)
    ensures t == Mid ==> ModelsOfTier(a + b + c, t) == ModelsOfTier(b, t)
    ensures t == High ==> ModelsOfTier(a + b + c, t) == ModelsOfTier(c, t)
  {
    ModelsOfTierAppend(a + b, c, t);
    ModelsOfTierAppend(a, b, t);
    ModelsOfTierUniform(a, t);
    ModelsOfTierUniform(b, t);
    ModelsOfTierUniform(c, t);
  }

  // ---------------------------------------------------------------------
  // Default model

  /** `s.find(m => m.tier === "free") || s[0]`. */
  function DefaultOf(s: seq<LLMModel>): (r: LLMModel)
    requires |s| > 0
    ensures r in s
    ensures (exists m :: m in s && m.tier == Free) <==> r.tier == Free
  {
    ModelsOfTierMembers(s, Free);
    var free := ModelsOfTier(s, Free);
    if |free| > 0 then (assert free[0] in free; free[0]) else s[0]
  }

  /** `getDefaultModel()`. */
  function GetDefaultModel(): LLMModel {
    DefaultOf(MODELS)
  }

  lemma DefaultModelIsFirstFree()
    ensures GetDefaultModel() == MODELS[0]
    ensures GetDefaultModel().id == "meta-llama/llama-3.1-70b-instruct:free"
    ensures GetDefaultModel().provider == OpenRouter
  {
    assert MODELS == [MODELS[0]] + MODELS[1..];
  }

  // ---------------------------------------------------------------------
  // Fallback chain

  /** Free entries, then mid, then high, each in the order of `s`. */
  function FallbackChainOf(s: seq<LLMModel>): seq<LLMModel> {
    ModelsOfTier(s, Free) + ModelsOfTier(s, Mid) + ModelsOfTier(s, High)
  }

  /** `getFallbackChain()`. */
  function GetFallbackChain(): seq<LLMModel> {
    FallbackChainOf(MODELS)
  }

  /** Tiers never decrease along a sequence. */
  ghost predicate TierSorted(s: seq<LLMModel>) {
    forall i, j :: 0 <= i < j < |s| ==> s[i].tier.Rank() <= s[j].tier.Rank()
  }

  /** Bucketing by tier loses and duplicates nothing, because every entry has
      exactly one of the three tiers. */
  lemma {:induction false} FallbackChainIsPermutation(s: seq<LLMModel>)
    ensures multiset(FallbackChainOf(s)) == multiset(s)
    ensures |FallbackChainOf(s)| == |s|
    decreases |s|
  {
    if |s| > 0 {
      FallbackChainIsPermutation(s[1..]);
      PermutationStep(s[0], s[1..]);
      assert s == [s[0]] + s[1..];
    }
    assert |multiset(FallbackChainOf(s))| == |multiset(s)|;
  }

  /** The head of `[x] + r` lands in exactly one of the three buckets. */
  lemma PermutationStep(x: LLMModel, r: seq<LLMModel>)
    requires multiset(FallbackChainOf(r)) == multiset(r)
    ensures multiset(FallbackChainOf([x] + r)) == multiset([x] + r)
  {
    var f, m, h := ModelsOfTier(r, Free), ModelsOfTier(r, Mid), ModelsOfTier(r, High);
    var xf := if x.tier == Free then [x] else [];
    var xm := if x.tier == Mid then [x] else [];
    var xh := if x.tier == High then [x] else [];
    ChainOfCons(x, r);
    assert multiset(xf) + multiset(xm) + multiset(xh) == multiset{x};
    MultisetOfBuckets(xf, f, xm, m, xh, h);
  }

  lemma ChainOfCons(x: LLMModel, r: seq<LLMModel>)
    ensures FallbackChainOf([x] + r)
      == ((if x.tier == Free then [x] else []) + ModelsOfTier(r, Free))
       + ((if x.tier == Mid then [x] else []) + ModelsOfTier(r, Mid))
       + ((if x.tier == High then [x] else []) + ModelsOfTier(r, High))
  {
    ModelsOfTierCons(x, r, Free);
    ModelsOfTierCons(x, r, Mid);
    ModelsOfTierCons(x, r, High);
  }

  lemma MultisetOfBuckets<T>(a: seq<T>, b: seq<T>, c: seq<T>, d: seq<T>, e: seq<T>, f: seq<T>)
    ensures multiset((a + b) + (c + d) + (e + f)) == multiset(a) + multiset(c) + multiset(e) + multiset(b + d + f)
  {
  }

  /** The chain is ordered free -> mid -> high. */
  lemma FallbackChainIsTierSorted(s: seq<LLMModel>)
    ensures TierSorted(FallbackChainOf(s))
  {
    var f, m, h := ModelsOfTier(s, Free), ModelsOfTier(s, Mid), ModelsOfTier(s, High);
    var c := FallbackChainOf(s);
    ModelsOfTierMembers(s, Free);
    ModelsOfTierMembers(s, Mid);
    ModelsOfTierMembers(s, High);
    forall i | 0 <= i < |c|
      ensures c[i].tier.Rank() == (if i < |f| then 0 else if i < |f| + |m| then 1 else 2)
    {
      if i < |f| {
        assert c[i] == f[i] && f[i] in f;
      } else if i < |f| + |m| {
        assert c[i] == m[i - |f|] && m[i - |f|] in m;
      } else {
        assert c[i] == h[i - |f| - |m|] && h[i - |f| - |m|] in h;
      }
    }
  }

  /** A sequence already ordered by tier is its own fallback chain. */
  lemma SortedTail(s: seq<LLMModel>)
    requires |s| > 0 && TierSorted(s)
    ensures TierSorted(s[1..])
    ensures forall i :: 0 <= i < |s[1..]| ==> s[0].tier.Rank() <= s[1..][i].tier.Rank()
  {
    var r := s[1..];
    forall i, j | 0 <= i < j < |r| ensures r[i].tier.Rank() <= r[j].tier.Rank() {
      assert r[i] == s[i + 1] && r[j] == s[j + 1];
    }
    forall i | 0 <= i < |r| ensures s[0].tier.Rank() <= r[i].tier.Rank() {
      assert r[i] == s[i + 1];
    }
  }

  /** One step of filtering a sequence that starts with x. */
  lemma ModelsOfTierCons(x: LLMModel, r: seq<LLMModel>, t: Tier)
    ensures ModelsOfTier([x] + r, t) == (if x.tier == t then [x] else []) + ModelsOfTier(r, t)
  {
    assert ([x] + r)[1..] == r;
  }

  /** Putting an entry in front of entries of no lower tier puts it in front
      of their fallback chain. */
  lemma ChainCons(x: LLMModel, r: seq<LLMModel>)
    requires forall i :: 0 <= i < |r| ==> x.tier.Rank() <= r[i].tier.Rank()
    ensures FallbackChainOf([x] + r) == [x] + FallbackChainOf(r)
  {
    var f, m, h := ModelsOfTier(r, Free), ModelsOfTier(r, Mid), ModelsOfTier(r, High);
    ModelsOfTierCons(x, r, Free);
    ModelsOfTierCons(x, r, Mid);
    ModelsOfTierCons(x, r, High);
    if x.tier == Free {
      assert FallbackChainOf([x] + r) == [x] + (f + m + h);
    } else {
      NoneBelow(x, r);
    }
  }

  lemma NoneBelow(x: LLMModel, r: seq<LLMModel>)
    requires x.tier != Free
    requires forall i :: 0 <= i < |r| ==> x.tier.Rank() <= r[i].tier.Rank()
    ensures FallbackChainOf([x] + r) == [x] + FallbackChainOf(r)
  {
    ChainOfCons(x, r);
    TierAbsent(r, Free);
    if x.tier == High {
      TierAbsent(r, Mid);
      ChainOfHigh(x, ModelsOfTier(r, High));
    } else {
      ChainOfMid(x, ModelsOfTier(r, Mid), ModelsOfTier(r, High));
    }
  }

  /** A tier ranked below every entry of `r` has no entries in `r`. */
  lemma TierAbsent(r: seq<LLMModel>, t: Tier)
    requires exists x: LLMModel :: t.Rank() < x.tier.Rank() && forall i :: 0 <= i < |r| ==> x.tier.Rank() <= r[i].tier.Rank()
    ensures ModelsOfTier(r, t) == []
  {
    ModelsOfTierUniform(r, t);
  }

  lemma ChainOfMid(x: LLMModel, m: seq<LLMModel>, h: seq<LLMModel>)
    requires x.tier == Mid
    ensures ([] + []) + ([x] + m) + ([] + h) == [x] + ([] + m + h)
  {
  }

  lemma ChainOfHigh(x: LLMModel, h: seq<LLMModel>)
    requires x.tier == High
    ensures ([] + []) + ([] + []) + ([x] + h) == [x] + ([] + [] + h)
  {
  }

  lemma {:induction false} SortedIsOwnFallbackChain(s: seq<LLMModel>)
    requires TierSorted(s)
    ensures FallbackChainOf(s) == s
    decreases |s|
  {
    if |s| > 0 {
      SortedTail(s);
      SortedIsOwnFallbackChain(s[1..]);
      ChainCons(s[0], s[1..]);
      assert s == [s[0]] + s[1..];
    }
  }

  /** Every suffix of a tier-sorted sequence is tier-sorted. */
  lemma SortedSuffix(s: seq<LLMModel>, k: nat)
    requires TierSorted(s) && k <= |s|
    ensures TierSorted(s[k..])
  {
    var r := s[k..];
    forall i, j | 0 <= i < j < |r| ensures r[i].tier.Rank() <= r[j].tier.Rank() {
      assert r[i] == s[k + i] && r[j] == s[k + j];
    }
  }

  lemma CatalogIsTierSorted()
    ensures TierSorted(MODELS)
  {
  }

  /** The catalog is already ordered by tier, so the fallback chain is the
      catalog itself. */
  lemma FallbackChainIsCatalog()
    ensures GetFallbackChain() == MODELS
  {
    CatalogIsTierSorted();
    SortedIsOwnFallbackChain(MODELS);
  }

  // ---------------------------------------------------------------------
  // Lookup by id

  /** `s.findIndex(m => m.id === id)`: the first index with that id, or -1. */
  function IndexOfId(s: seq<LLMModel>, id: string): (r: int)
    ensures -1 <= r < |s|
    ensures r >= 0 ==> s[r].id == id && forall j :: 0 <= j < r ==> s[j].id != id
    ensures r == -1 <==> forall j :: 0 <= j < |s| ==> s[j].id != id
    decreases |s|
  {
    if |s| == 0 then -1
    else if s[0].id == id then 0
    else
      var k := IndexOfId(s[1..], id);
      if k == -1 then -1 else k + 1
  }

  /** `findModel(id)`. */
  function FindModel(id: string): (r: Option<LLMModel>)
    ensures r.Some? ==> r.value in MODELS && r.value.id == id
    ensures r.None? <==> forall m :: m in MODELS ==> m.id != id
  {
    var k := IndexOfId(MODELS, id);
    if k >= 0 then Some(MODELS[k]) else None
  }

  /** No two entries of `s` share an id. */
  ghost predicate IdsDistinct(s: seq<LLMModel>) {
    forall i, j :: 0 <= i < j < |s| ==> s[i].id != s[j].id
  }

  lemma CatalogIdsDistinct()
    ensures IdsDistinct(MODELS)
  {
  }

  /** Ids are distinct, so the entry `findModel` returns is the only one with
      that id. */
  lemma FindModelUnique(id: string, m: LLMModel)
    requires m in MODELS && m.id == id
    ensures FindModel(id) == Some(m)
  {
    CatalogIdsDistinct();
  }

  /** Looking up the id of the k-th catalog entry finds index k. */
  lemma IndexOfCatalogId(k: nat)
    requires k < |MODELS|
    ensures IndexOfId(MODELS, MODELS[k].id) == k
  {
    CatalogIdsDistinct();
    assert IndexOfId(MODELS, MODELS[k].id) != -1;
  }

  /** No catalog entry is served by HuggingFace. */
  lemma NoHuggingFaceModels()
    ensures forall m :: m in MODELS ==> m.provider != HuggingFace
  {
  }
}

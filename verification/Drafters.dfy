/** The drafters: prompt lookup by trailing n-gram, and a resident draft model with its own
    key/value cache and an adaptive draft length. */
module Drafters {
  import opened Arithmetic

  type Token = int

  // ---------------------------------------------------------------- prompt lookup

  /** The trailing `n` tokens occur earlier, starting at `start`. */
  predicate Occurs(tokens: seq<Token>, n: nat, start: nat) {
    1 <= n && start + n < |tokens| && tokens[start..start + n] == tokens[|tokens| - n..]
  }

  /** An occurrence of the longest context, and of those the most recent. */
  ghost predicate BestMatch(tokens: seq<Token>, maxN: nat, n: nat, start: nat) {
    && n <= maxN && Occurs(tokens, n, start)
    && (forall n': nat, s': nat :: n < n' <= maxN ==> !Occurs(tokens, n', s'))
    && (forall s': nat :: start < s' ==> !Occurs(tokens, n, s'))
  }

  lemma LastTokenOccurs(tokens: seq<Token>, n: nat, start: nat)
    requires Occurs(tokens, n, start)
    ensures Occurs(tokens, 1, start + n - 1)
  {
    assert tokens[start..start + n][n - 1] == tokens[|tokens| - n..][n - 1];
  }

  method ProposeNgram(ngramSize: int, maxDraft: int, tokens: seq<Token>)
    returns (draft: seq<Token>, ghost n: nat, ghost start: nat)
    ensures draft != [] <==> maxDraft > 0 && exists s :: Occurs(tokens, 1, s)
    ensures draft != [] ==>
              && BestMatch(tokens, if ngramSize < 1 then 1 else ngramSize, n, start)
              && |draft| <= maxDraft && start + n + |draft| <= |tokens|
              && draft == tokens[start + n..start + n + |draft|]
              && (|draft| < maxDraft ==> start + n + |draft| == |tokens|)
  {
    var size, k := if ngramSize < 1 then 1 else ngramSize, if maxDraft < 0 then 0 else maxDraft;
    draft, n, start := [], 0, 0;
    if k == 0 || |tokens| <= 1 { return; }
    var len := if size < |tokens| - 1 then size else |tokens| - 1;
    while len > 0
      invariant 0 <= len < |tokens| && len <= size
      invariant forall n': nat, s': nat :: len < n' <= size ==> !Occurs(tokens, n', s')
      invariant draft == []
    {
      var from := |tokens| - len - 1;
      while from >= 0
        invariant -1 <= from < |tokens| - len && draft == []
        invariant forall s': nat :: from < s' ==> !Occurs(tokens, len, s')
      {
        if tokens[from..from + len] == tokens[|tokens| - len..] {
          var end := if from + len + k < |tokens| then from + len + k else |tokens|;
          draft := tokens[from + len..end];
          n, start := len, from;
          LastTokenOccurs(tokens, len, from);
          return;
        }
        from := from - 1;
      }
      len := len - 1;
    }
  }

  // ---------------------------------------------------------------- adaptive draft length

  /** AIMD: full acceptance doubles, majority acceptance adds one, anything less halves. */
  function Adapted(k: nat, maxK: nat, proposed: int, accepted: int): (r: nat)
    requires 1 <= k <= maxK || k == maxK == 0
    ensures 1 <= r <= maxK || r == maxK == 0
    ensures proposed > 0 && accepted >= proposed && k < maxK ==> r > k
    ensures proposed > 0 && accepted * 2 < proposed && k > 1 ==> r < k
  {
    if proposed <= 0 || maxK == 0 then k
    else if accepted >= proposed then if k * 2 < maxK then k * 2 else maxK
    else if accepted * 2 >= proposed then if k + 1 < maxK then k + 1 else maxK
    else if k / 2 < 1 then 1 else k / 2
  }

  /** What a sweep can report of `proposed` drafted tokens. */
  datatype Outcome = Full | Majority | Poor

  predicate Reports(proposed: int, accepted: int, outcome: Outcome) {
    match outcome
    case Full => 0 < proposed <= accepted
    case Majority => 0 < proposed && accepted < proposed <= accepted * 2
    case Poor => 0 < proposed && accepted * 2 < proposed && accepted < proposed
  }

  /** The length after some sweeps of one kind. */
  function Observed(k: nat, maxK: nat, sweeps: seq<(int, int)>): (r: nat)
    requires 1 <= k <= maxK || k == maxK == 0
    ensures 1 <= r <= maxK || r == maxK == 0
  {
    if sweeps == [] then k
    else Adapted(Observed(k, maxK, sweeps[..|sweeps| - 1]), maxK, sweeps[|sweeps| - 1].0, sweeps[|sweeps| - 1].1)
  }

  function Power(n: nat): (p: nat)
    ensures p >= 1
  {
    if n == 0 then 1 else 2 * Power(n - 1)
  }

  /** What `n` sweeps of one kind make of the length: doubled each time up to the maximum, one
      more each time, or halved each time down to one. */
  function AfterRun(k: nat, maxK: nat, n: nat, outcome: Outcome): int {
    match outcome
    case Full => Min(k * Power(n), maxK)
    case Majority => Min(k + n, maxK)
    case Poor => Max(k / Power(n), 1)
  }

  lemma {:induction false} ObservedRun(k: nat, maxK: nat, sweeps: seq<(int, int)>, outcome: Outcome)
    requires 1 <= k <= maxK && forall i :: 0 <= i < |sweeps| ==> Reports(sweeps[i].0, sweeps[i].1, outcome)
    ensures Observed(k, maxK, sweeps) == AfterRun(k, maxK, |sweeps|, outcome)
  {
    if sweeps == [] {
      assert k / 1 == k && k * 1 == k;
    } else {
      hide AfterRun, Adapted, Reports;
      var n := |sweeps|;
      ObservedRun(k, maxK, sweeps[..n - 1], outcome);
      AdaptedOnce(k, maxK, n - 1, sweeps[n - 1].0, sweeps[n - 1].1, outcome);
    }
  }

  lemma AdaptedOnce(k: nat, maxK: nat, n: nat, proposed: int, accepted: int, outcome: Outcome)
    requires 1 <= k <= maxK && Reports(proposed, accepted, outcome) && 1 <= AfterRun(k, maxK, n, outcome) <= maxK
    ensures Adapted(AfterRun(k, maxK, n, outcome), maxK, proposed, accepted) == AfterRun(k, maxK, n + 1, outcome)
  {
    var p := Power(n);
    assert Power(n + 1) == 2 * p;
    match outcome {
      case Full => DoubleOnce(k, p);
      case Majority =>
      case Poor => HalfAgain(k, p); AtLeastTwice(k, p);
    }
  }

  lemma DoubleOnce(k: nat, p: nat)
    ensures k * (2 * p) == 2 * (k * p)
  {}

  lemma HalfAgain(k: nat, p: nat)
    requires p >= 1
    ensures k / (2 * p) == k / p / 2
  {
    QuotientBounds(k, p);
    HalfBetween(k, p, k / p, k / p / 2);
    QuotientIs(k, 2 * p, k / p / 2);
  }

  lemma AtLeastTwice(k: nat, p: nat)
    requires p >= 1
    ensures k >= 2 * p <==> k / p >= 2
  {
    var q := k / p;
    QuotientBounds(k, p);
    if q >= 2 { Scaled(2, q, p); } else { Scaled(q, 1, p); }
  }

  lemma QuotientBounds(k: nat, d: nat)
    requires d >= 1
    ensures k / d * d <= k < k / d * d + d
  {}

  lemma HalfBetween(k: nat, p: nat, q: nat, h: nat)
    requires q * p <= k < q * p + p && 2 * h <= q < 2 * h + 2
    ensures h * (2 * p) <= k < h * (2 * p) + 2 * p
  {
    var odd := q - 2 * h;
    assert q * p == h * (2 * p) + odd * p;
  }

  lemma QuotientIs(k: nat, d: nat, h: nat)
    requires d >= 1 && h * d <= k < h * d + d
    ensures k / d == h
  {
    var q := k / d;
    assert q * d <= k < q * d + d;
    if q < h { Scaled(q + 1, h, d); }
    if q > h { Scaled(h + 1, q, d); }
  }

  // ---------------------------------------------------------------- the draft model

  /** A causal model: a token's cache row depends on the rows before it, and the next token
      on all rows so far. */
  datatype Model<!R> = Model(row: (seq<R>, Token) -> R, argmax: seq<R> -> Token)

  /** One forward pass: the cache extended by the rows of `ids`. */
  function Forward<R>(m: Model<R>, cache: seq<R>, ids: seq<Token>): (r: seq<R>)
    ensures |r| == |cache| + |ids| && cache <= r
  {
    if ids == [] then cache
    else
      var before := Forward(m, cache, ids[..|ids| - 1]);
      before + [m.row(before, ids[|ids| - 1])]
  }

  /** Greedy drafting from scratch, without any cache. */
  function DraftFrom<R>(m: Model<R>, tokens: seq<Token>, k: nat): (r: seq<Token>)
    ensures |r| == k
  {
    if k == 0 then []
    else
      var shorter := DraftFrom(m, tokens, k - 1);
      shorter + [m.argmax(Forward(m, [], tokens + shorter))]
  }

  lemma {:induction false} ForwardSplit<R>(m: Model<R>, cache: seq<R>, a: seq<Token>, b: seq<Token>)
    ensures Forward(m, cache, a + b) == Forward(m, Forward(m, cache, a), b)
  {
    if b == [] {
      assert a + b == a;
    } else {
      ForwardSplit(m, cache, a, b[..|b| - 1]);
      assert (a + b)[..|a + b| - 1] == a + b[..|b| - 1];
    }
  }

  /** Cropping a cache to a prefix leaves the cache of that prefix. */
  lemma CropIsPrefix<R>(m: Model<R>, ids: seq<Token>, prefix: nat)
    requires prefix <= |ids|
    ensures Forward(m, [], ids)[..prefix] == Forward(m, [], ids[..prefix])
  {
    ForwardSplit(m, [], ids[..prefix], ids[prefix..]);
    assert ids[..prefix] + ids[prefix..] == ids;
  }

  lemma {:induction false} DraftPrefix<R>(m: Model<R>, tokens: seq<Token>, k: nat, j: nat)
    requires j <= k
    ensures DraftFrom(m, tokens, k)[..j] == DraftFrom(m, tokens, j)
  {
    if j < k { DraftPrefix(m, tokens, k - 1, j); }
  }

  /** The length of the longest common prefix. */
  function SharedPrefix(a: seq<Token>, b: seq<Token>): (n: nat)
    ensures n <= |a| && n <= |b| && a[..n] == b[..n]
    ensures n < |a| && n < |b| ==> a[n] != b[n]
  {
    if a == [] || b == [] || a[0] != b[0] then 0
    else
      var n := SharedPrefix(a[1..], b[1..]);
      assert a[..n + 1] == [a[0]] + a[1..][..n] && b[..n + 1] == [b[0]] + b[1..][..n];
      n + 1
  }

  lemma {:induction false} SharedIs(a: seq<Token>, b: seq<Token>, n: nat)
    requires n <= |a| && n <= |b| && (forall i :: 0 <= i < n ==> a[i] == b[i]) && (n < |a| && n < |b| ==> a[n] != b[n])
    ensures SharedPrefix(a, b) == n
  {
    if n > 0 { SharedIs(a[1..], b[1..], n - 1); }
  }

  class DraftModelDrafter<R> {
    const model: Model<R>
    const maxK: nat
    var k: nat
    /** The model's cache; an absent cache is an empty one. */
    var cache: seq<R>
    /** The tokens the cache covers, in order. */
    var cachedIds: seq<Token>

    ghost predicate Valid()
      reads this
    {
      cache == Forward(model, [], cachedIds) && (1 <= k <= maxK || k == maxK == 0)
    }

    constructor (model: Model<R>, maxDraft: int)
      ensures Valid() && this.model == model && k == maxK == if maxDraft < 0 then 0 else maxDraft
    {
      this.model := model;
      maxK := if maxDraft < 0 then 0 else maxDraft;
      k := if maxDraft < 0 then 0 else maxDraft;
      cache, cachedIds := [], [];
    }

    method Observe(proposed: int, accepted: int)
      requires Valid()
      modifies `k
      ensures Valid() && k == Adapted(old(k), maxK, proposed, accepted)
    {
      if proposed <= 0 || maxK == 0 { return; }
      if accepted >= proposed {
        k := if k * 2 < maxK then k * 2 else maxK;
      } else if accepted * 2 >= proposed {
        k := if k + 1 < maxK then k + 1 else maxK;
      } else {
        k := if k / 2 < 1 then 1 else k / 2;
      }
    }

    /** Crop to the longest common prefix with `tokens`, short of its last token; a crop that
        raises drops the cache. */
    method SyncCache(tokens: seq<Token>, cropRaises: bool)
      requires Valid() && tokens != []
      modifies `cache, `cachedIds
      ensures Valid() && |cachedIds| < |tokens| && cachedIds <= tokens
      ensures var shared := SharedPrefix(old(cachedIds), tokens[..|tokens| - 1]);
        cachedIds == if cropRaises && 0 < shared < |old(cachedIds)| then [] else old(cachedIds)[..shared]
    {
      var limit := if |cachedIds| < |tokens| - 1 then |cachedIds| else |tokens| - 1;
      var prefix := 0;
      while prefix < limit && cachedIds[prefix] == tokens[prefix]
        invariant 0 <= prefix <= limit && cachedIds[..prefix] == tokens[..prefix]
      {
        prefix := prefix + 1;
      }
      SharedIs(cachedIds, tokens[..|tokens| - 1], prefix);
      assert cachedIds[..|cachedIds|] == cachedIds;
      if prefix == |cachedIds| { return; }
      if prefix == 0 || cropRaises {
        cache, cachedIds := [], [];
        return;
      }
      CropIsPrefix(model, cachedIds, prefix);
      cache := cache[..prefix];
      cachedIds := cachedIds[..prefix];
    }

    /** Whatever was proposed and rejected before, the draft is the one made from scratch. */
    method Propose(tokens: seq<Token>, cropRaises: bool) returns (drafted: seq<Token>)
      requires Valid()
      modifies `cache, `cachedIds
      ensures Valid()
      ensures drafted == if tokens == [] then [] else DraftFrom(model, tokens, k)
      ensures drafted != [] ==> cachedIds == tokens + drafted[..|drafted| - 1]
    {
      hide SharedPrefix, Forward;
      drafted := [];
      if k == 0 || tokens == [] { return; }
      SyncCache(tokens, cropRaises);
      var input := tokens[|cachedIds|..];
      ghost var covered := cachedIds;
      for i := 0 to k
        invariant drafted == DraftFrom(model, tokens, i) && cache == Forward(model, [], covered)
        invariant covered + input == tokens + drafted && (i > 0 ==> covered == tokens + drafted[..i - 1])
      {
        ForwardSplit(model, [], covered, input);
        cache := Forward(model, cache, input);
        var next := model.argmax(cache);
        covered := tokens + drafted;
        drafted := drafted + [next];
        input := [next];
      }
      cachedIds := tokens + drafted[..|drafted| - 1];
    }
  }
}

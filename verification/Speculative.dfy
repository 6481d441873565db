/** Lossless speculative decoding: the greedy verifier, the n-gram drafter, and the decode
    loop that drafts, sweeps, verifies and rolls back. */
module Speculative {
  import opened HybridModel
  import opened HybridRollback

  type Token = int

  datatype Result<T> = Ok(value: T) | ValueError

  // ---------------------------------------------------------------- verify_greedy

  /** How many leading draft tokens the target agrees with. */
  function Agreed(draft: seq<Token>, picks: seq<Token>): (n: nat)
    requires |picks| >= |draft|
    ensures n <= |draft| && draft[..n] == picks[..n]
    ensures n < |draft| ==> draft[n] != picks[n]
  {
    if draft == [] || draft[0] != picks[0] then 0
    else
      var n := Agreed(draft[1..], picks[1..]);
      assert draft[..n + 1] == [draft[0]] + draft[1..][..n] && picks[..n + 1] == [picks[0]] + picks[1..][..n];
      n + 1
  }

  /** The accepted draft prefix followed by exactly one target token. */
  method VerifyGreedy(draft: seq<Token>, picks: seq<Token>) returns (r: Result<(seq<Token>, nat)>)
    ensures |picks| != |draft| + 1 <==> r.ValueError?
    ensures r.Ok? ==>
      var (tokens, accepted) := r.value;
      && accepted <= |draft| && tokens == draft[..accepted] + [picks[accepted]] == picks[..accepted + 1]
      && (accepted < |draft| ==> draft[accepted] != picks[accepted])
  {
    if |picks| != |draft| + 1 { return ValueError; }
    var tokens: seq<Token> := [];
    for i := 0 to |draft|
      invariant tokens == draft[..i] == picks[..i]
    {
      if picks[i] != draft[i] {
        return Ok((tokens + [picks[i]], i));
      }
      tokens := tokens + [draft[i]];
    }
    r := Ok((tokens + [picks[|draft|]], |draft|));
  }

  // ---------------------------------------------------------------- greedy decoding

  /** A target model: `embed` places a token at a position, `pick` is the greedy choice
      from the last hidden state and the tokens so far (which a repetition penalty may read). */
  datatype Target<!H, !X, !S> = Target(
    net: seq<Layer<H, X, S>>, empty: seq<State<X, S>>, embed: (nat, Token) -> H, pick: (H, seq<Token>) -> Token)

  ghost predicate WellFormed<H, X, S>(m: Target<H, X, S>) { AllFit(m.net, m.empty) }

  function Embedded<H, X, S>(m: Target<H, X, S>, tokens: seq<Token>, offset: nat): seq<H> {
    seq(|tokens|, i requires 0 <= i < |tokens| => m.embed(offset + i, tokens[i]))
  }

  lemma EmbeddedSplit<H, X, S>(m: Target<H, X, S>, a: seq<Token>, b: seq<Token>, offset: nat)
    ensures Embedded(m, a + b, offset) == Embedded(m, a, offset) + Embedded(m, b, offset + |a|)
  {}

  /** The caches after feeding exactly `tokens` from the start. */
  function StateAfter<H, X, S>(m: Target<H, X, S>, tokens: seq<Token>): (r: seq<State<X, S>>)
    requires WellFormed(m)
    ensures AllFit(m.net, r)
  {
    Sweep(m.net, m.empty, Embedded(m, tokens, 0)).0
  }

  /** The greedy choice after `tokens`, computed without any cache. */
  function Pick<H, X, S>(m: Target<H, X, S>, tokens: seq<Token>): Token
    requires WellFormed(m) && tokens != []
  {
    m.pick(Sweep(m.net, m.empty, Embedded(m, tokens, 0)).1[|tokens| - 1], tokens)
  }

  /** Plain greedy decoding: at most `steps` more tokens, stopping after the end token. */
  function Greedy<H, X, S>(m: Target<H, X, S>, tokens: seq<Token>, steps: nat, eos: seq<Token>): (r: seq<Token>)
    requires WellFormed(m) && tokens != []
    ensures tokens <= r
    decreases steps
  {
    if steps == 0 then tokens
    else
      var next := Pick(m, tokens);
      if next in eos then tokens + [next] else Greedy(m, tokens + [next], steps - 1, eos)
  }

  /** Feeding `fed` after `before` from the cache leaves the caches of feeding everything. */
  lemma FeedFromCache<H, X, S>(m: Target<H, X, S>, before: seq<Token>, fed: seq<Token>)
    requires WellFormed(m)
    ensures Sweep(m.net, StateAfter(m, before), Embedded(m, fed, |before|)).0 == StateAfter(m, before + fed)
  {
    EmbeddedSplit(m, before, fed, 0);
    SweepSplit(m.net, m.empty, Embedded(m, before, 0), Embedded(m, fed, |before|));
  }

  /** The hidden state of a fed position is the one computed from everything before it. */
  lemma HiddenFromCache<H, X, S>(m: Target<H, X, S>, before: seq<Token>, fed: seq<Token>, i: nat)
    requires WellFormed(m) && i < |fed|
    ensures Sweep(m.net, StateAfter(m, before), Embedded(m, fed, |before|)).1[i]
            == Sweep(m.net, m.empty, Embedded(m, before + fed[..i + 1], 0)).1[|before| + i]
  {
    hide Sweep;
    var all := Embedded(m, before + fed, 0);
    EmbeddedSplit(m, before, fed, 0);
    SweepSplit(m.net, m.empty, Embedded(m, before, 0), Embedded(m, fed, |before|));
    SweepPrefix(m.net, m.empty, all, |before| + i + 1);
    assert Embedded(m, before + fed[..i + 1], 0) == all[..|before| + i + 1];
  }

  /** The picks a verification sweep makes: position `i` sees the tokens and `draft[..i]`. */
  function TargetPicks<H, X, S>(m: Target<H, X, S>, tokens: seq<Token>, draft: seq<Token>): (picks: seq<Token>)
    requires WellFormed(m) && tokens != []
    ensures |picks| == |draft| + 1
  {
    seq(|draft| + 1, i requires 0 <= i <= |draft| => Pick(m, tokens + draft[..i]))
  }

  /** Each of `more` is the greedy choice after everything before it. */
  ghost predicate GreedyChain<H, X, S>(m: Target<H, X, S>, tokens: seq<Token>, more: seq<Token>)
    requires WellFormed(m) && tokens != []
  {
    forall j :: 0 <= j < |more| ==> more[j] == Pick(m, tokens + more[..j])
  }

  /** Whatever the draft, the verified tokens are a greedy chain. */
  lemma VerifiedAreGreedy<H, X, S>(m: Target<H, X, S>, tokens: seq<Token>, draft: seq<Token>, accepted: nat,
                                   more: seq<Token>)
    requires WellFormed(m) && tokens != [] && accepted <= |draft|
    requires more == draft[..accepted] + [TargetPicks(m, tokens, draft)[accepted]]
    requires more == TargetPicks(m, tokens, draft)[..accepted + 1]
    ensures GreedyChain(m, tokens, more)
  {
    forall j | 0 <= j < |more| ensures more[j] == Pick(m, tokens + more[..j]) {
      assert more[..j] == draft[..j];
    }
  }

  /** What follows the first `n` tokens of a greedy chain is a greedy chain. */
  lemma ChainAfter<H, X, S>(m: Target<H, X, S>, tokens: seq<Token>, more: seq<Token>, n: nat)
    requires WellFormed(m) && tokens != [] && GreedyChain(m, tokens, more) && n <= |more|
    ensures GreedyChain(m, tokens + more[..n], more[n..])
  {
    hide Pick;
    forall j | 0 <= j < |more[n..]| ensures more[n..][j] == Pick(m, tokens + more[..n] + more[n..][..j]) {
      assert tokens + more[..n] + more[n..][..j] == tokens + more[..n + j];
      assert more[n + j] == Pick(m, tokens + more[..n + j]);
    }
  }

  lemma EndsInside<H, X, S>(m: Target<H, X, S>, tokens: seq<Token>, more: seq<Token>, end: nat)
    requires WellFormed(m) && tokens != [] && GreedyChain(m, tokens, more) && end < |more|
    ensures var kept := tokens + more[..end + 1];
      && kept <= tokens + more && kept[|kept| - 1] == more[end] && GreedyChain(m, kept, (tokens + more)[|kept|..])
  {
    hide GreedyChain, WellFormed;
    ChainAfter(m, tokens, more, end + 1);
    assert (tokens + more)[|tokens + more[..end + 1]|..] == more[end + 1..];
  }

  lemma ChainTail<H, X, S>(m: Target<H, X, S>, tokens: seq<Token>, more: seq<Token>)
    requires WellFormed(m) && tokens != [] && GreedyChain(m, tokens, more) && more != []
    ensures more[0] == Pick(m, tokens) && GreedyChain(m, tokens + [more[0]], more[1..])
  {
    hide Pick;
    assert tokens + more[..0] == tokens;
    forall j | 0 <= j < |more[1..]| ensures more[1..][j] == Pick(m, tokens + [more[0]] + more[1..][..j]) {
      assert tokens + [more[0]] + more[1..][..j] == tokens + more[..j + 1];
      assert more[j + 1] == Pick(m, tokens + more[..j + 1]);
    }
  }

  lemma Regroup(tokens: seq<Token>, more: seq<Token>, n: nat)
    requires more != [] && n < |more|
    ensures tokens + [more[0]] + more[1..] == tokens + more
    ensures tokens + [more[0]] + more[1..][..n] == tokens + more[..n + 1]
  {}

  lemma GreedyStep<H, X, S>(m: Target<H, X, S>, tokens: seq<Token>, steps: nat, eos: seq<Token>)
    requires WellFormed(m) && tokens != [] && steps > 0
    ensures var next := Pick(m, tokens);
      Greedy(m, tokens, steps, eos) ==
        if next in eos then tokens + [next] else Greedy(m, tokens + [next], steps - 1, eos)
  {
    hide Pick, WellFormed;
  }

  lemma FirstOfNone(eos: seq<Token>)
    ensures FirstOf([], eos) == 0
  {}

  lemma FirstOfTail(more: seq<Token>, eos: seq<Token>)
    requires more != []
    ensures FirstOf(more, eos) == if more[0] in eos then 0 else 1 + FirstOf(more[1..], eos)
  {}

  lemma GreedyNone<H, X, S>(m: Target<H, X, S>, tokens: seq<Token>, eos: seq<Token>)
    requires WellFormed(m) && tokens != []
    ensures Greedy(m, tokens, 0, eos) == tokens
  {}

  /** Plain greedy decoding goes where `more` goes, up to its first end token. */
  ghost predicate Leads<H, X, S>(m: Target<H, X, S>, tokens: seq<Token>, more: seq<Token>, steps: nat, eos: seq<Token>)
    requires WellFormed(m) && tokens != [] && |more| <= steps
  {
    var end := FirstOf(more, eos);
    Greedy(m, tokens, steps, eos)
    == if end < |more| then tokens + more[..end + 1] else Greedy(m, tokens + more, steps - |more|, eos)
  }

  lemma LeadsNowhere<H, X, S>(m: Target<H, X, S>, tokens: seq<Token>, steps: nat, eos: seq<Token>)
    requires WellFormed(m) && tokens != []
    ensures Leads(m, tokens, [], steps, eos)
  {
    hide Pick, WellFormed, Greedy, FirstOf;
    FirstOfNone(eos);
    assert tokens + [] == tokens;
  }

  lemma LeadsToEnd<H, X, S>(m: Target<H, X, S>, tokens: seq<Token>, more: seq<Token>, steps: nat, eos: seq<Token>)
    requires WellFormed(m) && tokens != [] && 0 < |more| <= steps && more[0] == Pick(m, tokens) && more[0] in eos
    ensures Leads(m, tokens, more, steps, eos)
  {
    hide Pick, WellFormed, Greedy, FirstOf;
    GreedyStep(m, tokens, steps, eos);
    FirstOfTail(more, eos);
    assert more[..1] == [more[0]];
  }

  /** The first of the chain is no end token: what holds from it on holds from before it. */
  lemma LeadsOn<H, X, S>(m: Target<H, X, S>, tokens: seq<Token>, more: seq<Token>, steps: nat, eos: seq<Token>)
    requires WellFormed(m) && tokens != [] && 0 < |more| <= steps && more[0] == Pick(m, tokens) && more[0] !in eos
    requires Leads(m, tokens + [more[0]], more[1..], steps - 1, eos)
    ensures Leads(m, tokens, more, steps, eos)
  {
    hide Pick, WellFormed, Greedy, FirstOf;
    GreedyStep(m, tokens, steps, eos);
    FirstOfTail(more, eos);
    Regroup(tokens, more, 0);
    var end := 1 + FirstOf(more[1..], eos);
    if end < |more| { Regroup(tokens, more, end); }
  }

  /** A greedy chain is where plain greedy decoding goes, up to the first end token. */
  lemma ChainIsGreedy<H, X, S>(m: Target<H, X, S>, tokens: seq<Token>, more: seq<Token>, steps: nat, eos: seq<Token>)
    requires WellFormed(m) && tokens != [] && GreedyChain(m, tokens, more) && |more| <= steps
    ensures var end := FirstOf(more, eos);
      Greedy(m, tokens, steps, eos)
      == if end < |more| then tokens + more[..end + 1] else Greedy(m, tokens + more, steps - |more|, eos)
  {
    hide GreedyChain, WellFormed, Greedy, FirstOf;
    ChainLeads(m, tokens, more, steps, eos);
  }

  lemma {:induction false} ChainLeads<H, X, S>(m: Target<H, X, S>, tokens: seq<Token>, more: seq<Token>, steps: nat,
                                               eos: seq<Token>)
    requires WellFormed(m) && tokens != [] && GreedyChain(m, tokens, more) && |more| <= steps
    ensures Leads(m, tokens, more, steps, eos)
    decreases |more|
  {
    hide Pick, GreedyChain, WellFormed, Leads;
    if more == [] {
      LeadsNowhere(m, tokens, steps, eos);
    } else {
      ChainTail(m, tokens, more);
      if more[0] in eos {
        LeadsToEnd(m, tokens, more, steps, eos);
      } else {
        ChainLeads(m, tokens + [more[0]], more[1..], steps - 1, eos);
        LeadsOn(m, tokens, more, steps, eos);
      }
    }
  }

  /** The first position holding one of `marks`, or the length. */
  function FirstOf(tokens: seq<Token>, marks: seq<Token>): (n: nat)
    ensures n <= |tokens|
    ensures n < |tokens| ==> tokens[n] in marks
    ensures forall i :: 0 <= i < n ==> tokens[i] !in marks
  {
    if tokens == [] || tokens[0] in marks then 0 else 1 + FirstOf(tokens[1..], marks)
  }

  // ---------------------------------------------------------------- the decode loops

  /** The caches hold every token except the last one. */
  ghost predicate CacheIsBehind<H, X, S>(m: Target<H, X, S>, cache: seq<LayerCache<X, S>>, tokens: seq<Token>)
    requires WellFormed(m) && tokens != []
    reads Footprint(cache)
  {
    Holds(cache, StateAfter(m, tokens[..|tokens| - 1]))
  }

  /** The hidden state of a fed position picks what greedy decoding would pick there. */
  lemma HiddenPicks<H, X, S>(m: Target<H, X, S>, tokens: seq<Token>, draft: seq<Token>, i: nat)
    requires WellFormed(m) && tokens != [] && i <= |draft|
    ensures var n := |tokens| - 1;
      m.pick(Sweep(m.net, StateAfter(m, tokens[..n]), Embedded(m, [tokens[n]] + draft, n)).1[i], tokens + draft[..i])
      == TargetPicks(m, tokens, draft)[i]
  {
    var n := |tokens| - 1;
    var fed := [tokens[n]] + draft;
    HiddenFromCache(m, tokens[..n], fed, i);
    assert tokens[..n] + fed[..i + 1] == tokens + draft[..i];
  }

  /** The caches after the kept tokens are those of everything confirmed but the newest token. */
  lemma KeptIsBehind<H, X, S>(m: Target<H, X, S>, tokens: seq<Token>, draft: seq<Token>, accepted: nat,
                              more: seq<Token>)
    requires WellFormed(m) && tokens != [] && accepted <= |draft| && |more| == accepted + 1
    requires more[..accepted] == draft[..accepted]
    ensures var n := |tokens| - 1;
      Sweep(m.net, StateAfter(m, tokens[..n]), Embedded(m, [tokens[n]] + draft, n)[..accepted + 1]).0
      == StateAfter(m, (tokens + more)[..n + 1 + accepted])
  {
    var n := |tokens| - 1;
    var kept := [tokens[n]] + draft[..accepted];
    FeedFromCache(m, tokens[..n], kept);
    assert Embedded(m, [tokens[n]] + draft, n)[..accepted + 1] == Embedded(m, kept, n);
    assert tokens[..n] + kept == (tokens + more)[..n + 1 + accepted];
  }

  /** The greedy pick at each verified position, each seeing the optimistic drafted prefix. */
  method PickAll<H, X, S>(m: Target<H, X, S>, tokens: seq<Token>, draft: seq<Token>, hidden: seq<H>)
    returns (picks: seq<Token>)
    requires WellFormed(m) && tokens != []
    requires var n := |tokens| - 1;
      hidden == Sweep(m.net, StateAfter(m, tokens[..n]), Embedded(m, [tokens[n]] + draft, n)).1
    ensures picks == TargetPicks(m, tokens, draft)
  {
    hide Sweep, StateAfter;
    picks := [];
    for i := 0 to |draft| + 1
      invariant picks == TargetPicks(m, tokens, draft)[..i]
    {
      HiddenPicks(m, tokens, draft, i);
      picks := picks + [m.pick(hidden[i], tokens + draft[..i])];
    }
  }

  /** One speculative step: feed the last token and the draft, verify, rewind to the kept prefix. */
  method VerifyStep<H, X, S>(m: Target<H, X, S>, cache: seq<LayerCache<X, S>>, tokens: seq<Token>, draft: seq<Token>)
    returns (more: seq<Token>, accepted: nat)
    requires WellFormed(m) && tokens != [] && Separate(cache) && CacheIsBehind(m, cache, tokens)
    modifies Footprint(cache)
    ensures accepted <= |draft| && |more| == accepted + 1 && GreedyChain(m, tokens, more)
    ensures CacheIsBehind(m, cache, tokens + more)
  {
    hide Greedy, Separate, Sweep, StateAfter, Calls, TargetPicks, Pick, GreedyChain, Holds;
    var n := |tokens| - 1;
    var fed := [tokens[n]] + draft;
    ghost var sts, hs := StateAfter(m, tokens[..n]), Embedded(m, fed, n);
    var hidden, record := VerifySweep(m.net, cache, Embedded(m, fed, n), sts);
    var picks := PickAll(m, tokens, draft, hidden);
    var verified := VerifyGreedy(draft, picks);
    more, accepted := verified.value.0, verified.value.1;
    VerifiedAreGreedy(m, tokens, draft, accepted, more);
    CallsCount(m.net, sts, hs);
    KeptIsBehind(m, tokens, draft, accepted, more);
    assert accepted + 1 == |fed| ==> hs[..accepted + 1] == hs;
    assert (tokens + more)[..|tokens + more| - 1] == (tokens + more)[..n + 1 + accepted];
    var outcome := Rollback(m.net, cache, record, accepted + 1, |fed|, sts, hs);
  }

  /** The one-token-per-sweep loop. */
  method PlainDecode<H, X, S>(m: Target<H, X, S>, cache: seq<LayerCache<X, S>>, start: seq<Token>, maxNew: int,
                              eos: seq<Token>)
    returns (tokens: seq<Token>)
    requires WellFormed(m) && start != [] && Separate(cache) && CacheIsBehind(m, cache, start)
    modifies Footprint(cache)
    ensures tokens == Greedy(m, start, if maxNew < 1 then 0 else maxNew - 1, eos)
    ensures CacheIsBehind(m, cache, tokens)
  {
    hide Pick, Separate, StateAfter;
    tokens := start;
    var steps := if maxNew < 1 then 0 else maxNew - 1;
    for i := 0 to steps
      invariant tokens != [] && CacheIsBehind(m, cache, tokens)
      invariant Greedy(m, start, steps, eos) == Greedy(m, tokens, steps - i, eos)
    {
      var next, _ := VerifyStep(m, cache, tokens, []);
      assert tokens + next[..0] == tokens && next == [next[0]];
      tokens := tokens + next;
      if next[0] in eos { return; }
    }
  }

  /** The speculative loop, for every drafter: each draft is an arbitrary token list.
      On entry one token has been generated after the prompt. At the end the caches hold all of
      `covered` but its last token: that is the tokens themselves, followed after an end token
      by whatever else its sweep confirmed. */
  method SpeculativeDecode<H, X, S>(m: Target<H, X, S>, cache: seq<LayerCache<X, S>>, start: seq<Token>, maxNew: int,
                                    eos: seq<Token>)
    returns (tokens: seq<Token>, sweeps: nat, ghost covered: seq<Token>)
    requires WellFormed(m) && start != [] && Separate(cache) && CacheIsBehind(m, cache, start)
    modifies Footprint(cache)
    ensures tokens == Greedy(m, start, if maxNew < 1 then 0 else maxNew - 1, eos)
    ensures sweeps <= |tokens| - |start|
    ensures tokens != [] && tokens <= covered && CacheIsBehind(m, cache, covered)
    ensures covered == tokens || (tokens[|tokens| - 1] in eos && GreedyChain(m, tokens, covered[|tokens|..]))
  {
    hide Pick, Separate, StateAfter, GreedyChain, Greedy, Holds;
    tokens, sweeps := start, 0;
    var promptLen := |start| - 1;
    ghost var steps := if maxNew < 1 then 0 else maxNew - 1;
    while |tokens| - promptLen < maxNew
      invariant tokens != [] && |start| <= |tokens| && CacheIsBehind(m, cache, tokens)
      invariant |tokens| - |start| <= steps && sweeps <= |tokens| - |start|
      invariant Greedy(m, start, steps, eos) == Greedy(m, tokens, steps - (|tokens| - |start|), eos)
    {
      var remaining := maxNew - (|tokens| - promptLen);
      var proposed: seq<Token> := *;
      var draft := proposed[..if |proposed| < remaining - 1 then |proposed| else remaining - 1];
      var more, _ := VerifyStep(m, cache, tokens, draft);
      sweeps := sweeps + 1;
      ChainIsGreedy(m, tokens, more, steps - (|tokens| - |start|), eos);
      var end := FirstOf(more, eos);
      if end < |more| {
        covered := tokens + more;
        EndsInside(m, tokens, more, end);
        tokens := tokens + more[..end + 1];
        return;
      }
      tokens := tokens + more;
    }
    GreedyNone(m, tokens, eos);
    covered := tokens;
  }
}

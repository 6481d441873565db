/** Decoding a left-padded batch in lockstep against decoding each prompt alone.

    The greedy choice is a function `pick` of a row's attended tokens: the caches, the
    positions and the padding do not show in it. */
module BatchDecode {
  import opened Common

  type Token = int

  // ---------------------------------------------------------------- one prompt alone

  /** The tokens generated for one sequence: at most `steps`, the end token last. */
  function Alone(pick: seq<Token> -> Token, tokens: seq<Token>, steps: nat, eos: Option<Token>): (tail: seq<Token>)
    ensures |tail| <= steps
    decreases steps
  {
    if steps == 0 then []
    else
      var next := pick(tokens);
      if Some(next) == eos then [next] else [next] + Alone(pick, tokens + [next], steps - 1, eos)
  }

  lemma AloneStep(pick: seq<Token> -> Token, ids: seq<Token>, steps: nat, eos: Option<Token>)
    requires steps > 0
    ensures var next := pick(ids);
      ids + Alone(pick, ids, steps, eos)
      == ids + [next] + if Some(next) == eos then [] else Alone(pick, ids + [next], steps - 1, eos)
  {}

  /** The single-sequence loop. */
  method GenerateAlone(pick: seq<Token> -> Token, prompt: seq<Token>, maxNew: int, eos: Option<Token>)
    returns (generated: seq<Token>)
    ensures generated == prompt + Alone(pick, prompt, NonNegative(maxNew), eos)
  {
    generated := prompt;
    var steps := NonNegative(maxNew);
    for i := 0 to steps
      invariant generated + Alone(pick, generated, steps - i, eos) == prompt + Alone(pick, prompt, steps, eos)
    {
      var next := pick(generated);
      AloneStep(pick, generated, steps - i, eos);
      generated := generated + [next];
      if Some(next) == eos { break; }
    }
  }

  function NonNegative(n: int): nat { if n < 0 then 0 else n }

  // ---------------------------------------------------------------- one row of the batch

  datatype Row = Row(ids: seq<Token>, mask: seq<bool>, finished: bool)

  /** The tokens attention sees. */
  function Attended(ids: seq<Token>, mask: seq<bool>): seq<Token>
    requires |ids| == |mask|
  {
    if ids == [] then []
    else Attended(ids[..|ids| - 1], mask[..|mask| - 1]) + (if mask[|mask| - 1] then [ids[|ids| - 1]] else [])
  }

  lemma AttendedOneMore(ids: seq<Token>, mask: seq<bool>, next: Token)
    requires |ids| == |mask|
    ensures Attended(ids + [next], mask + [true]) == Attended(ids, mask) + [next]
  {
    assert (ids + [next])[..|ids|] == ids && (mask + [true])[..|mask|] == mask;
  }

  function LeftPadded(prompt: seq<Token>, width: nat, pad: Token): (r: Row)
    requires |prompt| <= width
    ensures |r.ids| == |r.mask| == width
  {
    var gap := width - |prompt|;
    Row(seq(gap, i => pad) + prompt, seq(gap, i => false) + seq(|prompt|, i => true), false)
  }

  lemma {:induction false} AttendedSplit(ids: seq<Token>, mask: seq<bool>, more: seq<Token>, rest: seq<bool>)
    requires |ids| == |mask| && |more| == |rest|
    ensures Attended(ids + more, mask + rest) == Attended(ids, mask) + Attended(more, rest)
  {
    if more == [] {
      assert ids + more == ids && mask + rest == mask;
    } else {
      var n := |more| - 1;
      AttendedSplit(ids, mask, more[..n], rest[..n]);
      assert (ids + more)[..|ids| + n] == ids + more[..n] && (mask + rest)[..|ids| + n] == mask + rest[..n];
    }
  }

  /** Masked tokens are not seen, unmasked ones are. */
  lemma {:induction false} AttendedAlike(ids: seq<Token>, mask: seq<bool>, seen: bool)
    requires |ids| == |mask| && forall i :: 0 <= i < |mask| ==> mask[i] == seen
    ensures Attended(ids, mask) == if seen then ids else []
  {
    if ids != [] {
      AttendedAlike(ids[..|ids| - 1], mask[..|mask| - 1], seen);
      assert ids == ids[..|ids| - 1] + [ids[|ids| - 1]];
    }
  }

  lemma PaddingUnseen(prompt: seq<Token>, width: nat, pad: Token)
    requires |prompt| <= width
    ensures var r := LeftPadded(prompt, width, pad); Attended(r.ids, r.mask) == prompt
  {
    hide Attended;
    var gap := width - |prompt|;
    AttendedAlike(seq(gap, i => pad), seq(gap, i => false), false);
    AttendedAlike(prompt, seq(|prompt|, i => true), true);
    AttendedSplit(seq(gap, i => pad), seq(gap, i => false), prompt, seq(|prompt|, i => true));
  }

  /** Everything up to the first end token. */
  function UpToEnd(tail: seq<Token>, eos: Option<Token>): seq<Token> {
    if tail == [] then []
    else if Some(tail[0]) == eos then [tail[0]]
    else [tail[0]] + UpToEnd(tail[1..], eos)
  }

  lemma {:induction false} UpToEndOneMore(tail: seq<Token>, eos: Option<Token>, next: Token)
    ensures UpToEnd(tail + [next], eos) ==
      if eos.Some? && eos.value in tail then UpToEnd(tail, eos) else tail + [next]
  {
    if tail == [] {
      assert tail + [next] == [next];
    } else {
      assert (tail + [next])[1..] == tail[1..] + [next];
      UpToEndOneMore(tail[1..], eos, next);
      assert tail == [tail[0]] + tail[1..];
    }
  }

  lemma {:induction false} NoEnd(tail: seq<Token>, eos: Option<Token>)
    requires eos.None? || eos.value !in tail
    ensures UpToEnd(tail, eos) == tail
  {
    if tail != [] { NoEnd(tail[1..], eos); }
  }

  datatype Task = Task(pick: seq<Token> -> Token, prompt: seq<Token>, width: nat, steps: nat, eos: Option<Token>)

  /** After `done` tokens: an unfinished row is on its way along the single-sequence run; a
      finished one holds that whole run up to its end token, then padding. */
  ghost predicate OnTrack(t: Task, r: Row, done: nat) {
    && |r.ids| == |r.mask| == t.width + done && done <= t.steps
    && var tail := r.ids[t.width..];
    && (r.finished <==> t.eos.Some? && t.eos.value in tail)
    && (r.finished ==> UpToEnd(tail, t.eos) == Alone(t.pick, t.prompt, t.steps, t.eos))
    && (!r.finished ==>
          && Attended(r.ids, r.mask) == t.prompt + tail
          && tail + Alone(t.pick, t.prompt + tail, t.steps - done, t.eos) == Alone(t.pick, t.prompt, t.steps, t.eos))
  }

  /** One lockstep column for one row. */
  function Column(t: Task, r: Row, pad: Token): Row
    requires |r.ids| == |r.mask|
  {
    var next := if r.finished then pad else t.pick(Attended(r.ids, r.mask));
    Row(r.ids + [next], r.mask + [true], r.finished || Some(next) == t.eos)
  }

  /** A frozen row: the pad, even when it is the end token, changes nothing up to the end. */
  lemma FrozenKeeps(t: Task, r: Row, done: nat, pad: Token)
    requires OnTrack(t, r, done) && done < t.steps && r.finished
    ensures OnTrack(t, Column(t, r, pad), done + 1)
  {
    hide Attended;
    var tail := r.ids[t.width..];
    assert Column(t, r, pad).ids[t.width..] == tail + [pad];
    UpToEndOneMore(tail, t.eos, pad);
  }

  lemma ActiveKeeps(t: Task, r: Row, done: nat, pad: Token)
    requires OnTrack(t, r, done) && done < t.steps && !r.finished
    ensures OnTrack(t, Column(t, r, pad), done + 1)
  {
    hide Attended, UpToEnd;
    var tail, next := r.ids[t.width..], t.pick(Attended(r.ids, r.mask));
    assert Column(t, r, pad).ids[t.width..] == tail + [next];
    UpToEndOneMore(tail, t.eos, next);
    AttendedOneMore(r.ids, r.mask, next);
    assert t.prompt + (tail + [next]) == t.prompt + tail + [next];
    var rest := Alone(t.pick, t.prompt + tail + [next], t.steps - done - 1, t.eos);
    assert tail + ([next] + rest) == tail + [next] + rest;
    assert (tail + [next])[|tail|] == next;
  }

  lemma ColumnKeeps(t: Task, r: Row, done: nat, pad: Token)
    requires OnTrack(t, r, done) && done < t.steps
    ensures OnTrack(t, Column(t, r, pad), done + 1)
  {
    hide OnTrack;
    if r.finished { FrozenKeeps(t, r, done, pad); } else { ActiveKeeps(t, r, done, pad); }
  }

  lemma TrackShape(t: Task, r: Row, done: nat)
    requires OnTrack(t, r, done)
    ensures |r.ids| == |r.mask| == t.width + done
  {}

  /** At the end the decoded tail is the single-sequence one. */
  lemma TrackEnds(t: Task, r: Row, done: nat)
    requires OnTrack(t, r, done) && (done == t.steps || r.finished)
    ensures UpToEnd(r.ids[t.width..], t.eos) == Alone(t.pick, t.prompt, t.steps, t.eos)
  {
    var tail := r.ids[t.width..];
    if !r.finished {
      NoEnd(tail, t.eos);
      assert tail + [] == tail;
    }
  }

  // ---------------------------------------------------------------- the batch

  function Widest(prompts: seq<seq<Token>>): (width: nat)
    ensures forall i :: 0 <= i < |prompts| ==> |prompts[i]| <= width
  {
    if prompts == [] then 0
    else
      var front, last := Widest(prompts[..|prompts| - 1]), |prompts[|prompts| - 1]|;
      assert forall i :: 0 <= i < |prompts| - 1 ==> prompts[i] == prompts[..|prompts| - 1][i];
      if front < last then last else front
  }

  predicate AllFinished(rows: seq<Row>) { forall i :: 0 <= i < |rows| ==> rows[i].finished }

  /** All rows advance together until every one is finished or the limit is reached: each
      row's decoded tail is what decoding its prompt alone gives. */
  method RunBatch(pick: seq<Token> -> Token, prompts: seq<seq<Token>>, pad: Token, eos: Option<Token>, maxNew: int)
    returns (tails: seq<seq<Token>>)
    ensures |tails| == |prompts|
    ensures forall i :: 0 <= i < |prompts| ==> tails[i] == Alone(pick, prompts[i], NonNegative(maxNew), eos)
  {
    hide OnTrack, Alone, Attended;
    var width, steps := Widest(prompts), NonNegative(maxNew);
    var rows := seq(|prompts|, i requires 0 <= i < |prompts| => LeftPadded(prompts[i], width, pad));
    forall i | 0 <= i < |prompts| ensures OnTrack(Task(pick, prompts[i], width, steps, eos), rows[i], 0) {
      StartsOnTrack(Task(pick, prompts[i], width, steps, eos), pad);
    }
    var done := 0;
    while done < steps && (done == 0 || !AllFinished(rows))
      invariant done <= steps && |rows| == |prompts|
      invariant forall i :: 0 <= i < |prompts| ==> OnTrack(Task(pick, prompts[i], width, steps, eos), rows[i], done)
      decreases steps - done
    {
      rows := Advanced(pick, prompts, width, steps, eos, pad, rows, done);
      done := done + 1;
    }
    tails := [];
    for i := 0 to |rows|
      invariant |tails| == i
      invariant forall j :: 0 <= j < i ==> tails[j] == Alone(pick, prompts[j], steps, eos)
    {
      var t := Task(pick, prompts[i], width, steps, eos);
      TrackEnds(t, rows[i], done);
      TrackShape(t, rows[i], done);
      tails := tails + [UpToEnd(rows[i].ids[width..], eos)];
    }
  }

  lemma StartsOnTrack(t: Task, pad: Token)
    requires |t.prompt| <= t.width
    ensures OnTrack(t, LeftPadded(t.prompt, t.width, pad), 0)
  {
    hide Attended, Alone;
    PaddingUnseen(t.prompt, t.width, pad);
    assert t.prompt + [] == t.prompt &&
      [] + Alone(t.pick, t.prompt, t.steps, t.eos) == Alone(t.pick, t.prompt, t.steps, t.eos);
  }

  /** One decode step of the whole batch. */
  method Advanced(
      pick: seq<Token> -> Token, prompts: seq<seq<Token>>, width: nat, steps: nat, eos: Option<Token>, pad: Token,
      rows: seq<Row>, ghost done: nat)
    returns (next: seq<Row>)
    requires |rows| == |prompts| && done < steps
    requires forall i :: 0 <= i < |prompts| ==> OnTrack(Task(pick, prompts[i], width, steps, eos), rows[i], done)
    ensures |next| == |prompts|
    ensures forall i :: 0 <= i < |prompts| ==> OnTrack(Task(pick, prompts[i], width, steps, eos), next[i], done + 1)
  {
    hide OnTrack, Attended;
    next := [];
    for i := 0 to |rows|
      invariant |next| == i
      invariant forall j :: 0 <= j < i ==> OnTrack(Task(pick, prompts[j], width, steps, eos), next[j], done + 1)
    {
      var t := Task(pick, prompts[i], width, steps, eos);
      ColumnKeeps(t, rows[i], done, pad);
      TrackShape(t, rows[i], done);
      next := next + [Column(t, rows[i], pad)];
    }
  }
}

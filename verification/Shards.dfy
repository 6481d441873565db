/** In-place conversion of a directory of layer files between plain and compressed form, one
    atomic file operation at a time, with a crash allowed before any of them.

    A file map stands for the directory. A crash during a write leaves any bytes at all in
    the temporary file; renames and deletions are atomic. */
module Shards {
  import opened Common
  import opened Codec

  /** A layer's plain file, its compressed one, and the temporary each is written through. */
  datatype File = Plain(layer: nat) | Swz(layer: nat) | PlainTmp(layer: nat) | SwzTmp(layer: nat)

  type Files = map<File, seq<Byte>>

  datatype Outcome = Done | Crashed | Missing(layer: nat) | Failed(layer: nat, error: Error) | DividedByZero | Refused

  // ---------------------------------------------------------------- readers

  /** What the streaming reader gets: the plain file if there is one, else the compressed one. */
  function ReadLayer(lib: Library, files: Files, i: nat): Option<seq<Byte>> {
    if Plain(i) in files then Some(files[Plain(i)])
    else if Swz(i) in files && Decompress(lib, files[Swz(i)], false).Ok? then
      Some(Decompress(lib, files[Swz(i)], false).value)
    else None
  }

  datatype Format = Safetensors | Pt

  /** `halfPrecision` says the weights are float16 or bfloat16. */
  datatype Manifest = Manifest(format: Format, halfPrecision: bool, compressed: bool, layers: nat)

  /** First existing variant of a layer, the manifest's preferred one first. */
  function ExistingLayerPath(files: Files, i: nat, m: Manifest): Option<File> {
    var preferred := if m.compressed then Swz(i) else Plain(i);
    if preferred in files then Some(preferred)
    else if Plain(i) in files then Some(Plain(i))
    else if Swz(i) in files then Some(Swz(i))
    else None
  }

  function ReadFile(lib: Library, files: Files, f: File): Option<seq<Byte>> {
    if f !in files then None
    else if f.Plain? then Some(files[f])
    else if Decompress(lib, files[f], true).Ok? then Some(Decompress(lib, files[f], true).value)
    else None
  }

  /** The cheap safetensors check: an 8-byte header length that is positive and fits the file. */
  predicate SafetensorsOk(b: seq<Byte>) {
    |b| >= 8 && 0 < Number(b[..8]) <= |b| - 8
  }

  // ---------------------------------------------------------------- the invariant

  /** Layer `i` has a complete copy, every copy it has is good, and a temporary file is only
      there while the file it is made from is. */
  ghost predicate Good(lib: Library, files: Files, i: nat, original: seq<Byte>) {
    && (Plain(i) in files || Swz(i) in files)
    && (Plain(i) in files ==> files[Plain(i)] == original)
    && (Swz(i) in files ==> Decompress(lib, files[Swz(i)], true) == Ok(original))
    && (SwzTmp(i) in files ==> Plain(i) in files)
    && (PlainTmp(i) in files ==> Swz(i) in files && (Plain(i) in files ==> !SafetensorsOk(original)))
  }

  ghost predicate AllGood(lib: Library, files: Files, originals: seq<seq<Byte>>) {
    forall i :: 0 <= i < |originals| ==> Good(lib, files, i, originals[i])
  }

  lemma GoodAt(lib: Library, files: Files, originals: seq<seq<Byte>>, i: nat)
    requires AllGood(lib, files, originals) && i < |originals|
    ensures Good(lib, files, i, originals[i])
  {}

  lemma CheckedDecodes(lib: Library, blob: seq<Byte>, raw: seq<Byte>)
    requires Decompress(lib, blob, true) == Ok(raw)
    ensures Decompress(lib, blob, false) == Ok(raw)
  {
    hide ParseHeader;
  }

  /** A good layer reads back as the original: by the streaming reader's order, and through
      the file any manifest, up to date or not, prefers. */
  lemma GoodReads(lib: Library, files: Files, i: nat, original: seq<Byte>, m: Manifest)
    requires Good(lib, files, i, original)
    ensures ReadLayer(lib, files, i) == Some(original)
    ensures ExistingLayerPath(files, i, m).Some?
    ensures ReadFile(lib, files, ExistingLayerPath(files, i, m).value) == Some(original)
  {
    hide Decompress;
    if Plain(i) !in files { CheckedDecodes(lib, files[Swz(i)], original); }
  }

  predicate SameAt(before: Files, after: Files, f: File) {
    (f in before <==> f in after) && (f in before ==> before[f] == after[f])
  }

  /** Only layer `i`'s files differ. */
  ghost predicate OthersSame(before: Files, after: Files, i: nat) {
    forall f: File :: f.layer != i ==> SameAt(before, after, f)
  }

  lemma OthersStayGood(lib: Library, before: Files, after: Files, i: nat, originals: seq<seq<Byte>>)
    requires AllGood(lib, before, originals) && OthersSame(before, after, i)
    requires i < |originals| ==> Good(lib, after, i, originals[i])
    ensures AllGood(lib, after, originals)
  {
    hide Decompress;
    forall j | 0 <= j < |originals| ensures Good(lib, after, j, originals[j]) {
      assert Good(lib, before, j, originals[j]);
      if j != i {
        assert SameAt(before, after, Plain(j)) && SameAt(before, after, Swz(j));
        assert SameAt(before, after, PlainTmp(j)) && SameAt(before, after, SwzTmp(j));
      }
    }
  }

  /** Only the compressed form is left of layer `i`, and only the plain form, respectively. */
  predicate Converted(files: Files, i: nat) { Plain(i) !in files && Swz(i) in files && SwzTmp(i) !in files }

  predicate Restored(files: Files, i: nat) { Plain(i) in files && Swz(i) !in files && PlainTmp(i) !in files }

  /** A conversion after `steps` of its four atomic operations: the temporary file begun, then
      whole, then renamed over the target, then the source deleted. */
  function AfterSteps(files: Files, source: File, tmp: File, target: File, bytes: seq<Byte>, torn: seq<Byte>,
                      steps: nat): Files {
    if steps == 0 then files
    else if steps == 1 then files[tmp := torn]
    else if steps == 2 then files[tmp := bytes]
    else if steps == 3 then files[target := bytes] - {tmp}
    else files[target := bytes] - {tmp} - {source}
  }

  /** Where a conversion stands: no outcome while it can go on, with `left` steps before the crash. */
  datatype Stop = Stop(files: Files, outcome: Option<Outcome>, left: nat)

  function Replaced(files: Files, source: File, tmp: File, target: File, bytes: seq<Byte>, torn: seq<Byte>,
                    steps: nat): Stop {
    var after := AfterSteps(files, source, tmp, target, bytes, torn, steps);
    if steps < 4 then Stop(after, Some(Crashed), 0) else Stop(after, None, steps - 4)
  }

  /** Compress one layer. `steps` is how many atomic operations happen before a crash and
      `torn` what a crash leaves of a half-written file. */
  function CompressedLayer(lib: Library, files: Files, i: nat, steps: nat, torn: seq<Byte>): Stop {
    if Plain(i) !in files then Stop(files, if Swz(i) in files then None else Some(Missing(i)), steps)
    else
      var blob := Compress(lib, files[Plain(i)]);
      if blob.Err? then Stop(files, Some(Failed(i, blob.error)), steps)
      else Replaced(files, Plain(i), SwzTmp(i), Swz(i), blob.value, torn, steps)
  }

  /** Restore one layer, the digest checked before the plain file is written. */
  function RestoredLayer(lib: Library, files: Files, i: nat, steps: nat, torn: seq<Byte>): Stop {
    if Plain(i) in files && SafetensorsOk(files[Plain(i)]) then
      if Swz(i) !in files then Stop(files, None, steps)
      else if steps == 0 then Stop(files, Some(Crashed), 0)
      else Stop(files - {Swz(i)}, None, steps - 1)
    else if Swz(i) !in files then Stop(files, Some(Missing(i)), steps)
    else
      var raw := Decompress(lib, files[Swz(i)], true);
      if raw.Err? then Stop(files, Some(Failed(i, raw.error)), steps)
      else
        var done := Replaced(files, Swz(i), PlainTmp(i), Plain(i), raw.value, torn, steps);
        if done.outcome.None? && raw.value == [] then done.(outcome := Some(DividedByZero)) else done
  }

  function ConvertLayer(lib: Library, files: Files, i: nat, compress: bool, steps: nat, torn: seq<Byte>): Stop {
    if compress then CompressedLayer(lib, files, i, steps, torn) else RestoredLayer(lib, files, i, steps, torn)
  }

  /** Convert the layers from `i` on, in order, up to the first one that stops the run. */
  function ConvertFrom(lib: Library, files: Files, i: nat, layers: nat, compress: bool, steps: nat,
                       torn: nat -> seq<Byte>): Stop
    decreases layers - i
  {
    if i >= layers then Stop(files, None, steps)
    else
      var s := ConvertLayer(lib, files, i, compress, steps, torn(i));
      if s.outcome.Some? then s else ConvertFrom(lib, s.files, i + 1, layers, compress, s.left, torn)
  }

  /** The directory: its layer files and its manifest, None while the manifest file is torn. */
  datatype Directory = Directory(files: Files, manifest: Option<Manifest>)

  datatype Ended = Ended(dir: Directory, outcome: Outcome)

  datatype Run = Run(compress: bool, steps: nat, torn: nat -> seq<Byte>)

  predicate Accepts(manifest: Option<Manifest>, compress: bool) {
    manifest.Some? && manifest.value.format == Safetensors && (compress ==> manifest.value.halfPrecision)
  }

  /** The manifest after `steps` of the two halves of rewriting it, which is not atomic. */
  function Rewritten(was: Option<Manifest>, m: Manifest, steps: nat): Option<Manifest> {
    if steps == 0 then was else if steps == 1 then None else Some(m)
  }

  /** A whole run over all layers, then the manifest. */
  function ConvertRun(lib: Library, dir: Directory, run: Run): Ended {
    if !Accepts(dir.manifest, run.compress) then Ended(dir, Refused)
    else
      var m := dir.manifest.value;
      var s := ConvertFrom(lib, dir.files, 0, m.layers, run.compress, run.steps, run.torn);
      if s.outcome.Some? then Ended(Directory(s.files, dir.manifest), s.outcome.value)
      else
        Ended(Directory(s.files, Rewritten(dir.manifest, m.(compressed := run.compress), s.left)),
          if s.left < 2 then Crashed else Done)
  }

  /** Runs one after another, each crashed anywhere; the outcome is the last run's. */
  function AfterRuns(lib: Library, dir: Directory, runs: seq<Run>): Ended {
    if runs == [] then Ended(dir, Done)
    else ConvertRun(lib, AfterRuns(lib, dir, runs[..|runs| - 1]).dir, runs[|runs| - 1])
  }

  // ---------------------------------------------------------------- one layer

  /** The temporary a run in this direction never touches: the one of the opposite run. */
  function OppositeTmp(i: nat, compress: bool): File { if compress then PlainTmp(i) else SwzTmp(i) }

  /** Only the target format is left of layer `i`. */
  predicate Target(files: Files, i: nat, compress: bool) {
    if compress then Converted(files, i) else Restored(files, i)
  }

  predicate AllTarget(files: Files, layers: nat, compress: bool) {
    forall i: nat :: i < layers ==> Target(files, i, compress)
  }

  lemma LayerStaysLocal(lib: Library, files: Files, i: nat, compress: bool, steps: nat, torn: seq<Byte>)
    ensures var s := ConvertLayer(lib, files, i, compress, steps, torn);
      OthersSame(files, s.files, i) && SameAt(files, s.files, OppositeTmp(i, compress))
  {
    hide Compress, Decompress, SafetensorsOk;
  }

  /** Wherever compression of a layer stops, the layer is good, and at the end converted. */
  lemma CompressStepsKeep(lib: Library, files: Files, i: nat, original: seq<Byte>, steps: nat, torn: seq<Byte>)
    requires Sized(lib) && Restores(lib, original) && Good(lib, files, i, original)
    ensures var s := CompressedLayer(lib, files, i, steps, torn);
      Good(lib, s.files, i, original) && (s.outcome.None? ==> Converted(s.files, i))
  {
    hide Compress, Decompress, SafetensorsOk, Sized, Restores;
    if Plain(i) in files && Compress(lib, original).Ok? { RoundTrip(lib, original, true); }
  }

  /** Wherever restoring a layer stops, the layer is good, and at the end restored. Nothing is
      assumed of packer or digest. */
  lemma RestoreStepsKeep(lib: Library, files: Files, i: nat, original: seq<Byte>, steps: nat, torn: seq<Byte>)
    requires Good(lib, files, i, original)
    ensures var s := RestoredLayer(lib, files, i, steps, torn);
      Good(lib, s.files, i, original) && (s.outcome.None? ==> Restored(s.files, i))
  {
    hide Decompress, SafetensorsOk;
  }

  /** What keeps a layer from being converted: a missing file, or one that does not compress
      or decompress, or an empty one. */
  predicate Convertible(lib: Library, files: Files, i: nat, compress: bool) {
    if compress then
      if Plain(i) in files then Compress(lib, files[Plain(i)]).Ok? else Swz(i) in files
    else
      (Plain(i) in files && SafetensorsOk(files[Plain(i)])) ||
      (Swz(i) in files && Decompress(lib, files[Swz(i)], true).Ok? && Decompress(lib, files[Swz(i)], true).value != [])
  }

  /** The atomic operations that converting layer `i` takes. */
  function Needed(files: Files, i: nat, compress: bool): nat {
    if compress then (if Plain(i) in files then 4 else 0)
    else if Plain(i) in files && SafetensorsOk(files[Plain(i)]) then (if Swz(i) in files then 1 else 0)
    else 4
  }

  /** One layer completes exactly when it can be converted and enough steps are left. */
  lemma LayerEnds(lib: Library, files: Files, i: nat, compress: bool, steps: nat, torn: seq<Byte>)
    ensures var s := ConvertLayer(lib, files, i, compress, steps, torn);
      && (s.outcome.None? <==> Convertible(lib, files, i, compress) && Needed(files, i, compress) <= steps)
      && (s.outcome.None? ==> s.left == steps - Needed(files, i, compress))
      && (s.outcome.Some? && Convertible(lib, files, i, compress) ==> s.outcome.value == Crashed)
      && (s.outcome == Some(Crashed) ==> steps < Needed(files, i, compress))
      && (s.outcome.Some? ==> !s.outcome.value.Done? && !s.outcome.value.Refused?)
  {
    hide Compress, Decompress, SafetensorsOk;
  }

  // ---------------------------------------------------------------- all layers

  /** Files out of a run's reach: other layers', and the temporaries of the opposite run. */
  predicate OutOfReach(f: File, layers: nat, compress: bool) {
    f.layer >= layers || f == OppositeTmp(f.layer, compress)
  }

  lemma {:induction false} ConvertStaysLocal(lib: Library, files: Files, i: nat, layers: nat, compress: bool,
                                             steps: nat, torn: nat -> seq<Byte>, f: File)
    requires f.layer < i || OutOfReach(f, layers, compress)
    ensures SameAt(files, ConvertFrom(lib, files, i, layers, compress, steps, torn).files, f)
    decreases layers - i
  {
    hide ConvertLayer;
    if i < layers {
      LayerStaysLocal(lib, files, i, compress, steps, torn(i));
      var s := ConvertLayer(lib, files, i, compress, steps, torn(i));
      assert SameAt(files, s.files, f);
      if s.outcome.None? { ConvertStaysLocal(lib, s.files, i + 1, layers, compress, s.left, torn, f); }
    }
  }

  /** The digest can tell each layer from what the packer makes of it. */
  ghost predicate Packable(lib: Library, originals: seq<seq<Byte>>) {
    Sized(lib) && forall i :: 0 <= i < |originals| ==> Restores(lib, originals[i])
  }

  lemma LayerKeeps(lib: Library, files: Files, i: nat, compress: bool, steps: nat, torn: seq<Byte>,
                   originals: seq<seq<Byte>>)
    requires AllGood(lib, files, originals) && i < |originals| && (compress ==> Packable(lib, originals))
    ensures var s := ConvertLayer(lib, files, i, compress, steps, torn);
      AllGood(lib, s.files, originals) && (s.outcome.None? ==> Target(s.files, i, compress))
  {
    hide Good, CompressedLayer, RestoredLayer, Sized, Restores, OthersSame;
    LayerStaysLocal(lib, files, i, compress, steps, torn);
    GoodAt(lib, files, originals, i);
    if compress {
      CompressStepsKeep(lib, files, i, originals[i], steps, torn);
    } else {
      RestoreStepsKeep(lib, files, i, originals[i], steps, torn);
    }
    OthersStayGood(lib, files, ConvertLayer(lib, files, i, compress, steps, torn).files, i, originals);
  }

  lemma TargetStays(before: Files, after: Files, i: nat, compress: bool)
    requires forall f: File :: f.layer == i ==> SameAt(before, after, f)
    ensures Target(before, i, compress) <==> Target(after, i, compress)
  {
    assert SameAt(before, after, Plain(i)) && SameAt(before, after, Swz(i));
    assert SameAt(before, after, PlainTmp(i)) && SameAt(before, after, SwzTmp(i));
  }

  /** Wherever converting the layers stops, all layers are good, and if it completes only the
      target format is left of each. */
  lemma {:induction false} ConvertKeeps(lib: Library, files: Files, i: nat, compress: bool, steps: nat,
                                        torn: nat -> seq<Byte>, originals: seq<seq<Byte>>)
    requires AllGood(lib, files, originals) && i <= |originals| && (compress ==> Packable(lib, originals))
    ensures var s := ConvertFrom(lib, files, i, |originals|, compress, steps, torn);
      AllGood(lib, s.files, originals) &&
        (s.outcome.None? ==> forall j: nat :: i <= j < |originals| ==> Target(s.files, j, compress))
    decreases |originals| - i
  {
    hide AllGood, Packable, ConvertLayer, Target;
    if i < |originals| {
      LayerKeeps(lib, files, i, compress, steps, torn(i), originals);
      var s := ConvertLayer(lib, files, i, compress, steps, torn(i));
      if s.outcome.None? {
        ConvertKeeps(lib, s.files, i + 1, compress, s.left, torn, originals);
        var end := ConvertFrom(lib, s.files, i + 1, |originals|, compress, s.left, torn);
        forall f: File | f.layer == i ensures SameAt(s.files, end.files, f) {
          ConvertStaysLocal(lib, s.files, i + 1, |originals|, compress, s.left, torn, f);
        }
        TargetStays(s.files, end.files, i, compress);
      }
    }
  }

  function AllNeeded(files: Files, i: nat, layers: nat, compress: bool): nat
    decreases layers - i
  {
    if i >= layers then 0 else Needed(files, i, compress) + AllNeeded(files, i + 1, layers, compress)
  }

  lemma NeedStays(lib: Library, before: Files, after: Files, i: nat, j: nat, compress: bool)
    requires OthersSame(before, after, i) && i != j
    ensures Needed(before, j, compress) == Needed(after, j, compress)
    ensures Convertible(lib, before, j, compress) <==> Convertible(lib, after, j, compress)
  {
    hide Compress, Decompress, SafetensorsOk;
    assert SameAt(before, after, Plain(j)) && SameAt(before, after, Swz(j));
  }

  lemma {:induction false} AllNeedStays(lib: Library, before: Files, after: Files, i: nat, from: nat, layers: nat,
                                        compress: bool)
    requires OthersSame(before, after, i) && i < from
    ensures AllNeeded(before, from, layers, compress) == AllNeeded(after, from, layers, compress)
    ensures AllConvertible(lib, before, from, layers, compress) <==> AllConvertible(lib, after, from, layers, compress)
    decreases layers - from
  {
    hide Needed, Convertible, OthersSame;
    if from < layers {
      NeedStays(lib, before, after, i, from, compress);
      AllNeedStays(lib, before, after, i, from + 1, layers, compress);
    }
  }

  predicate AllConvertible(lib: Library, files: Files, i: nat, layers: nat, compress: bool)
    decreases layers - i
  {
    i >= layers || (Convertible(lib, files, i, compress) && AllConvertible(lib, files, i + 1, layers, compress))
  }

  /** The layers all complete exactly when each can be converted and the steps suffice. */
  lemma {:induction false} ConvertEnds(lib: Library, files: Files, i: nat, layers: nat, compress: bool, steps: nat,
                                       torn: nat -> seq<Byte>)
    ensures var s := ConvertFrom(lib, files, i, layers, compress, steps, torn);
      var needed := AllNeeded(files, i, layers, compress);
      && (s.outcome.None? <==> AllConvertible(lib, files, i, layers, compress) && needed <= steps)
      && (s.outcome.None? ==> s.left == steps - needed)
      && (s.outcome.Some? && AllConvertible(lib, files, i, layers, compress) ==> s.outcome.value == Crashed)
      && (s.outcome == Some(Crashed) ==> steps < needed)
      && (s.outcome.Some? ==> !s.outcome.value.Done? && !s.outcome.value.Refused?)
    decreases layers - i
  {
    hide Needed, Convertible, ConvertLayer, OthersSame;
    if i < layers {
      var s := ConvertLayer(lib, files, i, compress, steps, torn(i));
      LayerEnds(lib, files, i, compress, steps, torn(i));
      LayerStaysLocal(lib, files, i, compress, steps, torn(i));
      AllNeedStays(lib, files, s.files, i, i + 1, layers, compress);
      if s.outcome.None? { ConvertEnds(lib, s.files, i + 1, layers, compress, s.left, torn); }
    }
  }

  // ---------------------------------------------------------------- whole runs

  /** A manifest and the directory it was written for. */
  predicate Describes(dir: Directory, layers: nat) { dir.manifest.Some? ==> dir.manifest.value.layers == layers }

  /** However a run ends, every layer stays good. If it is done only the target format is left;
      the manifest is only touched once that is so. */
  lemma RunKeeps(lib: Library, dir: Directory, run: Run, originals: seq<seq<Byte>>)
    requires AllGood(lib, dir.files, originals) && Describes(dir, |originals|)
    requires run.compress ==> Packable(lib, originals)
    ensures var r := ConvertRun(lib, dir, run);
      && AllGood(lib, r.dir.files, originals) && Describes(r.dir, |originals|)
      && (r.outcome.Done? || r.dir.manifest != dir.manifest ==> AllTarget(r.dir.files, |originals|, run.compress))
  {
    hide AllGood, Packable, ConvertFrom, Target;
    if Accepts(dir.manifest, run.compress) {
      ConvertKeeps(lib, dir.files, 0, run.compress, run.steps, run.torn, originals);
      ConvertEnds(lib, dir.files, 0, |originals|, run.compress, run.steps, run.torn);
    }
  }

  /** Exactly how a run ends, whatever the directory holds: done, with the manifest saying so,
      when every layer can be converted and the steps suffice for all of it; with a torn
      manifest when the crash falls on that one write; else with the manifest as it was. */
  lemma RunEnds(lib: Library, dir: Directory, run: Run)
    requires Accepts(dir.manifest, run.compress)
    ensures var r := ConvertRun(lib, dir, run);
      var m := dir.manifest.value;
      var ready := AllConvertible(lib, dir.files, 0, m.layers, run.compress);
      var needed := AllNeeded(dir.files, 0, m.layers, run.compress);
      && (r.outcome.Done? <==> ready && run.steps >= needed + 2)
      && (r.dir.manifest.None? <==> ready && run.steps == needed + 1)
      && (r.outcome.Done? ==> r.dir.manifest == Some(m.(compressed := run.compress)))
      && (!r.outcome.Done? && r.dir.manifest.Some? ==> r.dir.manifest == dir.manifest)
      && (r.outcome.Crashed? ==> run.steps < needed + 2)
      && (ready && !r.outcome.Done? ==> r.outcome.Crashed?)
  {
    hide ConvertFrom, AllConvertible, AllNeeded;
    ConvertEnds(lib, dir.files, 0, dir.manifest.value.layers, run.compress, run.steps, run.torn);
  }

  /** A run touches only its own layers' files, and never the opposite temporaries. */
  lemma RunStaysLocal(lib: Library, dir: Directory, run: Run, f: File)
    requires dir.manifest.Some? ==> OutOfReach(f, dir.manifest.value.layers, run.compress)
    ensures SameAt(dir.files, ConvertRun(lib, dir, run).dir.files, f)
  {
    hide ConvertFrom;
    if Accepts(dir.manifest, run.compress) {
      ConvertStaysLocal(lib, dir.files, 0, dir.manifest.value.layers, run.compress, run.steps, run.torn, f);
    }
  }

  /** Good layers compress when the packer restores them, and restore when they are safetensors
      files: nothing else can fail. */
  lemma GoodConverts(lib: Library, files: Files, i: nat, original: seq<Byte>)
    requires Good(lib, files, i, original)
    ensures Convertible(lib, files, i, true) <==> Plain(i) !in files || Compress(lib, original).Ok?
    ensures SafetensorsOk(original) ==> Convertible(lib, files, i, false)
  {
    hide Compress, Decompress;
  }

  lemma {:induction false} AllGoodConvert(lib: Library, files: Files, i: nat, compress: bool, originals: seq<seq<Byte>>)
    requires AllGood(lib, files, originals) && i <= |originals|
    requires forall j: nat :: j < |originals| ==>
      if compress then Compress(lib, originals[j]).Ok? else SafetensorsOk(originals[j])
    ensures AllConvertible(lib, files, i, |originals|, compress)
    ensures AllNeeded(files, i, |originals|, compress) <= 4 * (|originals| - i)
    decreases |originals| - i
  {
    hide Good, Compress, SafetensorsOk, Convertible;
    if i < |originals| {
      GoodAt(lib, files, originals, i);
      GoodConverts(lib, files, i, originals[i]);
      AllGoodConvert(lib, files, i + 1, compress, originals);
    }
  }

  /** Any sequence of runs, each crashed anywhere and followed by the next: every layer reads
      back as the original, other files are untouched, and if the last run completed only its
      target format is left. */
  lemma {:induction false} Session(lib: Library, dir: Directory, runs: seq<Run>, originals: seq<seq<Byte>>)
    requires AllGood(lib, dir.files, originals) && Describes(dir, |originals|) && Packable(lib, originals)
    ensures var r := AfterRuns(lib, dir, runs);
      && AllGood(lib, r.dir.files, originals) && Describes(r.dir, |originals|)
      && (forall i: nat :: i < |originals| ==> ReadLayer(lib, r.dir.files, i) == Some(originals[i]))
      && (runs != [] && r.outcome.Done? ==> AllTarget(r.dir.files, |originals|, runs[|runs| - 1].compress))
  {
    hide AllGood, Packable, ReadLayer, ConvertRun, Target;
    if runs != [] {
      var before := runs[..|runs| - 1];
      Session(lib, dir, before, originals);
      RunKeeps(lib, AfterRuns(lib, dir, before).dir, runs[|runs| - 1], originals);
    }
    var files := AfterRuns(lib, dir, runs).dir.files;
    forall i: nat | i < |originals| ensures ReadLayer(lib, files, i) == Some(originals[i]) {
      GoodAt(lib, files, originals, i);
      GoodReads(lib, files, i, originals[i], Manifest(Safetensors, true, false, 0));
    }
  }

  lemma {:induction false} SessionStaysLocal(lib: Library, dir: Directory, runs: seq<Run>, layers: nat, f: File)
    requires Describes(dir, layers) && f.layer >= layers
    ensures SameAt(dir.files, AfterRuns(lib, dir, runs).dir.files, f)
    ensures Describes(AfterRuns(lib, dir, runs).dir, layers)
  {
    hide ConvertFrom;
    if runs != [] {
      var before := runs[..|runs| - 1];
      SessionStaysLocal(lib, dir, before, layers, f);
      RunStaysLocal(lib, AfterRuns(lib, dir, before).dir, runs[|runs| - 1], f);
    }
  }

  /** Of the layers' files, exactly the plain ones, each with its original. */
  ghost predicate PlainDirectory(files: Files, originals: seq<seq<Byte>>) {
    forall f: File :: f.layer < |originals| ==>
      (f in files <==> f.Plain?) && (f.Plain? ==> files[f] == originals[f.layer])
  }

  lemma PlainIsGood(lib: Library, files: Files, originals: seq<seq<Byte>>)
    requires PlainDirectory(files, originals)
    ensures AllGood(lib, files, originals)
  {
    hide Decompress, SafetensorsOk;
  }

  /** A plain directory, after any sequence of crashed runs in either direction that ends with a
      completed restore, is the very same directory again, but for temporary files that crashed
      compressions left. */
  lemma RestoredSession(lib: Library, dir: Directory, runs: seq<Run>, originals: seq<seq<Byte>>, f: File)
    requires PlainDirectory(dir.files, originals) && Describes(dir, |originals|) && Packable(lib, originals)
    requires runs != [] && !runs[|runs| - 1].compress && AfterRuns(lib, dir, runs).outcome.Done?
    requires !f.SwzTmp?
    ensures SameAt(dir.files, AfterRuns(lib, dir, runs).dir.files, f)
  {
    hide AfterRuns, Packable, Decompress, SafetensorsOk, ReadLayer;
    PlainIsGood(lib, dir.files, originals);
    Session(lib, dir, runs, originals);
    if f.layer >= |originals| {
      SessionStaysLocal(lib, dir, runs, |originals|, f);
    } else {
      var files := AfterRuns(lib, dir, runs).dir.files;
      assert Target(files, f.layer, false);
      GoodAt(lib, files, originals, f.layer);
    }
  }

  lemma SameFiles(before: Files, after: Files)
    requires forall f: File :: SameAt(before, after, f)
    ensures before == after
  {
    assert forall f: File :: f in before <==> f in after by {
      forall f: File ensures f in before <==> f in after { assert SameAt(before, after, f); }
    }
    forall f | f in before ensures before[f] == after[f] { assert SameAt(before, after, f); }
  }

  lemma BothRuns(lib: Library, dir: Directory, first: Run, second: Run)
    ensures AfterRuns(lib, dir, [first, second]) == ConvertRun(lib, ConvertRun(lib, dir, first).dir, second)
  {
    hide ConvertRun;
    assert [first, second][..1] == [first] && [first][..0] == [];
    assert AfterRuns(lib, dir, [first]) == ConvertRun(lib, AfterRuns(lib, dir, []).dir, first);
  }

  /** Compressing a plain directory and restoring it, uninterrupted, gives back the very same
      directory, when every layer is a safetensors file that the packer restores. */
  lemma RoundTripRun(lib: Library, dir: Directory, compress: Run, restore: Run, originals: seq<seq<Byte>>)
    requires Packable(lib, originals) && PlainDirectory(dir.files, originals)
    requires dir.manifest == Some(Manifest(Safetensors, true, false, |originals|))
    requires forall i: nat :: i < |originals| ==> SafetensorsOk(originals[i]) && Compress(lib, originals[i]).Ok?
    requires compress.compress && !restore.compress
    requires compress.steps >= 4 * |originals| + 2 && restore.steps >= 4 * |originals| + 2
    ensures AfterRuns(lib, dir, [compress, restore]) == Ended(dir, Done)
  {
    hide Compress, SafetensorsOk, Decompress, ConvertRun, AllConvertible, AllNeeded, Packable, AllGood;
    PlainIsGood(lib, dir.files, originals);
    var middle := ConvertRun(lib, dir, compress);
    RunKeeps(lib, dir, compress, originals);
    AllGoodConvert(lib, dir.files, 0, true, originals);
    RunEnds(lib, dir, compress);
    RunKeeps(lib, middle.dir, restore, originals);
    AllGoodConvert(lib, middle.dir.files, 0, false, originals);
    RunEnds(lib, middle.dir, restore);
    BothRuns(lib, dir, compress, restore);
    forall f: File ensures SameAt(dir.files, AfterRuns(lib, dir, [compress, restore]).dir.files, f) {
      if f.SwzTmp? {
        RunStaysLocal(lib, middle.dir, restore, f);
        if f.layer >= |originals| {
          RunStaysLocal(lib, dir, compress, f);
        } else {
          assert Target(middle.dir.files, f.layer, true);
        }
      } else {
        RestoredSession(lib, dir, [compress, restore], originals, f);
      }
    }
    SameFiles(dir.files, AfterRuns(lib, dir, [compress, restore]).dir.files);
  }

  // ---------------------------------------------------------------- what crashes leave behind

  /** Which temporaries a completed run leaves: of its own, none; of the opposite direction,
      exactly those that an earlier crashed run had left. */
  lemma TemporariesLeft(lib: Library, dir: Directory, run: Run, originals: seq<seq<Byte>>, i: nat)
    requires AllGood(lib, dir.files, originals) && Describes(dir, |originals|) && i < |originals|
    requires run.compress ==> Packable(lib, originals)
    requires ConvertRun(lib, dir, run).outcome.Done?
    ensures var after := ConvertRun(lib, dir, run).dir.files;
      && OppositeTmp(i, !run.compress) !in after
      && (OppositeTmp(i, run.compress) in after <==> OppositeTmp(i, run.compress) in dir.files)
  {
    hide AllGood, Packable, ConvertRun;
    RunKeeps(lib, dir, run, originals);
    assert Target(ConvertRun(lib, dir, run).dir.files, i, run.compress);
    RunStaysLocal(lib, dir, run, OppositeTmp(i, run.compress));
  }

  /** One compressed layer holding one byte. */
  function Compressed(): Directory {
    Directory(map[Swz(0) := Container(Stored(), [1])], Some(Manifest(Safetensors, true, true, 1)))
  }

  lemma StoredOne()
    ensures Compress(Stored(), [1]) == Ok(Container(Stored(), [1]))
    ensures Decompress(Stored(), Container(Stored(), [1]), true) == Ok([1])
  {
    hide Container, Decompress, Power256;
    PowersArePositive();
    StoredRestores([1]);
    RoundTrip(Stored(), [1], true);
  }

  /** A restore that crashes right after writing its temporary file, then a compression that
      completes: the temporary is still there. */
  lemma LeftoverSurvives(torn: nat -> seq<Byte>)
    ensures var crashed := ConvertRun(Stored(), Compressed(), Run(false, 2, torn));
      var completed := ConvertRun(Stored(), crashed.dir, Run(true, 2, torn));
      && crashed.outcome.Crashed? && completed.outcome.Done?
      && PlainTmp(0) !in Compressed().files && completed.dir.files == Compressed().files[PlainTmp(0) := [1]]
  {
    hide Container, Compress, Decompress, SafetensorsOk;
    StoredOne();
  }

  /** A compression whose crash falls between the two halves of rewriting the manifest: no
      later run in either direction starts. */
  lemma TornManifest(torn: nat -> seq<Byte>, next: Run)
    ensures var dir := Directory(map[Plain(0) := [1]], Some(Manifest(Safetensors, true, false, 1)));
      var crashed := ConvertRun(Stored(), dir, Run(true, 5, torn));
      && crashed == Ended(Directory(Compressed().files, None), Crashed)
      && ConvertRun(Stored(), crashed.dir, next) == Ended(crashed.dir, Refused)
  {
    hide Container, Compress, Decompress, SafetensorsOk;
    StoredOne();
    var dir := Directory(map[Plain(0) := [1]], Some(Manifest(Safetensors, true, false, 1)));
    var s := ConvertLayer(Stored(), dir.files, 0, true, 5, torn(0));
    assert s.files == Compressed().files;
    assert ConvertFrom(Stored(), s.files, 1, 1, true, 1, torn) == Stop(s.files, None, 1);
  }

  /** The hypotheses of these results can be met: a directory of two layers, one still plain
      and one compressed by a run that crashed before deleting its source. */
  lemma GoodDirectoryExists()
    ensures var files := map[Plain(0) := [1], Plain(1) := [1], Swz(1) := Container(Stored(), [1])];
      var dir := Directory(files, Some(Manifest(Safetensors, true, false, 2)));
      AllGood(Stored(), files, [[1], [1]]) && Describes(dir, 2) && Packable(Stored(), [[1], [1]])
  {
    hide Container, Decompress, SafetensorsOk, Sized, Restores;
    StoredOne();
    StoredRestores([1]);
  }

  // ---------------------------------------------------------------- the directory on disk

  lemma ThroughTemporary(files: Files, tmp: File, target: File, bytes: seq<Byte>, torn: seq<Byte>)
    ensures files[tmp := torn][tmp := bytes] == files[tmp := bytes]
    ensures files[tmp := bytes][target := bytes] - {tmp} == files[target := bytes] - {tmp}
  {}

  class ShardDir {
    const lib: Library
    var files: Files
    var manifest: Option<Manifest>

    constructor (lib: Library, files: Files, manifest: Option<Manifest>)
      ensures this.lib == lib && this.files == files && this.manifest == manifest
    {
      this.lib, this.files, this.manifest := lib, files, manifest;
    }

    function Dir(): Directory
      reads this
    {
      Directory(files, manifest)
    }

    /** Write `bytes` to the target through the temporary file, then delete the source. */
    method Replace(source: File, tmp: File, target: File, bytes: seq<Byte>, torn: seq<Byte>, steps: nat)
      returns (outcome: Option<Outcome>, left: nat)
      modifies this`files
      ensures Stop(files, outcome, left) == Replaced(old(files), source, tmp, target, bytes, torn, steps)
    {
      ThroughTemporary(files, tmp, target, bytes, torn);
      if steps == 0 { return Some(Crashed), 0; }
      files := files[tmp := torn];
      if steps == 1 { return Some(Crashed), 0; }
      files := files[tmp := bytes];
      if steps == 2 { return Some(Crashed), 0; }
      files := files[target := bytes] - {tmp};
      if steps == 3 { return Some(Crashed), 0; }
      files := files - {source};
      outcome, left := None, steps - 4;
    }

    /** Convert one layer; no outcome means the layer is done. */
    method CompressLayer(i: nat, steps: nat, torn: seq<Byte>) returns (outcome: Option<Outcome>, left: nat)
      modifies this`files
      ensures Stop(files, outcome, left) == CompressedLayer(lib, old(files), i, steps, torn)
    {
      hide Compress, AfterSteps;
      if Swz(i) in files && Plain(i) !in files { return None, steps; }
      if Plain(i) !in files { return Some(Missing(i)), steps; }
      var blob := Compress(lib, files[Plain(i)]);
      if blob.Err? { return Some(Failed(i, blob.error)), steps; }
      outcome, left := Replace(Plain(i), SwzTmp(i), Swz(i), blob.value, torn, steps);
    }

    method DecompressLayer(i: nat, steps: nat, torn: seq<Byte>) returns (outcome: Option<Outcome>, left: nat)
      modifies this`files
      ensures Stop(files, outcome, left) == RestoredLayer(lib, old(files), i, steps, torn)
    {
      hide Decompress, SafetensorsOk, AfterSteps;
      if Plain(i) in files && SafetensorsOk(files[Plain(i)]) {
        if Swz(i) !in files { return None, steps; }
        if steps == 0 { return Some(Crashed), 0; }
        files := files - {Swz(i)};
        return None, steps - 1;
      }
      if Swz(i) !in files { return Some(Missing(i)), steps; }
      var raw := Decompress(lib, files[Swz(i)], true);
      if raw.Err? { return Some(Failed(i, raw.error)), steps; }
      outcome, left := Replace(Swz(i), PlainTmp(i), Plain(i), raw.value, torn, steps);
      if outcome.None? && raw.value == [] { outcome := Some(DividedByZero); }
    }

    /** Rewrite the manifest: a crash in the middle leaves it torn. */
    method WriteManifest(m: Manifest, steps: nat) returns (outcome: Outcome)
      modifies this`manifest
      ensures outcome == if steps < 2 then Crashed else Done
      ensures manifest == Rewritten(old(manifest), m, steps)
    {
      if steps == 0 { return Crashed; }
      manifest := None;
      if steps == 1 { return Crashed; }
      manifest := Some(m);
      outcome := Done;
    }

    /** Compress every layer, one atomic operation at a time. */
    method CompressShards(steps: nat, torn: nat -> seq<Byte>) returns (outcome: Outcome)
      modifies this
      ensures Ended(Dir(), outcome) == ConvertRun(lib, old(Dir()), Run(true, steps, torn))
    {
      hide CompressedLayer, RestoredLayer;
      if manifest.None? { return Refused; }
      var m := manifest.value;
      if m.format != Safetensors || !m.halfPrecision { return Refused; }
      var left: nat := steps;
      for i := 0 to m.layers
        invariant manifest == old(manifest)
        invariant ConvertFrom(lib, files, i, m.layers, true, left, torn) ==
          ConvertFrom(lib, old(files), 0, m.layers, true, steps, torn)
      {
        var failed;
        failed, left := CompressLayer(i, left, torn(i));
        if failed.Some? { return failed.value; }
      }
      outcome := WriteManifest(m.(compressed := true), left);
    }

    /** Restore every layer: the mirror image, resting on the stored digest. */
    method DecompressShards(steps: nat, torn: nat -> seq<Byte>) returns (outcome: Outcome)
      modifies this
      ensures Ended(Dir(), outcome) == ConvertRun(lib, old(Dir()), Run(false, steps, torn))
    {
      hide CompressedLayer, RestoredLayer;
      if manifest.None? { return Refused; }
      var m := manifest.value;
      if m.format != Safetensors { return Refused; }
      var left: nat := steps;
      for i := 0 to m.layers
        invariant manifest == old(manifest)
        invariant ConvertFrom(lib, files, i, m.layers, false, left, torn) ==
          ConvertFrom(lib, old(files), 0, m.layers, false, steps, torn)
      {
        var failed;
        failed, left := DecompressLayer(i, left, torn(i));
        if failed.Some? { return failed.value; }
      }
      outcome := WriteManifest(m.(compressed := false), left);
    }
  }
}

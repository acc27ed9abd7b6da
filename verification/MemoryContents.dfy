/**
 What a session holds after any operations on it, told by the operations: the transcript, the records, the manifest, every
 feature by its position, and the answers.
 */
module MemoryContents {
  import opened Wrappers
  import opened ProviderModel
  import opened MemoryModel

  function After(s: SessionState, ops: seq<Op>): SessionState {
    if ops == [] then s else Apply(After(s, ops[..|ops| - 1]), ops[|ops| - 1]).0
  }

  /** All messages appended, in order. */
  function Spoken(ops: seq<Op>): seq<Message> {
    if ops == [] then []
    else
      var last := ops[|ops| - 1];
      Spoken(ops[..|ops| - 1]) + if last.AppendTranscript? then last.messages else []
  }

  /** The transcript is what was appended, in order, and nothing else touches it. */
  lemma {:induction false} TranscriptTold(s: SessionState, ops: seq<Op>)
    ensures After(s, ops).transcript == s.transcript + Spoken(ops)
  {
    if ops != [] {
      TranscriptTold(s, ops[..|ops| - 1]);
      assert Spoken(ops[..|ops| - 1]) + [] == Spoken(ops[..|ops| - 1]);
    }
  }

  /** The operation fills a session that has no manifest yet. */
  predicate Fills(s: SessionState, ops: seq<Op>, i: nat)
    requires i < |ops|
  {
    ops[i].Initialize? && After(s, ops[..i]).manifest == None
  }

  /** The entries that come in by operations of their own or with the filling of a session. */
  function Noted(s: SessionState, ops: seq<Op>): seq<ProgressEntry> {
    if ops == [] then []
    else
      var n := |ops| - 1;
      Noted(s, ops[..n])
      + if ops[n].AppendProgress? then [ops[n].progress] else if Fills(s, ops, n) && ops[n].entry.Some? then [ops[n].entry.value] else []
  }

  function Checked(s: SessionState, ops: seq<Op>): seq<RunCheckpoint> {
    if ops == [] then []
    else
      var n := |ops| - 1;
      Checked(s, ops[..n])
      + if ops[n].RecordCheckpoint? then [ops[n].run] else if Fills(s, ops, n) && ops[n].checkpoint.Some? then [ops[n].checkpoint.value] else []
  }

  /** Entries and checkpoints are those that came in, in order, none ever lost. */
  lemma {:induction false} RecordsTold(s: SessionState, ops: seq<Op>)
    ensures After(s, ops).progress == s.progress + Noted(s, ops)
    ensures After(s, ops).checkpoints == s.checkpoints + Checked(s, ops)
  {
    if ops != [] {
      var n := |ops| - 1;
      RecordsTold(s, ops[..n]);
      hide Apply;
      RecordsStep(After(s, ops[..n]), ops[n]);
      assert s.progress + Noted(s, ops) == (s.progress + Noted(s, ops[..n])) + Noted(s, ops)[|Noted(s, ops[..n])|..];
      assert s.checkpoints + Checked(s, ops) == (s.checkpoints + Checked(s, ops[..n])) + Checked(s, ops)[|Checked(s, ops[..n])|..];
    }
  }

  lemma RecordsStep(s: SessionState, op: Op)
    ensures Apply(s, op).0.progress == s.progress
      + if op.AppendProgress? then [op.progress] else if op.Initialize? && s.manifest == None && op.entry.Some? then [op.entry.value] else []
    ensures Apply(s, op).0.checkpoints == s.checkpoints
      + if op.RecordCheckpoint? then [op.run] else if op.Initialize? && s.manifest == None && op.checkpoint.Some? then [op.checkpoint.value] else []
  {
    assert s.progress + [] == s.progress && s.checkpoints + [] == s.checkpoints;
  }

  /** The operation gives the session a manifest. */
  predicate Names(s: SessionState, ops: seq<Op>, i: nat)
    requires i < |ops|
  {
    ops[i].SaveManifest? || Fills(s, ops, i)
  }

  /** The manifest is the one given last, and stays absent until one is given. */
  lemma {:induction false} ManifestTold(s: SessionState, ops: seq<Op>, k: nat)
    requires k <= |ops| && (k > 0 ==> Names(s, ops, k - 1)) && forall i :: k <= i < |ops| ==> !Names(s, ops, i)
    ensures After(s, ops).manifest == if k > 0 then Some(ops[k - 1].manifest) else s.manifest
    decreases |ops|
  {
    if ops != [] {
      var n := |ops| - 1;
      if k <= n {
        forall i | 0 <= i < n ensures Names(s, ops[..n], i) <==> Names(s, ops, i) {
          assert ops[..n][..i] == ops[..i];
        }
        ManifestTold(s, ops[..n], k);
        assert !Names(s, ops, n);
      }
    }
  }

  /** The operation gives the session a new feature list. */
  predicate Lists(s: SessionState, ops: seq<Op>, i: nat)
    requires i < |ops|
  {
    ops[i].ReplaceFeatures? || Fills(s, ops, i)
  }

  /** The list given last, before its updates; the one at the start when none was given. */
  function Listed(s: SessionState, ops: seq<Op>, k: nat): seq<FeatureRecord>
    requires k <= |ops|
  {
    if k > 0 && (ops[k - 1].ReplaceFeatures? || ops[k - 1].Initialize?) then ops[k - 1].features else s.features
  }

  /** The update changes the feature at a position: it names its id, and no earlier feature has that id. */
  predicate Hits(op: Op, fs: seq<FeatureRecord>, at: nat)
    requires at < |fs|
  {
    op.UpdateFeaturePass? && op.featureId == fs[at].id && forall j :: 0 <= j < at ==> fs[j].id != fs[at].id
  }

  /**
   Every feature of the list given last keeps its place and its text; it passes as the last update that hit it said, and
   as it came when none did.
   */
  lemma {:induction false} FeatureTold(s: SessionState, ops: seq<Op>, k: nat, at: nat, u: nat)
    requires k <= |ops| && (k > 0 ==> Lists(s, ops, k - 1)) && forall i :: k <= i < |ops| ==> !Lists(s, ops, i)
    requires at < |Listed(s, ops, k)| && k <= u <= |ops|
    requires u > k ==> Hits(ops[u - 1], Listed(s, ops, k), at)
    requires forall i :: u <= i < |ops| ==> !Hits(ops[i], Listed(s, ops, k), at)
    ensures var fs, given := After(s, ops).features, Listed(s, ops, k);
      && |fs| == |given| && (forall i :: 0 <= i < |fs| ==> fs[i].id == given[i].id)
      && fs[at] == given[at].(passes := if u > k then ops[u - 1].passes else given[at].passes)
    decreases |ops|
  {
    if ops != [] {
      var n := |ops| - 1;
      if k <= n {
        forall i | 0 <= i < n ensures Lists(s, ops[..n], i) <==> Lists(s, ops, i) {
          assert ops[..n][..i] == ops[..i];
        }
        assert Listed(s, ops[..n], k) == Listed(s, ops, k) && !Lists(s, ops, n);
        if u <= n {
          FeatureTold(s, ops[..n], k, at, u);
        } else {
          var earlier := LastHit(ops[..n], Listed(s, ops, k), k, at);
          FeatureTold(s, ops[..n], k, at, earlier);
        }
        UpdateStep(After(s, ops[..n]), ops[n], at, Listed(s, ops, k));
      }
    }
  }

  /** The number of operations up to the last one that hit a position, from `k` on. */
  lemma LastHit(ops: seq<Op>, fs: seq<FeatureRecord>, k: nat, at: nat) returns (u: nat)
    requires k <= |ops| && at < |fs|
    ensures k <= u <= |ops| && (u > k ==> Hits(ops[u - 1], fs, at)) && forall i :: u <= i < |ops| ==> !Hits(ops[i], fs, at)
  {
    u := |ops|;
    while u > k && !Hits(ops[u - 1], fs, at)
      invariant k <= u <= |ops| && forall i :: u <= i < |ops| ==> !Hits(ops[i], fs, at)
    {
      u := u - 1;
    }
  }

  lemma UpdateStep(s: SessionState, op: Op, at: nat, given: seq<FeatureRecord>)
    requires !op.ReplaceFeatures? && !(op.Initialize? && s.manifest == None)
    requires |s.features| == |given| && at < |given| && forall i :: 0 <= i < |given| ==> s.features[i].id == given[i].id
    ensures var fs := Apply(s, op).0.features;
      && |fs| == |given| && (forall i :: 0 <= i < |fs| ==> fs[i].id == given[i].id)
      && fs[at] == s.features[at].(passes := if Hits(op, given, at) then op.passes else s.features[at].passes)
  {
    if op.UpdateFeaturePass? {
      var found := FindFeature(s.features, op.featureId);
    }
  }

  /** What each operation answers, and that a refused update and every look leave the session alone. */
  lemma AnswerTold(s: SessionState, op: Op)
    ensures var t, r := Apply(s, op).0, Apply(s, op).1;
      && (op.IsInitialized? ==> r == Flag(s.manifest.Some?) && t == s)
      && (op.Initialize? ==> r == Flag(s.manifest == None) && t.manifest.Some? && (s.manifest.Some? ==> t == s))
      && (op.LoadBootstrap? ==> r == Loaded(BootstrapState(s.manifest, s.features, s.progress, s.checkpoints)) && t == s)
      && (op.LoadTranscript? ==> r == Messages(s.transcript) && t == s)
      && (op.UpdateFeaturePass? ==>
            if exists i :: 0 <= i < |s.features| && s.features[i].id == op.featureId then r == Done else r == Failed(NotFound) && t == s)
      && (op.SaveManifest? || op.AppendProgress? || op.ReplaceFeatures? || op.RecordCheckpoint? || op.AppendTranscript? ==> r == Done)
  {
  }
}

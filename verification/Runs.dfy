/** What holds of every run: every interleaving of the three threads, with any number of crashes and restarts. */
module Runs {
  import opened Bytes
  import opened Distinct
  import opened Layout
  import opened Bits
  import opened PieceCore
  import opened PieceInvariant
  import opened Swarm
  import opened Startup
  import opened SwarmInvariant

  /** `ss[k]` becomes `ss[k + 1]` by step `ls[k]`; the first state is the first start on an empty resume file. */
  ghost predicate IsRun(t: Torrent, ss: seq<Sys>, ls: seq<Label>)
    requires t.Valid()
  {
    && |ss| == |ls| + 1
    && Init(t, ss[0])
    && forall k {:trigger ls[k]} :: 0 <= k < |ls| ==> Enabled(t, ss[k], ls[k]) && ss[k + 1] == Step(t, ss[k], ls[k])
  }

  lemma RunStep(t: Torrent, ss: seq<Sys>, ls: seq<Label>, k: nat)
    requires t.Valid() && IsRun(t, ss, ls) && k < |ls|
    ensures |ss| == |ls| + 1
    ensures Enabled(t, ss[k], ls[k]) && ss[k + 1] == Step(t, ss[k], ls[k])
  {
  }

  lemma {:induction false} RunInv(t: Torrent, ss: seq<Sys>, ls: seq<Label>, k: nat)
    requires t.Valid() && IsRun(t, ss, ls) && k <= |ls|
    ensures Inv(t, ss[k])
  {
    hide Inv, Enabled, Step;
    if k == 0 {
      InitInv(t, ss[0]);
    } else {
      RunInv(t, ss, ls, k - 1);
      StepKeeps(t, ss[k - 1], ls[k - 1]);
    }
  }

  ghost predicate NoCrash(ls: seq<Label>, a: nat, b: nat) {
    forall k :: a <= k < b <= |ls| ==> ls[k] != Crash
  }

  // ---------------------------------------------------------------- nothing indexes out of range

  /** The next step of the io thread and of the writer thread. */
  ghost predicate NextStep(s: Sys, l: Label) {
    || (s.io.Storing? && l == Label.Store)
    || (s.io.Marking? && l == Label.Mark)
    || (s.io.Notifying? && l == Label.Notify)
    || (s.io.Enqueueing? && l == Label.Enqueue)
    || (s.io.Appending? && l == Label.Append)
    || (s.io.Scheduling? && l == Label.Test)
    || (s.io.Picking? && l.Grant?)
    || (s.io.Sending? && l == Label.Send)
    || (s.writer.Idle? && s.core.queue != [] && l == Label.Pop)
    || (s.writer.Popped? && l == Label.Write)
    || (s.writer.Written? && l == Label.Clear)
  }

  /** The guards on steps exclude nothing a thread could do next: no vector is ever indexed out of range. */
  lemma NeverOutOfRange(t: Torrent, ss: seq<Sys>, ls: seq<Label>, k: nat, l: Label)
    requires t.Valid() && IsRun(t, ss, ls) && k <= |ls| && NextStep(ss[k], l)
    ensures Enabled(t, ss[k], l)
  {
    RunInv(t, ss, ls, k);
    var s := ss[k];
    if l == Label.Store {
      StoreBlockOk(t, s.io.piece, s.core.pieces[s.io.piece], s.io.block, s.io.bytes);
    } else if l == Label.Pop {
      assert s.core.queue[0] in Held(s);
    }
  }

  // ---------------------------------------------------------------- completion pipeline

  /** Steps that neither complete a piece nor move one along. */
  lemma PipelineIdle(t: Torrent, s: Sys, l: Label)
    requires t.Valid() && Shaped(t, s) && Enabled(t, s, l)
    requires l.Connect? || l.Drop? || l.Choke? || l.Unchoke? || l.Have? || l.Announce? || l.Answer? || l.Test? || l.Send?
    ensures Gone(Step(t, s, l)) == Gone(s) && Held(Step(t, s, l)) == Held(s)
  {
  }

  /** Steps that change the core but not which pieces are where. */
  lemma PipelineSame(t: Torrent, s: Sys, l: Label)
    requires t.Valid() && Enabled(t, s, l)
    requires l.Mark? || l.Notify? || l.Append? || l.Grant? || l.Visit? || l.Write?
    ensures Gone(Step(t, s, l)) == Gone(s) && Held(Step(t, s, l)) == Held(s)
  {
    hide StoreInRange, Sized, NextBlock, AfterVisit, MarkPiece;
  }

  /** A completed piece joins at the end. */
  lemma PipelineJoins(t: Torrent, s: Sys)
    requires t.Valid() && Enabled(t, s, Label.Store)
    ensures var s' := Step(t, s, Label.Store);
            Gone(s') == Gone(s) && Pipeline(s') == Pipeline(s) + InHand(s'.io)
  {
    hide StoreBlock, Sized, StoreInRange;
    var s' := Step(t, s, Label.Store);
    assert Gone(s') == Gone(s) && Held(s') == Held(s) + InHand(s'.io);
  }

  /** Popping and queueing move a held piece one stage on. */
  lemma PipelinePop(t: Torrent, s: Sys)
    requires t.Valid() && Enabled(t, s, Label.Pop)
    ensures var s' := Step(t, s, Label.Pop);
            Gone(s') == Gone(s) && Held(s') == Held(s)
  {
    hide Sized;
    assert s.core.queue == [s.core.queue[0]] + s.core.queue[1..];
  }

  lemma PipelineEnqueue(t: Torrent, s: Sys)
    requires t.Valid() && Enabled(t, s, Label.Enqueue)
    ensures var s' := Step(t, s, Label.Enqueue);
            Gone(s') == Gone(s) && Held(s') == Held(s)
  {
    hide Sized;
  }

  /** Clearing moves the oldest held piece to the cleared ones. */
  lemma PipelineClear(t: Torrent, s: Sys)
    requires t.Valid() && Enabled(t, s, Label.Clear)
    ensures var s' := Step(t, s, Label.Clear);
            && Gone(s') == Gone(s) + [s.writer.piece]
            && Held(s) == [s.writer.piece] + Held(s')
            && Pipeline(s') == Pipeline(s)
  {
    hide Sized;
    var s' := Step(t, s, Label.Clear);
    assert Gone(s') == Gone(s) + [s.writer.piece];
    assert Held(s) == [s.writer.piece] + Held(s');
  }

  /** Completed pieces only ever join the pipeline at its end, and cleared ones stay cleared. */
  lemma PipelineStep(t: Torrent, s: Sys, l: Label)
    requires t.Valid() && Enabled(t, s, l) && l != Crash
    ensures Pipeline(s) <= Pipeline(Step(t, s, l))
    ensures Gone(s) <= Gone(Step(t, s, l))
  {
    hide Step, Shaped, StoreInRange;
    if l.Store? {
      PipelineJoins(t, s);
    } else if l.Pop? {
      PipelinePop(t, s);
    } else if l.Enqueue? {
      PipelineEnqueue(t, s);
    } else if l.Clear? {
      PipelineClear(t, s);
    } else if l.Mark? || l.Notify? || l.Append? || l.Grant? || l.Visit? || l.Write? {
      PipelineSame(t, s, l);
    } else {
      PipelineIdle(t, s, l);
    }
  }

  lemma {:induction false} PipelineRun(t: Torrent, ss: seq<Sys>, ls: seq<Label>, a: nat, b: nat)
    requires t.Valid() && IsRun(t, ss, ls) && a <= b <= |ls| && NoCrash(ls, a, b)
    ensures Pipeline(ss[a]) <= Pipeline(ss[b])
    decreases b
  {
    hide Inv, Enabled, Step;
    if a == b {
    } else {
      PipelineRun(t, ss, ls, a, b - 1);
      RunInv(t, ss, ls, b - 1);
      PipelineStep(t, ss[b - 1], ls[b - 1]);
    }
  }

  function Times(ids: seq<nat>, i: nat): nat {
    multiset(ids)[i]
  }

  lemma {:induction false} TimesNoDup(ids: seq<nat>, i: nat)
    requires NoDup(ids)
    ensures Times(ids, i) == if i in ids then 1 else 0
  {
    if ids == [] {
    } else {
      TimesNoDup(ids[1..], i);
      assert ids == [ids[0]] + ids[1..];
      assert ids[0] !in ids[1..];
    }
  }

  /**
   * In every reachable state a complete piece is in exactly one stage, and only once there: loaded at start-up,
   * cleared, with the writer, queued, or in the io thread's hands. An incomplete piece is in none.
   */
  lemma OneStage(t: Torrent, ss: seq<Sys>, ls: seq<Label>, k: nat, i: nat)
    requires t.Valid() && IsRun(t, ss, ls) && k <= |ls| && i < |t.hashes|
    ensures i < |ss[k].core.pieces|
    ensures Times(ss[k].resumed, i) + Times(ss[k].cleared, i) + Times(WithWriter(ss[k].writer), i)
              + Times(ss[k].core.queue, i) + Times(InHand(ss[k].io), i)
            == if ss[k].core.pieces[i].isComplete then 1 else 0
  {
    RunInv(t, ss, ls, k);
    TimesNoDup(Pipeline(ss[k]), i);
  }

  // ---------------------------------------------------------------- the unlocked read

  /** The buffer of a held piece is whole and matches its digest. */
  lemma HeldWhole(t: Torrent, s: Sys, i: nat)
    requires t.Valid() && Inv(t, s) && i in Held(s)
    ensures i < |s.core.pieces| == |t.hashes| && s.core.pieces[i].isComplete
    ensures |s.core.pieces[i].data| == t.PieceLen(i) && t.sha1(s.core.pieces[i].data) == t.hashes[i]
  {
    hide BitfieldOk, BytesOk, RequestsOk, IoOk, CreditsOk, OwnersOk, ConnsOk, DiskOk;
    assert i in Pipeline(s);
  }

  /** While the buffer of a complete piece is held, no step but the writer's own clear changes it. */
  lemma HeldStep(t: Torrent, s: Sys, l: Label, i: nat)
    requires t.Valid() && Enabled(t, s, l) && l != Crash
    requires i < |s.core.pieces| && s.core.pieces[i].isComplete
    ensures var s' := Step(t, s, l);
            i < |s'.core.pieces| && (s'.core.pieces[i].data == s.core.pieces[i].data || (l == Label.Clear && s.writer.piece == i))
  {
    hide FirstOpen, PieceOk, MaybeInit, MarkPiece;
    if l.Grant? {
      FirstOpenFound(t, s.core.pieces, s.conns[s.io.peer].has, 0);
    }
  }

  lemma {:induction false} HeldRun(t: Torrent, ss: seq<Sys>, ls: seq<Label>, a: nat, b: nat, i: nat)
    requires t.Valid() && IsRun(t, ss, ls) && a <= b <= |ls| && NoCrash(ls, a, b)
    requires i in Held(ss[a]) && i in Held(ss[b])
    ensures i < |ss[a].core.pieces| && i < |ss[b].core.pieces|
    ensures ss[b].core.pieces[i].data == ss[a].core.pieces[i].data
    decreases b
  {
    hide Inv, Enabled, Step;
    RunInv(t, ss, ls, a);
    if a == b {
      HeldWhole(t, ss[a], i);
    } else {
      StillHeld(t, ss, ls, a, b, i);
      HeldRun(t, ss, ls, a, b - 1, i);
      RunInv(t, ss, ls, b - 1);
      HeldWhole(t, ss[b - 1], i);
      HeldStep(t, ss[b - 1], ls[b - 1], i);
      if ls[b - 1] == Label.Clear {
        NotHeldAfterClear(t, ss[b - 1]);
      }
    }
  }

  /** Clearing takes a piece out of the held ones for good. */
  lemma NotHeldAfterClear(t: Torrent, s: Sys)
    requires t.Valid() && Inv(t, s) && Enabled(t, s, Label.Clear)
    ensures s.writer.piece !in Held(Step(t, s, Label.Clear))
  {
    hide BitfieldOk, BytesOk, RequestsOk, IoOk, CreditsOk, OwnersOk, ConnsOk, DiskOk, PieceOk;
    ClearKeeps(t, s);
  }

  lemma StillHeld(t: Torrent, ss: seq<Sys>, ls: seq<Label>, a: nat, b: nat, i: nat)
    requires t.Valid() && IsRun(t, ss, ls) && a < b <= |ls| && NoCrash(ls, a, b)
    requires i in Held(ss[a]) && i in Held(ss[b])
    ensures i in Held(ss[b - 1])
  {
    hide Inv, Enabled, Step;
    RunInv(t, ss, ls, b - 1);
    RunInv(t, ss, ls, b);
    PipelineRun(t, ss, ls, a, b - 1);
    PipelineStep(t, ss[b - 1], ls[b - 1]);
    assert i in Pipeline(ss[a]);
    assert i in Pipeline(ss[b - 1]);
    if i in Gone(ss[b - 1]) {
      assert i in Gone(ss[b]);
      GoneOrHeld(t, ss[b], i);
    }
  }

  lemma GoneOrHeld(t: Torrent, s: Sys, i: nat)
    requires t.Valid() && Inv(t, s)
    ensures i !in Gone(s) || i !in Held(s)
  {
    hide PieceOk, BitfieldOk, BytesOk, RequestsOk, IoOk, CreditsOk, OwnersOk, ConnsOk, DiskOk;
  }

  /** The writer's write lays the buffer of its piece over the content. */
  lemma WriteLays(t: Torrent, s: Sys)
    requires t.Valid() && Enabled(t, s, Label.Write)
    ensures |s.core.pieces| == |t.hashes| && s.writer.piece in Held(s) && s.writer.piece < |t.hashes|
    ensures Step(t, s, Label.Write).flat == Overlay(s.flat, t.Start(s.writer.piece), s.core.pieces[s.writer.piece].data)
  {
  }

  /**
   * The writer reads the buffer without the lock. What it reads is the buffer that passed the hash check when the
   * piece was completed, whatever happened in between.
   */
  lemma WriterReadsVerified(t: Torrent, ss: seq<Sys>, ls: seq<Label>, c: nat, w: nat, i: nat)
    requires t.Valid() && IsRun(t, ss, ls) && c < w < |ls| && NoCrash(ls, c, w) && i < |t.hashes|
    requires ls[c] == Label.Store && ss[c + 1].io.Marking? && ss[c + 1].io.piece == i
    requires ls[w] == Label.Write && ss[w].writer.piece == i
    ensures |ss[c + 1].core.pieces| == |ss[w].core.pieces| == |t.hashes|
    ensures var data := ss[c + 1].core.pieces[i].data;
            && ss[w].core.pieces[i].data == data && |data| == t.PieceLen(i) && t.sha1(data) == t.hashes[i]
            && ss[w + 1].flat == Overlay(ss[w].flat, t.Start(i), data)
  {
    hide Inv, Enabled, Step;
    RunInv(t, ss, ls, c + 1);
    RunInv(t, ss, ls, w);
    HeldWhole(t, ss[c + 1], i);
    WriteLays(t, ss[w]);
    HeldRun(t, ss, ls, c + 1, w, i);
  }

  /**
   * In every reachable state what waits to be written has the digest of its own piece, and so has every piece ever
   * written, on disk.
   */
  lemma Verified(t: Torrent, ss: seq<Sys>, ls: seq<Label>, k: nat, i: nat)
    requires t.Valid() && k <= |ls| < |ss| && IsRun(t, ss, ls)
    ensures i in Held(ss[k]) ==>
              && i < |ss[k].core.pieces| == |t.hashes| && |ss[k].core.pieces[i].data| == t.PieceLen(i)
              && t.sha1(ss[k].core.pieces[i].data) == t.hashes[i]
    ensures i in ss[k].everWritten ==> i < |t.hashes| && t.sha1(Slice(t, ss[k].flat, i)) == t.hashes[i]
  {
    hide IsRun, Inv, Slice;
    RunInv(t, ss, ls, k);
    WrittenMatches(t, ss[k], i);
    if i in Held(ss[k]) {
      HeldWhole(t, ss[k], i);
    }
  }

  // ---------------------------------------------------------------- disk integrity

  /**
   * Piece `i` is on disk for good, as far as this process goes: it was written, by this or an earlier process, and is
   * past the writer, cleared or loaded at start-up; or the writer has just written it.
   */
  predicate WrittenNow(s: Sys, i: nat) {
    (i in s.everWritten && i in Gone(s)) || s.writer == Written(i)
  }

  lemma WrittenStep(t: Torrent, s: Sys, l: Label, i: nat)
    requires t.Valid() && Inv(t, s) && Enabled(t, s, l) && l != Crash && WrittenNow(s, i) && i < |t.hashes|
    ensures WrittenNow(Step(t, s, l), i)
    ensures Slice(t, Step(t, s, l).flat, i) == Slice(t, s.flat, i)
  {
    hide Inv, StoreBlock, NextBlock, Slice;
    WrittenMatches(t, s, i);
    if l == Label.Write {
      WriteElsewhere(t, s, i);
    }
  }

  /** The writer never writes over a piece that is past it. */
  lemma WriteElsewhere(t: Torrent, s: Sys, i: nat)
    requires t.Valid() && Inv(t, s) && Enabled(t, s, Label.Write) && i in Gone(s) && i < |t.hashes|
    ensures Slice(t, Step(t, s, Label.Write).flat, i) == Slice(t, s.flat, i)
  {
    hide Inv, Slice;
    var k := s.writer.piece;
    assert k in Held(s) && i in Gone(s);
    GoneOrHeld(t, s, i);
    HeldWhole(t, s, k);
    SliceAfterWrite(t, s.flat, k, s.core.pieces[k].data, i);
  }

  /**
   * Disk integrity: a piece written by this process, or loaded by it and written by an earlier one, hashes to its
   * digest on disk, and no later step of any thread changes those bytes.
   */
  lemma {:induction false} DiskIntegrity(t: Torrent, ss: seq<Sys>, ls: seq<Label>, a: nat, b: nat, i: nat)
    requires t.Valid() && IsRun(t, ss, ls) && a <= b <= |ls| && NoCrash(ls, a, b)
    requires i < |t.hashes| && WrittenNow(ss[a], i)
    ensures WrittenNow(ss[b], i)
    ensures Slice(t, ss[b].flat, i) == Slice(t, ss[a].flat, i)
    ensures t.sha1(Slice(t, ss[b].flat, i)) == t.hashes[i]
    decreases b
  {
    hide Enabled, Step, Inv, Slice, WrittenNow;
    if a == b {
    } else {
      DiskIntegrity(t, ss, ls, a, b - 1, i);
      RunInv(t, ss, ls, b - 1);
      WrittenStep(t, ss[b - 1], ls[b - 1], i);
    }
    RunInv(t, ss, ls, b);
    WrittenMatches(t, ss[b], i);
  }

  lemma WrittenStays(t: Torrent, s: Sys, l: Label)
    requires t.Valid() && Enabled(t, s, l)
    ensures s.everWritten <= Step(t, s, l).everWritten
  {
  }

  lemma WrittenMatches(t: Torrent, s: Sys, i: nat)
    requires t.Valid() && Inv(t, s)
    ensures WrittenNow(s, i) ==> i in s.everWritten
    ensures i in s.everWritten ==> i < |t.hashes| && t.sha1(Slice(t, s.flat, i)) == t.hashes[i]
  {
  }

  /** Across crashes a piece once written may be rewritten, but what is on disk never stops matching its digest. */
  lemma {:induction false} DiskIntegrityAcrossCrashes(t: Torrent, ss: seq<Sys>, ls: seq<Label>, a: nat, b: nat, i: nat)
    requires t.Valid() && IsRun(t, ss, ls) && a <= b <= |ls| && WrittenNow(ss[a], i)
    ensures i in ss[b].everWritten && i < |t.hashes| && t.sha1(Slice(t, ss[b].flat, i)) == t.hashes[i]
    decreases b
  {
    hide Enabled, Step, Inv;
    RunInv(t, ss, ls, b);
    WrittenMatches(t, ss[b], i);
    if a == b {
    } else {
      DiskIntegrityAcrossCrashes(t, ss, ls, a, b - 1, i);
      WrittenStays(t, ss[b - 1], ls[b - 1]);
    }
  }

  lemma RecordsStep(t: Torrent, s: Sys, l: Label)
    requires t.Valid() && Enabled(t, s, l)
    ensures s.core.resume <= Step(t, s, l).core.resume
  {
    hide StoreBlock, NextBlock, StoreInRange, Sized, MarkPiece, LoadUpTo, AfterVisit, Returned;
    if l == Crash {
      LoadedPieces(t, s.core.resume, |s.core.resume|);
    }
  }

  /** A restart loads a recorded piece, and what was on disk is still there. */
  lemma RecordedRestart(t: Torrent, s: Sys, i: nat)
    requires t.Valid() && Inv(t, s) && Enabled(t, s, Crash) && WrittenNow(s, i) && i in s.core.resume
    ensures WrittenNow(Step(t, s, Crash), i) && Step(t, s, Crash).flat == s.flat
  {
    hide Inv, Boot;
    WrittenMatches(t, s, i);
  }

  /** Once a piece is written and recorded its bytes never change again, whatever crashes and restarts follow. */
  lemma {:induction false} DiskForGood(t: Torrent, ss: seq<Sys>, ls: seq<Label>, a: nat, b: nat, i: nat)
    requires t.Valid() && IsRun(t, ss, ls) && a <= b <= |ls|
    requires i < |t.hashes| && WrittenNow(ss[a], i) && i in ss[a].core.resume
    ensures WrittenNow(ss[b], i) && i in ss[b].core.resume
    ensures Slice(t, ss[b].flat, i) == Slice(t, ss[a].flat, i)
    ensures t.sha1(Slice(t, ss[b].flat, i)) == t.hashes[i]
    decreases b
  {
    hide Enabled, Step, Inv, Slice, WrittenNow;
    RunInv(t, ss, ls, b);
    if a == b {
    } else {
      DiskForGood(t, ss, ls, a, b - 1, i);
      var s, l := ss[b - 1], ls[b - 1];
      RunInv(t, ss, ls, b - 1);
      RunStep(t, ss, ls, b - 1);
      RecordsStep(t, s, l);
      if l == Crash {
        RecordedRestart(t, s, i);
      } else {
        WrittenStep(t, s, l, i);
      }
    }
    WrittenMatches(t, ss[b], i);
  }
}

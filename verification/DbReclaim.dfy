/** Replacing a nearly full database by a compacted copy, across two filesystems one of
    which may not survive a restart. */
module DbReclaim {

  /** A database file: whole, with the accounts it holds, or cut short by a copy. */
  datatype File = Absent | Partial | Whole(accounts: nat)

  /** `live` and `beside` are on the volume; `staging` and `marker` on the container. */
  datatype Disks = Disks(live: File, beside: File, staging: File, marker: bool)

  /** Where the one running `reclaimIfTight` is. `Serving` is anywhere outside it. */
  datatype Pc =
    | Serving | Booting | Restoring | Unmarking
    | Counting | Clearing | Vacuuming | Retaining | CopyingOut | CopyOpen | Checking | Marking | Swapping

  /** The file the process serves from: none yet, the one at the live path, or one that a
      rename has since replaced there and that the next open will not find. */
  datatype Handle = Closed | AtPath | Detached(accounts: nat)

  /** `counted` is what the last account count to run produced, zero if it failed, and
      `booted` says that the pass every process begins with is over. */
  datatype State = State(pc: Pc, disks: Disks, counted: nat, handle: Handle, booted: bool)

  datatype CopyResult = Finished | ThrewAtOnce | ThrewMidway
  datatype Compaction = Wrote(accounts: nat) | Left(file: File)

  /** Everything outside the code's control in one pass: which calls throw, and what the
      compaction leaves. Rename is atomic: it happens or it throws. */
  datatype Faults = Faults(
    tight: bool,
    restore: CopyResult, unmarkThrows: bool,
    deadStuck: bool, countThrows: bool, clearThrows: bool,
    vacuum: Compaction, retention: Compaction,
    copyOut: CopyResult, removeThrows: bool, checkThrows: bool,
    markThrows: bool, marked: bool, renameThrows: bool
  )

  function Removed(f: File, throws: bool): File {
    if throws then f else Absent
  }

  /** Give up: the copy beside the database is removed, errors ignored. */
  function Abandon(s: State, f: Faults): State {
    s.(pc := Serving, disks := s.disks.(beside := Removed(s.disks.beside, f.removeThrows)))
  }

  /** One step of the pass, up to the next point where the process can stop. */
  function Advance(s: State, f: Faults): State {
    var d := s.disks;
    match s.pc
    case Serving => s
    case Booting =>
      if d.marker then
        if d.staging == Absent || f.restore == ThrewAtOnce then s.(pc := Unmarking)
        else s.(pc := Restoring, disks := d.(live := Partial))
      else if d.live == Absent || !f.tight then s.(pc := Serving)
      else s.(pc := Counting, disks := d.(beside := Removed(d.beside, f.deadStuck)))
    case Restoring =>
      s.(pc := Unmarking, disks := d.(live := if f.restore == Finished then d.staging else Partial))
    case Unmarking => s.(pc := Serving, disks := d.(marker := d.marker && f.unmarkThrows))
    case Counting =>
      s.(pc := Clearing, counted := if d.live.Whole? && !f.countThrows then d.live.accounts else 0)
    case Clearing => s.(pc := Vacuuming, disks := d.(staging := Removed(d.staging, f.clearThrows)))
    case Vacuuming =>
      (match f.vacuum
       case Wrote(n) => s.(pc := Retaining, disks := d.(staging := Whole(n)))
       case Left(file) => s.(pc := Serving, disks := d.(staging := file)))
    case Retaining =>
      (match f.retention
       case Wrote(n) => s.(pc := CopyingOut, disks := d.(staging := Whole(n)))
       case Left(file) => s.(pc := Serving, disks := d.(staging := file)))
    case CopyingOut =>
      if f.copyOut == ThrewAtOnce then Abandon(s, f)
      else s.(pc := CopyOpen, disks := d.(beside := Partial))
    case CopyOpen =>
      if f.copyOut == Finished then s.(pc := Checking, disks := d.(beside := d.staging))
      else Abandon(s, f)
    case Checking =>
      if f.checkThrows || !d.beside.Whole? || d.beside.accounts < s.counted then Abandon(s, f)
      else s.(pc := Marking)
    case Marking =>
      if f.markThrows then s.(pc := Serving, disks := d.(marker := f.marked))
      else s.(pc := Swapping, disks := d.(marker := true))
    case Swapping =>
      if f.renameThrows then s.(pc := Serving)
      else s.(pc := Unmarking, disks := d.(live := d.beside, beside := Absent), handle := Unlinked(s.handle, d.live))
  }

  /** A connection keeps the file it opened when another is renamed over its path. */
  function Unlinked(handle: Handle, replaced: File): Handle {
    if handle.AtPath? then Detached(if replaced.Whole? then replaced.accounts else 0) else handle
  }

  /** What can happen to the machine: the pass moves on, starts again (from a retention
      sweep while the site is being served), the one connection of the process is opened,
      the site records new accounts through it (even in the middle of a pass), or
      everything stops. */
  datatype Event = Moved(faults: Faults) | Started | Opened | Wrote(accounts: nat) | Crashed(diskLost: bool)

  function Step(s: State, e: Event): State {
    match e
    case Moved(f) =>
      var next := Advance(s, f);
      if next.pc == Serving then next.(booted := true) else next
    case Started => if s.pc == Serving then s.(pc := Booting) else s
    case Opened => if s.booted && s.handle == Closed then Connected(s) else s
    case Wrote(n) => Recorded(s, n)
    case Crashed(lost) =>
      State(Booting, if lost then s.disks.(staging := Absent, marker := false) else s.disks, s.counted, Closed, false)
  }

  /** Opening makes an empty database where there is none, and fails on part of one. */
  function Connected(s: State): State {
    match s.disks.live
    case Absent => s.(handle := AtPath, disks := s.disks.(live := Whole(0)))
    case Partial => s
    case Whole(_) => s.(handle := AtPath)
  }

  function Recorded(s: State, n: nat): State {
    match s.handle
    case Closed => s
    case AtPath => if s.disks.live.Whole? then s.(disks := s.disks.(live := Whole(s.disks.live.accounts + n))) else s
    case Detached(held) => s.(handle := Detached(held + n))
  }

  function Run(s: State, es: seq<Event>): State {
    if es == [] then s else Step(Run(s, es[..|es| - 1]), es[|es| - 1])
  }

  // ----- The pass, in the source's own order -----

  /** The two disks, changed in place by one pass of `reclaimIfTight`. */
  class Host {
    var live: File
    var beside: File
    var staging: File
    var marker: bool
    var counted: nat
    var handle: Handle
    var booted: bool

    /** The machine, where the pass has got to `pc`. */
    ghost function At(pc: Pc): State
      reads this
    {
      State(pc, Disks(live, beside, staging, marker), counted, handle, booted)
    }

    constructor (accounts: nat)
      ensures At(Booting) == Boot(accounts)
    {
      live, beside, staging, marker, counted := Whole(accounts), Absent, Absent, false, 0;
      handle, booted := Closed, false;
    }

    method RemoveBeside(f: Faults)
      modifies this`beside
      ensures beside == Removed(old(beside), f.removeThrows)
    {
      if !f.removeThrows { beside := Absent; }
    }

    /** Returns whether the copy completed; a throw midway leaves part of the file. */
    method CopyStagingBeside(f: Faults) returns (ok: bool)
      modifies this`beside
      ensures ok <==> f.copyOut == Finished
      ensures beside == match f.copyOut case Finished => staging case ThrewAtOnce => old(beside) case ThrewMidway => Partial
    {
      if f.copyOut == ThrewAtOnce { return false; }
      beside := Partial;
      if f.copyOut == ThrewMidway { return false; }
      beside := staging;
      return true;
    }

    /** One pass. Uninterrupted, it ends where the step machine ends. */
    method ReclaimIfTight(f: Faults)
      modifies this
      ensures At(Serving) == Pass(old(At(Booting)), f)
    {
      ghost var s := Advance(At(Booting), f);
      assert Pass(At(Booting), f) == Pass(s, f);
      if marker {
        if staging != Absent {
          if f.restore != ThrewAtOnce {
            live := Partial;
            if f.restore == Finished { live := staging; }
            assert Pass(s, f) == Pass(Advance(s, f), f);
            s := Advance(s, f);
          }
        }
        assert s == At(Unmarking) && Pass(s, f) == Pass(Advance(s, f), f);
        if !f.unmarkThrows { marker := false; }
        return;
      }
      if live == Absent { return; }
      if !f.tight { return; }
      if !f.deadStuck { beside := Absent; }

      var compacted := Compact(f);
      if compacted {
        SwapIn(f);
      }
    }

    /** Steps 1 and 2: count, copy off the volume, drop history. */
    method Compact(f: Faults) returns (ok: bool)
      modifies this`counted, this`staging
      ensures Pass(At(if ok then CopyingOut else Serving), f) == Pass(old(At(Counting)), f)
    {
      var accountsBefore := 0;
      if live.Whole? && !f.countThrows { accountsBefore := live.accounts; }
      counted := accountsBefore;
      assert At(Clearing) == Advance(old(At(Counting)), f);
      if !f.clearThrows { staging := Absent; }
      assert At(Vacuuming) == Advance(Advance(old(At(Counting)), f), f);
      ok := Stage(f);
    }

    /** The copy off the volume, and what retention leaves of it. */
    method Stage(f: Faults) returns (ok: bool)
      modifies this`staging
      ensures Pass(At(if ok then CopyingOut else Serving), f) == Pass(old(At(Vacuuming)), f)
    {
      match f.vacuum {
        case Wrote(n) => staging := Whole(n);
        case Left(file) => staging := file; return false;
      }
      assert At(Retaining) == Advance(old(At(Vacuuming)), f);
      match f.retention {
        case Wrote(n) => staging := Whole(n); return true;
        case Left(file) => staging := file; return false;
      }
    }

    /** Step 3: bring the copy onto the volume, check it, rename it over the live file. */
    method SwapIn(f: Faults)
      modifies this`live, this`beside, this`marker, this`handle
      ensures At(Serving) == Pass(old(At(CopyingOut)), f)
    {
      var checked := BringBeside(f);
      if checked { Replace(f); }
    }

    /** The copy, and whether it holds what must survive. */
    method BringBeside(f: Faults) returns (ok: bool)
      modifies this`beside
      ensures Pass(At(if ok then Marking else Serving), f) == Pass(old(At(CopyingOut)), f)
    {
      ghost var s := Advance(old(At(CopyingOut)), f);
      var copied := CopyStagingBeside(f);
      if !copied {
        RemoveBeside(f);
        assert Pass(old(At(CopyingOut)), f) == if s.pc == CopyOpen then Pass(Advance(s, f), f) else s;
        return false;
      }
      assert At(Checking) == Advance(s, f) && Pass(s, f) == Pass(At(Checking), f);
      if f.checkThrows || !beside.Whole? || beside.accounts < counted {
        RemoveBeside(f);
        return false;
      }
      return true;
    }

    /** Mark, rename, unmark. */
    method Replace(f: Faults)
      modifies this`live, this`beside, this`marker, this`handle
      ensures At(Serving) == Pass(old(At(Marking)), f)
    {
      ghost var s := At(Marking);
      assert Pass(s, f) == Pass(Advance(s, f), f);
      if f.markThrows {
        marker := f.marked;
        return;
      }
      marker := true;
      s := At(Swapping);
      assert Pass(s, f) == Pass(Advance(s, f), f);
      if f.renameThrows { return; }
      handle := Unlinked(handle, live);
      live := beside;
      beside := Absent;
      s := At(Unmarking);
      assert Pass(s, f) == Pass(Advance(s, f), f);
      if !f.unmarkThrows { marker := false; }
    }

    /** Set the database aside only when the check says it is damaged; a check that could
        not run leaves it where it is. A rename that throws is logged and ignored. */
    method RecoverIfCorrupt(probe: Probe, renameThrows: bool) returns (aside: File)
      modifies this`live
      ensures var damaged := if probe.Reported? then "ok" !in probe.values else probe.malformed;
        if old(live) != Absent && damaged && !renameThrows then aside == old(live) && live == Absent
        else aside == Absent && live == old(live)
    {
      aside := Absent;
      if live == Absent { return; }
      if VerdictOf(probe) != Damaged { return; }
      if !renameThrows {
        aside, live := live, Absent;
      }
    }
  }

  /** What the integrity check came back with: the values of its first row, or an error,
      which may or may not be one that means a malformed file. */
  datatype Probe = Reported(values: seq<string>) | Errored(malformed: bool)

  datatype Verdict = Sound | Damaged | Unknown

  function VerdictOf(probe: Probe): Verdict {
    match probe
    case Reported(values) => if "ok" in values then Sound else Damaged
    case Errored(malformed) => if malformed then Damaged else Unknown
  }

  function Rank(pc: Pc): nat {
    match pc
    case Serving => 0 case Unmarking => 1 case Restoring => 2 case Swapping => 2 case Marking => 3
    case Checking => 4 case CopyOpen => 5 case CopyingOut => 6 case Retaining => 7 case Vacuuming => 8
    case Clearing => 9 case Counting => 10 case Booting => 11
  }

  /** A whole uninterrupted pass of the step machine. */
  function Pass(s: State, f: Faults): State
    decreases Rank(s.pc)
  {
    if s.pc == Serving then s else Pass(Advance(s, f), f)
  }

  // ----- What one pass comes to -----

  /** A pass that finds the marker restores, and touches nothing else: the staged copy goes
      over the live file unless there is none or the copy never begins, and one that stops
      midway leaves part of it. */
  lemma RestoringPass(s: State, f: Faults)
    requires s.pc == Booting && s.disks.marker
    ensures var d := s.disks;
      var restored := if d.staging == Absent || f.restore == ThrewAtOnce then d.live
                      else if f.restore == Finished then d.staging else Partial;
      Pass(s, f) == State(Serving, Disks(restored, d.beside, d.staging, f.unmarkThrows), s.counted, s.handle, s.booted)
  {
    var t := Advance(s, f);
    assert Pass(s, f) == Pass(t, f) == Pass(Advance(t, f), f);
    if t.pc == Restoring {
      ThreeMoves(s, f);
    }
  }

  /** One with no database, or on a volume that is not tight, does nothing at all. */
  lemma IdlePass(s: State, f: Faults)
    requires s.pc == Booting && !s.disks.marker && (s.disks.live == Absent || !f.tight)
    ensures Pass(s, f) == s.(pc := Serving)
  {
    assert Pass(s, f) == Pass(Advance(s, f), f);
  }

  /** The staged copy replaces the live file only whole, checked and with the accounts that
      were counted. */
  predicate Fits(live: File, f: Faults) {
    && f.vacuum.Wrote? && f.retention.Wrote? && f.copyOut == Finished && !f.checkThrows
    && (live.Whole? && !f.countThrows ==> f.retention.accounts >= live.accounts)
  }

  /** Any other pass compacts. The live file is replaced exactly if the copy fits and is
      renamed; the marker is left exactly where the rename may be half done; a connection
      open through a replacement keeps the replaced file; and a copy that goes no further
      is removed from the volume unless removing throws. */
  lemma CompactingPass(s: State, f: Faults)
    requires s.pc == Booting && !s.disks.marker && s.disks.live != Absent && f.tight
    ensures var d, t := s.disks, Pass(s, f);
      var swaps := Fits(d.live, f) && !f.markThrows && !f.renameThrows;
      && t.pc == Serving && t.booted == s.booted
      && t.counted == (if d.live.Whole? && !f.countThrows then d.live.accounts else 0)
      && t.disks.live == (if swaps then Whole(f.retention.accounts) else d.live)
      && t.disks.staging == (if f.vacuum.Left? then f.vacuum.file
                             else if f.retention.Left? then f.retention.file else Whole(f.retention.accounts))
      && (t.disks.marker <==> Fits(d.live, f) && if f.markThrows then f.marked else f.renameThrows || f.unmarkThrows)
      && t.handle == (if swaps && s.handle.AtPath? then Detached(if d.live.Whole? then d.live.accounts else 0) else s.handle)
      && t.disks.beside == LeftBeside(d, f)
  {
    hide Pass;
    if f.vacuum.Left? || f.retention.Left? {
      hide Fits, LeftBeside;
      PassWithoutCopy(s, f);
    } else if Fits(s.disks.live, f) {
      PassWithCopy(s, f);
    } else {
      PassWithBadCopy(s, f);
    }
  }

  /** What a compacting pass counts, and where it stands once it has swept up. */
  function CountedIn(s: State, f: Faults): nat {
    if s.disks.live.Whole? && !f.countThrows then s.disks.live.accounts else 0
  }

  function Swept(s: State, f: Faults): State {
    s.(pc := Counting, disks := s.disks.(beside := if f.deadStuck then s.disks.beside else Absent))
  }

  lemma PassWithoutCopy(s: State, f: Faults)
    requires s.pc == Booting && !s.disks.marker && s.disks.live != Absent && f.tight
    requires f.vacuum.Left? || f.retention.Left?
    ensures Pass(s, f) == Swept(s, f).(pc := Serving, counted := CountedIn(s, f),
              disks := Swept(s, f).disks.(staging := if f.vacuum.Left? then f.vacuum.file else f.retention.file))
  {
    hide Pass, Advance;
    BeginsCompacting(s, f);
    OneMove(s, f);
    StagedFrom(Swept(s, f), f);
  }

  /** A copy has been staged. */
  function WithCopy(s: State, f: Faults): State
    requires f.retention.Wrote?
  {
    Swept(s, f).(pc := CopyingOut, counted := CountedIn(s, f),
                 disks := Swept(s, f).disks.(staging := Whole(f.retention.accounts)))
  }

  lemma PassWithBadCopy(s: State, f: Faults)
    requires s.pc == Booting && !s.disks.marker && s.disks.live != Absent && f.tight
    requires f.vacuum.Wrote? && f.retention.Wrote? && !Fits(s.disks.live, f)
    ensures Pass(s, f) == WithCopy(s, f).(pc := Serving, disks := WithCopy(s, f).disks.(beside := LeftBeside(s.disks, f)))
  {
    hide Pass, Advance;
    BeginsCompacting(s, f);
    OneMove(s, f);
    StagedFrom(Swept(s, f), f);
    BroughtFrom(WithCopy(s, f), f);
  }

  lemma PassWithCopy(s: State, f: Faults)
    requires s.pc == Booting && !s.disks.marker && s.disks.live != Absent && f.tight && Fits(s.disks.live, f)
    ensures var copy, d := Whole(f.retention.accounts), s.disks;
      var t := WithCopy(s, f).(pc := Serving);
      Pass(s, f) == if f.markThrows then t.(disks := Disks(d.live, copy, copy, f.marked))
                    else if f.renameThrows then t.(disks := Disks(d.live, copy, copy, true))
                    else t.(disks := Disks(copy, Absent, copy, f.unmarkThrows),
                            handle := if s.handle.AtPath? then Detached(if d.live.Whole? then d.live.accounts else 0) else s.handle)
  {
    hide Pass, Advance;
    BeginsCompacting(s, f);
    OneMove(s, f);
    StagedFrom(Swept(s, f), f);
    BroughtFrom(WithCopy(s, f), f);
    ReplacedFrom(WithCopy(s, f).(pc := Marking, disks := WithCopy(s, f).disks.(beside := Whole(f.retention.accounts))), f);
  }

  lemma BeginsCompacting(s: State, f: Faults)
    requires s.pc == Booting && !s.disks.marker && s.disks.live != Absent && f.tight
    ensures Advance(s, f) == s.(pc := Counting, disks := s.disks.(beside := if f.deadStuck then s.disks.beside else Absent))
  {
  }

  /** What a compacting pass leaves beside the live file: nothing, unless something throws. */
  function LeftBeside(d: Disks, f: Faults): File {
    var dead := if f.deadStuck then d.beside else Absent;
    if f.vacuum.Left? || f.retention.Left? then dead
    else if Fits(d.live, f) then (if f.markThrows || f.renameThrows then Whole(f.retention.accounts) else Absent)
    else if !f.removeThrows then Absent
    else match f.copyOut
      case ThrewAtOnce => dead
      case ThrewMidway => Partial
      case Finished => Whole(f.retention.accounts)
  }

  lemma StagedFrom(s: State, f: Faults)
    requires s.pc == Counting
    ensures var counted := if s.disks.live.Whole? && !f.countThrows then s.disks.live.accounts else 0;
      Pass(s, f) == if f.vacuum.Left? then s.(pc := Serving, counted := counted, disks := s.disks.(staging := f.vacuum.file))
                    else if f.retention.Left? then s.(pc := Serving, counted := counted, disks := s.disks.(staging := f.retention.file))
                    else Pass(s.(pc := CopyingOut, counted := counted, disks := s.disks.(staging := Whole(f.retention.accounts))), f)
  {
    hide Pass;
    var t := Advance(Advance(s, f), f);
    OneMove(s, f);
    OneMove(Advance(s, f), f);
    OneMove(t, f);
    OneMove(Advance(t, f), f);
    OneMove(Advance(Advance(t, f), f), f);
  }

  lemma OneMove(s: State, f: Faults)
    ensures Pass(s, f) == if s.pc == Serving then s else Pass(Advance(s, f), f)
  {
  }

  lemma BroughtFrom(s: State, f: Faults)
    requires s.pc == CopyingOut && s.disks.staging.Whole?
    ensures var d := s.disks;
      var over := s.(pc := Serving, disks := d.(beside := if !f.removeThrows then Absent
                                                          else match f.copyOut
                                                            case ThrewAtOnce => d.beside
                                                            case ThrewMidway => Partial
                                                            case Finished => d.staging));
      Pass(s, f) == if f.copyOut == Finished && !f.checkThrows && d.staging.accounts >= s.counted
                    then Pass(s.(pc := Marking, disks := d.(beside := d.staging)), f) else over
  {
    hide Pass;
    var t := Advance(s, f);
    OneMove(s, f);
    OneMove(t, f);
    OneMove(Advance(t, f), f);
    OneMove(Advance(Advance(t, f), f), f);
  }

  lemma ReplacedFrom(s: State, f: Faults)
    requires s.pc == Marking
    ensures Pass(s, f) ==
      if f.markThrows then s.(pc := Serving, disks := s.disks.(marker := f.marked))
      else if f.renameThrows then s.(pc := Serving, disks := s.disks.(marker := true))
      else s.(pc := Serving, disks := Disks(s.disks.beside, Absent, s.disks.staging, f.unmarkThrows),
              handle := if s.handle.AtPath? then Detached(if s.disks.live.Whole? then s.disks.live.accounts else 0) else s.handle)
  {
    hide Pass;
    var t := Advance(s, f);
    OneMove(s, f);
    OneMove(t, f);
    OneMove(Advance(t, f), f);
    OneMove(Advance(Advance(t, f), f), f);
  }

  /** The compaction writes to a path that has been cleared for it, unless that threw. */
  lemma CompactsIntoNothing(s: State, f: Faults)
    requires s.pc == Clearing
    ensures Advance(s, f) == s.(pc := Vacuuming, disks := s.disks.(staging := if f.clearThrows then s.disks.staging else Absent))
  {
  }

  /** Opening serves whatever whole database is at the path, makes an empty one where there
      is none, and fails on part of one; what is recorded goes to the file that was opened,
      wherever that is by now, and nowhere while none is. */
  lemma OpensAndRecords(s: State, n: nat)
    requires s.booted
    ensures var t := Step(s, Opened);
      && (s.handle == Closed ==>
            && (t.handle == AtPath <==> s.disks.live != Partial) && (t.handle == Closed <==> s.disks.live == Partial)
            && t.disks == s.disks.(live := if s.disks.live == Absent then Whole(0) else s.disks.live))
      && (s.handle != Closed ==> t == s)
    ensures var t := Step(s, Event.Wrote(n));
      && (s.handle == Closed ==> t == s)
      && (s.handle == AtPath && s.disks.live.Whole? ==>
            t.handle == AtPath && t.disks == s.disks.(live := Whole(s.disks.live.accounts + n)))
      && (s.handle.Detached? ==> t.disks == s.disks && t.handle == Detached(s.handle.accounts + n))
  {
  }

  // ----- Crash safety -----

  predicate LiveHolds(s: State) {
    s.disks.live.Whole? && s.disks.live.accounts >= s.counted
  }

  predicate Inv(s: State) {
    var d := s.disks;
    && (s.booted || s.handle == Closed)
    && (d.marker ==> d.staging.Whole? && d.staging.accounts >= s.counted)
    && (LiveHolds(s) || (d.live == Partial && d.marker && (s.pc == Booting || s.pc == Restoring)))
    && match s.pc
       case Serving | Booting => true
       case Restoring => d.live == Partial
       case Unmarking => true
       case Counting | Clearing | Vacuuming | Retaining | CopyingOut | CopyOpen => !d.marker
       case Checking => !d.marker && d.beside == d.staging
       case Marking => !d.marker && d.beside == d.staging && d.beside.Whole? && d.beside.accounts >= s.counted
       case Swapping => d.marker && d.beside == d.staging && d.beside.Whole?
  }

  /** The one assumption: a restore from the staged copy, once begun, completes before the
      container disk is lost. */
  predicate RestoreCompletes(s: State, e: Event) {
    var pending := s.disks.marker && s.disks.live == Partial;
    match e
    case Moved(f) => (s.pc == Restoring ==> f.restore == Finished)
                     && (s.pc == Booting && pending ==> f.restore != ThrewAtOnce)
    case Crashed(lost) => pending ==> !lost
    case _ => true
  }

  /** Every event keeps the database safe exactly when it lets a restore complete. */
  lemma SafeExactlyWhenRestoreCompletes(s: State, e: Event)
    requires Inv(s)
    ensures Inv(Step(s, e)) <==> RestoreCompletes(s, e)
  {
  }

  predicate RestoresComplete(s: State, es: seq<Event>)
    decreases |es|
  {
    es == [] || (RestoresComplete(s, es[..|es| - 1]) && RestoreCompletes(Run(s, es[..|es| - 1]), es[|es| - 1]))
  }

  /** A process that has just started on a whole database. */
  function Boot(accounts: nat): State {
    State(Booting, Disks(Whole(accounts), Absent, Absent, false), 0, Closed, false)
  }

  /** Crash safety over every run, with crashes between any two steps, with or without
      the container disk, whatever throws, and even if compaction loses rows: whenever the
      site is served the live path holds a whole database with at least as many accounts
      as the last count; at every other instant it does too, or the staged copy does and
      the next boot puts it back. */
  lemma {:induction false} AlwaysADatabase(accounts: nat, es: seq<Event>)
    requires RestoresComplete(Boot(accounts), es)
    ensures var s := Run(Boot(accounts), es);
      && Inv(s)
      && (s.pc == Serving ==> s.disks.live.Whole? && s.disks.live.accounts >= s.counted)
      && ((s.disks.live.Whole? && s.disks.live.accounts >= s.counted)
          || (s.disks.marker && s.disks.staging.Whole? && s.disks.staging.accounts >= s.counted
              && (s.pc == Booting || s.pc == Restoring)))
  {
    if es != [] {
      var front := es[..|es| - 1];
      AlwaysADatabase(accounts, front);
      SafeExactlyWhenRestoreCompletes(Run(Boot(accounts), front), es[|es| - 1]);
    }
  }

  // ----- When no account is ever lost -----

  /** The accounts that survive if the machine is left to recover now. */
  function Surviving(s: State): nat {
    match s.disks.live
    case Whole(n) => n
    case _ => if s.disks.staging.Whole? then s.disks.staging.accounts else 0
  }

  /** The accounts an event records, as far as the site can tell. */
  function RecordedBy(s: State, e: Event): nat {
    if e.Wrote? && (s.handle.Detached? || (s.handle == AtPath && s.disks.live.Whole?)) then e.accounts else 0
  }

  /** The exact steps that lose accounts, had or just recorded: a swap or a restore that
      brings in fewer than the live file has, and a write through a connection whose file
      a swap has replaced. */
  lemma AccountsDropIff(s: State, e: Event)
    requires Inv(s) && RestoreCompletes(s, e)
    ensures Surviving(Step(s, e)) < Surviving(s) + RecordedBy(s, e) <==>
      || (e.Moved? && s.pc == Swapping && !e.faults.renameThrows && s.disks.beside.accounts < s.disks.live.accounts)
      || (e.Moved? && s.pc == Booting && s.disks.marker && e.faults.restore != ThrewAtOnce
          && s.disks.live.Whole? && s.disks.staging.accounts < s.disks.live.accounts)
      || (e.Wrote? && e.accounts > 0 && s.handle.Detached?)
  {
  }

  /** A connection comes off its path by one step alone: a swap while it is open. */
  lemma DetachedIff(s: State, e: Event)
    ensures Step(s, e).handle.Detached? <==>
      || (s.handle.Detached? && !e.Crashed?)
      || (s.handle == AtPath && e.Moved? && s.pc == Swapping && !e.faults.renameThrows)
  {
  }

  /** Accounts are recorded only between passes, with no marker standing and through a
      connection still on its path, and the count before a compaction succeeds. */
  predicate Quiet(s: State, e: Event) {
    match e
    case Wrote(_) => s.pc == Serving && !s.disks.marker && !s.handle.Detached?
    case Moved(f) => !f.countThrows
    case _ => true
  }

  predicate QuietInv(s: State) {
    && Inv(s)
    && (s.disks.marker && s.disks.live.Whole? ==> s.disks.staging.accounts >= s.disks.live.accounts)
    && (match s.pc
        case Clearing | Vacuuming | Retaining | CopyingOut | CopyOpen | Checking | Marking | Swapping =>
          s.disks.live == Whole(s.counted)
        case _ => true)
  }

  lemma QuietKeepsAccounts(s: State, e: Event)
    requires QuietInv(s) && RestoreCompletes(s, e) && Quiet(s, e)
    ensures QuietInv(Step(s, e)) && Surviving(Step(s, e)) >= Surviving(s) + RecordedBy(s, e)
  {
    SafeExactlyWhenRestoreCompletes(s, e);
  }

  predicate QuietRun(s: State, es: seq<Event>)
    decreases |es|
  {
    es == [] || (QuietRun(s, es[..|es| - 1]) && Quiet(Run(s, es[..|es| - 1]), es[|es| - 1])
                 && RestoreCompletes(Run(s, es[..|es| - 1]), es[|es| - 1]))
  }

  /** All the accounts a run records. */
  function RecordedIn(s: State, es: seq<Event>): nat
    decreases |es|
  {
    if es == [] then 0 else RecordedIn(s, es[..|es| - 1]) + RecordedBy(Run(s, es[..|es| - 1]), es[|es| - 1])
  }

  /** Then no run, whatever crashes, throws or compaction loses, ever loses an account that
      it had or that it recorded. */
  lemma {:induction false} NoAccountIsLost(s: State, es: seq<Event>)
    requires QuietInv(s) && QuietRun(s, es)
    ensures QuietInv(Run(s, es)) && Surviving(Run(s, es)) >= Surviving(s) + RecordedIn(s, es)
  {
    if es != [] {
      NoAccountIsLost(s, es[..|es| - 1]);
      QuietKeepsAccounts(Run(s, es[..|es| - 1]), es[|es| - 1]);
    }
  }

  /** Where only boots run the pass, and sweeps do not, no connection is ever detached. */
  lemma {:induction false} BootPassesNeverDetach(accounts: nat, es: seq<Event>)
    requires forall i :: 0 <= i < |es| ==> es[i] != Started
    ensures var s := Run(Boot(accounts), es);
      !s.handle.Detached? && (s.pc != Serving ==> s.handle == Closed && !s.booted)
  {
    if es != [] {
      BootPassesNeverDetach(accounts, es[..|es| - 1]);
    }
  }

  // ----- Runs in which accounts are lost -----

  // Each of the four conditions is needed. `Clean` is a pass in which nothing throws, and
  // every pass below is a run of the machine.

  function Clean(staged: nat): Faults {
    Faults(true, Finished, false, false, false, false, Compaction.Wrote(staged), Compaction.Wrote(staged),
           Finished, false, false, false, false, false)
  }

  /** A pass with room to spare. */
  function Idle(): Faults {
    Clean(0).(tight := false)
  }

  function Moves(f: Faults, n: nat): seq<Event> {
    if n == 0 then [] else Moves(f, n - 1) + [Moved(f)]
  }

  lemma {:induction false} RunConcat(s: State, a: seq<Event>, b: seq<Event>)
    ensures Run(s, a + b) == Run(Run(s, a), b)
  {
    if b == [] {
      assert a + b == a;
    } else {
      RunConcat(s, a, b[..|b| - 1]);
      assert (a + b)[..|a + b| - 1] == a + b[..|b| - 1];
    }
  }

  lemma RunHead(s: State, e: Event, es: seq<Event>)
    ensures Run(s, [e] + es) == Run(Step(s, e), es)
  {
    RunConcat(s, [e], es);
    assert Run(s, [e]) == Step(Run(s, []), e) by { assert [e][..0] == []; }
  }

  lemma PassShortens(s: State, f: Faults)
    requires s.pc != Serving
    ensures Rank(Advance(s, f).pc) < Rank(s.pc)
  {
  }

  lemma {:induction false} PassIgnoresBooted(s: State, f: Faults, booted: bool)
    ensures Pass(s.(booted := booted), f) == Pass(s, f).(booted := booted)
    decreases Rank(s.pc)
  {
    if s.pc != Serving {
      PassShortens(s, f);
      PassIgnoresBooted(Advance(s, f), f, booted);
    }
  }

  /** The states an uninterrupted pass goes through, one move after another. */
  predicate Trail(f: Faults, ss: seq<State>) {
    ss != [] && forall i :: 0 <= i < |ss| - 1 ==> ss[i + 1] == Step(ss[i], Moved(f))
  }

  /** Where a trail ends is where that many moves run to. */
  lemma {:induction false} TrailIsARun(f: Faults, ss: seq<State>)
    requires Trail(f, ss)
    ensures Run(ss[0], Moves(f, |ss| - 1)) == ss[|ss| - 1]
  {
    if |ss| > 1 {
      var front := ss[..|ss| - 1];
      TrailIsARun(f, front);
      RunSnoc(ss[0], Moves(f, |front| - 1), Moved(f));
    }
  }

  lemma RunSnoc(s: State, es: seq<Event>, e: Event)
    ensures Run(s, es + [e]) == Step(Run(s, es), e)
  {
    assert (es + [e])[..|es|] == es;
  }

  /** How many moves a pass makes. */
  function PassLength(s: State, f: Faults): nat
    decreases Rank(s.pc)
  {
    if s.pc == Serving then 0
    else
      PassShortens(s, f);
      1 + PassLength(Advance(s, f), f)
  }

  lemma {:induction false} PassLengthIgnoresBooted(s: State, f: Faults, booted: bool)
    ensures PassLength(s.(booted := booted), f) == PassLength(s, f)
    decreases Rank(s.pc)
  {
    if s.pc != Serving {
      PassShortens(s, f);
      PassLengthIgnoresBooted(Advance(s, f), f, booted);
    }
  }

  lemma PassOn(s: State, f: Faults)
    requires s.pc != Serving
    ensures var next := Step(s, Moved(f));
      && Rank(next.pc) < Rank(s.pc) && (next.pc == Serving ==> next.booted)
      && Pass(next, f).(booted := true) == Pass(s, f).(booted := true)
  {
    PassShortens(s, f);
    PassIgnoresBooted(Advance(s, f), f, true);
  }

  lemma TrailCons(f: Faults, s: State, ss: seq<State>)
    requires Trail(f, ss) && ss[0] == Step(s, Moved(f))
    ensures Trail(f, [s] + ss) && ([s] + ss)[|ss|] == ss[|ss| - 1]
  {
  }

  lemma {:induction false} PassTrail(s: State, f: Faults) returns (ss: seq<State>)
    requires s.pc == Serving ==> s.booted
    ensures Trail(f, ss) && ss[0] == s && ss[|ss| - 1] == Pass(s, f).(booted := true) && |ss| == PassLength(s, f) + 1
    decreases Rank(s.pc)
  {
    if s.pc == Serving {
      ss := [s];
    } else {
      PassOn(s, f);
      PassLengthIgnoresBooted(Advance(s, f), f, true);
      var rest := PassTrail(Step(s, Moved(f)), f);
      TrailCons(f, s, rest);
      ss := [s] + rest;
    }
  }

  /** An uninterrupted pass is a run. */
  lemma PassIsARun(s: State, f: Faults)
    requires s.pc == Serving ==> s.booted
    ensures Run(s, Moves(f, PassLength(s, f))) == Pass(s, f).(booted := true)
  {
    var ss := PassTrail(s, f);
    TrailIsARun(f, ss);
  }

  /** A sweep that finds the disk tight while the site is served from the file at the path. */
  function Sweep(accounts: nat): State {
    Boot(accounts).(handle := AtPath, booted := true)
  }

  lemma SweepIsReached(accounts: nat)
    ensures Run(Boot(accounts), [Moved(Idle())] + ([Opened] + ([Started] + []))) == Sweep(accounts)
  {
    RunHead(Boot(accounts), Moved(Idle()), [Opened] + ([Started] + []));
    var served := Step(Boot(accounts), Moved(Idle()));
    RunHead(served, Opened, [Started] + []);
    RunHead(Step(served, Opened), Started, []);
  }

  /** An account recorded after a sweep has swapped the file goes to the replaced one, and
      is gone at the next boot: between passes, with no marker and a count that succeeded. */
  lemma RecordedAfterASweep(accounts: nat)
    ensures var swept := Pass(Sweep(accounts), Clean(accounts));
      var recorded := Step(swept, Event.Wrote(1));
      && swept.pc == Serving && !swept.disks.marker && swept.counted == accounts
      && recorded.handle == Detached(accounts + 1)
      && Step(recorded, Crashed(false)).disks.live == Whole(accounts)
  {
    var f := Clean(accounts);
    PassFromClearing(Advance(Advance(Sweep(accounts), f), f), f);
    assert Pass(Sweep(accounts), f) == Pass(Advance(Advance(Sweep(accounts), f), f), f);
  }

  /** An account recorded while a sweep is compacting is swapped away with the file. */
  lemma RecordedDuringASweep(accounts: nat)
    ensures var f := Clean(accounts);
      var midway := Advance(Advance(Sweep(accounts), f), f);
      var recorded := Step(midway, Event.Wrote(1));
      && recorded.disks.live == Whole(accounts + 1)
      && Pass(recorded, f).disks.live == Whole(accounts) && Pass(recorded, f).handle == Detached(accounts + 1)
  {
    var f := Clean(accounts);
    var s := Step(Advance(Advance(Sweep(accounts), f), f), Event.Wrote(1));
    PassFromClearing(s, f);
  }

  /** A marker that could not be removed rolls the next pass back to the staged copy,
      which is not harmless once accounts have been recorded since. */
  lemma MarkerLeftBehind(accounts: nat)
    ensures var f := Clean(accounts).(unmarkThrows := true);
      var served := Step(Step(Pass(Boot(accounts), f).(booted := true), Opened), Event.Wrote(1));
      && served.pc == Serving && served.disks.live == Whole(accounts + 1)
      && Pass(Step(served, Started), Clean(accounts)).disks.live == Whole(accounts)
      && Pass(Step(served, Crashed(false)), Clean(accounts)).disks.live == Whole(accounts)
  {
    var f := Clean(accounts).(unmarkThrows := true);
    PassFromClearing(Advance(Advance(Boot(accounts), f), f), f);
    assert Pass(Boot(accounts), f) == Pass(Advance(Advance(Boot(accounts), f), f), f);
    var served := Step(Step(Pass(Boot(accounts), f).(booted := true), Opened), Event.Wrote(1));
    assert served == State(Serving, Disks(Whole(accounts + 1), Absent, Whole(accounts), true), accounts, AtPath, true);
    ThreeMoves(Step(served, Started), Clean(accounts));
    ThreeMoves(Step(served, Crashed(false)), Clean(accounts));
  }

  /** A count that fails guards nothing. */
  lemma CountFailed(accounts: nat)
    ensures var f := Clean(0).(countThrows := true);
      Pass(Boot(accounts), f).disks.live == Whole(0)
  {
    var f := Clean(0).(countThrows := true);
    PassFromClearing(Advance(Advance(Boot(accounts), f), f), f);
  }

  /** The one window in which the container disk still matters, as a run from boot: the
      process stops after the swap with the marker standing, the next boot begins to
      restore over the live file in place, and a restart that loses the container disk
      leaves the site serving part of a database. */
  function InterruptedRestore(accounts: nat): seq<Event> {
    Moves(Clean(accounts), 10) + ([Crashed(false)] + ([Moved(Clean(accounts))] + ([Crashed(true)] + ([Moved(Idle())] + []))))
  }

  lemma InterruptedRestoreLosesTheDatabase(accounts: nat)
    ensures var s := Run(Boot(accounts), InterruptedRestore(accounts));
      s.pc == Serving && s.disks.live == Partial && s.disks.staging == Absent
  {
    var f := Clean(accounts);
    var rest := [Crashed(true)] + ([Moved(Idle())] + []);
    RunConcat(Boot(accounts), Moves(f, 10), [Crashed(false)] + ([Moved(f)] + rest));
    UpToTheSwap(accounts);
    RunHead(Swapped(accounts), Crashed(false), [Moved(f)] + rest);
    var rebooted := Step(Swapped(accounts), Crashed(false));
    RunHead(rebooted, Moved(f), rest);
    var restoring := Step(rebooted, Moved(f));
    assert restoring.pc == Restoring;
    RunHead(restoring, Crashed(true), [Moved(Idle())] + []);
    RunHead(Step(restoring, Crashed(true)), Moved(Idle()), []);
  }

  /** A clean pass from boot, with its copy staged, and just after its swap. */
  function Staged(accounts: nat): State {
    State(CopyingOut, Disks(Whole(accounts), Absent, Whole(accounts), false), accounts, Closed, false)
  }

  function Swapped(accounts: nat): State {
    State(Unmarking, Disks(Whole(accounts), Absent, Whole(accounts), true), accounts, Closed, false)
  }

  function ToTheStagedCopy(accounts: nat): seq<State> {
    var live := Whole(accounts);
    [Boot(accounts),
     State(Counting, Disks(live, Absent, Absent, false), 0, Closed, false),
     State(Clearing, Disks(live, Absent, Absent, false), accounts, Closed, false),
     State(Vacuuming, Disks(live, Absent, Absent, false), accounts, Closed, false),
     State(Retaining, Disks(live, Absent, live, false), accounts, Closed, false)]
  }

  function ToTheSwap(accounts: nat): seq<State> {
    var live := Whole(accounts);
    [Staged(accounts),
     State(CopyOpen, Disks(live, Partial, live, false), accounts, Closed, false),
     State(Checking, Disks(live, live, live, false), accounts, Closed, false),
     State(Marking, Disks(live, live, live, false), accounts, Closed, false),
     State(Swapping, Disks(live, live, live, true), accounts, Closed, false),
     Swapped(accounts)]
  }

  lemma TrailToTheSwap(accounts: nat)
    ensures Trail(Clean(accounts), ToTheSwap(accounts))
  {
  }

  lemma TrailToTheStagedCopy(accounts: nat)
    ensures Trail(Clean(accounts), ToTheStagedCopy(accounts))
    ensures Step(ToTheStagedCopy(accounts)[4], Moved(Clean(accounts))) == Staged(accounts)
  {
  }

  lemma TrailsJoin(f: Faults, a: seq<State>, b: seq<State>)
    requires Trail(f, a) && Trail(f, b) && b[0] == Step(a[|a| - 1], Moved(f))
    ensures Trail(f, a + b)
  {
  }

  lemma UpToTheSwap(accounts: nat)
    ensures Run(Boot(accounts), Moves(Clean(accounts), 10)) == Swapped(accounts)
  {
    TrailToTheStagedCopy(accounts);
    TrailToTheSwap(accounts);
    TrailsJoin(Clean(accounts), ToTheStagedCopy(accounts), ToTheSwap(accounts));
    TrailIsARun(Clean(accounts), ToTheStagedCopy(accounts) + ToTheSwap(accounts));
  }

  /** A pass in which only the marker may stick swaps in what retention left. */
  lemma PassFromClearing(s: State, f: Faults)
    requires s.pc == Clearing && f.vacuum.Wrote? && f.retention.Wrote? && f.copyOut == Finished
    requires !f.checkThrows && !f.markThrows && !f.renameThrows && f.retention.accounts >= s.counted
    ensures var staged := Whole(f.retention.accounts);
      Pass(s, f) == State(Serving, Disks(staged, Absent, staged, f.unmarkThrows), s.counted,
                          Unlinked(s.handle, s.disks.live), s.booted)
  {
    hide Pass;
    OneMove(s, f);
    OneMove(Advance(s, f), f);
    OneMove(Advance(Advance(s, f), f), f);
    var s1 := Advance(Advance(Advance(s, f), f), f);
    assert s1 == s.(pc := CopyingOut, disks := s.disks.(staging := Whole(f.retention.accounts)));
    hide Advance;
    BroughtFrom(s1, f);
    ReplacedFrom(s1.(pc := Marking, disks := s1.disks.(beside := s1.disks.staging)), f);
  }

  lemma ThreeMoves(s: State, f: Faults)
    requires s.pc != Serving && Advance(s, f).pc != Serving && Advance(Advance(s, f), f).pc != Serving
    ensures Pass(s, f) == Pass(Advance(Advance(Advance(s, f), f), f), f)
  {
    assert Pass(Advance(s, f), f) == Pass(Advance(Advance(s, f), f), f);
  }
}

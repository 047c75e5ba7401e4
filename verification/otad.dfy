/**
 The update script as it goes through its functions. Each function is proved to take exactly
 the steps that Updates lists for it, so that what holds after any of those steps holds for
 the script cut off anywhere.
 */
module Otad {
  import opened Updates
  import opened Options

  class Script {
    var env: Env
    var file: Option<Record>
    var a: Content
    var b: Content
    var known: Record
    const slot: Slot
    const version: int
    ghost var start: State
    ghost var steps: seq<Op>

    /** What the steps so far have made of the state at the start. */
    ghost predicate Valid()
      reads this
    {
      var s := Executed(start, steps);
      s.env == env && s.file == file && s.a == a && s.b == b
    }

    /** A script starts by reading the state file. */
    constructor (s: State, slot: Slot, version: int)
      ensures Valid() && start == s && steps == [] && this.slot == slot && this.version == version
      ensures known == Known(s.file)
    {
      env, file, a, b, known := s.env, s.file, s.a, s.b, Known(s.file);
      this.slot, this.version, start, steps := slot, version, s, [];
    }

    ghost method Took(op: Op, before: State)
      requires before == Executed(start, steps)
      modifies this`steps
      ensures steps == old(steps) + [op] && Executed(start, steps) == Done(before, op)
    {
      steps := steps + [op];
      assert steps[..|steps| - 1] == old(steps);
    }

    method ArmBoot(armed: Slot, prev: Slot)
      requires Valid()
      modifies this`env, this`steps
      ensures Valid() && steps == old(steps) + [Arm(armed, prev)]
    {
      Took(Arm(armed, prev), Executed(start, steps));
      env := Env(armed, prev, true);
    }

    /** The file is emptied before it is written; then it is read again. */
    method Remember(record: Record)
      requires Valid()
      modifies this`file, this`known, this`steps
      ensures Valid() && steps == old(steps) + Updates.Remember(record) && known == record
    {
      Took(Truncate, Executed(start, steps));
      file := None;
      Took(Write(record), Executed(start, steps));
      file := Some(record);
      known := record;
      assert steps == old(steps) + [Truncate] + [Write(record)];
    }

    method SetOther(content: Content)
      modifies this`a, this`b
      ensures if slot == A then a == old(a) && b == content else a == content && b == old(b)
    {
      if slot == A { b := content; } else { a := content; }
    }

    method SyncRelease(release: int, sync: Sync) returns (ok: bool)
      requires Valid()
      modifies this
      ensures Valid() && start == old(start) && steps == old(steps) + SyncOps(release, slot, sync)
      ensures ok == (sync == Complete) && known == if ok then Record(Synced, release, 0) else old(known)
      ensures env == old(env)
    {
      hide Executed;
      if sync == Unmounted { return false; }
      Took(Wipe(Other(slot)), Executed(start, steps));
      SetOther(Torn);
      if sync == Failed { return false; }
      Took(Fill(Other(slot), release), Executed(start, steps));
      SetOther(Whole(release));
      Remember(Record(Synced, release, 0));
      return true;
    }

    method StageRelease(release: int)
      requires Valid()
      modifies this
      ensures Valid() && start == old(start) && steps == old(steps) + StageOps(release, slot)
      ensures known == Record(Staged, release, 0)
    {
      ArmBoot(Other(slot), slot);
      Remember(Record(Staged, release, 0));
    }

    method MarkGood()
      requires Valid()
      modifies this
      ensures Valid() && start == old(start) && steps == old(steps) + MarkGoodOps(old(known), version, slot)
    {
      ArmBoot(slot, slot);
      if known.version == version { Remember(Record(Installed, version, 0)); }
    }

    method Update(release: int, sync: Sync)
      requires Valid()
      modifies this
      ensures Valid() && start == old(start) && steps == old(steps) + UpdateOps(release, version, slot, sync)
    {
      if release == version { return; }
      var ok := SyncRelease(release, sync);
      if ok { StageRelease(release); }
    }

    /** Polls with what the script knows; the power that a reboot takes is not a field here. */
    method Poll(release: int, c: Choice) returns (reboots: bool)
      requires Valid()
      modifies this
      ensures Valid() && start == old(start)
      ensures steps + (if reboots then [Reboot] else []) == old(steps) + PollOps(old(known), release, version, slot, c)
    {
      hide Executed, SyncOps, StageOps, Updates.Remember;
      reboots := false;
      if release == version { return; }
      if known.version != release { Remember(Record(Available, release, c.now)); }
      if known.status == Available && c.now - known.since >= c.delay {
        var _ := SyncRelease(release, c.sync);
      }
      if known.status == Synced && c.install { StageRelease(release); }
      reboots := known.status == Staged && c.reboot;
    }
  }
}

/**
 The restart handlers of the overlay as they update its fields. Each is proved to do what
 Restarts says, and to keep the hold file in step with the phase; what is not part of a restart
 is left to the desktop fields.
 */
module Overlay {
  import opened Restarts
  import opened Options

  class Overlay {
    var restart: Phase
    var running: bool
    var closing: bool
    var restartAgain: bool
    var restartSlot: int
    var holdFile: bool
    var active: Front
    var dashboardOpen: bool
    var rewinds: bool
    var window: bool
    var pictureHeld: bool
    ghost var past: Past

    ghost function Model(): State
      reads this
    {
      State(Game(restart, running, closing, restartAgain, restartSlot), holdFile,
            Desk(active, dashboardOpen, rewinds, window, pictureHeld), past)
    }

    constructor ()
      ensures Model() == Initial()
    {
      restart, running, closing, restartAgain, restartSlot := Playing, false, false, false, 0;
      holdFile, active, dashboardOpen, rewinds, window, pictureHeld := false, Nobody, true, false, false, false;
      past := Initial().past;
    }

    method RestartActive(newestSlot: int)
      modifies this
      ensures Model() == Restarts.RestartActive(old(Model()), newestSlot)
      ensures past.asked == old(past.asked)
      ensures old(Sound(Model()) && running) ==> Sound(Model())
      ensures restart == Saving && old(restart) == Playing ==> holdFile && restartSlot == newestSlot
    {
      if active != Ours || dashboardOpen || !rewinds || closing { return; }
      if restart == Booting || restart == Probing || restart == Releasing { restartAgain := true; }
      if restart != Playing { return; }
      holdFile := true;
      restart := Saving;
      restartSlot := newestSlot;
      past := past.(newest := newestSlot);
    }

    method AdvanceRestart(saved: int)
      modifies this
      ensures Model() == Advanced(old(Model()), saved)
      ensures old(Sound(Model())) ==> Sound(Model())
      ensures restart == Closing && old(restart) != Closing ==> closing && restartSlot == saved > old(restartSlot)
    {
      if saved <= restartSlot { return; }
      if restart == Saving {
        restart := Closing;
        restartSlot := saved;
        past := past.(written := saved);
        CloseGame();
      } else if restart == Probing {
        restart := Releasing;
        holdFile := false;
      }
    }

    method CloseGame()
      modifies this`closing
      ensures closing
    {
      closing := true;
    }

    method Ended()
      modifies this
      ensures Model() == Restarts.Ended(old(Model()))
      ensures old(Sound(Model())) ==> Sound(Model())
      ensures !running && (restart == Closing || (restart == Playing && !restartAgain))
    {
      running := false;
      if restart == Closing { return; }
      if restart != Playing { holdFile := false; }
      restart := Playing;
      restartAgain := false;
      if active == Ours { active := Nobody; }
    }

    method Play(launch: Launch)
      modifies this
      ensures Model() == Restarts.Play(old(Model()), launch)
      ensures old(Sound(Model()) && !running) ==> Sound(Model())
    {
      var resuming := restart == Closing;
      if launch == Refused { return; }
      past := past.(booted := past.time, resumed := if resuming then Some(restartSlot) else None);
      restart := if resuming then Booting else Playing;
      closing := false;
      running := launch == Started;
      if launch == Failed {
        Ended();
        return;
      }
      if !resuming {
        active := Ours;
        dashboardOpen := false;
      }
    }

    method Reap(own: bool, launch: Launch)
      modifies this
      ensures Model() == Reaped(old(Model()), own, launch)
      ensures old(Sound(Model())) ==> Sound(Model())
    {
      if own { Ended(); }
      if !running && restart == Closing { Play(launch); }
    }

    /** The first half of settling: who is in front, and how far the restart has come. */
    method Progress(others: bool, job: bool)
      modifies this`active, this`dashboardOpen, this`restart
      ensures Model() == Progressed(old(Model()), others, job)
      ensures old(Sound(Model())) ==> Sound(Model())
    {
      if active == Ours && !running && !job {
        active := Nobody;
      } else if active == Another && !others {
        active := Nobody;
      }
      if active == Nobody { dashboardOpen := true; }
      if restart == Booting && window { restart := Probing; }
      if restart == Releasing && !pictureHeld { restart := Playing; }
    }

    method Settle(newestSlot: int, others: bool, job: bool)
      modifies this
      ensures Model() == Settled(old(Model()), newestSlot, others, job)
      ensures old(Sound(Model())) ==> Sound(Model())
    {
      hide Progressed;
      Progress(others, job);
      if restart == Playing && restartAgain && active == Ours {
        ghost var next := Model();
        restartAgain := false;
        assert Model() == next.(game := next.game.(again := false));
        RestartActive(newestSlot);
        if restart == Playing { past := past.(dropped := next.past.asked); }
      }
    }
  }
}

/** Whole runs of the server: its books balance and its table stays bounded. */
module ServerRuns {
  import opened Files
  import opened Sessions
  import opened Servers

  type Events = seq<Event>

  function TableAfter(cfg: ServerConfig, fs: FileSystem, events: Events): Table {
    if events == [] then Servers.Empty(fs)
    else Step(cfg, TableAfter(cfg, fs, events[..|events| - 1]), events[|events| - 1]).table
  }

  lemma {:induction false} RunKept(cfg: ServerConfig, fs: FileSystem, events: Events)
    ensures TableKept(cfg, TableAfter(cfg, fs, events))
    decreases |events|
  {
    if events != [] {
      hide Step, TableKept;
      var front := events[..|events| - 1];
      RunKept(cfg, fs, front);
      StepKept(cfg, TableAfter(cfg, fs, front), events[|events| - 1]);
    }
  }

  /** Sessions still open at shutdown. */
  function Abandoned(t: Table): nat {
    |Active(t.sessions)|
  }

  /** At any moment, in particular at shutdown: the table is bounded, and every session ever
      admitted is exactly one of completed, failed, timed out or abandoned. */
  lemma BooksBalance(cfg: ServerConfig, fs: FileSystem, events: Events)
    ensures var t := TableAfter(cfg, fs, events);
            && |Active(t.sessions)| <= cfg.maxSessions && |t.sessions| <= 2 * cfg.maxSessions
            && t.created == t.completed + t.failed + t.expired + Abandoned(t)
            && forall k <- t.sessions :: t.sessions[k].lingering <==> t.sessions[k].session.finished
  {
    hide Active, WellFormedState;
    RunKept(cfg, fs, events);
  }
}

/** The watcher thread: it polls one descriptor and its own cancel pipe on behalf of a client, which
    sends it commands through a queue and interrupts it through the pipe. */
module NetworkWatcher {

  datatype Modes = Modes(read: bool, write: bool)

  const NO_MODES := Modes(false, false)
  const READ := Modes(true, false)
  const WRITE := Modes(false, true)
  const READ_WRITE := Modes(true, true)

  datatype Command = Watch(modes: Modes) | Stop

  datatype Reply = WatchComplete(ready: Modes) | WatchCancelled | WatcherClosed

  /** What one poll reports: the pipe wins over the descriptor, and a hang-up alone reports no mode. */
  predicate PollMayReport(requested: Modes, pipe: nat, reply: Reply) {
    match reply
    case WatchCancelled => pipe > 0
    case WatchComplete(ready) => pipe == 0 && (ready.read ==> requested.read) && (ready.write ==> requested.write)
    case WatcherClosed => false
  }

  datatype WatcherState = Opened | Stopped

  const CANCEL_BYTES: nat := 2
  const FLUSH_BUFFER: nat := 128

  class Watcher {
    var state: WatcherState
    var commands: seq<Command>
    var cancelPipe: nat
    var requested: Modes

    constructor ()
      ensures state == Opened && commands == [] && cancelPipe == 0
    {
      state, commands, cancelPipe, requested := Opened, [], 0, NO_MODES;
    }

    method DrainPipe()
      modifies this`cancelPipe
      ensures cancelPipe == 0
    {
      while cancelPipe > 0 {
        cancelPipe := if cancelPipe < FLUSH_BUFFER then 0 else cancelPipe - FLUSH_BUFFER;
      }
    }

    /** Discards stale interrupts, then asks for a watch. */
    method StartWatch(modes: Modes) returns (accepted: bool)
      modifies this`cancelPipe, this`commands
      ensures accepted == (modes != NO_MODES)
      ensures accepted ==> cancelPipe == 0 && commands == old(commands) + [Watch(modes)]
      ensures !accepted ==> cancelPipe == old(cancelPipe) && commands == old(commands)
    {
      if !modes.read && !modes.write {
        return false;
      }
      DrainPipe();
      commands := commands + [Watch(modes)];
      accepted := true;
    }

    method CancelWatch()
      modifies this`cancelPipe
      ensures cancelPipe == old(cancelPipe) + CANCEL_BYTES
    {
      cancelPipe := cancelPipe + CANCEL_BYTES;
    }

    /** Interrupts whatever runs, then asks the thread to stop. */
    method Close()
      modifies this`cancelPipe, this`commands
      ensures cancelPipe == old(cancelPipe) + CANCEL_BYTES
      ensures commands == old(commands) + [Stop]
    {
      CancelWatch();
      commands := commands + [Stop];
    }

    method SetupWatch(modes: Modes)
      modifies this`requested
      ensures requested == modes
    {
      requested := NO_MODES;
      if modes.read {
        requested := requested.(read := true);
      }
      if modes.write {
        requested := requested.(write := true);
      }
    }

    /** Handles one command. `revents` is what poll finds on the descriptor; poll reports requested
        modes only. Nothing is replied to a Stop here: the thread does that after its loop. */
    method OpenProcessing(command: Command, revents: Modes) returns (replies: seq<Reply>)
      requires state == Opened
      modifies this`state, this`cancelPipe, this`requested
      ensures command.Stop? ==> state == Stopped && replies == [] && cancelPipe == old(cancelPipe)
      ensures command.Watch? ==>
        && state == Opened && cancelPipe == 0
        && |replies| == 1 && PollMayReport(command.modes, old(cancelPipe), replies[0])
        && (old(cancelPipe) == 0 ==>
              replies[0].ready == Modes(command.modes.read && revents.read, command.modes.write && revents.write))
    {
      match command
      case Watch(modes) =>
        SetupWatch(modes);
        if cancelPipe > 0 {
          DrainPipe();
          replies := [WatchCancelled];
        } else {
          var ready := NO_MODES;
          if requested.read && revents.read {
            ready := ready.(read := true);
          }
          if requested.write && revents.write {
            ready := ready.(write := true);
          }
          replies := [WatchComplete(ready)];
        }
      case Stop =>
        state := Stopped;
        replies := [];
    }

    /** The thread body, run over the commands queued so far: it answers each watch once and, if it
        meets a Stop, answers it last and leaves the rest of the queue alone. */
    method ThreadEntry(revents: seq<Modes>) returns (replies: seq<Reply>)
      requires state == Opened && |revents| >= |commands|
      modifies this
      ensures Stop in old(commands) <==> state == Stopped
      ensures state == Stopped ==>
        && 0 < |replies| <= |old(commands)| && replies[|replies| - 1] == WatcherClosed
        && old(commands)[|replies| - 1] == Stop && Stop !in old(commands)[..|replies| - 1]
        && commands == old(commands)[|replies|..]
      ensures state == Opened ==> |replies| == |old(commands)| && commands == []
      ensures forall k :: 0 <= k < |replies| && old(commands)[k].Watch? ==>
        PollMayReport(old(commands)[k].modes, if k == 0 then old(cancelPipe) else 0, replies[k])
    {
      replies := [];
      ghost var n := 0;
      while state == Opened && commands != []
        invariant |replies| <= n <= |old(commands)| && commands == old(commands)[n..]
        invariant state == Opened ==> n == |replies| && Stop !in old(commands)[..n]
        invariant state == Stopped ==>
          && n == |replies| + 1
          && old(commands)[|replies|] == Stop
          && Stop !in old(commands)[..|replies|]
        invariant n == 0 ==> cancelPipe == old(cancelPipe)
        invariant n > 0 && state == Opened ==> cancelPipe == 0
        invariant forall k :: 0 <= k < |replies| ==>
          && old(commands)[k].Watch?
          && PollMayReport(old(commands)[k].modes, if k == 0 then old(cancelPipe) else 0, replies[k])
        decreases |commands|
      {
        var command := commands[0];
        commands := commands[1..];
        var answers := OpenProcessing(command, revents[|replies|]);
        replies := replies + answers;
        n := n + 1;
      }
      if state == Stopped {
        replies := replies + [WatcherClosed];
      }
    }
  }
}

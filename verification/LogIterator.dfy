// The generated event iterators: Next takes one log from a buffered channel, until the
// subscription ends or a log cannot be unpacked.
module LogIterator {

  // A log, and whether it can be unpacked into the event.
  datatype Log = Log(data: nat, wellFormed: bool)

  // What the select of an iterator in progress picks: a buffered log, or the end of the
  // subscription, with or without an error.
  datatype Pick = TakeLog | End(withError: bool)

  class Iterator {
    var logs: seq<Log>
    var done: bool
    var failed: bool
    var event: Log

    // All logs that ever came in, and those that Next returned.
    ghost var arrived: seq<Log>
    ghost var delivered: seq<Log>

    // What was delivered is a prefix of what came in, and the rest is buffered, except
    // for the log that the iterator failed on.
    ghost predicate Valid()
      reads this
    {
      && delivered <= arrived
      && (!failed ==> arrived == delivered + logs)
      && (delivered != [] && !failed ==> event == delivered[|delivered| - 1])
      && (forall i :: 0 <= i < |delivered| ==> delivered[i].wellFormed)
    }

    constructor ()
      ensures Valid() && arrived == [] && delivered == [] && !done && !failed
    {
      logs, done, failed, event := [], false, false, Log(0, true);
      arrived, delivered := [], [];
    }

    // The subscription delivers a log to the channel.
    method Arrive(log: Log)
      requires Valid()
      modifies `logs, `arrived
      ensures Valid() && arrived == old(arrived) + [log] && logs == old(logs) + [log]
    {
      logs := logs + [log];
      arrived := arrived + [log];
    }

    // Whether the next call takes a log: there is one, and the iterator is over and still
    // has it, or picks it, or picks the end without an error.
    predicate Takes(pick: Pick)
      reads this
    {
      !failed && logs != [] && (done || pick != End(true))
    }

    // True: the next log in order is delivered. False: the iterator failed, or has ended
    // and delivered everything that came in. It fails exactly on an error of the
    // subscription or a log that cannot be unpacked, and for good.
    method Next(pick: Pick) returns (more: bool)
      requires Valid()
      requires !failed && !done && pick.TakeLog? ==> logs != []
      modifies `logs, `done, `failed, `event, `delivered
      ensures Valid()
      ensures more ==> !old(failed) && !failed && |arrived| > |old(delivered)|
                       && delivered == old(delivered) + [arrived[|old(delivered)|]]
      ensures !more ==> delivered == old(delivered)
      ensures !more && !failed ==> done && delivered == arrived
      ensures more <==> old(Takes(pick)) && old(logs)[0].wellFormed
      ensures more ==> event == old(logs)[0]
      ensures logs == if old(Takes(pick)) then old(logs)[1..] else old(logs)
      ensures failed <==> || old(failed) || (!old(done) && pick == End(true))
                          || (old(Takes(pick)) && !old(logs)[0].wellFormed)
      ensures done <==> old(done) || (!old(failed) && pick.End?)
      decreases !done
    {
      if failed {
        return false;
      }
      if done {
        if logs == [] {
          return false;
        }
        more := TakeOne();
        return;
      }
      match pick
      case TakeLog =>
        more := TakeOne();
      case End(withError) =>
        done := true;
        failed := withError;
        more := Next(pick);
    }

    method TakeOne() returns (more: bool)
      requires Valid() && !failed && logs != []
      modifies `logs, `failed, `event, `delivered
      ensures Valid() && logs == old(logs)[1..]
      ensures more <==> old(logs)[0].wellFormed
      ensures failed <==> !more
      ensures event == old(logs)[0]
      ensures delivered == if more then old(delivered) + [old(logs)[0]] else old(delivered)
    {
      var log := logs[0];
      logs := logs[1..];
      event := log;
      if !log.wellFormed {
        failed := true;
        return false;
      }
      delivered := delivered + [log];
      return true;
    }
  }
}

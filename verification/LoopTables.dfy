/** The two tables that the event loop keeps about descriptors: its own watches and the poller's. */
module LoopTables {
  import opened Wire

  datatype Interest = Interest(read: bool, write: bool)

  const READ := Interest(true, false)
  const WRITE := Interest(false, true)
  const READ_WRITE := Interest(true, true)

  datatype Tables = Tables(watches: map<int, Interest>, fds: map<int, Interest>)

  /** A change that the poller's table still has to take over from the loop's. */
  datatype Change = Add(handle: int, interest: Interest) | Update(handle: int, interest: Interest) | Drop(handle: int)

  /** The first half of watch, modify and unwatch: the loop's table, under the loop's lock. */
  function ChangeWatches(watches: map<int, Interest>, c: Change): map<int, Interest>
  {
    match c
    case Add(h, i) => watches[h := i]
    case Update(h, i) => if h in watches then watches[h := i] else watches
    case Drop(h) => watches - {h}
  }

  /** The second half: the poller's table, under the poller's lock. */
  function ChangeFds(fds: map<int, Interest>, c: Change): map<int, Interest>
  {
    match c
    case Add(h, i) => fds[h := i]
    case Update(h, i) => if h in fds then fds[h := i] else fds
    case Drop(h) => fds - {h}
  }

  function Watch(t: Tables, h: int, i: Interest): Tables
  {
    Tables(ChangeWatches(t.watches, Add(h, i)), ChangeFds(t.fds, Add(h, i)))
  }

  /** modify(): nothing happens when the descriptor is closed or not watched. */
  function Modify(t: Tables, fd: Option<int>, i: Interest): Tables
  {
    if fd.None? || fd.value !in t.watches then t
    else Tables(ChangeWatches(t.watches, Update(fd.value, i)), ChangeFds(t.fds, Update(fd.value, i)))
  }

  function Unwatch(t: Tables, h: int): Tables
  {
    Tables(ChangeWatches(t.watches, Drop(h)), ChangeFds(t.fds, Drop(h)))
  }
}

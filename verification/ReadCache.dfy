/** The read cache of one client thread: how far each file may be read without asking the server. */
module ReadCache {
  import opened Types

  /** The fields as one value. */
  datatype Cache = Cache(fd: int, path: Path, maxRead: U64, available: map<Path, U64>)

  const EMPTY: Cache := Cache(-1, "", 0, map[])

  predicate Current(c: Cache, path: Path, fd: int) {
    fd == c.fd && path == c.path
  }

  /** The cache turned to a file. */
  function Enter(c: Cache, path: Path, fd: int): Cache {
    if Current(c, path, fd) then c
    else if path in c.available then Cache(fd, path, c.available[path], c.available)
    else Cache(fd, path, 0, c.available[path := 0])
  }

  predicate Asks(c: Cache, path: Path, end: U64, fd: int) {
    var e := Enter(c, path, fd);
    e.maxRead != ULLONG_MAX && end > e.maxRead
  }

  /** The key under which an answer is stored: turning to a file moves its path away and leaves it empty. */
  function KeyLeft(c: Cache, path: Path, fd: int): Path {
    if Current(c, path, fd) then path else ""
  }

  function Store(c: Cache, key: Path, answer: U64): Cache {
    c.(maxRead := answer, available := c.available[key := answer])
  }

  class ReadRequestCache {
    var currentFd: int
    var maxRead: U64
    var availableReadCache: map<Path, U64>
    var currentPath: Path

    ghost function Value(): Cache
      reads this
    {
      Cache(currentFd, currentPath, maxRead, availableReadCache)
    }

    constructor ()
      ensures Value() == EMPTY
    {
      currentFd, maxRead, availableReadCache, currentPath := -1, 0, map[], "";
    }

    /** `answer` is what the server replies if it is asked. */
    method ReadRequest(path: Path, endOfRead: U64, fd: int, answer: U64) returns (asked: bool)
      modifies this
      ensures asked == old(Asks(Value(), path, endOfRead, fd))
      ensures var e := old(Enter(Value(), path, fd));
              Value() == if asked then Store(e, old(KeyLeft(Value(), path, fd)), answer) else e
    {
      var key := path;
      if fd != currentFd || path != currentPath {
        currentPath, key := key, "";
        currentFd := fd;
        if currentPath in availableReadCache {
          maxRead := availableReadCache[currentPath];
        } else {
          maxRead := 0;
          availableReadCache := availableReadCache[currentPath := maxRead];
        }
      }
      if maxRead == ULLONG_MAX {
        return false;
      }
      asked := endOfRead > maxRead;
      if asked {
        maxRead := answer;
        availableReadCache := availableReadCache[key := maxRead];
      }
    }
  }

  /** What is still known of a file after an answer for it and a turn to another file. */
  function Remembered(c: Cache, p: Path, fd: int, answer: U64): U64 {
    if fd == c.fd && p == c.path then answer else if p in c.available then c.available[p] else 0
  }

  /**
   * What the moved path costs: an answer got while staying with a file is
   * remembered after a read of another one, and an answer got on turning to
   * the file is not; then what was known before decides whether to ask again.
   * `reply` is the answer for the other file, if the server is asked for it.
   */
  lemma TurningAwayExactly(c: Cache, p: Path, fd: int, answer: U64, q: Path, fd2: int, reply: Option<U64>, end: U64)
    requires p != "" && q != p
    ensures var c1 := Store(Enter(c, p, fd), KeyLeft(c, p, fd), answer);
            var c2 := Enter(c1, q, fd2);
            var c3 := if reply.Some? then Store(c2, KeyLeft(c1, q, fd2), reply.value) else c2;
            Asks(c3, p, end, fd) <==>
              Remembered(c, p, fd, answer) != ULLONG_MAX && end > Remembered(c, p, fd, answer)
  {
  }

  /** Reading the same file through another descriptor is turning to it again. */
  lemma OtherDescriptorExactly(c: Cache, p: Path, fd: int, answer: U64, fd2: int, end: U64)
    requires p != "" && fd2 != fd
    ensures Asks(Store(Enter(c, p, fd), KeyLeft(c, p, fd), answer), p, end, fd2) <==>
              Remembered(c, p, fd, answer) != ULLONG_MAX && end > Remembered(c, p, fd, answer)
  {
  }

  /** A file is read and found committed, another is read, and the first is asked for again. */
  lemma CommittedIsForgotten(p: Path, q: Path, fd: int, fd2: int, reply: U64)
    requires p != "" && q != p
    ensures var c1 := Store(Enter(EMPTY, p, fd), KeyLeft(EMPTY, p, fd), ULLONG_MAX);
            var c2 := Store(Enter(c1, q, fd2), KeyLeft(c1, q, fd2), reply);
            !Asks(c1, p, 1, fd) && Asks(c2, p, 1, fd)
  {
    TurningAwayExactly(EMPTY, p, fd, ULLONG_MAX, q, fd2, Some(reply), 1);
  }

  /** Staying with the file, a committed one is never asked for again, and others only beyond what was granted. */
  lemma StayingRemembers(c: Cache, p: Path, fd: int, end: U64, answer: U64, end2: U64)
    requires Asks(c, p, end, fd)
    ensures var c1 := Store(Enter(c, p, fd), KeyLeft(c, p, fd), answer);
            Asks(c1, p, end2, fd) <==> answer != ULLONG_MAX && end2 > answer
  {
  }
}

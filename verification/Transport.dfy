/** One process's event transport (packages/python-sdk/norinth_logger/transport.py): a bounded queue,
    batches delivered with bounded retry, a disk spool for what could not be delivered, and counters.
    The network and the disk are scripts of answers, so every statement is about all of them. */
module Transport {

  import opened Common

  // ----- bags of events on disk -----

  type Path = nat

  /** `encodes` says whether the event survives strict JSON encoding (no NaN or infinity). */
  datatype Event = Event(content: string, encodes: bool)

  datatype File = File(batch: seq<Event>, modifiedAt: int)

  function Without(files: map<Path, File>, path: Path): (r: map<Path, File>)
    ensures r.Keys == files.Keys - {path} && forall q <- r :: r[q] == files[q]
  {
    map q | q in files && q != path :: files[q]
  }

  ghost function Bag(files: map<Path, File>): multiset<Event>
    decreases |files|
  {
    if files == map[] then multiset{}
    else
      var path := AnyOf(files.Keys);
      assert Without(files, path) + map[path := files[path]] == files;
      SmallerWithout(files, path);
      multiset(files[path].batch) + Bag(Without(files, path))
  }

  lemma SmallerWithout(files: map<Path, File>, path: Path)
    requires path in files
    ensures |Without(files, path)| < |files|
  {
    assert files.Keys == Without(files, path).Keys + {path};
    assert |files.Keys| == |files| && |Without(files, path).Keys| == |Without(files, path)|;
  }

  /** Any file may be taken out of the bag first. */
  lemma {:induction false} BagWithout(files: map<Path, File>, path: Path)
    requires path in files
    ensures Bag(files) == multiset(files[path].batch) + Bag(Without(files, path))
    decreases |files|
  {
    var first := AnyOf(files.Keys);
    if first != path {
      SmallerWithout(files, first);
      SmallerWithout(files, path);
      BagWithout(Without(files, first), path);
      BagWithout(Without(files, path), first);
      assert Without(Without(files, first), path) == Without(Without(files, path), first);
    }
  }

  lemma BagWith(files: map<Path, File>, path: Path, file: File)
    requires path !in files
    ensures Bag(files[path := file]) == Bag(files) + multiset(file.batch)
  {
    BagWithout(files[path := file], path);
    assert Without(files[path := file], path) == files;
  }

  // ----- the transport -----

  datatype Outcome = Accepted | Status(code: nat) | Unreachable

  const RETRIABLE: set<nat> := {408, 429, 500, 502, 503, 504}

  const STALE_CLAIM_SECONDS := 300

  /** `_is_retriable`: transport errors are, and the listed statuses. */
  predicate Retriable(outcome: Outcome) {
    match outcome
    case Accepted => false
    case Unreachable => true
    case Status(code) => code in RETRIABLE
  }

  /** After these the same batch may still be accepted: no answer, a timeout, an overload or a failure of the
      server. */
  predicate Busy(outcome: Outcome) {
    outcome in {Unreachable, Status(408), Status(429), Status(500), Status(502), Status(503), Status(504)}
  }

  lemma RetriableExactly()
    ensures forall outcome :: Retriable(outcome) <==> Busy(outcome)
    ensures !Busy(Accepted)
  {
  }

  predicate Encodes(batch: seq<Event>) {
    forall e <- batch :: e.encodes
  }

  function Pow2(n: nat): nat {
    if n == 0 then 1 else 2 * Pow2(n - 1)
  }

  function Size(files: map<Path, File>, size: seq<Event> -> nat): nat
    decreases |files|
  {
    if files == map[] then 0
    else
      var path := Oldest(files.Keys);
      SmallerWithout(files, path);
      size(files[path].batch) + Size(Without(files, path), size)
  }

  /** The spool's size is the sum over its files, whichever is counted first. */
  lemma {:induction false} SizeWithout(files: map<Path, File>, path: Path, size: seq<Event> -> nat)
    requires path in files
    ensures Size(files, size) == size(files[path].batch) + Size(Without(files, path), size)
    decreases |files|
  {
    var first := Oldest(files.Keys);
    if first != path {
      SmallerWithout(files, first);
      SmallerWithout(files, path);
      SizeWithout(Without(files, first), path, size);
      SizeWithout(Without(files, path), first, size);
      assert Without(Without(files, first), path) == Without(Without(files, path), first);
    }
  }

  /** The first of a directory listing sorted by name. */
  function Oldest(paths: set<Path>): (path: Path)
    requires paths != {}
    ensures path in paths && forall q <- paths :: path <= q
  {
    OldestExists(paths);
    var path :| path in paths && forall q <- paths :: path <= q;
    path
  }

  lemma {:induction false} OldestExists(paths: set<Path>)
    requires paths != {}
    ensures exists path :: path in paths && forall q <- paths :: path <= q
  {
    var some := AnyOf(paths);
    if paths != {some} {
      assert some in paths && paths - {some} != {};
      OldestExists(paths - {some});
      var path :| path in paths - {some} && forall q <- paths - {some} :: path <= q;
      var least := if some < path then some else path;
      assert forall q <- paths :: q == some || q in paths - {some};
      assert least in paths && forall q <- paths :: least <= q;
    } else {
      assert some in paths && forall q <- paths :: some <= q;
    }
  }

  // ----- where every event is -----

  /** The events offered to a transport or found on its disk, and where they are now; `repeated` holds
      those of files that would not be removed after their batch was counted. */
  datatype Books = Books(queue: multiset<Event>, hand: multiset<Event>, plain: multiset<Event>,
                         claimed: multiset<Event>, delivered: multiset<Event>, lost: multiset<Event>,
                         offered: multiset<Event>, repeated: multiset<Event>)

  predicate BalancedAt(b: Books, e: Event) {
    b.queue[e] + b.hand[e] + b.plain[e] + b.claimed[e] + b.delivered[e] + b.lost[e] == b.offered[e] + b.repeated[e]
  }

  /** Each event is somewhere exactly as often as it was offered or repeated. */
  ghost predicate Balanced(b: Books) {
    forall e: Event :: BalancedAt(b, e)
  }

  lemma HandDelivered(b: Books)
    requires Balanced(b)
    ensures Balanced(b.(hand := multiset{}, delivered := b.delivered + b.hand))
  {
    forall e: Event
      ensures BalancedAt(b.(hand := multiset{}, delivered := b.delivered + b.hand), e)
    {
      assert BalancedAt(b, e);
    }
  }

  lemma HandLost(b: Books)
    requires Balanced(b)
    ensures Balanced(b.(hand := multiset{}, lost := b.lost + b.hand))
  {
    forall e: Event
      ensures BalancedAt(b.(hand := multiset{}, lost := b.lost + b.hand), e)
    {
      assert BalancedAt(b, e);
    }
  }

  lemma HandSpooled(b: Books)
    requires Balanced(b)
    ensures Balanced(b.(hand := multiset{}, plain := b.plain + b.hand))
  {
    forall e: Event
      ensures BalancedAt(b.(hand := multiset{}, plain := b.plain + b.hand), e)
    {
      assert BalancedAt(b, e);
    }
  }

  lemma Offered(b: Books, x: Event)
    requires Balanced(b) && b.hand == multiset{}
    ensures Balanced(b.(hand := multiset{x}, offered := b.offered + multiset{x}))
    ensures Balanced(b.(queue := b.queue + multiset{x}, offered := b.offered + multiset{x}))
    ensures Balanced(b.(lost := b.lost + multiset{x}, offered := b.offered + multiset{x}))
  {
    forall e: Event
      ensures BalancedAt(b.(hand := multiset{x}, offered := b.offered + multiset{x}), e)
      ensures BalancedAt(b.(queue := b.queue + multiset{x}, offered := b.offered + multiset{x}), e)
      ensures BalancedAt(b.(lost := b.lost + multiset{x}, offered := b.offered + multiset{x}), e)
    {
      assert BalancedAt(b, e);
    }
  }

  lemma TakeFirst(b: Books, queue: seq<Event>, hand: seq<Event>)
    requires Balanced(b) && queue != [] && b.queue == multiset(queue) && b.hand == multiset(hand)
    ensures Balanced(b.(queue := multiset(queue[1..]), hand := multiset(hand + [queue[0]])))
  {
    assert queue == [queue[0]] + queue[1..];
    forall e: Event
      ensures BalancedAt(b.(queue := multiset(queue[1..]), hand := multiset(hand + [queue[0]])), e)
    {
      assert BalancedAt(b, e);
    }
  }

  lemma PlainToClaimed(b: Books, x: multiset<Event>, rest: multiset<Event>)
    requires Balanced(b) && b.plain == x + rest
    ensures Balanced(b.(plain := rest, claimed := b.claimed + x))
  {
    forall e: Event
      ensures BalancedAt(b.(plain := rest, claimed := b.claimed + x), e)
    {
      assert BalancedAt(b, e);
    }
  }

  lemma ClaimedToPlain(b: Books, x: multiset<Event>, rest: multiset<Event>)
    requires Balanced(b) && b.claimed == x + rest
    ensures Balanced(b.(claimed := rest, plain := b.plain + x))
  {
    forall e: Event
      ensures BalancedAt(b.(claimed := rest, plain := b.plain + x), e)
    {
      assert BalancedAt(b, e);
    }
  }

  lemma CountedTwice(b: Books, x: multiset<Event>)
    requires Balanced(b)
    ensures Balanced(b.(delivered := b.delivered + x, repeated := b.repeated + x))
    ensures Balanced(b.(lost := b.lost + x, repeated := b.repeated + x))
  {
    forall e: Event
      ensures BalancedAt(b.(delivered := b.delivered + x, repeated := b.repeated + x), e)
      ensures BalancedAt(b.(lost := b.lost + x, repeated := b.repeated + x), e)
    {
      assert BalancedAt(b, e);
    }
  }

  lemma RemovedOnce(b: Books, x: multiset<Event>, rest: multiset<Event>, repeated: multiset<Event>)
    requires Balanced(b) && b.claimed == x + rest && b.repeated == repeated + x
    ensures Balanced(b.(claimed := rest, repeated := repeated))
  {
    forall e: Event
      ensures BalancedAt(b.(claimed := rest, repeated := repeated), e)
    {
      assert BalancedAt(b, e);
    }
  }

  /** Draining offers nothing new and takes nothing back. */
  ghost predicate Grew(a: Books, b: Books) {
    && b.offered == a.offered && b.queue == a.queue && b.hand == a.hand
    && a.delivered <= b.delivered && a.lost <= b.lost && a.repeated <= b.repeated
  }

  lemma GrewNothing(a: Books, b: Books)
    requires b == a.(plain := b.plain, claimed := b.claimed)
    ensures Grew(a, b)
  {
  }

  lemma GrewOn(a: Books, b: Books, c: Books)
    requires Grew(a, b) && Grew(b, c)
    ensures Grew(a, c)
  {
  }

  // ----- what the network and the disk decide -----

  /** The answers of the network in order; past the end nothing answers. */
  function Answer(answers: seq<Outcome>, i: nat): Outcome {
    if i < |answers| then answers[i] else Unreachable
  }

  /** Whether the next file operation succeeds; past the end of the script all do. */
  predicate Works(disk: seq<bool>) {
    disk == [] || disk[0]
  }

  function After<T>(script: seq<T>, n: nat): seq<T> {
    if n <= |script| then script[n..] else []
  }

  /** How often a batch is posted. */
  function Tries(answers: seq<Outcome>, retries: nat): (n: nat)
    ensures 1 <= n <= retries + 1
    decreases retries
  {
    if retries == 0 || !Retriable(Answer(answers, 0)) then 1 else 1 + Tries(After(answers, 1), retries - 1)
  }

  datatype Fate = Sent | Dropped | Kept

  /** What becomes of a batch: `room` says that the spool would take it. */
  function FateOf(answers: seq<Outcome>, retries: nat, room: bool): Fate {
    var last := Answer(answers, Tries(answers, retries) - 1);
    if last == Accepted then Sent else if !Retriable(last) || !room then Dropped else Kept
  }

  /** The first `n` answers settle nothing. */
  predicate AllBusy(answers: seq<Outcome>, n: nat) {
    forall j | 0 <= j < n :: Busy(Answer(answers, j))
  }

  /** The first answer that settles the batch comes at post number `i`. */
  predicate FinalAt(answers: seq<Outcome>, retries: nat, i: nat) {
    i <= retries && !Busy(Answer(answers, i)) && AllBusy(answers, i)
  }

  lemma {:induction false} TriesEndAtTheFirstFinal(answers: seq<Outcome>, retries: nat)
    ensures var n := Tries(answers, retries);
      FinalAt(answers, retries, n - 1) || (n == retries + 1 && AllBusy(answers, n))
    decreases retries
  {
    RetriableExactly();
    hide Retriable, Busy;
    if retries > 0 && Retriable(Answer(answers, 0)) {
      var rest := After(answers, 1);
      TriesEndAtTheFirstFinal(rest, retries - 1);
      forall j: nat
        ensures Answer(answers, j + 1) == Answer(rest, j)
      {
      }
      assert forall j: nat :: j > 0 ==> Answer(answers, j) == Answer(rest, j - 1);
    }
  }

  lemma OneFinal(answers: seq<Outcome>, retries: nat, i: nat, j: nat)
    requires FinalAt(answers, retries, i) && FinalAt(answers, retries, j)
    ensures i == j
  {
    hide Answer, Busy;
  }

  /** A batch is delivered if and only if an acceptance comes within the retries before any other final
      answer; dropped if and only if a rejection does, or nothing final comes and the spool has no room;
      kept otherwise.  It is posted up to that answer and no more. */
  lemma {:induction false} FateIsDecided(answers: seq<Outcome>, retries: nat, room: bool)
    ensures var fate := FateOf(answers, retries, room);
      && (fate == Sent <==> exists i: nat :: FinalAt(answers, retries, i) && Answer(answers, i) == Accepted)
      && (fate == Dropped <==>
            || (exists i: nat :: FinalAt(answers, retries, i) && Answer(answers, i) != Accepted)
            || ((forall i: nat :: !FinalAt(answers, retries, i)) && !room))
      && (fate == Kept <==> (forall i: nat :: !FinalAt(answers, retries, i)) && room)
    ensures forall i: nat :: FinalAt(answers, retries, i) ==> Tries(answers, retries) == i + 1
    ensures (forall i: nat :: !FinalAt(answers, retries, i)) ==> Tries(answers, retries) == retries + 1
  {
    hide Tries, Answer, Retriable, Busy;
    TriesEndAtTheFirstFinal(answers, retries);
    RetriableExactly();
    var n := Tries(answers, retries);
    forall i: nat | FinalAt(answers, retries, i)
      ensures n == i + 1
    {
      if FinalAt(answers, retries, n - 1) { OneFinal(answers, retries, i, n - 1); }
    }
    if !Busy(Answer(answers, n - 1)) {
      assert FinalAt(answers, retries, n - 1);
    }
  }

  /** The number of posts is determined by which answers can be retried. */
  lemma TriesAre(answers: seq<Outcome>, retries: nat, n: nat)
    requires 1 <= n <= retries + 1 && AllBusy(answers, n - 1)
    requires n == retries + 1 || !Busy(Answer(answers, n - 1))
    ensures Tries(answers, retries) == n
  {
    hide Tries, Answer, Busy;
    FateIsDecided(answers, retries, true);
    if !Busy(Answer(answers, n - 1)) {
      assert FinalAt(answers, retries, n - 1);
    }
  }

  lemma FateOfLast(answers: seq<Outcome>, retries: nat, n: nat, room: bool)
    requires 1 <= n <= retries + 1 && AllBusy(answers, n - 1)
    requires n == retries + 1 || !Busy(Answer(answers, n - 1))
    ensures var last := Answer(answers, n - 1);
      && Tries(answers, retries) == n
      && FateOf(answers, retries, room)
           == (if last == Accepted then Sent else if !Busy(last) || !room then Dropped else Kept)
  {
    hide Tries, Retriable, Busy;
    RetriableExactly();
    TriesAre(answers, retries, n);
  }

  lemma AfterNothing<T>(script: seq<T>)
    ensures After(script, 0) == script
  {
  }

  lemma AfterOne(answers: seq<Outcome>, n: nat)
    ensures After(After(answers, n), 1) == After(answers, n + 1)
    ensures Answer(After(answers, n), 0) == Answer(answers, n)
  {
  }

  /** A batch accepted within the retries, after nothing but busy answers, is delivered; any other answer but
      a busy one drops it at that post; and if all are busy it is spooled, or dropped for want of room. */
  predicate SettledBy(b: Books, after: Books, batch: seq<Event>, answers: seq<Outcome>, retries: nat, room: bool,
                      posts: int)
  {
    && (forall i: nat | i <= retries && AllBusy(answers, i) && !Busy(Answer(answers, i)) ::
          && posts == i + 1
          && after == if Answer(answers, i) == Accepted
                      then b.(hand := multiset{}, delivered := b.delivered + multiset(batch))
                      else b.(hand := multiset{}, lost := b.lost + multiset(batch)))
    && (AllBusy(answers, retries + 1) ==>
          && posts == retries + 1
          && after == if room then b.(hand := multiset{}, plain := b.plain + multiset(batch))
                      else b.(hand := multiset{}, lost := b.lost + multiset(batch)))
  }

  lemma SettledAs(b: Books, batch: seq<Event>, answers: seq<Outcome>, retries: nat, room: bool)
    ensures SettledBy(b, Settled(b, batch, FateOf(answers, retries, room)), batch, answers, retries, room,
                      Tries(answers, retries))
  {
    hide Tries, FateOf, Answer, Busy;
    forall i: nat | i <= retries && AllBusy(answers, i) && !Busy(Answer(answers, i))
      ensures Tries(answers, retries) == i + 1
      ensures FateOf(answers, retries, room) == if Answer(answers, i) == Accepted then Sent else Dropped
    {
      FateOfLast(answers, retries, i + 1, room);
    }
    if AllBusy(answers, retries + 1) {
      RetriableExactly();
      FateOfLast(answers, retries, retries + 1, room);
    }
  }

  function Settled(b: Books, batch: seq<Event>, fate: Fate): Books {
    match fate
    case Sent => b.(hand := multiset{}, delivered := b.delivered + multiset(batch))
    case Dropped => b.(hand := multiset{}, lost := b.lost + multiset(batch))
    case Kept => b.(hand := multiset{}, plain := b.plain + multiset(batch))
  }

  // ----- what a drain does -----

  /** What draining reads and writes; `delivered`, `lost` and `repeated` are kept in the books. */
  datatype Wire = Wire(plain: map<Path, File>, claimed: map<Path, File>, answers: seq<Outcome>, disk: seq<bool>,
                       delivered: multiset<Event>, lost: multiset<Event>, repeated: multiset<Event>)

  function Operated(w: Wire): Wire {
    w.(disk := After(w.disk, 1))
  }

  function Claiming(w: Wire, path: Path): Wire
    requires path in w.plain
  {
    w.(plain := Without(w.plain, path), claimed := w.claimed[path := w.plain[path]])
  }

  function Releasing(w: Wire, path: Path): Wire
    requires path in w.claimed
  {
    w.(claimed := Without(w.claimed, path), plain := w.plain[path := w.claimed[path]])
  }

  /** A claimed batch counted and its file removed; a file that stays will be sent again. */
  function Finishing(w: Wire, path: Path, accepted: bool): Wire
    requires path in w.claimed
  {
    var batch := multiset(w.claimed[path].batch);
    var counted := if accepted then w.(delivered := w.delivered + batch) else w.(lost := w.lost + batch);
    Operated(if Works(w.disk) then counted.(claimed := Without(w.claimed, path))
             else counted.(repeated := w.repeated + batch))
  }

  /** Counted, and still on disk. */
  function CountedBooks(b: Books, batch: multiset<Event>, accepted: bool): (r: Books)
    ensures r.repeated == b.repeated + batch
    ensures r == b.(delivered := r.delivered, lost := r.lost, repeated := r.repeated)
  {
    (if accepted then b.(delivered := b.delivered + batch) else b.(lost := b.lost + batch))
    .(repeated := b.repeated + batch)
  }

  /** The books of a file counted and, if it could be, removed are those of `Finishing`. */
  lemma FinishedBooks(w: Wire, b: Books, c: Books, path: Path, accepted: bool, after: Wire)
    requires path in w.claimed && w.delivered == b.delivered && w.lost == b.lost && w.repeated == b.repeated
    requires var counted := CountedBooks(b, multiset(w.claimed[path].batch), accepted);
      c == if Works(w.disk) then counted.(claimed := c.claimed, repeated := b.repeated) else counted
    requires after == Wire(w.plain, if Works(w.disk) then Without(w.claimed, path) else w.claimed, w.answers,
                           After(w.disk, 1), c.delivered, c.lost, c.repeated)
    ensures after == Finishing(w, path, accepted) && Grew(b, c)
    ensures c == b.(claimed := c.claimed, delivered := c.delivered, lost := c.lost, repeated := c.repeated)
  {
  }

  /** One spooled file: claim, read, post once, then count and remove it, or release it. */
  function DrainFile(w: Wire, path: Path): (r: (Wire, bool))
    requires path in w.plain
    ensures w.plain.Keys - {path} <= r.0.plain.Keys
  {
    if !Works(w.disk) then (Operated(w), true)
    else
      var c := Operated(Claiming(w, path));
      if !Works(c.disk) then (Operated(c), true)
      else
        var answered := Operated(c).(answers := After(c.answers, 1));
        var outcome := Answer(c.answers, 0);
        if Retriable(outcome) then
          (Operated(if Works(answered.disk) then Releasing(answered, path) else answered), false)
        else (Finishing(answered, path, outcome == Accepted), true)
  }

  /** The files in order of their names, up to a transient failure. */
  function DrainFiles(w: Wire, left: set<Path>): Wire
    requires left <= w.plain.Keys
    decreases |left|
  {
    if left == {} then w
    else
      var path := Oldest(left);
      var (w', more) := DrainFile(w, path);
      if more then DrainFiles(w', left - {path}) else w'
  }

  lemma DrainFirst(w: Wire, left: set<Path>)
    requires left <= w.plain.Keys && left != {}
    ensures var (w', more) := DrainFile(w, Oldest(left));
      && left - {Oldest(left)} <= w'.plain.Keys
      && DrainFiles(w, left) == if more then DrainFiles(w', left - {Oldest(left)}) else w'
  {
    hide DrainFile;
  }

  lemma DrainNone(w: Wire)
    ensures DrainFiles(w, {}) == w
  {
  }

  predicate Stale(file: File, now: int) {
    file.modifiedAt < now - STALE_CLAIM_SECONDS
  }

  /** One claim goes back under its plain name, if it is stale and the rename succeeds. */
  function ReclaimFile(w: Wire, path: Path, now: int): (w': Wire)
    requires path in w.claimed
    ensures w.claimed.Keys - {path} <= w'.claimed.Keys && w.plain.Keys <= w'.plain.Keys
    ensures w'.plain.Keys + w'.claimed.Keys == w.plain.Keys + w.claimed.Keys
  {
    if !Stale(w.claimed[path], now) then w else Operated(if Works(w.disk) then Releasing(w, path) else w)
  }

  function ReclaimFiles(w: Wire, left: set<Path>, now: int): Wire
    requires left <= w.claimed.Keys
    decreases |left|
  {
    if left == {} then w
    else ReclaimFiles(ReclaimFile(w, Oldest(left), now), left - {Oldest(left)}, now)
  }

  /** The whole of `_drain_spool`. */
  function Drained(w: Wire, now: int): Wire {
    var reclaimed := ReclaimFiles(w, w.claimed.Keys, now);
    DrainFiles(reclaimed, reclaimed.plain.Keys)
  }

  /** The drain stops exactly after a busy answer, and the file is then still on disk; any other answer
      counts it as delivered or lost, and it goes, if it can be removed; a file that cannot be claimed or
      read stays, uncounted. */
  predicate FileSettled(w: Wire, w': Wire, path: Path, more: bool)
    requires path in w.plain
  {
    var read, outcome := Works(w.disk) && Works(After(w.disk, 1)), Answer(w.answers, 0);
    var batch := multiset(w.plain[path].batch);
    && (!more <==> read && Busy(outcome))
    && w'.delivered == w.delivered + (if read && outcome == Accepted then batch else multiset{})
    && w'.lost == w.lost + (if read && outcome != Accepted && !Busy(outcome) then batch else multiset{})
    && w'.answers == (if read then After(w.answers, 1) else w.answers)
    && (if read && !Busy(outcome) && Works(After(w.disk, 2)) then path !in w'.plain && path !in w'.claimed
        else StaysOnDisk(w, w', path))
  }

  lemma DrainLeavesOnDisk(w: Wire, path: Path)
    requires path in w.plain
    ensures var w', answered := DrainFile(w, path).0, Works(w.disk) && Works(After(w.disk, 1));
      if answered && !Busy(Answer(w.answers, 0)) && Works(After(w.disk, 2)) then path !in w'.plain && path !in w'.claimed
      else StaysOnDisk(w, w', path)
  {
    hide Retriable, Busy, Works, Answer;
    RetriableExactly();
    AfterTwo(w.disk);
    hide After;
  }

  lemma AfterTwo<T>(script: seq<T>)
    ensures After(After(script, 1), 1) == After(script, 2)
  {
  }

  lemma DrainStopsAtTransientFailure(w: Wire, path: Path)
    requires path in w.plain
    ensures var (w', more) := DrainFile(w, path); FileSettled(w, w', path, more)
  {
    hide Retriable, Busy, Works, After, Answer, StaysOnDisk, Without;
    RetriableExactly();
    DrainLeavesOnDisk(w, path);
  }

  /** The file is still there, under its plain or its claimed name. */
  predicate StaysOnDisk(w: Wire, w': Wire, path: Path)
    requires path in w.plain
  {
    (path in w'.plain && w'.plain[path] == w.plain[path]) || (path in w'.claimed && w'.claimed[path] == w.plain[path])
  }

  function Rank(left: set<Path>, path: Path): nat {
    |set q | q in left && q < path|
  }

  lemma HealthyFile(w: Wire, path: Path)
    requires path in w.plain && w.disk == [] && path !in w.claimed
    ensures var (w', more) := DrainFile(w, path);
      && more == !Busy(Answer(w.answers, 0))
      && w'.claimed == w.claimed && w'.disk == [] && w'.answers == After(w.answers, 1)
      && w'.plain.Keys == (if more then w.plain.Keys - {path} else w.plain.Keys)
  {
    RetriableExactly();
    hide Retriable, Busy;
    assert Without(w.claimed[path := w.plain[path]], path) == w.claimed;
  }

  lemma {:induction false} DrainTakesOnly(w: Wire, left: set<Path>)
    requires left <= w.plain.Keys && w.disk == [] && w.plain.Keys !! w.claimed.Keys
    ensures DrainFiles(w, left).claimed == w.claimed
    ensures DrainFiles(w, left).plain.Keys <= w.plain.Keys
    decreases |left|
  {
    hide DrainFile;
    if left != {} {
      var first := Oldest(left);
      HealthyFile(w, first);
      var (w', more) := DrainFile(w, first);
      if more { DrainTakesOnly(w', left - {first}); }
    }
  }

  /** No file is passed over: with a disk that works, a file leaves the spool if and only if its answer
      and those of all older files are final. */
  lemma {:induction false} DrainIsInOrder(w: Wire, left: set<Path>, path: Path)
    requires left <= w.plain.Keys && w.disk == [] && path in left && w.plain.Keys !! w.claimed.Keys
    ensures path in DrainFiles(w, left).plain <==> SomeBusy(w.answers, Rank(left, path))
    decreases |left|
  {
    hide DrainFile, Answer, Busy, After, SomeBusy, Rank;
    var first := Oldest(left);
    var rest := left - {first};
    HealthyFile(w, first);
    FirstRank(left, first);
    var (w', more) := DrainFile(w, first);
    if !more {
      FirstBusy(w.answers, Rank(left, path));
    } else if path == first {
      DrainTakesOnly(w', rest);
      FirstBusy(w.answers, 0);
    } else {
      DrainIsInOrder(w', rest, path);
      NextRank(left, first, path);
      AnswersShift(w.answers, Rank(rest, path));
    }
  }

  predicate SomeBusy(answers: seq<Outcome>, n: nat) {
    exists i: nat :: i <= n && Busy(Answer(answers, i))
  }

  lemma FirstBusy(answers: seq<Outcome>, n: nat)
    ensures Busy(Answer(answers, 0)) ==> SomeBusy(answers, n)
    ensures SomeBusy(answers, 0) ==> Busy(Answer(answers, 0))
  {
  }

  lemma FirstRank(left: set<Path>, first: Path)
    requires first in left && forall q <- left :: first <= q
    ensures Rank(left, first) == 0
  {
    assert (set q | q in left && q < first) == {};
  }

  lemma NextRank(left: set<Path>, first: Path, path: Path)
    requires first in left && path in left && first != path && forall q <- left :: first <= q
    ensures Rank(left, path) == Rank(left - {first}, path) + 1
  {
    assert (set q | q in left && q < path) == (set q | q in left - {first} && q < path) + {first};
  }

  lemma AnswersShift(answers: seq<Outcome>, n: nat)
    requires !Busy(Answer(answers, 0))
    ensures SomeBusy(After(answers, 1), n) <==> SomeBusy(answers, n + 1)
  {
    if i: nat :| i <= n && Busy(Answer(After(answers, 1), i)) {
      assert Answer(answers, i + 1) == Answer(After(answers, 1), i);
    }
    if i: nat :| i <= n + 1 && Busy(Answer(answers, i)) {
      assert i > 0 && Answer(After(answers, 1), i - 1) == Answer(answers, i);
    }
  }

  /** With a disk that works, exactly the stale claims go back under their plain names. */
  lemma {:induction false} ReclaimMovesTheStale(w: Wire, left: set<Path>, now: int, path: Path)
    requires left <= w.claimed.Keys && w.disk == []
    ensures var w' := ReclaimFiles(w, left, now);
      && (path in w'.claimed <==> path in w.claimed && !(path in left && w.claimed[path].modifiedAt + 300 < now))
      && (path in w'.plain <==> path in w.plain || (path in left && w.claimed[path].modifiedAt + 300 < now))
      && (path in w'.claimed ==> w'.claimed[path] == w.claimed[path])
    decreases |left|
  {
    if left != {} {
      var first := Oldest(left);
      if Stale(w.claimed[first], now) {
        ReclaimMovesTheStale(Operated(Releasing(w, first)), left - {first}, now, path);
      } else {
        ReclaimMovesTheStale(w, left - {first}, now, path);
      }
    }
  }

  class EventTransport {
    const asynchronous: bool
    const maxQueue: nat
    const maxRetries: nat
    const backoff: nat
    const spooling: bool
    const spoolMax: nat
    const size: seq<Event> -> nat

    var queue: seq<Event>
    var plain: map<Path, File>
    var claimed: map<Path, File>
    var nextPath: Path
    var now: int
    var answers: seq<Outcome>
    var disk: seq<bool>

    var queued: nat
    var sent: nat
    var dropped: nat
    var failedSends: nat
    var retried: nat
    var spooled: nat

    ghost var books: Books
    ghost var posts: nat
    ghost var slept: nat

    /** Names on disk are distinct and used up; the counters count what they say; and every event offered,
        or found on disk, is in the queue, in hand, on disk, delivered, or counted as dropped: no more
        and no less, but for files that would not be removed. */
    ghost predicate Accounted(hand: multiset<Event>)
      reads `plain, `claimed, `nextPath, `books, `queue, `sent, `dropped
    {
      && plain.Keys !! claimed.Keys
      && (forall path <- plain :: path < nextPath) && (forall path <- claimed :: path < nextPath)
      && books.queue == multiset(queue) && books.hand == hand
      && books.plain == Bag(plain) && books.claimed == Bag(claimed)
      && sent == |books.delivered| && dropped == |books.lost|
      && Balanced(books)
    }

    ghost predicate Valid()
      reads `plain, `claimed, `nextPath, `books, `queue, `sent, `dropped
    {
      |queue| <= maxQueue && Accounted(multiset{})
    }

    constructor (asynchronous: bool, maxQueue: nat, maxRetries: nat, backoff: nat, spooling: bool, spoolMax: nat,
                 size: seq<Event> -> nat, plain: map<Path, File>, claimed: map<Path, File>, nextPath: Path, now: int,
                 answers: seq<Outcome>, disk: seq<bool>)
      requires plain.Keys !! claimed.Keys
      requires (forall path <- plain :: path < nextPath) && (forall path <- claimed :: path < nextPath)
      ensures Valid() && queue == [] && this.plain == plain && this.claimed == claimed
      ensures books.delivered == books.lost == books.repeated == multiset{}
      ensures books.offered == Bag(plain) + Bag(claimed)
    {
      this.asynchronous, this.maxQueue, this.maxRetries, this.backoff := asynchronous, maxQueue, maxRetries, backoff;
      this.spooling, this.spoolMax, this.size := spooling, spoolMax, size;
      this.plain, this.claimed, this.nextPath, this.now := plain, claimed, nextPath, now;
      this.answers, this.disk := answers, disk;
      queue := [];
      queued, sent, dropped, failedSends, retried, spooled := 0, 0, 0, 0, 0, 0;
      posts, slept := 0, 0;
      books := Books(multiset{}, multiset{}, Bag(plain), Bag(claimed), multiset{}, multiset{},
                     Bag(plain) + Bag(claimed), multiset{});
    }

    // ----- the network and the disk -----

    /** `_post_once`: the next answer of the network, or no answer. */
    method PostOnce() returns (outcome: Outcome)
      modifies this`answers, this`posts
      ensures posts == old(posts) + 1
      ensures outcome == Answer(old(answers), 0) && answers == After(old(answers), 1)
    {
      outcome := Unreachable;
      if answers != [] { outcome, answers := answers[0], answers[1..]; }
      posts := posts + 1;
    }

    /** Whether the next file operation succeeds. */
    method FileOperation() returns (ok: bool)
      modifies this`disk
      ensures ok == Works(old(disk)) && disk == After(old(disk), 1)
    {
      ok := true;
      if disk != [] { ok, disk := disk[0], disk[1..]; }
    }

    // ----- delivering one batch -----

    /** Whether the spool would take the batch. */
    ghost predicate Room(batch: seq<Event>)
      reads `plain, `claimed, `disk
    {
      spooling && Size(plain, size) + Size(claimed, size) + size(batch) <= spoolMax && Works(disk)
    }

    /** `_spool`: a new file holding the batch, unless spooling is off, full, or failing. */
    method SpoolBatch(batch: seq<Event>) returns (ok: bool)
      requires Accounted(multiset(batch))
      modifies this`plain, this`nextPath, this`disk, this`spooled, this`books
      ensures ok == old(Room(batch))
      ensures ok ==> Accounted(multiset{}) && spooled == old(spooled) + |batch|
                     && plain == old(plain)[old(nextPath) := File(batch, now)] && nextPath == old(nextPath) + 1
                     && books == Settled(old(books), batch, Kept)
      ensures !ok ==> Accounted(multiset(batch)) && books == old(books) && spooled == old(spooled)
                      && plain == old(plain) && nextPath == old(nextPath)
    {
      hide Accounted, Size, Settled;
      if !spooling { return false; }
      if Size(plain, size) + Size(claimed, size) + size(batch) > spoolMax { return false; }
      var written := FileOperation();
      if !written { return false; }
      WriteFile(batch);
      return true;
    }

    method WriteFile(batch: seq<Event>)
      requires Accounted(multiset(batch))
      modifies this`plain, this`nextPath, this`spooled, this`books
      ensures Accounted(multiset{}) && spooled == old(spooled) + |batch|
      ensures plain == old(plain)[old(nextPath) := File(batch, now)] && nextPath == old(nextPath) + 1
      ensures books == Settled(old(books), batch, Kept)
    {
      hide Balanced, Bag;
      BagWith(plain, nextPath, File(batch, now));
      HandSpooled(books);
      books := books.(hand := multiset{}, plain := books.plain + books.hand);
      plain := plain[nextPath := File(batch, now)];
      nextPath := nextPath + 1;
      spooled := spooled + |batch|;
    }

    method CountSent(batch: seq<Event>)
      requires Accounted(multiset(batch))
      modifies this`sent, this`books
      ensures Accounted(multiset{})
      ensures books == Settled(old(books), batch, Sent)
    {
      hide Balanced, Bag;
      HandDelivered(books);
      sent := sent + |batch|;
      books := books.(hand := multiset{}, delivered := books.delivered + books.hand);
    }

    method CountDropped(batch: seq<Event>)
      requires Accounted(multiset(batch))
      modifies this`dropped, this`books
      ensures Accounted(multiset{})
      ensures books == Settled(old(books), batch, Dropped)
    {
      hide Balanced, Bag;
      HandLost(books);
      dropped := dropped + |batch|;
      books := books.(hand := multiset{}, lost := books.lost + books.hand);
    }

    /** `_deliver`: the batch is posted until an answer settles it or the retries are used up, with a
        doubling sleep between posts, and ends as `FateOf` says; nothing else moves. */
    method Deliver(batch: seq<Event>, retries: nat)
      requires Accounted(multiset(batch))
      modifies this`plain, this`nextPath, this`disk, this`answers, this`sent, this`dropped, this`failedSends,
               this`retried, this`spooled, this`books, this`posts, this`slept
      ensures Accounted(multiset{})
      ensures var n := Tries(old(answers), retries);
        posts == old(posts) + n && answers == After(old(answers), n) && slept == old(slept) + Sleeps(backoff, n - 1)
      ensures books == Settled(old(books), batch, FateOf(old(answers), retries, old(Room(batch))))
      ensures SettledBy(old(books), books, batch, old(answers), retries, old(Room(batch)), posts - old(posts))
    {
      hide Bag, Balanced, Pow2, Sleeps, Accounted, Size, Tries, Answer, After, Retriable, Busy, Room, FateOf, Settled, SettledBy;
      RetriableExactly();
      SettledAs(old(books), batch, old(answers), retries, old(Room(batch)));
      NoSleep(backoff);
      var attempt := 0;
      AfterNothing(answers);
      while attempt <= retries
        invariant attempt <= retries + 1 && posts == old(posts) + attempt
        invariant answers == After(old(answers), attempt)
        invariant AllBusy(old(answers), attempt)
        invariant slept == old(slept) + Sleeps(backoff, if attempt <= retries then attempt else retries)
        invariant Accounted(multiset(batch)) && books == old(books) && Room(batch) == old(Room(batch))
        decreases retries + 1 - attempt
      {
        AfterOne(old(answers), attempt);
        var outcome := PostOnce();
        attempt := attempt + 1;
        if !Retriable(outcome) {
          FateOfLast(old(answers), retries, attempt, old(Room(batch)));
          if outcome == Accepted {
            CountSent(batch);
          } else {
            failedSends := failedSends + 1;
            CountDropped(batch);
          }
          return;
        }
        failedSends := failedSends + 1;
        if attempt <= retries {
          retried := retried + 1;
          slept := slept + backoff * Pow2(attempt - 1);
          SleepStep(backoff, attempt - 1);
        }
      }
      FateOfLast(old(answers), retries, attempt, old(Room(batch)));
      var ok := SpoolBatch(batch);
      if !ok { CountDropped(batch); }
    }

    /** `send_batch`: one event that strict JSON cannot encode drops the whole batch it is in. */
    method SendBatch(batch: seq<Event>, retries: nat)
      requires Accounted(multiset(batch))
      modifies this`plain, this`nextPath, this`disk, this`answers, this`sent, this`dropped, this`failedSends,
               this`retried, this`spooled, this`books, this`posts, this`slept
      ensures Accounted(multiset{}) && books.offered == old(books).offered && books.repeated == old(books).repeated
      ensures posts <= old(posts) + retries + 1 && old(slept) <= slept <= old(slept) + Sleeps(backoff, retries)
      ensures !Encodes(batch) ==>
                posts == old(posts)
                && books == old(books).(hand := multiset{}, lost := old(books).lost + multiset(batch))
      ensures Encodes(batch) ==>
                posts == old(posts) + Tries(old(answers), retries)
                && books == Settled(old(books), batch, FateOf(old(answers), retries, old(Room(batch))))
    {
      hide Accounted, Sleeps, Tries, FateOf;
      if Encodes(batch) {
        SleepsGrow(backoff, Tries(answers, retries) - 1, retries);
        Deliver(batch, retries);
      } else {
        CountDropped(batch);
      }
    }

    // ----- draining the spool -----

    /** Rename a claimed file back. */
    method Unclaim(path: Path)
      requires path in claimed && Accounted(multiset{})
      modifies this`plain, this`claimed, this`books
      ensures Accounted(multiset{})
      ensures plain == old(plain)[path := old(claimed)[path]] && claimed == Without(old(claimed), path)
      ensures books == old(books).(plain := books.plain, claimed := books.claimed)
    {
      hide Balanced, Bag;
      BagWithout(claimed, path);
      BagWith(plain, path, claimed[path]);
      ClaimedToPlain(books, multiset(claimed[path].batch), Bag(Without(claimed, path)));
      books := books.(claimed := Bag(Without(claimed, path)), plain := books.plain + multiset(claimed[path].batch));
      plain, claimed := plain[path := claimed[path]], Without(claimed, path);
    }

    /** Rename a plain file to claim it. */
    method Claim(path: Path)
      requires path in plain && Accounted(multiset{})
      modifies this`plain, this`claimed, this`books
      ensures Accounted(multiset{})
      ensures claimed == old(claimed)[path := old(plain)[path]] && plain == Without(old(plain), path)
      ensures books == old(books).(plain := books.plain, claimed := books.claimed)
    {
      hide Balanced, Bag;
      BagWithout(plain, path);
      BagWith(claimed, path, plain[path]);
      PlainToClaimed(books, multiset(plain[path].batch), Bag(Without(plain, path)));
      books := books.(plain := Bag(Without(plain, path)), claimed := books.claimed + multiset(plain[path].batch));
      claimed, plain := claimed[path := plain[path]], Without(plain, path);
    }

    /** What a drain works on. */
    ghost function State(): Wire
      reads `plain, `claimed, `answers, `disk, `books
    {
      Wire(plain, claimed, answers, disk, books.delivered, books.lost, books.repeated)
    }

    /** `_reclaim_stale_claims`: old claims go back under their plain name, where the rename succeeds. */
    method ReclaimStaleClaims()
      requires Accounted(multiset{})
      modifies this`plain, this`claimed, this`disk, this`books
      ensures Accounted(multiset{}) && books == old(books).(plain := books.plain, claimed := books.claimed)
      ensures State() == ReclaimFiles(old(State()), old(claimed).Keys, now)
      ensures plain.Keys + claimed.Keys == old(plain).Keys + old(claimed).Keys
    {
      hide Accounted, ReclaimFile;
      var left := claimed.Keys;
      while left != {}
        invariant Accounted(multiset{}) && left <= claimed.Keys
        invariant books == old(books).(plain := books.plain, claimed := books.claimed)
        invariant ReclaimFiles(State(), left, now) == ReclaimFiles(old(State()), old(claimed).Keys, now)
        invariant plain.Keys + claimed.Keys == old(plain).Keys + old(claimed).Keys
        decreases |left|
      {
        var path := Oldest(left);
        ReclaimOne(path);
        left := left - {path};
      }
    }

    method ReclaimOne(path: Path)
      requires path in claimed && Accounted(multiset{})
      modifies this`plain, this`claimed, this`disk, this`books
      ensures Accounted(multiset{}) && books == old(books).(plain := books.plain, claimed := books.claimed)
      ensures State() == ReclaimFile(old(State()), path, now)
    {
      hide Accounted, Works, After;
      if Stale(claimed[path], now) {
        var ok := FileOperation();
        if ok { Unclaim(path); }
      }
    }

    /** Count a claimed batch as sent or dropped, then remove its file; a file that stays is sent again. */
    method CountAndRemove(path: Path, accepted: bool)
      requires path in claimed && Accounted(multiset{})
      modifies this`claimed, this`disk, this`sent, this`dropped, this`books
      ensures Accounted(multiset{}) && Grew(old(books), books)
      ensures State() == Finishing(old(State()), path, accepted)
    {
      hide Accounted, Without, Works, After, Finishing, Grew, CountedBooks;
      CountClaimed(path, accepted);
      var removed := FileOperation();
      if removed { RemoveClaimed(path, old(books).repeated); }
      FinishedBooks(old(State()), old(books), books, path, accepted, State());
    }

    /** From here on the batch is accounted for twice, until its file is removed. */
    method CountClaimed(path: Path, accepted: bool)
      requires path in claimed && Accounted(multiset{})
      modifies this`sent, this`dropped, this`books
      ensures Accounted(multiset{})
      ensures books == CountedBooks(old(books), multiset(claimed[path].batch), accepted)
    {
      hide Balanced, Bag;
      var batch := claimed[path].batch;
      CountedTwice(books, multiset(batch));
      if accepted {
        sent := sent + |batch|;
        books := books.(delivered := books.delivered + multiset(batch), repeated := books.repeated + multiset(batch));
      } else {
        dropped := dropped + |batch|;
        books := books.(lost := books.lost + multiset(batch), repeated := books.repeated + multiset(batch));
      }
    }

    method RemoveClaimed(path: Path, ghost repeated: multiset<Event>)
      requires path in claimed && Accounted(multiset{})
      requires books.repeated == repeated + multiset(claimed[path].batch)
      modifies this`claimed, this`books
      ensures Accounted(multiset{}) && claimed == Without(old(claimed), path)
      ensures books == old(books).(claimed := books.claimed, repeated := repeated)
    {
      hide Balanced, Bag;
      BagWithout(claimed, path);
      RemovedOnce(books, multiset(claimed[path].batch), Bag(Without(claimed, path)), repeated);
      books := books.(claimed := Bag(Without(claimed, path)), repeated := repeated);
      claimed := Without(claimed, path);
    }

    /** `_drain_spool`: oldest first, one post a batch and no sleep, stopping at the first transient failure. */
    method DrainSpool()
      requires Accounted(multiset{})
      modifies this`plain, this`claimed, this`disk, this`answers, this`sent, this`dropped, this`failedSends,
               this`books, this`posts
      ensures Accounted(multiset{}) && Grew(old(books), books)
      ensures State() == if spooling then Drained(old(State()), now) else old(State())
      ensures posts <= old(posts) + |old(plain).Keys + old(claimed).Keys|
    {
      hide Accounted, Grew, DrainFile, DrainFiles, ReclaimFiles;
      GrewNothing(books, books);
      if !spooling { return; }
      ReclaimStaleClaims();
      GrewNothing(old(books), books);
      var left := plain.Keys;
      ghost var all := plain.Keys + claimed.Keys;
      SubsetSize(left, all);
      while left != {}
        invariant Accounted(multiset{}) && left <= plain.Keys && Grew(old(books), books)
        invariant DrainFiles(State(), left) == Drained(old(State()), now)
        invariant posts + |left| <= old(posts) + |all|
        decreases |left|
      {
        ghost var before := books;
        var path := Oldest(left);
        DrainFirst(State(), left);
        left := left - {path};
        var more := DrainOne(path);
        GrewOn(old(books), before, books);
        if !more { return; }
      }
      DrainNone(State());
    }

    /** One spooled batch; false after a transient failure, which ends the drain. */
    method DrainOne(path: Path) returns (more: bool)
      requires path in plain && Accounted(multiset{})
      modifies this`plain, this`claimed, this`disk, this`answers, this`sent, this`dropped, this`failedSends,
               this`books, this`posts
      ensures Accounted(multiset{}) && Grew(old(books), books)
      ensures (State(), more) == DrainFile(old(State()), path) && posts <= old(posts) + 1
      ensures FileSettled(old(State()), State(), path, more)
    {
      hide Accounted, Grew, Without, Works, After, Finishing, Answer, Retriable, FileSettled;
      DrainStopsAtTransientFailure(State(), path);
      GrewNothing(books, books);
      var renamed := FileOperation();
      if !renamed { return true; }
      Claim(path);
      GrewNothing(old(books), books);
      ghost var claim := books;
      var readable := FileOperation();
      if !readable { return true; }
      var outcome := PostOnce();
      if outcome != Accepted { failedSends := failedSends + 1; }
      if Retriable(outcome) {
        var released := FileOperation();
        if released { Unclaim(path); }
        GrewNothing(old(books), books);
        return false;
      }
      CountAndRemove(path, outcome == Accepted);
      GrewOn(old(books), claim, books);
      return true;
    }

    // ----- the caller's side -----

    /** `enqueue` never blocks and never raises: the event is queued, sent, or counted as dropped. */
    method Enqueue(event: Event)
      requires Valid()
      modifies this
      ensures Valid() && books.offered == old(books).offered + multiset{event} && books.repeated == old(books).repeated
      ensures asynchronous ==> posts == old(posts) && slept == old(slept)
      ensures asynchronous && |old(queue)| < maxQueue ==> queue == old(queue) + [event] && books.lost == old(books).lost
      ensures asynchronous && |old(queue)| == maxQueue ==>
                queue == old(queue) && books.lost == old(books).lost + multiset{event}
    {
      hide Bag, Balanced;
      if asynchronous {
        PutNoWait(event);
      } else {
        Offered(books, event);
        books := books.(hand := multiset{event}, offered := books.offered + multiset{event});
        assert multiset([event]) == multiset{event};
        SendBatch([event], maxRetries);
      }
    }

    /** Into the queue, or counted as dropped when it is full. */
    method PutNoWait(event: Event)
      requires Valid()
      modifies this`queue, this`queued, this`dropped, this`books
      ensures Valid()
      ensures if |old(queue)| < maxQueue
              then queue == old(queue) + [event]
                   && books == old(books).(queue := multiset(queue), offered := old(books).offered + multiset{event})
              else queue == old(queue)
                   && books == old(books).(lost := old(books).lost + multiset{event},
                                           offered := old(books).offered + multiset{event})
    {
      hide Bag, Balanced;
      Offered(books, event);
      if |queue| < maxQueue {
        books := books.(queue := books.queue + multiset{event}, offered := books.offered + multiset{event});
        queue := queue + [event];
        queued := queued + 1;
      } else {
        books := books.(lost := books.lost + multiset{event}, offered := books.offered + multiset{event});
        dropped := dropped + 1;
      }
    }

    /** `flush`: first the spool, then everything queued as one batch. The last flush of a process leaves
        the spool's files alone, makes at most one attempt, and never sleeps. */
    method Flush(final: bool)
      requires Valid()
      modifies this
      ensures Valid() && queue == [] && books.offered == old(books).offered
      ensures final ==> posts <= old(posts) + 1 && slept == old(slept) && books.repeated == old(books).repeated
    {
      hide Bag, Balanced;
      if !final { DrainSpool(); }
      var batch := TakeQueue();
      if batch != [] {
        NoSleep(backoff);
        SendBatch(batch, if final then 0 else maxRetries);
      }
    }

    /** Everything queued, in order. */
    method TakeQueue() returns (batch: seq<Event>)
      requires Accounted(multiset{})
      modifies this`queue, this`books
      ensures queue == [] && batch == old(queue) && Accounted(multiset(batch))
      ensures books == old(books).(queue := multiset{}, hand := multiset(batch))
    {
      hide Bag, Balanced;
      batch := [];
      while queue != []
        invariant old(queue) == batch + queue && Accounted(multiset(batch))
        invariant books == old(books).(queue := multiset(queue), hand := multiset(batch))
        decreases |queue|
      {
        TakeFirst(books, queue, batch);
        books := books.(queue := multiset(queue[1..]), hand := multiset(batch + [queue[0]]));
        queue, batch := queue[1..], batch + [queue[0]];
      }
    }
  }

  /** The sleeps of a batch that fails `n` times before its last attempt. */
  function Sleeps(backoff: nat, n: nat): nat {
    if n == 0 then 0 else Sleeps(backoff, n - 1) + backoff * Pow2(n - 1)
  }

  lemma NoSleep(backoff: nat)
    ensures Sleeps(backoff, 0) == 0
  {
  }

  lemma SleepStep(backoff: nat, n: nat)
    ensures Sleeps(backoff, n + 1) == Sleeps(backoff, n) + backoff * Pow2(n)
  {
  }

  lemma {:induction false} SleepsGrow(backoff: nat, a: nat, b: nat)
    requires a <= b
    ensures Sleeps(backoff, a) <= Sleeps(backoff, b)
    decreases b - a
  {
    if a < b { SleepsGrow(backoff, a, b - 1); }
  }

  /** Doubling sleeps add up to one less than the next power. */
  lemma {:induction false} SleepsClosedForm(backoff: nat, n: nat)
    ensures Sleeps(backoff, n) == backoff * (Pow2(n) - 1)
  {
    if n > 0 {
      SleepsClosedForm(backoff, n - 1);
      assert backoff * (Pow2(n - 1) - 1) + backoff * Pow2(n - 1) == backoff * (2 * Pow2(n - 1) - 1);
    }
  }
}

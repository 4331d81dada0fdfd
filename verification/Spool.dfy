/** The SDK's disk spool shared by several processes (packages/python-sdk/norinth_logger/transport.py):
    every file operation is one step, any process may die between two of them, and a claim may be taken
    back while its owner still works. */
module Spool {

  import T = Transport

  type Path = nat

  type Process = nat

  /** A batch is one file, under its plain name or under its claimed one. */
  datatype File = Plain | Claimed

  datatype Outcome = Accepted | Rejected | Unreachable

  /** Where a process is in `_drain_spool` for the batch in hand. */
  datatype Stage =
    | Idle
    | Owning(path: Path)
    | Reading(path: Path)
    | Answered(path: Path, outcome: Outcome)
    | Counted(path: Path)

  datatype Disk = Disk(files: map<Path, File>, stages: map<Process, Stage>, spooled: set<Path>,
                       delivered: set<Path>, dropped: set<Path>, posts: map<Path, nat>)

  datatype Step =
    | StepSpool(path: Path)
    | StepClaim(process: Process, path: Path)
    | StepRead(process: Process, readable: bool)
    | StepPost(process: Process, outcome: Outcome)
    | StepCount(process: Process)
    | StepFinish(process: Process)
    | StepReclaim(path: Path)
    | StepCrash(process: Process)

  function StageOf(d: Disk, p: Process): Stage {
    if p in d.stages then d.stages[p] else Idle
  }

  function Posts(d: Disk, path: Path): nat {
    if path in d.posts then d.posts[path] else 0
  }

  function Remove(files: map<Path, File>, path: Path): map<Path, File> {
    map q | q in files && q != path :: files[q]
  }

  /** One file operation, post, or counter update; a step that does not apply changes nothing. */
  function Apply(d: Disk, step: Step): Disk {
    match step
    case StepSpool(path) =>
      // `_spool`: the finished file appears under a name nobody has used
      if path in d.spooled then d else d.(files := d.files[path := Plain], spooled := d.spooled + {path})
    case StepClaim(p, path) =>
      // the rename either wins the plain file or fails
      if StageOf(d, p) != Idle || path !in d.files || d.files[path] != Plain then d
      else d.(files := d.files[path := Claimed], stages := d.stages[p := Owning(path)])
    case StepRead(p, readable) =>
      if !StageOf(d, p).Owning? then d
      else
        var path := StageOf(d, p).path;
        if !readable || path !in d.files || d.files[path] != Claimed then d.(stages := d.stages[p := Idle])
        else d.(stages := d.stages[p := Reading(path)])
    case StepPost(p, outcome) =>
      if !StageOf(d, p).Reading? then d
      else
        var path := StageOf(d, p).path;
        var e := d.(stages := d.stages[p := Answered(path, outcome)], posts := d.posts[path := Posts(d, path) + 1]);
        if outcome == Accepted then e.(delivered := e.delivered + {path}) else e
    case StepCount(p) =>
      // the sent or dropped counter is raised before the file is removed
      if !StageOf(d, p).Answered? || StageOf(d, p).outcome == Unreachable then d
      else
        var s := StageOf(d, p);
        var e := d.(stages := d.stages[p := Counted(s.path)]);
        if s.outcome == Rejected then e.(dropped := e.dropped + {s.path}) else e
    case StepFinish(p) =>
      // remove the claimed file, or release it after a transient failure; either fails if it is gone
      if StageOf(d, p).Counted? then
        var path := StageOf(d, p).path;
        var e := d.(stages := d.stages[p := Idle]);
        if path in d.files && d.files[path] == Claimed then e.(files := Remove(d.files, path)) else e
      else if StageOf(d, p).Answered? && StageOf(d, p).outcome == Unreachable then
        var path := StageOf(d, p).path;
        var e := d.(stages := d.stages[p := Idle]);
        if path in d.files && d.files[path] == Claimed then e.(files := d.files[path := Plain]) else e
      else d
    case StepReclaim(path) =>
      // staleness is judged by the modification time, which a rename keeps: any claim can look stale
      if path in d.files && d.files[path] == Claimed then d.(files := d.files[path := Plain]) else d
    case StepCrash(p) => d.(stages := d.stages[p := Idle])
  }

  function Run(d: Disk, steps: seq<Step>): Disk
    decreases |steps|
  {
    if steps == [] then d else Run(Apply(d, steps[0]), steps[1..])
  }

  const EMPTY := Disk(map[], map[], {}, {}, {}, map[])

  // ----- no silent loss -----

  /** What a process's stage says has already happened to its batch. */
  predicate StageOk(d: Disk, stage: Stage) {
    match stage
    case Idle => true
    case Owning(path) => path in d.spooled
    case Reading(path) => path in d.spooled
    case Answered(path, outcome) => path in d.spooled && (outcome == Accepted ==> path in d.delivered)
    case Counted(path) => path in d.spooled && (path in d.delivered || path in d.dropped)
  }

  ghost predicate NothingLost(d: Disk) {
    && (forall path <- d.spooled :: path in d.files || path in d.delivered || path in d.dropped)
    && (forall path <- d.files :: path in d.spooled)
    && (forall p <- d.stages :: StageOk(d, d.stages[p]))
    && d.delivered <= d.spooled && d.dropped <= d.spooled
  }

  lemma StepLosesNothing(d: Disk, step: Step)
    requires NothingLost(d)
    ensures NothingLost(Apply(d, step))
    ensures d.spooled <= Apply(d, step).spooled && d.delivered <= Apply(d, step).delivered
            && d.dropped <= Apply(d, step).dropped
  {
  }

  /** Over any interleaving of any processes with any crashes and any reclaiming, a batch that was ever
      spooled is still on disk, plain or claimed, or was delivered, or was counted as dropped. */
  lemma {:induction false} NoSilentLoss(d: Disk, steps: seq<Step>)
    requires NothingLost(d)
    ensures NothingLost(Run(d, steps))
    ensures d.spooled <= Run(d, steps).spooled
    decreases |steps|
  {
    hide NothingLost, Apply;
    if steps != [] {
      StepLosesNothing(d, steps[0]);
      NoSilentLoss(Apply(d, steps[0]), steps[1..]);
    }
  }

  lemma SpooledIsAccountedFor(steps: seq<Step>, path: Path)
    requires path in Run(EMPTY, steps).spooled
    ensures var d := Run(EMPTY, steps); path in d.files || path in d.delivered || path in d.dropped
  {
    NoSilentLoss(EMPTY, steps);
  }

  // ----- exclusive sending -----

  /** Every batch in a process's hand is claimed by that process alone. */
  predicate Holds(d: Disk, p: Process, path: Path) {
    p in d.stages && d.stages[p] != Idle && d.stages[p].path == path
  }

  ghost predicate OneOwner(d: Disk) {
    && (forall p, path | Holds(d, p, path) :: path in d.files && d.files[path] == Claimed)
    && (forall p, q, path | Holds(d, p, path) && Holds(d, q, path) :: p == q)
  }

  predicate HarmlessReclaim(d: Disk, step: Step) {
    step.StepReclaim? ==> forall p <- d.stages :: !Holds(d, p, step.path)
  }

  /** Claiming by rename is exclusive as long as only dead processes' claims are reclaimed. */
  lemma StepKeepsOneOwner(d: Disk, step: Step)
    requires OneOwner(d) && NothingLost(d) && HarmlessReclaim(d, step)
    ensures OneOwner(Apply(d, step))
  {
    var e := Apply(d, step);
    if step.StepFinish? && StageOf(d, step.process) != Idle {
      assert Holds(d, step.process, StageOf(d, step.process).path);
    }
    forall p, path | Holds(e, p, path)
      ensures path in e.files && e.files[path] == Claimed
      ensures Holds(d, p, path) || (step == StepClaim(p, path) && path in d.files && d.files[path] == Plain)
    {
      assert step != StepClaim(p, path) ==> Holds(d, p, path);
    }
  }

  predicate OnlyHarmlessReclaims(d: Disk, steps: seq<Step>)
    decreases |steps|
  {
    steps == [] || (HarmlessReclaim(d, steps[0]) && OnlyHarmlessReclaims(Apply(d, steps[0]), steps[1..]))
  }

  /** A claim taken back from a process that still holds it has no single owner any more. */
  lemma HarmfulReclaimBreaksOwnership(d: Disk, step: Step)
    requires OneOwner(d) && !HarmlessReclaim(d, step)
    ensures !OneOwner(Apply(d, step))
  {
    var p :| p in d.stages && Holds(d, p, step.path);
    assert Holds(Apply(d, step), p, step.path);
  }

  /** At every moment of the run. */
  ghost predicate OneOwnerThroughout(d: Disk, steps: seq<Step>)
    decreases |steps|
  {
    OneOwner(d) && (steps == [] || OneOwnerThroughout(Apply(d, steps[0]), steps[1..]))
  }

  /** Claiming by rename is exclusive at every moment of a run if and only if no claim is reclaimed from
      a process that still holds it. */
  lemma {:induction false} ExclusiveExactlyWithoutLateReclaims(d: Disk, steps: seq<Step>)
    requires OneOwner(d) && NothingLost(d)
    ensures OneOwnerThroughout(d, steps) <==> OnlyHarmlessReclaims(d, steps)
    decreases |steps|
  {
    hide OneOwner, NothingLost, Apply, HarmlessReclaim;
    if steps != [] {
      StepLosesNothing(d, steps[0]);
      if HarmlessReclaim(d, steps[0]) {
        StepKeepsOneOwner(d, steps[0]);
        ExclusiveExactlyWithoutLateReclaims(Apply(d, steps[0]), steps[1..]);
      } else {
        HarmfulReclaimBreaksOwnership(d, steps[0]);
        assert !OneOwnerThroughout(Apply(d, steps[0]), steps[1..]);
      }
    }
  }

  /** A run in which a late reclaim lets two live processes post the same batch. */
  function LateReclaim(p: Process, q: Process, path: Path): seq<Step> {
    [StepSpool(path), StepClaim(p, path), StepRead(p, true), StepReclaim(path), StepClaim(q, path), StepRead(q, true),
     StepPost(p, Accepted), StepPost(q, Accepted)]
  }

  lemma ReclaimCanSendTwice(p: Process, q: Process, path: Path)
    requires p != q
    ensures Posts(Run(EMPTY, LateReclaim(p, q, path)), path) == 2
    ensures !OneOwnerThroughout(EMPTY, LateReclaim(p, q, path))
  {
    hide Apply, Run, OnlyHarmlessReclaims, OneOwnerThroughout, Posts, StageOf, HarmlessReclaim;
    var steps := LateReclaim(p, q, path);
    var first := [StepSpool(path), StepClaim(p, path), StepRead(p, true), StepReclaim(path)];
    var second := [StepClaim(q, path), StepRead(q, true), StepPost(p, Accepted), StepPost(q, Accepted)];
    assert first + second == steps;
    Prefix(EMPTY, first, second);
    ClaimedAndReclaimed(p, path);
    SecondClaim(Taken(p, path, Plain), p, q, path);
    LateIsHarmful(p, q, path);
    ExclusiveExactlyWithoutLateReclaims(EMPTY, steps);
  }

  lemma {:induction false} Prefix(d: Disk, first: seq<Step>, second: seq<Step>)
    ensures Run(d, first + second) == Run(Run(d, first), second)
    decreases |first|
  {
    hide Apply;
    if first == [] {
      assert first + second == second;
    } else {
      assert (first + second)[1..] == first[1..] + second;
      Prefix(Apply(d, first[0]), first[1..], second);
    }
  }

  /** While `p` is reading, the batch is back under its plain name. */
  function Taken(p: Process, path: Path, file: File): Disk {
    Disk(map[path := file], map[p := Reading(path)], {path}, {}, {}, map[])
  }

  lemma ThreeSteps(p: Process, path: Path)
    ensures Apply(Apply(Apply(EMPTY, StepSpool(path)), StepClaim(p, path)), StepRead(p, true))
         == Taken(p, path, Claimed)
    ensures Apply(Taken(p, path, Claimed), StepReclaim(path)) == Taken(p, path, Plain)
    ensures !HarmlessReclaim(Taken(p, path, Claimed), StepReclaim(path))
  {
    assert Holds(Taken(p, path, Claimed), p, path);
  }

  lemma ClaimedAndReclaimed(p: Process, path: Path)
    ensures Run(EMPTY, [StepSpool(path), StepClaim(p, path), StepRead(p, true), StepReclaim(path)])
         == Taken(p, path, Plain)
  {
    hide Apply, Run;
    ThreeSteps(p, path);
    RunFour(EMPTY, StepSpool(path), StepClaim(p, path), StepRead(p, true), StepReclaim(path));
  }

  lemma RunFour(d: Disk, a: Step, b: Step, c: Step, e: Step)
    ensures Run(d, [a, b, c, e]) == Apply(Apply(Apply(Apply(d, a), b), c), e)
  {
    hide Apply;
    assert [a, b, c, e] == [a] + ([b] + ([c] + ([e] + [])));
    RunFirst(d, a, [b] + ([c] + ([e] + [])));
    RunFirst(Apply(d, a), b, [c] + ([e] + []));
    RunFirst(Apply(Apply(d, a), b), c, [e] + []);
    RunFirst(Apply(Apply(Apply(d, a), b), c), e, []);
    RunNothing(Apply(Apply(Apply(Apply(d, a), b), c), e));
  }

  lemma SecondClaim(d: Disk, p: Process, q: Process, path: Path)
    requires p != q && d == Taken(p, path, Plain)
    ensures Posts(Run(d, [StepClaim(q, path), StepRead(q, true), StepPost(p, Accepted), StepPost(q, Accepted)]), path)
         == 2
  {
    hide Run;
    RunFour(d, StepClaim(q, path), StepRead(q, true), StepPost(p, Accepted), StepPost(q, Accepted));
  }

  lemma HarmfulLater(d: Disk, step: Step, rest: seq<Step>)
    requires !OnlyHarmlessReclaims(Apply(d, step), rest)
    ensures !OnlyHarmlessReclaims(d, [step] + rest)
  {
    hide Apply;
    assert ([step] + rest)[1..] == rest;
  }

  lemma LateIsHarmful(p: Process, q: Process, path: Path)
    ensures !OnlyHarmlessReclaims(EMPTY, LateReclaim(p, q, path))
  {
    hide Apply, HarmlessReclaim;
    ThreeSteps(p, path);
    var steps := LateReclaim(p, q, path);
    var a := Apply(EMPTY, StepSpool(path));
    var b := Apply(a, StepClaim(p, path));
    assert !OnlyHarmlessReclaims(Taken(p, path, Claimed), steps[3..]);
    HarmfulLater(b, StepRead(p, true), steps[3..]);
    HarmfulLater(a, StepClaim(p, path), [StepRead(p, true)] + steps[3..]);
    HarmfulLater(EMPTY, StepSpool(path), [StepClaim(p, path)] + ([StepRead(p, true)] + steps[3..]));
    assert steps == [StepSpool(path)] + ([StepClaim(p, path)] + ([StepRead(p, true)] + steps[3..]));
  }

  lemma RunNothing(d: Disk)
    ensures Run(d, []) == d
  {
  }

  lemma RunFirst(d: Disk, step: Step, rest: seq<Step>)
    ensures Run(d, [step] + rest) == Run(Apply(d, step), rest)
  {
    hide Apply;
    assert ([step] + rest)[1..] == rest;
  }

  // ----- one process's drain is such a run -----

  /** The files are those the transport sees under plain and under claimed names. */
  ghost predicate Shows(d: Disk, w: T.Wire) {
    && w.plain.Keys !! w.claimed.Keys && d.files.Keys == w.plain.Keys + w.claimed.Keys
    && (forall path <- w.plain :: d.files[path] == Plain) && (forall path <- w.claimed :: d.files[path] == Claimed)
  }

  function OutcomeOf(answer: T.Outcome): (outcome: Outcome)
    ensures outcome == Accepted <==> answer == T.Accepted
    ensures outcome == Unreachable <==> T.Busy(answer)
  {
    T.RetriableExactly();
    if T.Retriable(answer) then Unreachable else if answer == T.Accepted then Accepted else Rejected
  }

  /** Removing or releasing the file; where that fails the process goes on as if it had died there. */
  function LastStep(p: Process, works: bool): Step {
    if works then StepFinish(p) else StepCrash(p)
  }

  /** What `T.DrainFile` does, operation by operation. */
  function DrainSteps(w: T.Wire, p: Process, path: Path): seq<Step> {
    var second, third := T.After(w.disk, 1), T.After(T.After(w.disk, 1), 1);
    var outcome := OutcomeOf(T.Answer(w.answers, 0));
    if !T.Works(w.disk) then []
    else if !T.Works(second) then [StepClaim(p, path), StepRead(p, false)]
    else if outcome == Unreachable then
      [StepClaim(p, path), StepRead(p, true), StepPost(p, outcome), LastStep(p, T.Works(third))]
    else
      [StepClaim(p, path), StepRead(p, true), StepPost(p, outcome), StepCount(p), LastStep(p, T.Works(third))]
  }

  /** The disk once `p` has claimed, read and posted the batch. */
  function PostedBy(d: Disk, p: Process, path: Path, outcome: Outcome): Disk {
    Disk(d.files[path := Claimed], d.stages[p := Answered(path, outcome)], d.spooled,
         if outcome == Accepted then d.delivered + {path} else d.delivered, d.dropped,
         d.posts[path := Posts(d, path) + 1])
  }

  lemma PostsAfterClaim(d: Disk, p: Process, path: Path, outcome: Outcome)
    requires StageOf(d, p) == Idle && path in d.files && d.files[path] == Plain
    ensures Apply(Apply(Apply(d, StepClaim(p, path)), StepRead(p, true)), StepPost(p, outcome))
         == PostedBy(d, p, path, outcome)
  {
    var a := d.(files := d.files[path := Claimed], stages := d.stages[p := Owning(path)]);
    var b := a.(stages := d.stages[p := Reading(path)]);
    assert Apply(d, StepClaim(p, path)) == a;
    assert a.stages[p := Reading(path)] == b.stages;
    assert Apply(a, StepRead(p, true)) == b;
    assert b.stages[p := Answered(path, outcome)] == d.stages[p := Answered(path, outcome)];
  }

  /** The file is gone, plain again, or still claimed; the process is done with it. */
  function DrainedBy(d: Disk, p: Process, path: Path, outcome: Outcome, works: bool): Disk {
    PostedBy(d, p, path, outcome).(
      stages := d.stages[p := Idle],
      dropped := if outcome == Rejected then d.dropped + {path} else d.dropped,
      files := if !works then d.files[path := Claimed]
               else if outcome == Unreachable then d.files[path := Plain] else Remove(d.files, path))
  }

  lemma ReleasedBy(d: Disk, p: Process, path: Path, works: bool)
    requires path in d.files
    ensures Apply(PostedBy(d, p, path, Unreachable), LastStep(p, works)) == DrainedBy(d, p, path, Unreachable, works)
  {
    var posted := PostedBy(d, p, path, Unreachable);
    assert posted.stages[p := Idle] == d.stages[p := Idle];
    assert posted.files[path := Plain] == d.files[path := Plain];
  }

  lemma CountedBy(d: Disk, p: Process, path: Path, outcome: Outcome, works: bool)
    requires path in d.files && outcome != Unreachable
    ensures Apply(Apply(PostedBy(d, p, path, outcome), StepCount(p)), LastStep(p, works))
         == DrainedBy(d, p, path, outcome, works)
  {
    var posted := PostedBy(d, p, path, outcome);
    var counted := posted.(stages := d.stages[p := Counted(path)],
                           dropped := if outcome == Rejected then d.dropped + {path} else d.dropped);
    assert posted.stages[p := Counted(path)] == counted.stages;
    assert Apply(posted, StepCount(p)) == counted;
    assert counted.stages[p := Idle] == d.stages[p := Idle];
    assert Remove(posted.files, path) == Remove(d.files, path);
  }

  lemma ReleasedWire(w: T.Wire, path: Path)
    requires path in w.plain && path !in w.claimed
    requires T.Works(w.disk) && T.Works(T.After(w.disk, 1)) && T.Retriable(T.Answer(w.answers, 0))
    ensures var r, released := T.DrainFile(w, path).0, T.Works(T.After(T.After(w.disk, 1), 1));
      && r.plain == (if released then w.plain else T.Without(w.plain, path))
      && r.claimed == (if released then w.claimed else w.claimed[path := w.plain[path]])
  {
    hide T.Works, T.After, T.Answer, T.Retriable, T.Finishing;
    assert T.Without(w.claimed[path := w.plain[path]], path) == w.claimed;
    assert T.Without(w.plain, path)[path := w.plain[path]] == w.plain;
  }

  lemma FinishedWire(w: T.Wire, path: Path)
    requires path in w.plain && path !in w.claimed
    requires T.Works(w.disk) && T.Works(T.After(w.disk, 1)) && !T.Retriable(T.Answer(w.answers, 0))
    ensures var r, removed := T.DrainFile(w, path).0, T.Works(T.After(T.After(w.disk, 1), 1));
      && r.plain == T.Without(w.plain, path)
      && r.claimed == (if removed then w.claimed else w.claimed[path := w.plain[path]])
  {
    hide T.Works, T.After, T.Answer, T.Retriable, T.Releasing, T.Finishing, T.Without;
    WithoutNew(w.claimed, path, w.plain[path]);
    var c := T.Operated(T.Operated(T.Claiming(w, path)));
    FinishingFiles(c.(answers := T.After(w.answers, 1)), path, T.Answer(w.answers, 0) == T.Accepted);
  }

  lemma WithoutNew(files: map<Path, T.File>, path: Path, file: T.File)
    requires path !in files
    ensures T.Without(files[path := file], path) == files
  {
  }

  lemma FinishingFiles(w: T.Wire, path: Path, accepted: bool)
    requires path in w.claimed
    ensures T.Finishing(w, path, accepted).plain == w.plain
    ensures T.Finishing(w, path, accepted).claimed
         == if T.Works(w.disk) then T.Without(w.claimed, path) else w.claimed
  {
    hide T.Without, T.Works;
  }

  lemma {:induction false} DrainedShows(d: Disk, w: T.Wire, p: Process, path: Path)
    requires Shows(d, w) && path in w.plain && T.Works(w.disk) && T.Works(T.After(w.disk, 1))
    ensures var outcome := OutcomeOf(T.Answer(w.answers, 0));
      Shows(DrainedBy(d, p, path, outcome, T.Works(T.After(T.After(w.disk, 1), 1))), T.DrainFile(w, path).0)
  {
    hide T.Works, T.After, T.Answer, T.Retriable, T.DrainFile;
    if T.Retriable(T.Answer(w.answers, 0)) {
      ReleasedWire(w, path);
    } else {
      FinishedWire(w, path);
    }
  }

  /** The steps of a drain that claims and reads the file. */
  lemma ReadDrainRuns(d: Disk, w: T.Wire, p: Process, path: Path)
    requires StageOf(d, p) == Idle && path in d.files && d.files[path] == Plain
    requires path in w.plain && T.Works(w.disk) && T.Works(T.After(w.disk, 1))
    ensures var outcome := OutcomeOf(T.Answer(w.answers, 0));
      Run(d, DrainSteps(w, p, path)) == DrainedBy(d, p, path, outcome, T.Works(T.After(T.After(w.disk, 1), 1)))
  {
    hide Run, Apply, PostedBy, DrainedBy, LastStep, T.Works, T.After, T.Answer, OutcomeOf;
    var outcome, last := OutcomeOf(T.Answer(w.answers, 0)), LastStep(p, T.Works(T.After(T.After(w.disk, 1), 1)));
    PostsAfterClaim(d, p, path, outcome);
    if outcome == Unreachable {
      RunFour(d, StepClaim(p, path), StepRead(p, true), StepPost(p, outcome), last);
      ReleasedBy(d, p, path, T.Works(T.After(T.After(w.disk, 1), 1)));
    } else {
      RunFive(d, StepClaim(p, path), StepRead(p, true), StepPost(p, outcome), StepCount(p), last);
      CountedBy(d, p, path, outcome, T.Works(T.After(T.After(w.disk, 1), 1)));
    }
  }

  lemma UnreadDrainRuns(d: Disk, w: T.Wire, p: Process, path: Path)
    requires Shows(d, w) && StageOf(d, p) == Idle && path in w.plain
    requires !(T.Works(w.disk) && T.Works(T.After(w.disk, 1)))
    ensures var after := Run(d, DrainSteps(w, p, path));
      && Shows(after, T.DrainFile(w, path).0) && StageOf(after, p) == Idle
      && after.posts == d.posts && after.delivered == d.delivered && after.dropped == d.dropped
  {
    hide Run, Apply, T.Works, T.After;
    if !T.Works(w.disk) {
      RunNothing(d);
    } else {
      RunTwo(d, StepClaim(p, path), StepRead(p, false));
      ClaimedUnread(d, p, path);
    }
  }

  lemma ClaimedUnread(d: Disk, p: Process, path: Path)
    requires StageOf(d, p) == Idle && path in d.files && d.files[path] == Plain
    ensures var after := Apply(Apply(d, StepClaim(p, path)), StepRead(p, false));
      after == d.(files := d.files[path := Claimed], stages := after.stages) && StageOf(after, p) == Idle
  {
  }

  /** `EventTransport.DrainOne` of one process is a run of the shared spool: it leaves the same files, and
      the batch is delivered or dropped exactly when the transport counts it so. */
  lemma {:induction false} DrainIsARun(d: Disk, w: T.Wire, p: Process, path: Path)
    requires Shows(d, w) && StageOf(d, p) == Idle && path in w.plain
    ensures var after := Run(d, DrainSteps(w, p, path));
      var read, outcome := T.Works(w.disk) && T.Works(T.After(w.disk, 1)), OutcomeOf(T.Answer(w.answers, 0));
      && Shows(after, T.DrainFile(w, path).0) && StageOf(after, p) == Idle
      && Posts(after, path) == Posts(d, path) + (if read then 1 else 0)
      && after.delivered == d.delivered + (if read && outcome == Accepted then {path} else {})
      && after.dropped == d.dropped + (if read && outcome == Rejected then {path} else {})
  {
    hide Run, T.Works, T.After, T.Answer, T.DrainFile, DrainSteps, Shows, OutcomeOf, Remove;
    if T.Works(w.disk) && T.Works(T.After(w.disk, 1)) {
      PlainIsPlain(d, w, path);
      ReadDrainRuns(d, w, p, path);
      DrainedShows(d, w, p, path);
    } else {
      UnreadDrainRuns(d, w, p, path);
    }
  }

  lemma PlainIsPlain(d: Disk, w: T.Wire, path: Path)
    requires Shows(d, w) && path in w.plain
    ensures path in d.files && d.files[path] == Plain
  {
  }

  lemma RunTwo(d: Disk, a: Step, b: Step)
    ensures Run(d, [a, b]) == Apply(Apply(d, a), b)
  {
    hide Apply;
    assert [a, b] == [a] + ([b] + []);
    RunFirst(d, a, [b] + []);
    RunFirst(Apply(d, a), b, []);
    RunNothing(Apply(Apply(d, a), b));
  }

  lemma RunFive(d: Disk, a: Step, b: Step, c: Step, e: Step, f: Step)
    ensures Run(d, [a, b, c, e, f]) == Apply(Apply(Apply(Apply(Apply(d, a), b), c), e), f)
  {
    hide Apply, Run;
    assert [a, b, c, e, f] == [a] + [b, c, e, f];
    RunFirst(d, a, [b, c, e, f]);
    RunFour(Apply(d, a), b, c, e, f);
  }
}

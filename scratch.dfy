/** The scratch files in the system's temporary directory, as a ledger: the
    set of names that currently exist and the log of every operation the
    module performs on them, in order. */
module Scratch {
  type Path = string

  /** The content `writeFileSync` is given: a string or a buffer. */
  datatype Data = Chars(text: string) | Bytes(bytes: seq<bv8>)

  /** How an `openssl` run ends as the caller sees it: the process could not
      be spawned, or it exited, with or without having written its `-out`
      file. The exit code is not looked at. */
  datatype ToolOutcome = SpawnError | Exited(wroteOutput: bool)

  /** One operation on the scratch directory. `Spawn` records whether the
      tool left its output file behind. */
  datatype Event =
    | Write(path: Path, data: Data)
    | Spawn(args: seq<string>, output: Path, wrote: bool)
    | Read(path: Path)
    | Unlink(path: Path)

  /** Reads and unlinks of a name that does not exist throw; writes and
      spawns do not. */
  predicate Succeeds(live: set<Path>, e: Event)
  {
    match e
    case Read(p) => p in live
    case Unlink(p) => p in live
    case _ => true
  }

  /** The names that exist after one event. */
  function Step(live: set<Path>, e: Event): (r: set<Path>)
    ensures e.Write? ==> e.path in r
    ensures e.Unlink? ==> e.path !in r
  {
    match e
    case Write(p, _) => live + {p}
    case Spawn(_, out, wrote) => if wrote then live + {out} else live
    case Read(_) => live
    case Unlink(p) => live - {p}
  }

  /** The names that exist after a sequence of events. */
  function Replay(live: set<Path>, events: seq<Event>): set<Path>
    decreases |events|
  {
    if events == [] then live else Replay(Step(live, events[0]), events[1..])
  }

  /** How many events complete before the first one that throws. */
  function Completed(live: set<Path>, events: seq<Event>): (k: nat)
    ensures k <= |events|
    decreases |events|
  {
    if events == [] then 0
    else if !Succeeds(live, events[0]) then 0
    else 1 + Completed(Step(live, events[0]), events[1..])
  }

  /** The names unlinked, in order. */
  function Unlinks(events: seq<Event>): (r: seq<Path>)
    ensures |r| <= |events|
    decreases |events|
  {
    if events == [] then []
    else if events[0].Unlink? then [events[0].path] + Unlinks(events[1..])
    else Unlinks(events[1..])
  }

  /** Every unlink of the sequence finds its file (reads may still fail). */
  predicate UnlinksSucceed(live: set<Path>, events: seq<Event>)
    decreases |events|
  {
    events == []
    || ((events[0].Unlink? ==> events[0].path in live) && UnlinksSucceed(Step(live, events[0]), events[1..]))
  }

  lemma {:induction false} ReplayConcat(live: set<Path>, a: seq<Event>, b: seq<Event>)
    ensures Replay(live, a + b) == Replay(Replay(live, a), b)
    decreases |a|
  {
    if a == [] {
      assert a + b == b;
    } else {
      assert (a + b)[0] == a[0];
      assert (a + b)[1..] == a[1..] + b;
      ReplayConcat(Step(live, a[0]), a[1..], b);
    }
  }

  lemma {:induction false} CompletedConcat(live: set<Path>, a: seq<Event>, b: seq<Event>)
    ensures Completed(live, a + b)
            == if Completed(live, a) < |a| then Completed(live, a) else |a| + Completed(Replay(live, a), b)
    decreases |a|
  {
    if a == [] {
      assert a + b == b;
    } else {
      assert (a + b)[0] == a[0];
      assert (a + b)[1..] == a[1..] + b;
      CompletedConcat(Step(live, a[0]), a[1..], b);
    }
  }

  lemma {:induction false} UnlinksConcat(a: seq<Event>, b: seq<Event>)
    ensures Unlinks(a + b) == Unlinks(a) + Unlinks(b)
    decreases |a|
  {
    if a == [] {
      assert a + b == b;
    } else {
      assert (a + b)[0] == a[0];
      assert (a + b)[1..] == a[1..] + b;
      UnlinksConcat(a[1..], b);
    }
  }

  lemma {:induction false} UnlinksSucceedConcat(live: set<Path>, a: seq<Event>, b: seq<Event>)
    ensures UnlinksSucceed(live, a + b) <==> UnlinksSucceed(live, a) && UnlinksSucceed(Replay(live, a), b)
    decreases |a|
  {
    if a == [] {
      assert a + b == b;
    } else {
      assert (a + b)[0] == a[0];
      assert (a + b)[1..] == a[1..] + b;
      UnlinksSucceedConcat(Step(live, a[0]), a[1..], b);
    }
  }

  /** One event on its own. */
  lemma Single(live: set<Path>, e: Event)
    ensures Replay(live, [e]) == Step(live, e)
    ensures Completed(live, [e]) == if Succeeds(live, e) then 1 else 0
    ensures Unlinks([e]) == if e.Unlink? then [e.path] else []
    ensures UnlinksSucceed(live, [e]) <==> (e.Unlink? ==> e.path in live)
  {
    assert [e][1..] == [];
  }

  /** A sequence of events extended by one more. */
  lemma Extend(live: set<Path>, a: seq<Event>, e: Event)
    ensures Replay(live, a + [e]) == Step(Replay(live, a), e)
    ensures Completed(live, a) == |a| ==>
              Completed(live, a + [e]) == |a| + (if Succeeds(Replay(live, a), e) then 1 else 0)
    ensures Unlinks(a + [e]) == Unlinks(a) + (if e.Unlink? then [e.path] else [])
    ensures UnlinksSucceed(live, a + [e]) <==> UnlinksSucceed(live, a) && (e.Unlink? ==> e.path in Replay(live, a))
  {
    UnlinksSucceedConcat(live, a, [e]);
    ReplayConcat(live, a, [e]);
    CompletedConcat(live, a, [e]);
    UnlinksConcat(a, [e]);
    Single(Replay(live, a), e);
  }

  /** The scratch directory: `live` is what exists, `log` what was done.
      The ledger is consistent when replaying the log from the names that
      existed at the start gives the names that exist now. */
  class ScratchDir {
    var live: set<Path>
    var log: seq<Event>
    ghost var initial: set<Path>

    ghost predicate Valid()
      reads this
    {
      live == Replay(initial, log)
    }

    constructor (existing: set<Path>)
      ensures Valid() && initial == existing && live == existing && log == []
    {
      live := existing;
      log := [];
      initial := existing;
    }

    /** `fs.writeFileSync`: creates or replaces the file. */
    method WriteFile(p: Path, data: Data)
      requires Valid()
      modifies this
      ensures Valid() && initial == old(initial)
      ensures live == old(live) + {p}
      ensures log == old(log) + [Write(p, data)]
    {
      Extend(initial, log, Write(p, data));
      live := live + {p};
      log := log + [Write(p, data)];
    }

    /** `fs.readFileSync`: fails when the file does not exist. */
    method ReadFile(p: Path) returns (ok: bool)
      requires Valid()
      modifies this
      ensures Valid() && initial == old(initial)
      ensures ok <==> p in old(live)
      ensures live == old(live)
      ensures log == old(log) + [Read(p)]
    {
      Extend(initial, log, Read(p));
      ok := p in live;
      log := log + [Read(p)];
    }

    /** `fs.unlinkSync`: removes the file, or fails when it does not exist. */
    method UnlinkFile(p: Path) returns (ok: bool)
      requires Valid()
      modifies this
      ensures Valid() && initial == old(initial)
      ensures ok <==> p in old(live)
      ensures live == old(live) - {p}
      ensures log == old(log) + [Unlink(p)]
    {
      Extend(initial, log, Unlink(p));
      ok := p in live;
      live := live - {p};
      log := log + [Unlink(p)];
    }

    /** One `openssl` run whose `-out` file is `output`; `exited` says
        whether the promise resolves (it rejects on a spawn error only). */
    method RunTool(args: seq<string>, output: Path, outcome: ToolOutcome) returns (exited: bool)
      requires Valid()
      modifies this
      ensures Valid() && initial == old(initial)
      ensures exited <==> outcome.Exited?
      ensures live == if outcome == Exited(true) then old(live) + {output} else old(live)
      ensures log == old(log) + [Spawn(args, output, outcome == Exited(true))]
    {
      var e := Spawn(args, output, outcome == Exited(true));
      Extend(initial, log, e);
      exited := outcome.Exited?;
      if outcome == Exited(true) {
        live := live + {output};
      }
      log := log + [e];
    }
  }
}

/** The two exported operations, `certToDer` and `generateCsr`, run against
    the scratch-directory ledger. Each is proved to produce exactly the trace
    of a specification function, and the lemmas below say what those traces
    do to the directory: which names they leave behind, how often each is
    unlinked, and that every trace stops at its first failing step. */
module CertUtils {
  import opened Wrappers
  import opened Subject
  import opened SslConfig
  import opened Options
  import opened Commands
  import opened Scratch

  /** Why a returned promise rejects. */
  datatype RejectReason =
    | SpawnFailed
    | ReadFailed(path: Path)
    | UnlinkFailed(path: Path)

  /** How a call ends: `generateCsr` throws its options error synchronously,
      before it returns any promise; otherwise the returned promise resolves
      with the content of `output` or rejects with an error. */
  datatype Settled = Threw(error: OptionsError) | Resolved(output: Path) | Rejected(reason: RejectReason)

  /** The outcome of a call together with the operations it performs. */
  datatype Trace = Trace(result: Settled, events: seq<Event>)

  /** The filesystem operation whose exception a rejection carries. */
  function FailedEvent(r: Settled): Option<Event>
  {
    match r
    case Rejected(ReadFailed(p)) => Some(Read(p))
    case Rejected(UnlinkFailed(p)) => Some(Unlink(p))
    case _ => None
  }

  /** Starting from `live`, every operation of the trace succeeds, except
      that a trace rejected by a filesystem error ends with the one
      operation that throws it. */
  predicate Halts(live: set<Path>, t: Trace)
  {
    match FailedEvent(t.result)
    case None => Completed(live, t.events) == |t.events|
    case Some(e) => |t.events| > 0 && Completed(live, t.events) == |t.events| - 1 && t.events[|t.events| - 1] == e
  }

  // ---------------------------------------------------------------- certToDer

  /** `certToDer`: write the certificate, convert it, read the result, and
      unlink both files; a spawn error only unlinks the certificate. */
  function CertToDerTrace(cert: Data, certPath: Path, derPath: Path, outcome: ToolOutcome): (t: Trace)
    ensures 3 <= |t.events| && t.events[0] == Write(certPath, cert) && t.events[1].Spawn?
    ensures t.result.Resolved? <==> outcome == Exited(true)
    ensures t.result.Resolved? ==> t.result.output == derPath
    ensures !t.result.Threw?
  {
    var run := [Write(certPath, cert), Spawn(CertToDerArgs(certPath, derPath), derPath, outcome == Exited(true))];
    if outcome.SpawnError? then Trace(Rejected(SpawnFailed), run + [Unlink(certPath)])
    else if !outcome.wroteOutput then Trace(Rejected(ReadFailed(derPath)), run + [Read(derPath)])
    else Trace(Resolved(derPath), run + [Read(derPath), Unlink(certPath), Unlink(derPath)])
  }

  method CertToDer(dir: ScratchDir, cert: Data, certPath: Path, derPath: Path, outcome: ToolOutcome)
    returns (r: Settled)
    requires dir.Valid() && certPath != derPath && certPath !in dir.live && derPath !in dir.live
    modifies dir
    ensures dir.Valid() && dir.initial == old(dir.initial)
    ensures r == CertToDerTrace(cert, certPath, derPath, outcome).result
    ensures dir.log == old(dir.log) + CertToDerTrace(cert, certPath, derPath, outcome).events
    ensures dir.live == Replay(old(dir.live), CertToDerTrace(cert, certPath, derPath, outcome).events)
  {
    dir.WriteFile(certPath, cert);
    var exited := dir.RunTool(CertToDerArgs(certPath, derPath), derPath, outcome);
    if !exited {
      var ok := dir.UnlinkFile(certPath);
      assert ok;
      r := Rejected(SpawnFailed);
    } else {
      var ok := dir.ReadFile(derPath);
      if !ok {
        r := Rejected(ReadFailed(derPath));
      } else {
        ok := dir.UnlinkFile(certPath);
        assert ok;
        ok := dir.UnlinkFile(derPath);
        assert ok;
        r := Resolved(derPath);
      }
    }
    ReplayConcat(dir.initial, old(dir.log), CertToDerTrace(cert, certPath, derPath, outcome).events);
  }

  /** `certToDer` resolves exactly when the tool wrote its output; it leaves
      the certificate behind exactly when the tool exited without output;
      no name is unlinked twice. */
  lemma CertToDerFiles(live: set<Path>, cert: Data, certPath: Path, derPath: Path, outcome: ToolOutcome)
    requires certPath != derPath && certPath !in live && derPath !in live
    ensures Halts(live, CertToDerTrace(cert, certPath, derPath, outcome))
    ensures CertToDerTrace(cert, certPath, derPath, outcome).result.Resolved? <==> outcome == Exited(true)
    ensures Replay(live, CertToDerTrace(cert, certPath, derPath, outcome).events)
            == if outcome == Exited(false) then live + {certPath} else live
    ensures Unlinks(CertToDerTrace(cert, certPath, derPath, outcome).events)
            == if outcome == SpawnError then [certPath]
               else if outcome == Exited(false) then []
               else [certPath, derPath]
  {
    var t := CertToDerTrace(cert, certPath, derPath, outcome);
    var w := Write(certPath, cert);
    var s := Spawn(CertToDerArgs(certPath, derPath), derPath, outcome == Exited(true));
    var run := [w, s];
    Single(live, w);
    assert run == [w] + [s];
    Extend(live, [w], s);
    if outcome.SpawnError? {
      Extend(live, run, Unlink(certPath));
    } else if !outcome.wroteOutput {
      Extend(live, run, Read(derPath));
    } else {
      assert t.events == run + [Read(derPath)] + [Unlink(certPath)] + [Unlink(derPath)];
      Extend(live, run, Read(derPath));
      Extend(live, run + [Read(derPath)], Unlink(certPath));
      Extend(live, run + [Read(derPath)] + [Unlink(certPath)], Unlink(derPath));
    }
  }

  // -------------------------------------------------------------- generateCsr

  /** The names `tempPath` hands out during one call. */
  datatype ScratchNames = ScratchNames(csr: Path, key: Path, conf: Path, der: Path)

  /** Pairwise distinct, and none of them exists yet. */
  predicate Fresh(n: ScratchNames, live: set<Path>)
  {
    n.csr != n.key && n.csr != n.conf && n.csr != n.der && n.key != n.conf && n.key != n.der && n.conf != n.der
    && n.csr !in live && n.key !in live && n.conf !in live && n.der !in live
  }

  /** The key written, then the config when there is more than one domain. */
  function RequestInputs(req: Request, n: ScratchNames): seq<Event>
  {
    [Write(n.key, req.key)]
    + (if |req.domains| > 1 then [Write(n.conf, Chars(ConfigDocument(req.domains, req.subject)))] else [])
  }

  /** The inputs written, then the request run. */
  function RequestRun(req: Request, n: ScratchNames, first: ToolOutcome): seq<Event>
  {
    RequestInputs(req, n)
    + [Spawn(RequestArgs(n.csr, n.key, n.conf, req.domains, req.subject), n.csr, first == Exited(true))]
  }

  /** What both handlers of the request run do first. */
  function RequestCleanup(req: Request, n: ScratchNames): seq<Event>
  {
    (if |req.domains| > 1 then [Unlink(n.conf)] else []) + [Unlink(n.key)]
  }

  /** What follows a request run that exited: read the PEM request, or
      convert it to DER and read that. */
  function Conversion(n: ScratchNames, format: Format, csrWritten: bool, second: ToolOutcome): (t: Trace)
    ensures t.result.Resolved? <==> csrWritten && (format == PEM || second == Exited(true))
    ensures t.result.Resolved? ==> t.result.output == (if format == PEM then n.csr else n.der)
    ensures !t.result.Threw? && t.result != Rejected(SpawnFailed)
  {
    if format == PEM then
      if csrWritten then Trace(Resolved(n.csr), [Read(n.csr), Unlink(n.csr)])
      else Trace(Rejected(ReadFailed(n.csr)), [Read(n.csr)])
    else
      var run := [Spawn(ConvertArgs(n.csr, n.der, DER), n.der, second == Exited(true))];
      if second.SpawnError? then
        if !csrWritten then Trace(Rejected(UnlinkFailed(n.csr)), run + [Unlink(n.csr)])
        else Trace(Rejected(UnlinkFailed(n.der)), run + [Unlink(n.csr), Unlink(n.der)])
      else if !second.wroteOutput then Trace(Rejected(ReadFailed(n.der)), run + [Read(n.der)])
      else if !csrWritten then Trace(Rejected(UnlinkFailed(n.csr)), run + [Read(n.der), Unlink(n.csr)])
      else Trace(Resolved(n.der), run + [Read(n.der), Unlink(n.csr), Unlink(n.der)])
  }

  /** `generateCsr` after its options were accepted. */
  function AcceptedTrace(req: Request, n: ScratchNames, first: ToolOutcome, second: ToolOutcome): (t: Trace)
    ensures !t.result.Threw?
    ensures t.result == Rejected(SpawnFailed) <==> first.SpawnError?
    ensures RequestRun(req, n, first) + RequestCleanup(req, n) <= t.events
  {
    var head := RequestRun(req, n, first) + RequestCleanup(req, n);
    if first.SpawnError? then Trace(Rejected(SpawnFailed), head)
    else
      var tail := Conversion(n, req.format, first.wroteOutput, second);
      Trace(tail.result, head + tail.events)
  }

  /** `generateCsr`, given how its two `openssl` runs end. */
  function CsrTrace(o: RequestOptions, n: ScratchNames, first: ToolOutcome, second: ToolOutcome): (t: Trace)
    ensures t.result.Threw? <==> Normalise(o).Failure?
    ensures t.events == [] <==> Normalise(o).Failure?
    ensures t.result.Resolved? ==> t.result.output == n.csr || t.result.output == n.der
  {
    match Normalise(o)
    case Failure(e) => Trace(Threw(e), [])
    case Success(req) => AcceptedTrace(req, n, first, second)
  }

  /** The argument vector of the request run, built as the source builds
      it: the fixed part, then `-config` or `-subj`. */
  method BuildRequestArgs(n: ScratchNames, req: Request) returns (args: seq<string>)
    ensures args == RequestArgs(n.csr, n.key, n.conf, req.domains, req.subject)
  {
    args := ["req", "-new", "-nodes", "-out", n.csr, "-key", n.key];
    if |req.domains| > 1 {
      args := args + ["-config", n.conf];
    } else {
      var subj := BuildSubjectString(FirstDomain(req.domains), req.subject);
      args := args + ["-subj", subj];
    }
    ghost var expected := RequestArgs(n.csr, n.key, n.conf, req.domains, req.subject);
    assert args == expected[..7] + expected[7..] == expected;
  }

  /** Writes the key, and the config document when there is more than one
      domain. */
  method WriteInputs(dir: ScratchDir, req: Request, n: ScratchNames)
    requires dir.Valid()
    modifies dir
    ensures dir.Valid() && dir.initial == old(dir.initial)
    ensures dir.log == old(dir.log) + RequestInputs(req, n)
    ensures dir.live == old(dir.live) + {n.key} + (if |req.domains| > 1 then {n.conf} else {})
  {
    dir.WriteFile(n.key, req.key);
    if |req.domains| > 1 {
      var conf := BuildConfigDocument(req.domains, req.subject);
      dir.WriteFile(n.conf, Chars(conf));
    }
  }

  /** The unlinks both handlers of the request run start with; the files
      exist, so neither throws. */
  method CleanUpInputs(dir: ScratchDir, req: Request, n: ScratchNames)
    requires dir.Valid() && n.key != n.conf && n.key in dir.live && (|req.domains| > 1 ==> n.conf in dir.live)
    modifies dir
    ensures dir.Valid() && dir.initial == old(dir.initial)
    ensures dir.log == old(dir.log) + RequestCleanup(req, n)
    ensures dir.live == old(dir.live) - (if |req.domains| > 1 then {n.conf} else {}) - {n.key}
  {
    var ok: bool;
    if |req.domains| > 1 {
      ok := dir.UnlinkFile(n.conf);
      assert ok;
    }
    ok := dir.UnlinkFile(n.key);
    assert ok;
  }

  /** Writes the key (and the config), runs the request, and unlinks the
      config and the key whichever way the run ends. */
  method RequestPhase(dir: ScratchDir, req: Request, n: ScratchNames, first: ToolOutcome) returns (exited: bool)
    requires dir.Valid() && Fresh(n, dir.live)
    modifies dir
    ensures dir.Valid() && dir.initial == old(dir.initial)
    ensures exited <==> first.Exited?
    ensures dir.log == old(dir.log) + RequestRun(req, n, first) + RequestCleanup(req, n)
    ensures dir.live == if first == Exited(true) then old(dir.live) + {n.csr} else old(dir.live)
  {
    ghost var confs := if |req.domains| > 1 then {n.conf} else {};
    ghost var made := if first == Exited(true) then {n.csr} else {};
    WriteInputs(dir, req, n);
    var args := BuildRequestArgs(n, req);
    exited := dir.RunTool(args, n.csr, first);
    ghost var run := dir.log;
    assert run == old(dir.log) + RequestRun(req, n, first);
    assert dir.live == old(dir.live) + {n.key} + confs + made;
    CleanUpInputs(dir, req, n);
    assert old(dir.live) + {n.key} + confs + made - confs - {n.key} == old(dir.live) + made;
  }

  /** After the request run exited: reads the PEM request, or converts it
      and reads the DER file, unlinking as the source does. */
  method ConversionPhase(dir: ScratchDir, n: ScratchNames, format: Format, second: ToolOutcome) returns (r: Settled)
    requires dir.Valid() && n.csr != n.der && n.der !in dir.live
    modifies dir
    ensures dir.Valid() && dir.initial == old(dir.initial)
    ensures r == Conversion(n, format, n.csr in old(dir.live), second).result
    ensures dir.log == old(dir.log) + Conversion(n, format, n.csr in old(dir.live), second).events
  {
    ghost var t := Conversion(n, format, n.csr in dir.live, second);
    var ok: bool;
    if format == PEM {
      ok := dir.ReadFile(n.csr);
      if !ok {
        r := Rejected(ReadFailed(n.csr));
      } else {
        ok := dir.UnlinkFile(n.csr);
        assert ok;
        r := Resolved(n.csr);
      }
    } else {
      var exited := dir.RunTool(ConvertArgs(n.csr, n.der, format), n.der, second);
      if !exited {
        ok := dir.UnlinkFile(n.csr);
        if !ok {
          r := Rejected(UnlinkFailed(n.csr));
        } else {
          // The tool never started, so there is no DER file to unlink.
          ok := dir.UnlinkFile(n.der);
          assert !ok;
          r := Rejected(UnlinkFailed(n.der));
        }
      } else {
        ok := dir.ReadFile(n.der);
        if !ok {
          r := Rejected(ReadFailed(n.der));
        } else {
          ok := dir.UnlinkFile(n.csr);
          if !ok {
            r := Rejected(UnlinkFailed(n.csr));
          } else {
            ok := dir.UnlinkFile(n.der);
            assert ok;
            r := Resolved(n.der);
          }
        }
      }
    }
  }

  /** `generateCsr` from the first scratch name on. */
  method Accepted(dir: ScratchDir, req: Request, n: ScratchNames, first: ToolOutcome, second: ToolOutcome)
    returns (r: Settled)
    requires dir.Valid() && Fresh(n, dir.live)
    modifies dir
    ensures dir.Valid() && dir.initial == old(dir.initial)
    ensures r == AcceptedTrace(req, n, first, second).result
    ensures dir.log == old(dir.log) + AcceptedTrace(req, n, first, second).events
  {
    ghost var head := RequestRun(req, n, first) + RequestCleanup(req, n);
    var exited := RequestPhase(dir, req, n, first);
    ghost var afterRequest := dir.log;
    assert afterRequest == old(dir.log) + head;
    if !exited {
      r := Rejected(SpawnFailed);
    } else {
      ghost var tail := Conversion(n, req.format, first.wroteOutput, second);
      assert AcceptedTrace(req, n, first, second) == Trace(tail.result, head + tail.events);
      assert n.csr in dir.live <==> first.wroteOutput;
      r := ConversionPhase(dir, n, req.format, second);
      assert dir.log == afterRequest + tail.events;
    }
  }

  method GenerateCsr(dir: ScratchDir, o: RequestOptions, n: ScratchNames, first: ToolOutcome, second: ToolOutcome)
    returns (r: Settled)
    requires dir.Valid() && Fresh(n, dir.live)
    modifies dir
    ensures dir.Valid() && dir.initial == old(dir.initial)
    ensures r == CsrTrace(o, n, first, second).result
    ensures dir.log == old(dir.log) + CsrTrace(o, n, first, second).events
    ensures dir.live == Replay(old(dir.live), CsrTrace(o, n, first, second).events)
  {
    var norm := Normalise(o);
    if norm.Failure? {
      r := Threw(norm.error);
    } else {
      r := Accepted(dir, norm.value, n, first, second);
    }
    ReplayConcat(dir.initial, old(dir.log), CsrTrace(o, n, first, second).events);
  }

  /** Key written, request run, key unlinked. */
  lemma SingleDomainRun(live: set<Path>, keyData: Data, args: seq<string>, key: Path, csr: Path, wrote: bool)
    requires key != csr && key !in live
    ensures Completed(live, [Write(key, keyData), Spawn(args, csr, wrote), Unlink(key)]) == 3
    ensures Replay(live, [Write(key, keyData), Spawn(args, csr, wrote), Unlink(key)])
            == if wrote then live + {csr} else live
    ensures Unlinks([Write(key, keyData), Spawn(args, csr, wrote), Unlink(key)]) == [key]
    ensures UnlinksSucceed(live, [Write(key, keyData), Spawn(args, csr, wrote), Unlink(key)])
  {
    var wk, sp := Write(key, keyData), Spawn(args, csr, wrote);
    Single(live, wk);
    Extend(live, [wk], sp);
    assert [wk] + [sp] == [wk, sp];
    Extend(live, [wk, sp], Unlink(key));
    assert [wk, sp] + [Unlink(key)] == [wk, sp, Unlink(key)];
    var made := if wrote then {csr} else {};
    assert (live + {key} + made) - {key} == live + made;
  }

  /** Key and config written, request run, config and key unlinked. */
  lemma MultiDomainRun(live: set<Path>, keyData: Data, confData: Data, args: seq<string>,
                       key: Path, conf: Path, csr: Path, wrote: bool)
    requires key != csr && conf != csr && key != conf && key !in live && conf !in live
    ensures Completed(live, [Write(key, keyData), Write(conf, confData), Spawn(args, csr, wrote), Unlink(conf), Unlink(key)]) == 5
    ensures Replay(live, [Write(key, keyData), Write(conf, confData), Spawn(args, csr, wrote), Unlink(conf), Unlink(key)])
            == if wrote then live + {csr} else live
    ensures Unlinks([Write(key, keyData), Write(conf, confData), Spawn(args, csr, wrote), Unlink(conf), Unlink(key)])
            == [conf, key]
    ensures UnlinksSucceed(live, [Write(key, keyData), Write(conf, confData), Spawn(args, csr, wrote), Unlink(conf), Unlink(key)])
  {
    var wk, wc, sp := Write(key, keyData), Write(conf, confData), Spawn(args, csr, wrote);
    Single(live, wk);
    Extend(live, [wk], wc);
    assert [wk] + [wc] == [wk, wc];
    Extend(live, [wk, wc], sp);
    assert [wk, wc] + [sp] == [wk, wc, sp];
    Extend(live, [wk, wc, sp], Unlink(conf));
    assert [wk, wc, sp] + [Unlink(conf)] == [wk, wc, sp, Unlink(conf)];
    Extend(live, [wk, wc, sp, Unlink(conf)], Unlink(key));
    assert [wk, wc, sp, Unlink(conf)] + [Unlink(key)] == [wk, wc, sp, Unlink(conf), Unlink(key)];
    var made := if wrote then {csr} else {};
    assert (live + {key} + {conf} + made) - {conf} - {key} == live + made;
  }

  /** The request phase always completes; it leaves only the request file,
      and only when the tool wrote it; it unlinks the config (when there is
      one) and the key. */
  lemma RequestFiles(live: set<Path>, req: Request, n: ScratchNames, first: ToolOutcome)
    requires Fresh(n, live)
    ensures Completed(live, RequestRun(req, n, first) + RequestCleanup(req, n))
            == |RequestRun(req, n, first) + RequestCleanup(req, n)|
    ensures Replay(live, RequestRun(req, n, first) + RequestCleanup(req, n))
            == if first == Exited(true) then live + {n.csr} else live
    ensures Unlinks(RequestRun(req, n, first) + RequestCleanup(req, n))
            == (if |req.domains| > 1 then [n.conf] else []) + [n.key]
    ensures UnlinksSucceed(live, RequestRun(req, n, first) + RequestCleanup(req, n))
  {
    var args := RequestArgs(n.csr, n.key, n.conf, req.domains, req.subject);
    var wrote := first == Exited(true);
    if |req.domains| > 1 {
      var confData := Chars(ConfigDocument(req.domains, req.subject));
      assert RequestRun(req, n, first) + RequestCleanup(req, n)
             == [Write(n.key, req.key), Write(n.conf, confData), Spawn(args, n.csr, wrote), Unlink(n.conf), Unlink(n.key)];
      MultiDomainRun(live, req.key, confData, args, n.key, n.conf, n.csr, wrote);
    } else {
      assert RequestRun(req, n, first) + RequestCleanup(req, n)
             == [Write(n.key, req.key), Spawn(args, n.csr, wrote), Unlink(n.key)];
      SingleDomainRun(live, req.key, args, n.key, n.csr, wrote);
    }
  }

  /** The conversion phase, entered with the request file present exactly
      when the tool wrote it: it stops at its first failing step, leaves the
      request behind when the DER run exited without output, leaves the DER
      file behind when the request was missing but the DER run wrote, and
      unlinks the request and then the DER file at most once each. */
  lemma ConversionFiles(live: set<Path>, n: ScratchNames, format: Format, csrWritten: bool, second: ToolOutcome)
    requires Fresh(n, live)
    ensures Halts(if csrWritten then live + {n.csr} else live, Conversion(n, format, csrWritten, second))
    ensures Replay(if csrWritten then live + {n.csr} else live, Conversion(n, format, csrWritten, second).events)
            == live + (if format == DER && csrWritten && second == Exited(false) then {n.csr}
                       else if format == DER && !csrWritten && second == Exited(true) then {n.der}
                       else {})
    ensures Unlinks(Conversion(n, format, csrWritten, second).events) in {[], [n.csr], [n.csr, n.der]}
  {
    if format == PEM {
      PemFiles(live, n, csrWritten, second);
    } else if second.SpawnError? {
      DerSpawnErrorFiles(live, n, csrWritten);
    } else {
      DerExitedFiles(live, n, csrWritten, second.wroteOutput);
    }
  }

  /** PEM: read the request and unlink it. */
  lemma PemFiles(live: set<Path>, n: ScratchNames, csrWritten: bool, second: ToolOutcome)
    requires Fresh(n, live)
    ensures Halts(if csrWritten then live + {n.csr} else live, Conversion(n, PEM, csrWritten, second))
    ensures Replay(if csrWritten then live + {n.csr} else live, Conversion(n, PEM, csrWritten, second).events) == live
    ensures Unlinks(Conversion(n, PEM, csrWritten, second).events) == if csrWritten then [n.csr] else []
  {
    var live1 := if csrWritten then live + {n.csr} else live;
    var t := Conversion(n, PEM, csrWritten, second);
    Single(live1, Read(n.csr));
    if csrWritten {
      assert t.events == [Read(n.csr)] + [Unlink(n.csr)];
      Extend(live1, [Read(n.csr)], Unlink(n.csr));
      assert live1 - {n.csr} == live;
    }
  }

  /** DER, conversion not spawned: unlink the request, then the DER file
      that does not exist. */
  lemma DerSpawnErrorFiles(live: set<Path>, n: ScratchNames, csrWritten: bool)
    requires Fresh(n, live)
    ensures Halts(if csrWritten then live + {n.csr} else live, Conversion(n, DER, csrWritten, SpawnError))
    ensures Replay(if csrWritten then live + {n.csr} else live, Conversion(n, DER, csrWritten, SpawnError).events) == live
    ensures Unlinks(Conversion(n, DER, csrWritten, SpawnError).events) == if csrWritten then [n.csr, n.der] else [n.csr]
  {
    var live1 := if csrWritten then live + {n.csr} else live;
    var t := Conversion(n, DER, csrWritten, SpawnError);
    var sp := Spawn(ConvertArgs(n.csr, n.der, DER), n.der, false);
    Single(live1, sp);
    Extend(live1, [sp], Unlink(n.csr));
    if csrWritten {
      assert t.events == [sp] + [Unlink(n.csr)] + [Unlink(n.der)];
      Extend(live1, [sp] + [Unlink(n.csr)], Unlink(n.der));
      assert live1 - {n.csr} - {n.der} == live;
    } else {
      assert t.events == [sp] + [Unlink(n.csr)];
    }
  }

  /** DER, conversion exited: read the DER file, unlink the request, unlink
      the DER file. */
  lemma DerExitedFiles(live: set<Path>, n: ScratchNames, csrWritten: bool, wrote: bool)
    requires Fresh(n, live)
    ensures Halts(if csrWritten then live + {n.csr} else live, Conversion(n, DER, csrWritten, Exited(wrote)))
    ensures Replay(if csrWritten then live + {n.csr} else live, Conversion(n, DER, csrWritten, Exited(wrote)).events)
            == live + (if csrWritten && !wrote then {n.csr} else if !csrWritten && wrote then {n.der} else {})
    ensures Unlinks(Conversion(n, DER, csrWritten, Exited(wrote)).events)
            == if !wrote then [] else if csrWritten then [n.csr, n.der] else [n.csr]
  {
    var live1 := if csrWritten then live + {n.csr} else live;
    var t := Conversion(n, DER, csrWritten, Exited(wrote));
    var sp := Spawn(ConvertArgs(n.csr, n.der, DER), n.der, wrote);
    var live2 := if wrote then live1 + {n.der} else live1;
    Single(live1, sp);
    Extend(live1, [sp], Read(n.der));
    if wrote {
      assert t.events[..3] == [sp] + [Read(n.der)] + [Unlink(n.csr)];
      Extend(live1, [sp] + [Read(n.der)], Unlink(n.csr));
      if csrWritten {
        assert t.events == [sp] + [Read(n.der)] + [Unlink(n.csr)] + [Unlink(n.der)];
        Extend(live1, [sp] + [Read(n.der)] + [Unlink(n.csr)], Unlink(n.der));
        assert live2 - {n.csr} - {n.der} == live;
      } else {
        assert t.events == [sp] + [Read(n.der)] + [Unlink(n.csr)];
        assert live2 - {n.csr} == live + {n.der};
      }
    } else {
      assert t.events == [sp] + [Read(n.der)];
    }
  }

  /** An accepted request stops at its first failing step, leaves behind
      what the conversion phase leaves, and unlinks the config and the key
      before whatever the conversion unlinks. */
  lemma AcceptedFiles(live: set<Path>, req: Request, n: ScratchNames, first: ToolOutcome, second: ToolOutcome)
    requires Fresh(n, live)
    ensures Halts(live, AcceptedTrace(req, n, first, second))
    ensures Replay(live, AcceptedTrace(req, n, first, second).events)
            == live + (if req.format == DER && first == Exited(true) && second == Exited(false) then {n.csr}
                       else if req.format == DER && first == Exited(false) && second == Exited(true) then {n.der}
                       else {})
    ensures var k := if |req.domains| > 1 then 2 else 1;
            var unlinked := Unlinks(AcceptedTrace(req, n, first, second).events);
            k <= |unlinked| && unlinked[..k] == (if |req.domains| > 1 then [n.conf] else []) + [n.key]
            && unlinked[k..] in {[], [n.csr], [n.csr, n.der]}
  {
    if first.Exited? {
      ExitedFiles(live, req, n, first, second);
    } else {
      RequestFiles(live, req, n, first);
      var front := (if |req.domains| > 1 then [n.conf] else []) + [n.key];
      assert Unlinks(AcceptedTrace(req, n, first, second).events)[|front|..] == [];
    }
  }

  /** `AcceptedFiles` once the request run exited: the request phase
      followed by the conversion phase. */
  lemma ExitedFiles(live: set<Path>, req: Request, n: ScratchNames, first: ToolOutcome, second: ToolOutcome)
    requires Fresh(n, live) && first.Exited?
    ensures Halts(live, AcceptedTrace(req, n, first, second))
    ensures Replay(live, AcceptedTrace(req, n, first, second).events)
            == live + (if req.format == DER && first == Exited(true) && second == Exited(false) then {n.csr}
                       else if req.format == DER && first == Exited(false) && second == Exited(true) then {n.der}
                       else {})
    ensures var k := if |req.domains| > 1 then 2 else 1;
            var unlinked := Unlinks(AcceptedTrace(req, n, first, second).events);
            k <= |unlinked| && unlinked[..k] == (if |req.domains| > 1 then [n.conf] else []) + [n.key]
            && unlinked[k..] in {[], [n.csr], [n.csr, n.der]}
  {
    var t := AcceptedTrace(req, n, first, second);
    var head := RequestRun(req, n, first) + RequestCleanup(req, n);
    RequestFiles(live, req, n, first);
    var tail := Conversion(n, req.format, first.wroteOutput, second);
    assert t.events == head + tail.events;
    ConversionFiles(live, n, req.format, first.wroteOutput, second);
    ReplayConcat(live, head, tail.events);
    CompletedConcat(live, head, tail.events);
    UnlinksConcat(head, tail.events);
    if tail.events != [] {
      assert t.events[|t.events| - 1] == tail.events[|tail.events| - 1];
    }
    var front := (if |req.domains| > 1 then [n.conf] else []) + [n.key];
    assert Unlinks(t.events) == front + Unlinks(tail.events);
    assert Unlinks(t.events)[|front|..] == Unlinks(tail.events);
  }

  /** `generateCsr` stops at its first failing step; it leaves the request
      behind when DER was asked for and the conversion exited without
      output, and the DER file behind when the request run exited without
      output but the conversion wrote; nothing else survives it, the key
      and the config included. The key is unlinked exactly once, the config
      once when there is one, and no name twice. */
  lemma CsrFiles(live: set<Path>, o: RequestOptions, n: ScratchNames, first: ToolOutcome, second: ToolOutcome)
    requires Fresh(n, live)
    ensures Halts(live, CsrTrace(o, n, first, second))
    ensures Replay(live, CsrTrace(o, n, first, second).events)
            == live + (if Normalise(o).Success? && Normalise(o).value.format == DER
                          && first == Exited(true) && second == Exited(false) then {n.csr}
                       else if Normalise(o).Success? && Normalise(o).value.format == DER
                          && first == Exited(false) && second == Exited(true) then {n.der}
                       else {})
    ensures Normalise(o).Success? ==>
              multiset(Unlinks(CsrTrace(o, n, first, second).events))[n.key] == 1
              && multiset(Unlinks(CsrTrace(o, n, first, second).events))[n.conf]
                 == if |Normalise(o).value.domains| > 1 then 1 else 0
    ensures forall p :: multiset(Unlinks(CsrTrace(o, n, first, second).events))[p] <= 1
  {
    if Normalise(o).Success? {
      var req := Normalise(o).value;
      assert CsrTrace(o, n, first, second) == AcceptedTrace(req, n, first, second);
      AcceptedFiles(live, req, n, first, second);
      AcceptedUnlinks(live, req, n, first, second);
    } else {
      assert CsrTrace(o, n, first, second).events == [];
    }
  }

  /** An accepted request unlinks the key once, the config once when there
      is one, and no name twice. */
  lemma AcceptedUnlinks(live: set<Path>, req: Request, n: ScratchNames, first: ToolOutcome, second: ToolOutcome)
    requires Fresh(n, live)
    ensures multiset(Unlinks(AcceptedTrace(req, n, first, second).events))[n.key] == 1
    ensures multiset(Unlinks(AcceptedTrace(req, n, first, second).events))[n.conf]
            == if |req.domains| > 1 then 1 else 0
    ensures forall p :: multiset(Unlinks(AcceptedTrace(req, n, first, second).events))[p] <= 1
  {
    AcceptedFiles(live, req, n, first, second);
    var unlinked := Unlinks(AcceptedTrace(req, n, first, second).events);
    var k := if |req.domains| > 1 then 2 else 1;
    assert unlinked == unlinked[..k] + unlinked[k..];
    NamesOnce(n, |req.domains| > 1, unlinked, unlinked[k..]);
  }

  /** The unlinked names of an accepted request, counted. */
  lemma NamesOnce(n: ScratchNames, multi: bool, unlinked: seq<Path>, u: seq<Path>)
    requires Fresh(n, {}) && u in {[], [n.csr], [n.csr, n.der]}
    requires unlinked == (if multi then [n.conf] else []) + [n.key] + u
    ensures multiset(unlinked)[n.key] == 1
    ensures multiset(unlinked)[n.conf] == if multi then 1 else 0
    ensures forall p :: multiset(unlinked)[p] <= 1
  {
  }

  /** How `generateCsr` settles. It resolves with the request when PEM was
      asked for and the request run wrote it, with the DER file when both
      runs wrote; it rejects with the spawn error only for the first run.
      When the conversion cannot be spawned, the DER file it never wrote
      cannot be unlinked, and that error replaces the spawn error. */
  lemma CsrSettles(o: RequestOptions, n: ScratchNames, first: ToolOutcome, second: ToolOutcome)
    requires n.csr != n.der
    ensures Normalise(o).Failure? ==>
              CsrTrace(o, n, first, second) == Trace(Threw(Normalise(o).error), [])
    ensures CsrTrace(o, n, first, second).result == Resolved(n.csr)
            <==> Normalise(o).Success? && Normalise(o).value.format == PEM && first == Exited(true)
    ensures CsrTrace(o, n, first, second).result == Resolved(n.der)
            <==> Normalise(o).Success? && Normalise(o).value.format == DER
                 && first == Exited(true) && second == Exited(true)
    ensures CsrTrace(o, n, first, second).result == Rejected(SpawnFailed)
            <==> Normalise(o).Success? && first == SpawnError
    ensures Normalise(o).Success? && Normalise(o).value.format == DER && first == Exited(true) && second == SpawnError
            ==> CsrTrace(o, n, first, second).result == Rejected(UnlinkFailed(n.der))
  {
  }
}

/** Cleanup as the code evidently intends it, since every scratch file it
    creates has an `unlinkSync` of its own on each path (index.js:25-26, 29,
    102-103, 108, 125-126, 129-130, 134-135): every scratch file that exists
    when a call settles is unlinked, each exactly once, and the
    error the call rejects with is the one that ended its work. The traces
    here differ from `CertToDerTrace` and `CsrTrace` only in their cleanup;
    the lemmas prove that nothing is left behind and that no cleanup step
    throws, next to lemmas that exhibit the leaks of the code as written. */
module SafeCleanup {
  import opened Options
  import opened Commands
  import opened Scratch
  import opened CertUtils

  // ---------------------------------------------------------------- certToDer

  /** `certToDer` with its unlinks in a `finally`: a failed read still
      unlinks the certificate. */
  function CertToDerCleanTrace(cert: Data, certPath: Path, derPath: Path, outcome: ToolOutcome): (t: Trace)
    ensures t.result == CertToDerTrace(cert, certPath, derPath, outcome).result
    ensures Unlink(certPath) in t.events
    ensures outcome == Exited(true) ==> Unlink(derPath) in t.events
  {
    var run := [Write(certPath, cert), Spawn(CertToDerArgs(certPath, derPath), derPath, outcome == Exited(true))];
    if outcome.SpawnError? then Trace(Rejected(SpawnFailed), run + [Unlink(certPath)])
    else if !outcome.wroteOutput then Trace(Rejected(ReadFailed(derPath)), run + [Read(derPath), Unlink(certPath)])
    else Trace(Resolved(derPath), run + [Read(derPath), Unlink(certPath), Unlink(derPath)])
  }

  /** As written, a conversion that exits without output leaves the
      certificate in the temporary directory. */
  lemma CertToDerLeaksCertificate(live: set<Path>, cert: Data, certPath: Path, derPath: Path)
    requires certPath != derPath && certPath !in live && derPath !in live
    ensures certPath in Replay(live, CertToDerTrace(cert, certPath, derPath, Exited(false)).events)
    ensures CertToDerTrace(cert, certPath, derPath, Exited(false)).result == Rejected(ReadFailed(derPath))
  {
    CertToDerFiles(live, cert, certPath, derPath, Exited(false));
  }

  /** Writing the certificate and running the tool add the certificate and,
      when the tool wrote it, the DER file; no unlink has happened yet. */
  lemma CertToDerRun(live: set<Path>, cert: Data, certPath: Path, derPath: Path, outcome: ToolOutcome)
    ensures var run := [Write(certPath, cert), Spawn(CertToDerArgs(certPath, derPath), derPath, outcome == Exited(true))];
            Replay(live, run) == live + {certPath} + (if outcome == Exited(true) then {derPath} else {})
            && UnlinksSucceed(live, run) && Unlinks(run) == []
  {
    var w := Write(certPath, cert);
    var s := Spawn(CertToDerArgs(certPath, derPath), derPath, outcome == Exited(true));
    Single(live, w);
    assert [w, s] == [w] + [s];
    Extend(live, [w], s);
  }

  /** The corrected `certToDer` settles as the original does, leaves no
      file behind, and none of its unlinks throws. */
  lemma CertToDerCleanFiles(live: set<Path>, cert: Data, certPath: Path, derPath: Path, outcome: ToolOutcome)
    requires certPath != derPath && certPath !in live && derPath !in live
    ensures CertToDerCleanTrace(cert, certPath, derPath, outcome).result
            == CertToDerTrace(cert, certPath, derPath, outcome).result
    ensures Replay(live, CertToDerCleanTrace(cert, certPath, derPath, outcome).events) == live
    ensures UnlinksSucceed(live, CertToDerCleanTrace(cert, certPath, derPath, outcome).events)
  {
    var t := CertToDerCleanTrace(cert, certPath, derPath, outcome);
    var run := [Write(certPath, cert), Spawn(CertToDerArgs(certPath, derPath), derPath, outcome == Exited(true))];
    CertToDerRun(live, cert, certPath, derPath, outcome);
    if outcome.SpawnError? {
      Extend(live, run, Unlink(certPath));
      assert live + {certPath} - {certPath} == live;
    } else if !outcome.wroteOutput {
      assert t.events == run + [Read(derPath)] + [Unlink(certPath)];
      Extend(live, run, Read(derPath));
      Extend(live, run + [Read(derPath)], Unlink(certPath));
      assert live + {certPath} - {certPath} == live;
    } else {
      CertToDerCleanWritten(live, cert, certPath, derPath);
    }
  }

  /** The conversion that wrote its output: both files are unlinked, each
      while it exists. */
  lemma CertToDerCleanWritten(live: set<Path>, cert: Data, certPath: Path, derPath: Path)
    requires certPath != derPath && certPath !in live && derPath !in live
    ensures Replay(live, CertToDerCleanTrace(cert, certPath, derPath, Exited(true)).events) == live
    ensures UnlinksSucceed(live, CertToDerCleanTrace(cert, certPath, derPath, Exited(true)).events)
  {
    var t := CertToDerCleanTrace(cert, certPath, derPath, Exited(true));
    var run := [Write(certPath, cert), Spawn(CertToDerArgs(certPath, derPath), derPath, true)];
    CertToDerRun(live, cert, certPath, derPath, Exited(true));
    assert t.events == run + [Read(derPath)] + [Unlink(certPath)] + [Unlink(derPath)];
    Extend(live, run, Read(derPath));
    Extend(live, run + [Read(derPath)], Unlink(certPath));
    Extend(live, run + [Read(derPath)] + [Unlink(certPath)], Unlink(derPath));
    assert live + {certPath} + {derPath} - {certPath} - {derPath} == live;
  }

  // -------------------------------------------------------------- generateCsr

  /** The conversion phase with its unlinks in a `finally` that skips a file
      the tool never wrote. */
  function ConversionClean(n: ScratchNames, format: Format, csrWritten: bool, second: ToolOutcome): (t: Trace)
    ensures !t.result.Threw?
    ensures t.result.Resolved? <==> if format == PEM then csrWritten else second == Exited(true)
    ensures format == DER && second.SpawnError? ==> t.result == Rejected(SpawnFailed)
    ensures csrWritten ==> Unlink(n.csr) in t.events
  {
    if format == PEM then Conversion(n, format, csrWritten, second)
    else
      var run := [Spawn(ConvertArgs(n.csr, n.der, DER), n.der, second == Exited(true))];
      var cleanup := (if csrWritten then [Unlink(n.csr)] else []) + (if second == Exited(true) then [Unlink(n.der)] else []);
      if second.SpawnError? then Trace(Rejected(SpawnFailed), run + cleanup)
      else if !second.wroteOutput then Trace(Rejected(ReadFailed(n.der)), run + [Read(n.der)] + cleanup)
      else Trace(Resolved(n.der), run + [Read(n.der)] + cleanup)
  }

  /** `generateCsr` with the corrected conversion phase. */
  function CsrCleanTrace(o: RequestOptions, n: ScratchNames, first: ToolOutcome, second: ToolOutcome): (t: Trace)
    ensures t.result.Threw? <==> Normalise(o).Failure?
    ensures t.events == [] <==> Normalise(o).Failure?
    ensures Normalise(o).Success? ==> Unlink(n.key) in t.events
  {
    match Normalise(o)
    case Failure(e) => Trace(Threw(e), [])
    case Success(req) =>
      var head := RequestRun(req, n, first) + RequestCleanup(req, n);
      if first.SpawnError? then Trace(Rejected(SpawnFailed), head)
      else
        var tail := ConversionClean(n, req.format, first.wroteOutput, second);
        Trace(tail.result, head + tail.events)
  }

  /** As written, a DER request whose conversion exits without output leaves
      the PEM request behind, and a conversion that cannot be spawned is
      reported as a failed unlink of the DER file it never wrote. */
  lemma CsrLeaksAndMasks(live: set<Path>, o: RequestOptions, n: ScratchNames)
    requires Fresh(n, live) && Normalise(o).Success? && Normalise(o).value.format == DER
    ensures n.csr in Replay(live, CsrTrace(o, n, Exited(true), Exited(false)).events)
    ensures CsrTrace(o, n, Exited(true), SpawnError).result == Rejected(UnlinkFailed(n.der))
  {
    CsrFiles(live, o, n, Exited(true), Exited(false));
  }

  /** The corrected conversion phase leaves nothing behind and its unlinks
      never throw. */
  lemma ConversionCleanFiles(live: set<Path>, n: ScratchNames, format: Format, csrWritten: bool, second: ToolOutcome)
    requires Fresh(n, live)
    ensures Replay(if csrWritten then live + {n.csr} else live, ConversionClean(n, format, csrWritten, second).events)
            == live
    ensures UnlinksSucceed(if csrWritten then live + {n.csr} else live, ConversionClean(n, format, csrWritten, second).events)
  {
    var live1 := if csrWritten then live + {n.csr} else live;
    var t := ConversionClean(n, format, csrWritten, second);
    if format == PEM {
      Single(live1, Read(n.csr));
      if csrWritten {
        assert t.events == [Read(n.csr)] + [Unlink(n.csr)];
        Extend(live1, [Read(n.csr)], Unlink(n.csr));
        assert live1 - {n.csr} == live;
      }
    } else {
      var sp := Spawn(ConvertArgs(n.csr, n.der, DER), n.der, second == Exited(true));
      var live2 := if second == Exited(true) then live1 + {n.der} else live1;
      var body := if second.SpawnError? then [sp] else [sp] + [Read(n.der)];
      Single(live1, sp);
      if !second.SpawnError? {
        Extend(live1, [sp], Read(n.der));
      }
      assert Replay(live1, body) == live2 && UnlinksSucceed(live1, body);
      var c1 := if csrWritten then [Unlink(n.csr)] else [];
      var c2 := if second == Exited(true) then [Unlink(n.der)] else [];
      assert t.events == body + c1 + c2;
      var live3 := if csrWritten then live2 - {n.csr} else live2;
      if csrWritten {
        Extend(live1, body, Unlink(n.csr));
      } else {
        assert body + c1 == body;
      }
      assert Replay(live1, body + c1) == live3 && UnlinksSucceed(live1, body + c1);
      if second == Exited(true) {
        Extend(live1, body + c1, Unlink(n.der));
        assert live3 - {n.der} == live;
      } else {
        assert body + c1 + c2 == body + c1;
        assert live3 == live;
      }
    }
  }

  /** The corrected `generateCsr` leaves no scratch file behind on any path,
      none of its unlinks throws, it resolves in the same cases as the
      original, and a conversion that cannot be spawned rejects with the
      spawn error. */
  lemma CsrCleanFiles(live: set<Path>, o: RequestOptions, n: ScratchNames, first: ToolOutcome, second: ToolOutcome)
    requires Fresh(n, live)
    ensures Replay(live, CsrCleanTrace(o, n, first, second).events) == live
    ensures UnlinksSucceed(live, CsrCleanTrace(o, n, first, second).events)
    ensures !(CsrTrace(o, n, first, second).result.Rejected? && CsrTrace(o, n, first, second).result.reason.UnlinkFailed?)
            ==> CsrCleanTrace(o, n, first, second).result == CsrTrace(o, n, first, second).result
    ensures CsrCleanTrace(o, n, first, second).result == Rejected(SpawnFailed)
            <==> Normalise(o).Success?
                 && (first == SpawnError || (Normalise(o).value.format == DER && first.Exited? && second == SpawnError))
  {
    if Normalise(o).Success? {
      var req := Normalise(o).value;
      var head := RequestRun(req, n, first) + RequestCleanup(req, n);
      RequestFiles(live, req, n, first);
      assert CsrTrace(o, n, first, second) == AcceptedTrace(req, n, first, second);
      if first.Exited? {
        var tail := ConversionClean(n, req.format, first.wroteOutput, second);
        assert CsrCleanTrace(o, n, first, second).events == head + tail.events;
        ConversionCleanFiles(live, n, req.format, first.wroteOutput, second);
        ReplayConcat(live, head, tail.events);
        UnlinksSucceedConcat(live, head, tail.events);
      }
    }
  }
}

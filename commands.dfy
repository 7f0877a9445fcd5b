/** The argument vectors of the three `openssl` invocations, and a reader
    that recovers an invocation from its vector. */
module Commands {
  import opened Wrappers
  import opened Subject
  import opened Options
  import opened Scratch

  /** Where `openssl req -new` takes the subject from. */
  datatype SubjectSource = SubjectText(subj: string) | ConfigFile(path: Path)

  /** The three invocations the module makes. */
  datatype Invocation =
    | X509ToDer(input: Path, output: Path)
    | NewRequest(output: Path, key: Path, source: SubjectSource)
    | ConvertRequest(input: Path, output: Path, outform: string)

  /** The argument vector of an invocation. */
  function Argv(inv: Invocation): (r: seq<string>)
    ensures |r| == (if inv.ConvertRequest? then 7 else 9)
    ensures r[0] == (if inv.X509ToDer? then "x509" else "req")
    ensures inv.ConvertRequest? ==> r[6] == inv.outform
  {
    match inv
    case X509ToDer(i, o) => ["x509", "-in", i, "-inform", "PEM", "-out", o, "-outform", "DER"]
    case NewRequest(o, k, SubjectText(subj)) => ["req", "-new", "-nodes", "-out", o, "-key", k, "-subj", subj]
    case NewRequest(o, k, ConfigFile(c)) => ["req", "-new", "-nodes", "-out", o, "-key", k, "-config", c]
    case ConvertRequest(i, o, f) => ["req", "-in", i, "-out", o, "-outform", f]
  }

  /** Recognises the three vector shapes. */
  function ParseArgv(args: seq<string>): Option<Invocation>
  {
    if |args| == 9 && args[0] == "x509" && args[1] == "-in" && args[3] == "-inform" && args[4] == "PEM"
       && args[5] == "-out" && args[7] == "-outform" && args[8] == "DER"
    then Some(X509ToDer(args[2], args[6]))
    else if |args| == 9 && args[0] == "req" && args[1] == "-new" && args[2] == "-nodes" && args[3] == "-out"
       && args[5] == "-key" && (args[7] == "-subj" || args[7] == "-config")
    then Some(NewRequest(args[4], args[6], if args[7] == "-subj" then SubjectText(args[8]) else ConfigFile(args[8])))
    else if |args| == 7 && args[0] == "req" && args[1] == "-in" && args[3] == "-out" && args[5] == "-outform"
    then Some(ConvertRequest(args[2], args[4], args[6]))
    else None
  }

  /** Every vector reads back as the invocation it was built from, so no two
      invocations share a vector. */
  lemma ArgvRoundTrip(inv: Invocation)
    ensures ParseArgv(Argv(inv)) == Some(inv)
  {
  }

  /** `domains[0]` of the source: for an empty list JavaScript reads
      `undefined`, which `join` writes as the empty string. */
  function FirstDomain(domains: seq<string>): string
  {
    if |domains| == 0 then "" else domains[0]
  }

  /** Where the request takes its subject from: the config file for more
      than one domain, the `-subj` string otherwise. */
  function SubjectSourceFor(confPath: Path, domains: seq<string>, subject: Option<SubjectFields>): SubjectSource
  {
    if |domains| > 1 then ConfigFile(confPath) else SubjectText(SubjectString(FirstDomain(domains), subject))
  }

  /** The vector of the first `openssl` call of `generateCsr`. */
  function RequestArgs(csrPath: Path, keyPath: Path, confPath: Path, domains: seq<string>,
                       subject: Option<SubjectFields>): (r: seq<string>)
    ensures |r| == 9
    ensures r[..7] == ["req", "-new", "-nodes", "-out", csrPath, "-key", keyPath]
    ensures |domains| > 1 ==> r[7..] == ["-config", confPath]
    ensures |domains| <= 1 ==> r[7..] == ["-subj", SubjectString(FirstDomain(domains), subject)]
  {
    Argv(NewRequest(csrPath, keyPath, SubjectSourceFor(confPath, domains, subject)))
  }

  /** The vector of the PEM to DER conversion of a request. */
  function ConvertArgs(csrPath: Path, derPath: Path, format: Format): (r: seq<string>)
    ensures r == ["req", "-in", csrPath, "-out", derPath, "-outform", FormatName(format)]
  {
    Argv(ConvertRequest(csrPath, derPath, FormatName(format)))
  }

  /** The vector of `certToDer`. */
  function CertToDerArgs(certPath: Path, derPath: Path): (r: seq<string>)
    ensures r == ["x509", "-in", certPath, "-inform", "PEM", "-out", derPath, "-outform", "DER"]
  {
    Argv(X509ToDer(certPath, derPath))
  }

  /** The request vector names `-config` exactly when there is more than
      one domain, and reads back as a new request for the given paths. */
  lemma RequestArgsSource(csrPath: Path, keyPath: Path, confPath: Path, domains: seq<string>,
                          subject: Option<SubjectFields>)
    ensures ParseArgv(RequestArgs(csrPath, keyPath, confPath, domains, subject))
            == Some(NewRequest(csrPath, keyPath, SubjectSourceFor(confPath, domains, subject)))
    ensures ParseArgv(RequestArgs(csrPath, keyPath, confPath, domains, subject)).value.source.ConfigFile?
            <==> |domains| > 1
  {
    ArgvRoundTrip(NewRequest(csrPath, keyPath, SubjectSourceFor(confPath, domains, subject)));
  }

  /** An empty domain list reaches the single-domain branch with an empty
      common name. */
  lemma EmptyDomainsSubject(csrPath: Path, keyPath: Path, confPath: Path)
    ensures RequestArgs(csrPath, keyPath, confPath, [], None)
            == ["req", "-new", "-nodes", "-out", csrPath, "-key", keyPath, "-subj", "/CN="]
  {
    SubjectStringWithoutSubject("");
    assert "/CN=" + "" == "/CN=";
  }
}

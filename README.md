# cert-utils in Dafny

A model of `index.js` from cert-utils, a small Node.js module that drives the
`openssl` command-line tool. It has two exported operations:

- `certToDer(cert)` writes a PEM certificate to a scratch file, runs
  `openssl x509` to convert it to DER, reads the result back and unlinks both
  scratch files.
- `generateCsr(options)` (exported as `req`) checks its options. It writes
  the private key to a scratch file. For more than one domain it also writes
  an OpenSSL configuration file whose `[ alt_names ]` section lists every
  domain. It then runs `openssl req -new`: with `-subj` and a slashed subject
  string for at most one domain (an empty list included), or with `-config`
  for more than one. It unlinks the
  key and the config, and then either reads the PEM request or converts it to
  DER with a second `openssl req` run and reads that.

The model is split by concern:

| file | module | models |
|---|---|---|
| `wrappers.dfy` | `Wrappers` | `Option` and `Result` |
| `text.dfy` | `Text` | `Array.prototype.join`, splitting at a character, decimal rendering of the alt-name index |
| `subject.dfy` | `Subject` | `subjectString` (index.js:140-153) and the `subjectKeys` table |
| `config.dfy` | `SslConfig` | `createSSLConfig` (index.js:155-187) |
| `options.dfy` | `Options` | option normalisation and validation (index.js:63-76) |
| `commands.dfy` | `Commands` | the three `openssl` argument vectors |
| `scratch.dfy` | `Scratch` | the temporary directory as a ledger class `ScratchDir` |
| `certutils.dfy` | `CertUtils` | `certToDer` and `generateCsr` as methods on the ledger |
| `cleanup.dfy` | `SafeCleanup` | the corrected cleanup of the Findings below |

The two formatters are pure. They become functions: `SubjectString` and
`ConfigDocument`. The source's own loops become the methods
`BuildSubjectString`, `PushFields` and `BuildConfigDocument`, which are proved
to compute those functions.

The filesystem is the class `Scratch.ScratchDir`. Its field `live` is the set
of names that exist, and its field `log` is every write, spawn, read and
unlink performed, in order. `Valid()` says that replaying the log from the
starting names gives `live`. `writeFileSync`, `readFileSync`, `unlinkSync` and
one `openssl` run are its methods. A read or unlink of a missing name fails,
as the Node calls throw `ENOENT`.

The methods `CertUtils.CertToDer` and `CertUtils.GenerateCsr` follow the
source statement by statement. Each is proved to return the result and append
the events of a trace function (`CertToDerTrace`, `CsrTrace`). Lemmas then
state what those traces do to the directory:

- which names are left behind;
- how often each name is unlinked;
- that each trace stops at its first failing step, as an uncaught exception
  does.

How an `openssl` run ends (spawn error, or exit with or without its output
file) is a parameter of type `ToolOutcome`. The scratch names `tempPath`
returns are parameters too.

A call ends in one of three ways, the type `Settled`. Invalid options make
`generateCsr` throw synchronously, before it returns any promise (`Threw`).
Otherwise the returned promise resolves with a file's content (`Resolved`) or
rejects with an error (`Rejected`).

The module has no written promise about its scratch files, but the code
shows the intent: every scratch file it creates has an `unlinkSync` of its own
on each path it takes (index.js:25-26, 29, 102-103, 108, 125-126, 129-130,
134-135), so no scratch file is meant to outlive a call. The code does not
keep that intent on three paths. The model follows
the code, and the differences are under "Findings".

## Model

| member | source | states |
|---|---|---|
| Subject.Label | index.js:50-56 | each `subjectKeys` label is one or two upper-case letters, so it holds neither `/` nor `=`, and none is `CN` |
| Subject.KeyIndex | index.js:50-56 | every key of `subjectKeys` has a position, and `for-in` visits C, ST, L, O, OU in that order |
| Subject.PushFields | index.js:141-147 | the `for-in` loop leaves parts that join to `/CN=<domain>` followed by `/<label>=<value>` for each own field, in key order |
| Subject.SubjectString | index.js:140-153 | the subject string is the truthy email's `/emailAddress=` pair, then `/CN=<domain>`, then the present fields rendered in key order |
| Subject.BuildSubjectString | index.js:140-153 | the loop, the email unshift and `join('')` produce exactly `SubjectString(domain, subject)` |
| Subject.FieldAttributesPrefix | index.js:143-147 | after visiting the first n keys, a field attribute is present iff its key is among them and the field is an own property with that value; ranks are strictly increasing |
| Subject.SubjectAttributesOrdered | index.js:140-153 | the subject's attributes come in the fixed order emailAddress, CN, C, ST, L, O, OU, so none repeats |
| Subject.SubjectAttributesContent | index.js:141-150 | CN is the domain; a field appears iff it is present, with its value; the email appears iff it is truthy (both directions) |
| Subject.SubjectStringWithoutSubject | index.js:141-152 | without a subject the string is `/CN=` followed by the domain |
| Subject.SubjectStringAllFields | index.js:140-153 | with every field and a truthy email the string is `/emailAddress=e/CN=d/C=../ST=../L=../O=../OU=..` |
| Subject.SubjectStringEmptyValues | index.js:144-148 | an empty but present country is written as `/C=`, while an empty email is dropped |
| SslConfig.AttributeLines | index.js:168-175 | one `LABEL=value` line per dn attribute |
| SslConfig.AltNameLines | index.js:183-185 | one alt-name line per domain |
| SslConfig.ConfigLines | index.js:156-185 | 12 + dn + domains lines: `[ req ]` first, `[ dn ]` at line 7, `CN=<first domain>` at line 8, and `[ alt_names ]` followed by exactly the alt-name lines at the end |
| SslConfig.ConfigDocument | index.js:155-187 | the document ends with a line break followed by the last domain's `DNS.<n>=<domain>` line, so no newline trails it |
| SslConfig.BuildConfigDocument | index.js:155-187 | the source's pushes, `forEach` and `join('\n')` produce exactly `ConfigDocument(domains, subject)` |
| SslConfig.ConfigLayout | index.js:156-182 | the document is the fixed `[ req ]` block and a blank line, `[ dn ]`, `CN=` the first domain, the other dn lines, the four extension lines, then the alt names, with 12 + dn + domains lines |
| SslConfig.ConfigEmailLast | index.js:173-175 | the last dn line is `emailAddress=<email>` iff the email is truthy |
| SslConfig.SameDistinguishedName | index.js:167-175 | the `[ dn ]` section and the `-subj` string carry the same multiset of attributes; only the email's position differs |
| SslConfig.AltNameRoundTrip | index.js:184 | `DNS.<i>=<domain>` reads back as (i, domain) for every index and every domain text |
| SslConfig.AltNamesReadBack | index.js:183-185 | line i of `[ alt_names ]` reads back as (i + 1, domains[i]): input order, duplicates kept, numbered from 1 |
| SslConfig.ConfigDocumentLines | index.js:186 | when no value holds a newline, splitting the document at `'\n'` gives back exactly its lines |
| SslConfig.ConfigTwoDomains | index.js:155-187 | for example.com and www.example.com, line 8 is `CN=example.com` and the document ends `DNS.1=example.com`, `DNS.2=www.example.com` |
| Text.SplitJoin | index.js:186 | splitting a `join` of newline-free lines at the separator gives the lines back |
| Text.ParseNatToString | index.js:184 | the decimal text of `index + 1` reads back as the same number |
| Text.NatToStringInjective | index.js:184 | distinct indices give distinct alt-name numbers |
| Options.NormaliseDomains | index.js:63-71 | the domain list is missing iff there is no truthy `domain` and no `domains`; a truthy `domain` or a string `domains` gives a one-element list |
| Options.FormatOf | index.js:73-76 | the format is PEM iff it is falsy or "PEM", DER iff it is "DER", and any other truthy value fails with that value |
| Options.Normalise | index.js:63-76 | options pass iff both checks pass; a missing domain list wins over a bad format; a passing request keeps the key, the subject, the normalised domains and the format |
| Options.DomainNormalisation | index.js:63-71 | a truthy `domain` wins; a string `domains` becomes a one-element list; an array passes unchanged; with neither the call throws the missing-domain error, before the format is looked at |
| Options.EmptyDomainList | index.js:63-71 | the list is empty iff `domains` is an empty array with no truthy `domain`, and such options pass validation |
| Options.FormatValidation | index.js:73-76 | a falsy format means PEM; exactly "PEM" and "DER" pass; any other format fails with its own text |
| Options.FormatExact | index.js:74-75 | the format test is case-sensitive and anchored (`pem` and `DER ` fail) |
| Commands.Argv | index.js:17-118 | the certificate conversion runs `x509` and both request runs run `req`; the conversion of a request has 7 arguments ending in its format, the other two have 9 |
| Commands.ArgvRoundTrip | index.js:17-118 | each of the three argument vectors reads back as the invocation it was built from |
| Commands.CertToDerArgs | index.js:17-22 | `x509 -in <cert> -inform PEM -out <der> -outform DER` |
| Commands.RequestArgs | index.js:82-96 | `req -new -nodes -out <csr> -key <key>`, then `-config <conf>` for more than one domain and `-subj <subject string>` otherwise |
| Commands.RequestArgsSource | index.js:90-96 | the request takes its subject from the config file iff there is more than one domain |
| Commands.EmptyDomainsSubject | index.js:94-96 | an empty domain list reaches `-subj` with the subject `/CN=` |
| Commands.ConvertArgs | index.js:112-118 | `req -in <csr> -out <der> -outform <format>` |
| Scratch.ScratchDir.WriteFile | index.js:14 | `writeFileSync` adds the name and logs the write |
| Scratch.ScratchDir.ReadFile | index.js:24 | `readFileSync` succeeds iff the name exists, and changes nothing |
| Scratch.ScratchDir.UnlinkFile | index.js:25-26 | `unlinkSync` succeeds iff the name exists, and removes it |
| Scratch.ScratchDir.RunTool | index.js:190-196 | the promise resolves iff the process spawned; the output name exists afterwards iff the tool wrote it |
| CertUtils.CertToDerTrace | index.js:13-31 | `certToDer` writes the certificate and runs the tool first; it resolves, with the DER file, iff the tool wrote it; it never throws synchronously |
| CertUtils.CertToDer | index.js:10-32 | `certToDer` settles and acts exactly as `CertToDerTrace` says, and the ledger stays consistent |
| CertUtils.CertToDerFiles | index.js:23-31 | it resolves iff the tool wrote the DER file; the certificate is left behind iff the tool exited without output; it unlinks the certificate and then the DER file, each at most once; it stops at its first failing step |
| CertUtils.BuildRequestArgs | index.js:82-96 | the vector built by push is `RequestArgs` |
| CertUtils.WriteInputs | index.js:78-92 | the key is written, then the config document when there is more than one domain |
| CertUtils.CleanUpInputs | index.js:102-135 | both handlers (index.js:102-103 and 134-135) unlink the config (if any) and the key, and neither unlink throws |
| CertUtils.RequestPhase | index.js:78-103 | after the request run only the request file is new, and only if the tool wrote it |
| CertUtils.ConversionPhase | index.js:105-132 | reading, converting and unlinking after the request run follow `Conversion` |
| CertUtils.Accepted | index.js:78-137 | an accepted request acts exactly as `AcceptedTrace` says |
| CertUtils.Conversion | index.js:105-132 | the conversion phase resolves iff the request was written and, for DER, the conversion wrote its output, with the request or the DER file; it never rejects with the spawn error |
| CertUtils.AcceptedTrace | index.js:78-137 | an accepted request starts with the request run and its cleanup, never throws synchronously, and rejects with the spawn error iff the first run did not spawn |
| CertUtils.CsrTrace | index.js:60-138 | `generateCsr` throws synchronously iff its options fail, exactly when it touches no file; it resolves only with the request or the DER file |
| CertUtils.GenerateCsr | index.js:60-138 | `generateCsr` settles and acts exactly as `CsrTrace` says; invalid options throw synchronously before any file is touched |
| CertUtils.RequestFiles | index.js:80-103 | the request phase never fails a step, leaves only the request file (if written), and unlinks the config then the key |
| CertUtils.ConversionFiles | index.js:105-132 | the conversion phase stops at its first failing step and leaves behind exactly the request (DER run exited without output) or the DER file (request missing, DER written) |
| CertUtils.AcceptedFiles | index.js:101-137 | an accepted request stops at its first failing step; config and key are unlinked before anything the conversion unlinks |
| CertUtils.AcceptedUnlinks | index.js:101-137 | the key is unlinked exactly once, the config once iff there is more than one domain, and no name twice |
| CertUtils.CsrFiles | index.js:60-138 | `generateCsr` stops at its first failing step, never leaves the key or config, and leaves the request or the DER file only on the two DER paths named above |
| CertUtils.CsrSettles | index.js:101-137 | resolves with the request iff PEM and the request was written, with the DER file iff both runs wrote; rejects with the spawn error iff the first run did not spawn; invalid options throw before any event, and no promise is returned |
| SafeCleanup.CertToDerLeaksCertificate | index.js:23-27 | as written, a conversion without output leaves the certificate behind |
| SafeCleanup.CertToDerCleanTrace | index.js:23-31 | the corrected `certToDer` settles as the original, always unlinks the certificate, and unlinks the DER file whenever the tool wrote it |
| SafeCleanup.CertToDerCleanFiles | index.js:23-31 | with cleanup on every path, `certToDer` settles as before, leaves nothing behind, and no unlink throws |
| SafeCleanup.CsrLeaksAndMasks | index.js:123-131 | as written, a DER conversion without output leaves the request behind, and an unspawnable conversion is reported as a failed unlink |
| SafeCleanup.ConversionClean | index.js:105-132 | the corrected conversion resolves iff the file it reads was written (the request for PEM, the DER file for DER), rejects with the spawn error when the conversion cannot be spawned, and unlinks the request whenever it exists |
| SafeCleanup.ConversionCleanFiles | index.js:105-132 | the corrected conversion phase leaves nothing behind and no unlink throws |
| SafeCleanup.CsrCleanTrace | index.js:60-138 | corrected `generateCsr` throws iff its options fail, exactly when it touches no file, and unlinks the key whenever the options pass |
| SafeCleanup.CsrCleanFiles | index.js:60-138 | corrected `generateCsr` leaves nothing behind and no unlink throws; it settles as the original except where the original failed an unlink; it rejects with the spawn error iff a run did not spawn |

## Left out

- Running `openssl`: the process, its exit code and its streams are not modelled. A run is described by its `ToolOutcome`: it did not spawn, or it exited with or without writing its `-out` file.
- File contents: `readFileSync` returns bytes, while the model resolves with the name of the file read. What `openssl` writes is not modelled.
- `tempPath`: its random names are parameters. `CertToDer` and `GenerateCsr` require them to be pairwise distinct and unused, which the source assumes of `Math.random()`. A collision is not modelled.
- `assertValid`: runtime type checking is replaced by Dafny types, so a wrongly typed option cannot be expressed.
- `DEBUG` and `console.log` of the argument vectors: diagnostics only.
- Promises and concurrency: each call runs sequentially on its own ledger. Two calls interleaving in the shared temporary directory are not modelled.
- Filesystem errors other than a missing file (permissions, a full disk): writes always succeed, and a read or unlink fails only for a missing name.
- `exports.subjectTypes`: it re-exports the option schema and has no behaviour.
- Text.NatToString: it renders every natural number in decimal. JavaScript's number-to-string agrees only below 10^21, which no domain list reaches.
- SslConfig.ConfigDocument: it requires a non-empty domain list. The source calls `createSSLConfig` only with more than one domain.
- Subject.SubjectString: a value containing `/` or `=` is written unescaped, as in the source. There is no parser for the `-subj` string, so no round-trip lemma is stated for it.

## Findings

| source | as written | input that shows it | evidently intended | confidence | as-written member | corrected member |
|---|---|---|---|---|---|---|
| index.js:23-27 | `readFileSync(derPath)` runs before both unlinks, so when it throws, the certificate file is never unlinked | `certToDer` where `openssl x509` exits without writing the DER file (input that is not PEM): outcome `Exited(false)` | unlink the certificate on every path, then reject | high; not executed | SafeCleanup.CertToDerLeaksCertificate | SafeCleanup.CertToDerCleanFiles |
| index.js:123-127 | in the DER branch `readFileSync(derPath)` runs before unlinking the request, so a conversion without output leaves the PEM request file behind | `format: 'DER'`; the first run writes the request, the second exits without output | unlink the request whatever the conversion does | high; not executed | SafeCleanup.CsrLeaksAndMasks | SafeCleanup.CsrCleanFiles |
| index.js:128-131 | when the conversion cannot be spawned, `unlinkSync(derPath)` throws `ENOENT` for the DER file that was never created, and that error replaces the spawn error | `format: 'DER'`; the first run writes the request, the second run's spawn fails | unlink only the files that exist, and reject with the spawn error | high; not executed | SafeCleanup.CsrLeaksAndMasks | SafeCleanup.CsrCleanFiles |

The methods `CertUtils.CertToDer` and `CertUtils.GenerateCsr` keep the
behaviour as written. `SafeCleanup.CertToDerCleanTrace` and
`SafeCleanup.CsrCleanTrace` are the corrected traces. They differ from the
originals only in their cleanup steps.

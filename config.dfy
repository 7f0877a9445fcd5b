/** `createSSLConfig`: the configuration document handed to `openssl req
    -config` when a request names more than one domain. Every domain
    becomes a `DNS` entry of the subjectAltName extension (section 4.2.1.6
    of RFC 5280). */
module SslConfig {
  import opened Wrappers
  import opened Text
  import opened Subject

  /** The `[ req ]` section and the blank line after it. */
  const RequestSection: seq<string> := [
    "[ req ]",
    "default_bits=2048",
    "prompt=no",
    "default_md=sha256",
    "req_extensions=v3_req",
    "distinguished_name=dn",
    ""]

  const DnHeader: string := "[ dn ]"

  /** The `[ v3_req ]` section, a blank line, and the `[ alt_names ]` header. */
  const ExtensionSection: seq<string> := [
    "[ v3_req ]",
    "subjectAltName=@alt_names",
    "",
    "[ alt_names ]"]

  /** The attributes of the `[ dn ]` section: CN first, then the present
      fields, then the truthy email last. */
  function DnAttributes(first: string, subject: Option<SubjectFields>): seq<Attribute>
  {
    [Attribute(CommonName, first)] + IdentityAttributes(subject) + EmailAttributes(subject)
  }

  /** One attribute as a `LABEL=value` line. */
  function AttributeLine(a: Attribute): string
  {
    TypeLabel(a.kind) + "=" + a.value
  }

  function AttributeLines(attrs: seq<Attribute>): (r: seq<string>)
    ensures |r| == |attrs|
  {
    seq(|attrs|, i requires 0 <= i < |attrs| => AttributeLine(attrs[i]))
  }

  /** The subjectAltName entry for the domain at 1-based position `index`. */
  function AltName(index: nat, domain: string): string
  {
    "DNS." + NatToString(index) + "=" + domain
  }

  /** The `[ alt_names ]` entries, one per domain, numbered from 1. */
  function AltNameLines(domains: seq<string>): (r: seq<string>)
    ensures |r| == |domains|
  {
    seq(|domains|, i requires 0 <= i < |domains| => AltName(i + 1, domains[i]))
  }

  /** The lines of the document for a non-empty domain list. */
  function ConfigLines(domains: seq<string>, subject: Option<SubjectFields>): (r: seq<string>)
    requires |domains| > 0
    ensures |r| == 12 + |DnAttributes(domains[0], subject)| + |domains|
    ensures r[0] == "[ req ]" && r[7] == "[ dn ]" && r[8] == "CN=" + domains[0]
    ensures r[|r| - |domains| - 1] == "[ alt_names ]" && r[|r| - |domains|..] == AltNameLines(domains)
  {
    RequestSection + [DnHeader] + AttributeLines(DnAttributes(domains[0], subject))
      + ExtensionSection + AltNameLines(domains)
  }

  /** The configuration document: its lines joined with `'\n'`. */
  function ConfigDocument(domains: seq<string>, subject: Option<SubjectFields>): (r: string)
    requires |domains| > 0
    ensures var last := "\n" + AltName(|domains|, domains[|domains| - 1]);
            |last| <= |r| && r[|r| - |last|..] == last
  {
    var lines := ConfigLines(domains, subject);
    assert lines[|lines| - 1] == AltNameLines(domains)[|domains| - 1];
    JoinEnds(lines, "\n");
    Join(lines, "\n")
  }

  // ---- Reading the alt names back -------------------------------------

  datatype AltNameEntry = AltNameEntry(index: nat, domain: string)

  /** Length of the run of digits at the start of `s`. */
  function DigitRun(s: string): (n: nat)
    ensures n <= |s|
  {
    if s == [] || !IsDigit(s[0]) then 0 else 1 + DigitRun(s[1..])
  }

  lemma {:induction false} DigitRunOf(digits: string, t: string)
    requires AllDigits(digits)
    requires t == [] || !IsDigit(t[0])
    ensures DigitRun(digits + t) == |digits|
  {
    if digits != [] {
      assert (digits + t)[1..] == digits[1..] + t;
      DigitRunOf(digits[1..], t);
    } else {
      assert digits + t == t;
    }
  }

  /** Reads a `DNS.<n>=<domain>` line: the prefix, a run of digits, `=`,
      and the rest of the line as the domain. */
  function ParseAltName(line: string): Option<AltNameEntry>
  {
    if |line| < 4 || line[..4] != "DNS." then None
    else
      var rest := line[4..];
      var k := DigitRun(rest);
      if k == 0 || k == |rest| || rest[k] != '=' then None
      else
        assert AllDigits(rest[..k]) by { DigitRunDigits(rest); }
        Some(AltNameEntry(ParseDecimal(rest[..k]), rest[k + 1..]))
  }

  lemma {:induction false} DigitRunDigits(s: string)
    ensures AllDigits(s[..DigitRun(s)])
  {
    if s != [] && IsDigit(s[0]) {
      DigitRunDigits(s[1..]);
      assert s[..DigitRun(s)] == [s[0]] + s[1..][..DigitRun(s[1..])];
    }
  }

  /** An alt-name line reads back as its index and its domain, whatever
      characters the domain holds. */
  lemma AltNameRoundTrip(index: nat, domain: string)
    ensures ParseAltName(AltName(index, domain)) == Some(AltNameEntry(index, domain))
  {
    var num := NatToString(index);
    var line := AltName(index, domain);
    assert line == "DNS." + (num + ("=" + domain));
    var rest := line[4..];
    assert rest == num + ("=" + domain);
    DigitRunOf(num, "=" + domain);
    assert rest[..|num|] == num;
    assert rest[|num| + 1..] == domain;
    ParseNatToString(index);
  }

  /** The `[ alt_names ]` section lists the domains in input order, duplicates
      kept, numbered 1, 2, ...: line `i` reads back as `(i + 1, domains[i])`. */
  lemma AltNamesReadBack(domains: seq<string>)
    ensures forall i :: 0 <= i < |domains| ==>
              ParseAltName(AltNameLines(domains)[i]) == Some(AltNameEntry(i + 1, domains[i]))
  {
    forall i | 0 <= i < |domains|
      ensures ParseAltName(AltNameLines(domains)[i]) == Some(AltNameEntry(i + 1, domains[i]))
    {
      AltNameRoundTrip(i + 1, domains[i]);
    }
  }

  // ---- Properties of the document -------------------------------------

  /** The document's layout: the `[ req ]` block and a blank line, `[ dn ]`,
      `CN=` the first domain, the remaining dn lines, the extension lines,
      and last the alt names. */
  lemma ConfigLayout(domains: seq<string>, subject: Option<SubjectFields>)
    requires |domains| > 0
    ensures var lines := ConfigLines(domains, subject);
            var n := |DnAttributes(domains[0], subject)|;
            && |lines| == 12 + n + |domains|
            && lines[..7] == RequestSection
            && lines[7] == DnHeader
            && lines[8] == "CN=" + domains[0]
            && lines[8 + n..12 + n] == ExtensionSection
            && lines[12 + n..] == AltNameLines(domains)
  {
    var lines := ConfigLines(domains, subject);
    var dn := AttributeLines(DnAttributes(domains[0], subject));
    assert lines == RequestSection + [DnHeader] + dn + ExtensionSection + AltNameLines(domains);
    assert dn[0] == TypeLabel(CommonName) + "=" + domains[0];
    assert TypeLabel(CommonName) + "=" == "CN=";
  }

  /** The email, when truthy, is the last line of `[ dn ]`, and only then
      is that line an emailAddress attribute. */
  lemma ConfigEmailLast(domains: seq<string>, subject: Option<SubjectFields>)
    requires |domains| > 0
    ensures var attrs := DnAttributes(domains[0], subject);
            (subject.Some? && HasEmail(subject.value)) <==> attrs[|attrs| - 1].kind == EmailAddress
    ensures var lines := ConfigLines(domains, subject);
            var n := |DnAttributes(domains[0], subject)|;
            subject.Some? && HasEmail(subject.value) ==>
              lines[7 + n] == "emailAddress=" + subject.value.email.value
  {
    if subject.Some? {
      FieldAttributesPrefix(subject.value, |SubjectKeys|);
      assert SubjectKeys[..|SubjectKeys|] == SubjectKeys;
    }
    var ids := IdentityAttributes(subject);
    assert forall a :: a in ids ==> a.kind.Identity?;
    if ids != [] {
      assert ids[|ids| - 1] in ids;
    }
  }

  /** The `[ dn ]` section and the `-subj` string name the same attributes;
      only the email's place differs. */
  lemma SameDistinguishedName(domain: string, subject: Option<SubjectFields>)
    ensures multiset(DnAttributes(domain, subject)) == multiset(SubjectAttributes(domain, subject))
  {
  }

  predicate SingleLine(s: string)
  {
    '\n' !in s
  }

  predicate SubjectSingleLine(subject: Option<SubjectFields>)
  {
    subject.Some? ==>
      var s := subject.value;
      && (s.email.Some? ==> SingleLine(s.email.value))
      && forall k :: Field(s, k).Some? ==> SingleLine(Field(s, k).value)
  }

  lemma DnLinesSingle(first: string, subject: Option<SubjectFields>)
    requires SingleLine(first)
    requires SubjectSingleLine(subject)
    ensures NoneContains(AttributeLines(DnAttributes(first, subject)), '\n')
  {
    var attrs := DnAttributes(first, subject);
    IdentityValuesSingle(subject);
    forall i | 0 <= i < |attrs| ensures SingleLine(AttributeLine(attrs[i])) {
      AttributeLineSingle(attrs[i]);
    }
  }

  lemma IdentityValuesSingle(subject: Option<SubjectFields>)
    requires SubjectSingleLine(subject)
    ensures forall a :: a in IdentityAttributes(subject) ==> SingleLine(a.value)
  {
    if subject.Some? {
      var s := subject.value;
      FieldAttributesPrefix(s, |SubjectKeys|);
      assert SubjectKeys[..|SubjectKeys|] == SubjectKeys;
      forall a | a in IdentityAttributes(subject) ensures SingleLine(a.value) {
        assert Rank(a.kind) >= 2;
        var k := a.kind.key;
        assert a == Attribute(Identity(k), a.value);
        assert Attribute(Identity(k), a.value) in FieldAttributes(s, SubjectKeys[..|SubjectKeys|]);
        assert Field(s, k) == Some(a.value);
      }
    }
  }

  lemma AttributeLineSingle(a: Attribute)
    requires SingleLine(a.value)
    ensures SingleLine(AttributeLine(a))
  {
    LabelSingleLine(a.kind);
  }

  lemma LabelSingleLine(t: AttributeType)
    ensures SingleLine(TypeLabel(t) + "=")
  {
    match t
    case EmailAddress =>
    case CommonName =>
    case Identity(k) =>
  }

  lemma AltNamesSingle(domains: seq<string>)
    requires forall i :: 0 <= i < |domains| ==> SingleLine(domains[i])
    ensures NoneContains(AltNameLines(domains), '\n')
  {
    forall i | 0 <= i < |domains| ensures SingleLine(AltName(i + 1, domains[i])) {
      var num := NatToString(i + 1);
      assert forall j :: 0 <= j < |num| ==> num[j] != '\n';
      assert AltName(i + 1, domains[i]) == "DNS." + num + "=" + domains[i];
    }
  }

  lemma NoneContainsConcat(a: seq<string>, b: seq<string>, c: char)
    requires NoneContains(a, c) && NoneContains(b, c)
    ensures NoneContains(a + b, c)
  {
  }

  /** When no domain and no subject value holds a line break, splitting the
      document at `'\n'` gives back exactly its lines: one per entry, no
      trailing newline. */
  lemma ConfigDocumentLines(domains: seq<string>, subject: Option<SubjectFields>)
    requires |domains| > 0
    requires forall i :: 0 <= i < |domains| ==> SingleLine(domains[i])
    requires SubjectSingleLine(subject)
    ensures Split(ConfigDocument(domains, subject), '\n') == ConfigLines(domains, subject)
  {
    var dn := AttributeLines(DnAttributes(domains[0], subject));
    DnLinesSingle(domains[0], subject);
    AltNamesSingle(domains);
    assert NoneContains(RequestSection + [DnHeader], '\n');
    NoneContainsConcat(RequestSection + [DnHeader], dn, '\n');
    NoneContainsConcat(RequestSection + [DnHeader] + dn, ExtensionSection, '\n');
    NoneContainsConcat(RequestSection + [DnHeader] + dn + ExtensionSection, AltNameLines(domains), '\n');
    SplitJoin(ConfigLines(domains, subject), '\n');
  }

  /** A document for two domains: `CN=` the first, then both as numbered alt names. */
  lemma ConfigTwoDomains()
    ensures var lines := ConfigLines(["example.com", "www.example.com"], None);
            && lines[8] == "CN=example.com"
            && lines[|lines| - 2..] == ["DNS.1=example.com", "DNS.2=www.example.com"]
  {
    var domains := ["example.com", "www.example.com"];
    ConfigLayout(domains, None);
    var lines := ConfigLines(domains, None);
    assert NatToString(1) == "1";
    assert NatToString(2) == "2";
    assert AltName(1, "example.com") == "DNS.1=example.com";
    assert AltName(2, "www.example.com") == "DNS.2=www.example.com";
    assert lines[|lines| - 2..] == AltNameLines(domains);
  }

  // ---- The source's loops ---------------------------------------------

  /** One turn of the `for-in` loop of `createSSLConfig`. */
  lemma PushFieldLine(parts: seq<string>, head: seq<string>, first: string, s: SubjectFields, i: nat)
    requires i < |SubjectKeys|
    requires parts == head + AttributeLines([Attribute(CommonName, first)] + FieldAttributes(s, SubjectKeys[..i]))
    ensures Field(s, SubjectKeys[i]).Some? ==>
              parts + [Label(SubjectKeys[i]) + "=" + Field(s, SubjectKeys[i]).value]
              == head + AttributeLines([Attribute(CommonName, first)] + FieldAttributes(s, SubjectKeys[..i + 1]))
    ensures Field(s, SubjectKeys[i]).None? ==>
              parts == head + AttributeLines([Attribute(CommonName, first)] + FieldAttributes(s, SubjectKeys[..i + 1]))
  {
    FieldAttributesStep(s, i);
    var before := [Attribute(CommonName, first)] + FieldAttributes(s, SubjectKeys[..i]);
    var extra := FieldAttribute(s, SubjectKeys[i]);
    assert [Attribute(CommonName, first)] + FieldAttributes(s, SubjectKeys[..i + 1]) == before + extra;
    assert AttributeLines(before + extra) == AttributeLines(before) + AttributeLines(extra);
  }

  /** One turn of the `forEach` loop of `createSSLConfig`. */
  lemma PushAltName(domains: seq<string>, index: nat)
    requires index < |domains|
    ensures AltNameLines(domains[..index + 1])
            == AltNameLines(domains[..index]) + ["DNS." + NatToString(index + 1) + "=" + domains[index]]
  {
  }

  /** `createSSLConfig` as the source runs it: the fixed head, a push per
      present field in `subjectKeys` order, the email if truthy, the
      extension lines, then a push per domain in `forEach` order; the parts
      are joined with `'\n'`. */
  method BuildConfigDocument(domains: seq<string>, subject: Option<SubjectFields>) returns (r: string)
    requires |domains| > 0
    ensures r == ConfigDocument(domains, subject)
  {
    var parts := RequestSection + [DnHeader, "CN=" + domains[0]];
    ghost var head := RequestSection + [DnHeader];
    assert TypeLabel(CommonName) + "=" == "CN=";
    assert parts == head + AttributeLines([Attribute(CommonName, domains[0])]);
    if subject.Some? {
      var s := subject.value;
      assert SubjectKeys[..0] == [];
      for i := 0 to |SubjectKeys|
        invariant parts == head + AttributeLines([Attribute(CommonName, domains[0])]
                                                 + FieldAttributes(s, SubjectKeys[..i]))
      {
        var k := SubjectKeys[i];
        PushFieldLine(parts, head, domains[0], s, i);
        if Field(s, k).Some? {
          parts := parts + [Label(k) + "=" + Field(s, k).value];
        }
      }
      assert SubjectKeys[..|SubjectKeys|] == SubjectKeys;
      ghost var dn := [Attribute(CommonName, domains[0])] + FieldAttributes(s, SubjectKeys);
      if HasEmail(s) {
        var email := Attribute(EmailAddress, s.email.value);
        assert AttributeLines(dn + [email]) == AttributeLines(dn) + [AttributeLine(email)];
        assert "emailAddress" + "=" == "emailAddress=";
        assert AttributeLine(email) == "emailAddress=" + s.email.value;
        parts := parts + ["emailAddress=" + s.email.value];
        assert DnAttributes(domains[0], subject) == dn + [email];
      } else {
        assert DnAttributes(domains[0], subject) == dn;
      }
    } else {
      assert DnAttributes(domains[0], subject) == [Attribute(CommonName, domains[0])];
    }
    assert parts == head + AttributeLines(DnAttributes(domains[0], subject));
    parts := parts + ExtensionSection;
    ghost var body := parts;
    for index := 0 to |domains|
      invariant parts == body + AltNameLines(domains[..index])
    {
      PushAltName(domains, index);
      parts := parts + ["DNS." + NatToString(index + 1) + "=" + domains[index]];
    }
    assert domains[..|domains|] == domains;
    r := Join(parts, "\n");
  }
}

/** `subjectString`: the `-subj` argument of `openssl req`, a distinguished
    name written as `/LABEL=value` pairs. The attributes are the Subject
    fields of section 4.1.2.6 of RFC 5280 and the PKCS #9 `emailAddress`
    attribute (section 5.4.1 of RFC 2985). */
module Subject {
  import opened Wrappers
  import opened Text

  /** The `subject` option. `Some` means the property is the object's own
      property (`hasOwnProperty`); its value is then the string given. */
  datatype SubjectFields = SubjectFields(
    email: Option<string>,
    country: Option<string>,
    state: Option<string>,
    city: Option<string>,
    company: Option<string>,
    division: Option<string>)

  /** The keys of the `subjectKeys` table. */
  datatype Key = Country | State | City | Company | Division

  /** `subjectKeys` in declaration order, which is the order `for-in` visits. */
  const SubjectKeys: seq<Key> := [Country, State, City, Company, Division]

  /** The attribute label `subjectKeys` maps each key to. */
  function Label(k: Key): (l: string)
    ensures 0 < |l| <= 2 && forall i :: 0 <= i < |l| ==> 'A' <= l[i] <= 'Z'
    ensures l != "CN"
  {
    match k
    case Country => "C"
    case State => "ST"
    case City => "L"
    case Company => "O"
    case Division => "OU"
  }

  function Field(s: SubjectFields, k: Key): Option<string>
  {
    match k
    case Country => s.country
    case State => s.state
    case City => s.city
    case Company => s.company
    case Division => s.division
  }

  /** Position of a key in `SubjectKeys`. */
  function KeyIndex(k: Key): (i: nat)
    ensures i < |SubjectKeys| && SubjectKeys[i] == k
  {
    match k
    case Country => 0
    case State => 1
    case City => 2
    case Company => 3
    case Division => 4
  }

  /** JavaScript truthiness of an optional string: present and not the
      empty string. */
  predicate Truthy(s: Option<string>)
  {
    s.Some? && s.value != ""
  }

  /** `if (options.email)`: the email counts only when it is truthy; the
      other fields only need to be present. */
  predicate HasEmail(s: SubjectFields)
  {
    Truthy(s.email)
  }

  /** The attribute types of the subject: the PKCS #9 email address, the
      common name, and the five fields of `subjectKeys`. */
  datatype AttributeType = EmailAddress | CommonName | Identity(key: Key)

  /** The label OpenSSL knows each attribute type by. */
  function TypeLabel(t: AttributeType): string
  {
    match t
    case EmailAddress => "emailAddress"
    case CommonName => "CN"
    case Identity(k) => Label(k)
  }

  /** One attribute of a distinguished name. */
  datatype Attribute = Attribute(kind: AttributeType, value: string)

  /** The order in which the attributes appear in the subject string:
      emailAddress, CN, C, ST, L, O, OU. */
  function Rank(t: AttributeType): nat
  {
    match t
    case EmailAddress => 0
    case CommonName => 1
    case Identity(k) => 2 + KeyIndex(k)
  }

  /** Each attribute ranks strictly after the previous one; in particular no
      attribute type occurs twice. */
  predicate Ordered(attrs: seq<Attribute>)
  {
    forall i, j :: 0 <= i < j < |attrs| ==> Rank(attrs[i].kind) < Rank(attrs[j].kind)
  }

  /** The attributes for the fields among `keys` that are present, in the
      order of `keys`. */
  function FieldAttributes(s: SubjectFields, keys: seq<Key>): seq<Attribute>
  {
    if keys == [] then []
    else
      var init := FieldAttributes(s, keys[..|keys| - 1]);
      var k := keys[|keys| - 1];
      match Field(s, k)
      case None => init
      case Some(v) => init + [Attribute(Identity(k), v)]
  }

  /** The country, state, city, company and division attributes. */
  function IdentityAttributes(subject: Option<SubjectFields>): seq<Attribute>
  {
    if subject.None? then [] else FieldAttributes(subject.value, SubjectKeys)
  }

  /** The emailAddress attribute, when the email is truthy. */
  function EmailAttributes(subject: Option<SubjectFields>): seq<Attribute>
  {
    if subject.Some? && HasEmail(subject.value)
    then [Attribute(EmailAddress, subject.value.email.value)]
    else []
  }

  /** The distinguished name `subjectString` writes, attribute by attribute. */
  function SubjectAttributes(domain: string, subject: Option<SubjectFields>): seq<Attribute>
  {
    EmailAttributes(subject) + [Attribute(CommonName, domain)] + IdentityAttributes(subject)
  }

  /** One attribute as `/LABEL=value`. */
  function Slashed(a: Attribute): string
  {
    "/" + TypeLabel(a.kind) + "=" + a.value
  }

  /** The attributes written one after the other. */
  function RenderSlashed(attrs: seq<Attribute>): string
  {
    if attrs == [] then "" else Slashed(attrs[0]) + RenderSlashed(attrs[1..])
  }

  /** The `-subj` string for `domain` and the optional subject. */
  function SubjectString(domain: string, subject: Option<SubjectFields>): (r: string)
    ensures r == (if subject.Some? && HasEmail(subject.value) then "/emailAddress=" + subject.value.email.value else "")
                 + ("/CN=" + domain) + RenderSlashed(IdentityAttributes(subject))
  {
    RenderedPieces(domain, subject);
    RenderSlashed(SubjectAttributes(domain, subject))
  }

  lemma {:induction false} RenderSlashedConcat(a: seq<Attribute>, b: seq<Attribute>)
    ensures RenderSlashed(a + b) == RenderSlashed(a) + RenderSlashed(b)
  {
    if a == [] {
      assert a + b == b;
    } else {
      assert (a + b)[1..] == a[1..] + b;
      RenderSlashedConcat(a[1..], b);
    }
  }

  /** The attribute a present field contributes. */
  function FieldAttribute(s: SubjectFields, k: Key): seq<Attribute>
  {
    match Field(s, k)
    case None => []
    case Some(v) => [Attribute(Identity(k), v)]
  }

  lemma FieldAttributesStep(s: SubjectFields, n: nat)
    requires n < |SubjectKeys|
    ensures FieldAttributes(s, SubjectKeys[..n + 1])
            == FieldAttributes(s, SubjectKeys[..n]) + FieldAttribute(s, SubjectKeys[n])
  {
    assert SubjectKeys[..n + 1][..n] == SubjectKeys[..n];
  }

  /** The field attributes of the first `n` keys: exactly the present fields
      among them, each with its value, ranked C < ST < L < O < OU. */
  lemma {:induction false} FieldAttributesPrefix(s: SubjectFields, n: nat)
    requires n <= |SubjectKeys|
    ensures Ordered(FieldAttributes(s, SubjectKeys[..n]))
    ensures forall a :: a in FieldAttributes(s, SubjectKeys[..n]) ==> 2 <= Rank(a.kind) < 2 + n
    ensures forall k, v :: Attribute(Identity(k), v) in FieldAttributes(s, SubjectKeys[..n])
              <==> KeyIndex(k) < n && Field(s, k) == Some(v)
  {
    if n > 0 {
      FieldAttributesPrefix(s, n - 1);
      FieldAttributesStep(s, n - 1);
      var init := FieldAttributes(s, SubjectKeys[..n - 1]);
      var last := FieldAttribute(s, SubjectKeys[n - 1]);
      var all := init + last;
      assert forall a :: a in last ==> Rank(a.kind) == 2 + (n - 1);
      forall k, v
        ensures Attribute(Identity(k), v) in all <==> KeyIndex(k) < n && Field(s, k) == Some(v)
      {
        if KeyIndex(k) == n - 1 {
          assert Rank(Identity(k)) == 2 + (n - 1);
        }
      }
    }
  }

  /** The subject attributes are in the fixed order emailAddress, CN, C, ST,
      L, O, OU; so no attribute, the email included, occurs twice. */
  lemma SubjectAttributesOrdered(domain: string, subject: Option<SubjectFields>)
    ensures Ordered(SubjectAttributes(domain, subject))
  {
    var email := EmailAttributes(subject);
    var ids := IdentityAttributes(subject);
    var attrs := email + [Attribute(CommonName, domain)] + ids;
    if subject.Some? {
      FieldAttributesPrefix(subject.value, |SubjectKeys|);
      assert SubjectKeys[..|SubjectKeys|] == SubjectKeys;
    }
    assert forall a :: a in ids ==> Rank(a.kind) >= 2;
    assert Ordered(ids);
    forall i, j | 0 <= i < j < |attrs|
      ensures Rank(attrs[i].kind) < Rank(attrs[j].kind)
    {
      var e := |email|;
      if j > e {
        assert attrs[j] == ids[j - e - 1];
        if i > e {
          assert attrs[i] == ids[i - e - 1];
        }
      }
    }
  }

  /** CN is the domain; every other attribute is there exactly when its
      field is present, with the field's value, and the email exactly when
      it is truthy. */
  lemma SubjectAttributesContent(domain: string, subject: Option<SubjectFields>)
    ensures forall v :: Attribute(CommonName, v) in SubjectAttributes(domain, subject) <==> v == domain
    ensures forall v :: Attribute(EmailAddress, v) in SubjectAttributes(domain, subject)
              <==> subject.Some? && HasEmail(subject.value) && v == subject.value.email.value
    ensures forall k, v :: Attribute(Identity(k), v) in SubjectAttributes(domain, subject)
              <==> subject.Some? && Field(subject.value, k) == Some(v)
  {
    var email := EmailAttributes(subject);
    var ids := IdentityAttributes(subject);
    if subject.Some? {
      FieldAttributesPrefix(subject.value, |SubjectKeys|);
      assert SubjectKeys[..|SubjectKeys|] == SubjectKeys;
    }
    assert forall a :: a in ids ==> Rank(a.kind) >= 2;
    assert forall a :: a in email ==> a.kind == EmailAddress;
  }

  /** Without a subject the string is the common name alone. */
  lemma SubjectStringWithoutSubject(domain: string)
    ensures SubjectString(domain, None) == "/CN=" + domain
  {
    var attrs := [Attribute(CommonName, domain)];
    assert SubjectAttributes(domain, None) == attrs;
    RenderCons(attrs[0], []);
    SlashedLabels(domain);
  }

  /** The field attributes of a subject with every field present. */
  lemma AllIdentityAttributes(s: SubjectFields)
    requires s.country.Some? && s.state.Some? && s.city.Some? && s.company.Some? && s.division.Some?
    ensures IdentityAttributes(Some(s)) == [
      Attribute(Identity(Country), s.country.value), Attribute(Identity(State), s.state.value),
      Attribute(Identity(City), s.city.value), Attribute(Identity(Company), s.company.value),
      Attribute(Identity(Division), s.division.value)]
  {
    FieldAttributesStep(s, 0);
    FieldAttributesStep(s, 1);
    FieldAttributesStep(s, 2);
    FieldAttributesStep(s, 3);
    FieldAttributesStep(s, 4);
    assert SubjectKeys[..0] == [];
    assert SubjectKeys[..5] == SubjectKeys;
  }

  /** With every field present, the string lists them all in the fixed
      order, the email first. */
  lemma SubjectStringAllFields(domain: string, s: SubjectFields)
    requires HasEmail(s)
    requires s.country.Some? && s.state.Some? && s.city.Some? && s.company.Some? && s.division.Some?
    ensures SubjectString(domain, Some(s))
            == "/emailAddress=" + s.email.value + "/CN=" + domain + "/C=" + s.country.value
               + "/ST=" + s.state.value + "/L=" + s.city.value + "/O=" + s.company.value
               + "/OU=" + s.division.value
  {
    AllIdentityAttributes(s);
    var a0, a1 := Attribute(EmailAddress, s.email.value), Attribute(CommonName, domain);
    var a2, a3 := Attribute(Identity(Country), s.country.value), Attribute(Identity(State), s.state.value);
    var a4, a5 := Attribute(Identity(City), s.city.value), Attribute(Identity(Company), s.company.value);
    var a6 := Attribute(Identity(Division), s.division.value);
    assert SubjectAttributes(domain, Some(s)) == [a0, a1, a2, a3, a4, a5, a6];
    var x0, x1 := "/emailAddress=" + s.email.value, "/CN=" + domain;
    var x2, x3 := "/C=" + s.country.value, "/ST=" + s.state.value;
    var x4, x5 := "/L=" + s.city.value, "/O=" + s.company.value;
    var x6 := "/OU=" + s.division.value;
    SlashedLabels(s.email.value);
    SlashedLabels(domain);
    SlashedLabels(s.country.value);
    SlashedLabels(s.state.value);
    SlashedLabels(s.city.value);
    SlashedLabels(s.company.value);
    SlashedLabels(s.division.value);
    RenderSeven(a0, a1, a2, a3, a4, a5, a6, x0, x1, x2, x3, x4, x5, x6);
    ConcatSeven("/emailAddress=", s.email.value, "/CN=", domain, "/C=", s.country.value,
      "/ST=", s.state.value, "/L=", s.city.value, "/O=", s.company.value, "/OU=", s.division.value);
  }

  lemma RenderSeven(a0: Attribute, a1: Attribute, a2: Attribute, a3: Attribute, a4: Attribute,
                    a5: Attribute, a6: Attribute,
                    x0: string, x1: string, x2: string, x3: string, x4: string, x5: string, x6: string)
    requires Slashed(a0) == x0 && Slashed(a1) == x1 && Slashed(a2) == x2 && Slashed(a3) == x3
    requires Slashed(a4) == x4 && Slashed(a5) == x5 && Slashed(a6) == x6
    ensures RenderSlashed([a0, a1, a2, a3, a4, a5, a6]) == x0 + (x1 + (x2 + (x3 + (x4 + (x5 + (x6 + ""))))))
  {
    RenderCons(a6, []);
    RenderCons(a5, [a6]);
    RenderCons(a4, [a5, a6]);
    RenderCons(a3, [a4, a5, a6]);
    RenderCons(a2, [a3, a4, a5, a6]);
    RenderCons(a1, [a2, a3, a4, a5, a6]);
    RenderCons(a0, [a1, a2, a3, a4, a5, a6]);
  }

  /** The `/LABEL=` prefix of each attribute type. */
  lemma SlashedLabels(v: string)
    ensures Slashed(Attribute(EmailAddress, v)) == "/emailAddress=" + v
    ensures Slashed(Attribute(CommonName, v)) == "/CN=" + v
    ensures Slashed(Attribute(Identity(Country), v)) == "/C=" + v
    ensures Slashed(Attribute(Identity(State), v)) == "/ST=" + v
    ensures Slashed(Attribute(Identity(City), v)) == "/L=" + v
    ensures Slashed(Attribute(Identity(Company), v)) == "/O=" + v
    ensures Slashed(Attribute(Identity(Division), v)) == "/OU=" + v
  {
    assert "/" + "emailAddress" + "=" == "/emailAddress=";
  }

  lemma ConcatSeven(p0: string, v0: string, p1: string, v1: string, p2: string, v2: string,
                    p3: string, v3: string, p4: string, v4: string, p5: string, v5: string,
                    p6: string, v6: string)
    ensures (p0 + v0) + ((p1 + v1) + ((p2 + v2) + ((p3 + v3) + ((p4 + v4) + ((p5 + v5) + ((p6 + v6) + ""))))))
            == p0 + v0 + p1 + v1 + p2 + v2 + p3 + v3 + p4 + v4 + p5 + v5 + p6 + v6
  {
  }

  lemma RenderCons(a: Attribute, rest: seq<Attribute>)
    ensures RenderSlashed([a] + rest) == Slashed(a) + RenderSlashed(rest)
  {
    assert ([a] + rest)[1..] == rest;
  }

  /** A present but empty field is still written, while an empty email is
      dropped: fields are tested with `hasOwnProperty`, the email for
      truthiness. */
  lemma SubjectStringEmptyValues(domain: string)
    ensures SubjectString(domain, Some(SubjectFields(Some(""), Some(""), None, None, None, None)))
            == "/CN=" + domain + "/C="
  {
    var s := SubjectFields(Some(""), Some(""), None, None, None, None);
    FieldAttributesStep(s, 0);
    FieldAttributesStep(s, 1);
    FieldAttributesStep(s, 2);
    FieldAttributesStep(s, 3);
    FieldAttributesStep(s, 4);
    assert SubjectKeys[..0] == [];
    assert SubjectKeys[..5] == SubjectKeys;
    var attrs := [Attribute(CommonName, domain), Attribute(Identity(Country), "")];
    assert SubjectAttributes(domain, Some(s)) == attrs;
    SlashedLabels(domain);
    SlashedLabels("");
    RenderCons(attrs[1], []);
    RenderCons(attrs[0], [attrs[1]]);
    assert "/C=" + "" + "" == "/C=";
  }

  /** The text one more key adds to the rendered fields. */
  lemma RenderFieldStep(s: SubjectFields, i: nat)
    requires i < |SubjectKeys|
    ensures RenderSlashed(FieldAttributes(s, SubjectKeys[..i + 1]))
            == RenderSlashed(FieldAttributes(s, SubjectKeys[..i]))
               + (match Field(s, SubjectKeys[i])
                  case None => ""
                  case Some(v) => "/" + Label(SubjectKeys[i]) + "=" + v)
  {
    FieldAttributesStep(s, i);
    RenderSlashedConcat(FieldAttributes(s, SubjectKeys[..i]), FieldAttribute(s, SubjectKeys[i]));
    match Field(s, SubjectKeys[i])
    case None =>
    case Some(v) => RenderCons(Attribute(Identity(SubjectKeys[i]), v), []);
  }

  /** The rendered attributes are the truthy email, then the common name,
      then the present fields. */
  lemma RenderedPieces(domain: string, subject: Option<SubjectFields>)
    ensures RenderSlashed(SubjectAttributes(domain, subject))
            == (if subject.Some? && HasEmail(subject.value) then "/emailAddress=" + subject.value.email.value else "")
               + ("/CN=" + domain) + RenderSlashed(IdentityAttributes(subject))
  {
    var email := EmailAttributes(subject);
    var cn := [Attribute(CommonName, domain)];
    RenderSlashedConcat(email + cn, IdentityAttributes(subject));
    RenderSlashedConcat(email, cn);
    RenderCons(cn[0], []);
    SlashedLabels(domain);
    if email != [] {
      RenderCons(email[0], []);
      SlashedLabels(email[0].value);
    }
  }

  lemma AppendAfterEmpty(a: string, b: string, c: string)
    ensures (a + b) + "" + c == a + (b + c)
  {
  }

  /** One turn of the `for-in` loop of `subjectString` keeps the joined parts
      equal to the common name followed by the fields visited so far. */
  lemma PushFieldStep(parts: seq<string>, s: SubjectFields, i: nat, head: string)
    requires i < |SubjectKeys| && |parts| >= 2
    requires Join(parts, "") == head + RenderSlashed(FieldAttributes(s, SubjectKeys[..i]))
    ensures Field(s, SubjectKeys[i]).Some? ==>
              Join(parts + ["/" + Label(SubjectKeys[i]) + "=" + Field(s, SubjectKeys[i]).value], "")
              == head + RenderSlashed(FieldAttributes(s, SubjectKeys[..i + 1]))
    ensures Field(s, SubjectKeys[i]).None? ==>
              Join(parts, "") == head + RenderSlashed(FieldAttributes(s, SubjectKeys[..i + 1]))
  {
    var k := SubjectKeys[i];
    RenderFieldStep(s, i);
    if Field(s, k).Some? {
      var part := "/" + Label(k) + "=" + Field(s, k).value;
      JoinAppend(parts, "", part);
      AppendAfterEmpty(head, RenderSlashed(FieldAttributes(s, SubjectKeys[..i])), part);
    } else {
      assert RenderSlashed(FieldAttributes(s, SubjectKeys[..i + 1]))
          == RenderSlashed(FieldAttributes(s, SubjectKeys[..i])) + "";
    }
  }

  /** `unshift('/emailAddress=', email)` in front of the joined parts. */
  lemma UnshiftEmail(e: string, parts: seq<string>)
    ensures Join(["/emailAddress=", e] + parts, "") == ("/emailAddress=" + e) + Join(parts, "")
  {
    JoinEmptyPrepend(e, parts);
    JoinEmptyPrepend("/emailAddress=", [e] + parts);
    assert ["/emailAddress=", e] + parts == ["/emailAddress="] + ([e] + parts);
  }

  /** The `for-in` loop of `subjectString`: starting from `['/CN=', domain]`,
      push `/<label>=<value>` for each present field in `subjectKeys` order. */
  method PushFields(domain: string, s: SubjectFields) returns (parts: seq<string>)
    ensures Join(parts, "") == ("/CN=" + domain) + RenderSlashed(FieldAttributes(s, SubjectKeys))
  {
    parts := ["/CN=", domain];
    var i := 0;
    while i < |SubjectKeys|
      invariant 0 <= i <= |SubjectKeys|
      invariant |parts| >= 2
      invariant Join(parts, "") == "/CN=" + domain + RenderSlashed(FieldAttributes(s, SubjectKeys[..i]))
    {
      var k := SubjectKeys[i];
      PushFieldStep(parts, s, i, "/CN=" + domain);
      if Field(s, k).Some? {
        parts := parts + ["/" + Label(k) + "=" + Field(s, k).value];
      }
      i := i + 1;
    }
    assert SubjectKeys[..i] == SubjectKeys;
  }

  /** Without a subject the parts are `['/CN=', domain]`. */
  lemma PartsWithoutSubject(domain: string)
    ensures Join(["/CN=", domain], "") == SubjectString(domain, None)
  {
    RenderedPieces(domain, None);
    assert Join(["/CN=", domain], "") == "/CN=" + domain + "";
    assert "" + ("/CN=" + domain) + "" == "/CN=" + domain + "";
  }

  lemma ConcatAssoc(a: string, b: string, c: string)
    ensures a + (b + c) == (a + b) + c
  {
  }

  /** With a subject, the parts the loop built, behind the email when it is
      truthy, join to the subject string. */
  lemma PartsWithSubject(domain: string, s: SubjectFields, parts: seq<string>)
    requires Join(parts, "") == ("/CN=" + domain) + RenderSlashed(FieldAttributes(s, SubjectKeys))
    ensures HasEmail(s) ==>
              Join(["/emailAddress=", s.email.value] + parts, "") == SubjectString(domain, Some(s))
    ensures !HasEmail(s) ==> Join(parts, "") == SubjectString(domain, Some(s))
  {
    RenderedPieces(domain, Some(s));
    if HasEmail(s) {
      UnshiftEmail(s.email.value, parts);
      ConcatAssoc("/emailAddress=" + s.email.value, "/CN=" + domain, RenderSlashed(FieldAttributes(s, SubjectKeys)));
    } else {
      assert "" + ("/CN=" + domain) == "/CN=" + domain;
    }
  }

  /** `subjectString` as the source runs it: the parts built by the loop,
      the email unshifted in front when it is truthy, joined with the empty
      string. */
  method BuildSubjectString(domain: string, subject: Option<SubjectFields>) returns (r: string)
    ensures r == SubjectString(domain, subject)
  {
    var parts := ["/CN=", domain];
    if subject.Some? {
      parts := PushFields(domain, subject.value);
      PartsWithSubject(domain, subject.value, parts);
      if HasEmail(subject.value) {
        parts := ["/emailAddress=", subject.value.email.value] + parts;
      }
    } else {
      PartsWithoutSubject(domain);
    }
    r := Join(parts, "");
  }
}

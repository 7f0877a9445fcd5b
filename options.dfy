/** The option handling at the top of `generateCsr`: `domain` and `domains`
    become one ordered domain list, the format is defaulted and checked, and
    both checks throw before any scratch file is written. */
module Options {
  import opened Wrappers
  import opened Subject
  import opened Scratch

  /** The `domains` option: absent, a single string, or an array. */
  datatype DomainsOption = NoDomains | DomainString(name: string) | DomainArray(names: seq<string>)

  /** The options of `generateCsr`, shaped as its runtime type check allows. */
  datatype RequestOptions = RequestOptions(
    key: Data,
    format: Option<string>,
    domain: Option<string>,
    domains: DomainsOption,
    subject: Option<SubjectFields>)

  datatype Format = PEM | DER

  function FormatName(f: Format): string
  {
    match f
    case PEM => "PEM"
    case DER => "DER"
  }

  /** The two errors `generateCsr` throws itself. */
  datatype OptionsError = MissingDomains | UnsupportedFormat(format: string)

  function Message(e: OptionsError): string
  {
    match e
    case MissingDomains => "Must define `options.domain` or `options.domains`"
    case UnsupportedFormat(f) => "Unsupported CSR format: " + f
  }

  /** The validated request `generateCsr` goes on with. */
  datatype Request = Request(key: Data, domains: seq<string>, format: Format, subject: Option<SubjectFields>)

  /** `domains`, after a truthy `domain` replaced it and a string `domains`
      was wrapped in an array; `None` where the source throws. */
  function NormaliseDomains(o: RequestOptions): (r: Option<seq<string>>)
    ensures r.None? <==> !Truthy(o.domain) && o.domains.NoDomains?
    ensures Truthy(o.domain) || o.domains.DomainString? ==> r.Some? && |r.value| == 1
  {
    if Truthy(o.domain) then Some([o.domain.value])
    else
      match o.domains
      case NoDomains => None
      case DomainString(d) => Some([d])
      case DomainArray(ds) => Some(ds)
  }

  /** `options.format || 'PEM'`, then the test against `/^(DER|PEM)$/`. */
  function FormatOf(format: Option<string>): (r: Result<Format, OptionsError>)
    ensures r == Success(PEM) <==> !Truthy(format) || format.value == "PEM"
    ensures r == Success(DER) <==> Truthy(format) && format.value == "DER"
    ensures r.Failure? ==> Truthy(format) && r.error == UnsupportedFormat(format.value)
  {
    var f := if Truthy(format) then format.value else "PEM";
    if f == "PEM" then Success(PEM)
    else if f == "DER" then Success(DER)
    else Failure(UnsupportedFormat(f))
  }

  /** Both checks in the source's order: the domain check first. */
  function Normalise(o: RequestOptions): (r: Result<Request, OptionsError>)
    ensures r.Success? <==> NormaliseDomains(o).Some? && FormatOf(o.format).Success?
    ensures NormaliseDomains(o).None? ==> r == Failure(MissingDomains)
    ensures NormaliseDomains(o).Some? && FormatOf(o.format).Failure? ==> r == Failure(FormatOf(o.format).error)
    ensures r.Success? ==>
              r.value.key == o.key && r.value.subject == o.subject
              && Some(r.value.domains) == NormaliseDomains(o) && Success(r.value.format) == FormatOf(o.format)
  {
    match NormaliseDomains(o)
    case None => Failure(MissingDomains)
    case Some(ds) =>
      match FormatOf(o.format)
      case Failure(e) => Failure(e)
      case Success(f) => Success(Request(o.key, ds, f, o.subject))
  }

  /** A truthy `domain` wins over `domains`; otherwise a string `domains` is a
      one-element list and an array passes through unchanged, order and
      duplicates kept; with neither, the request is refused. */
  lemma DomainNormalisation(o: RequestOptions)
    ensures Truthy(o.domain) ==> NormaliseDomains(o) == Some([o.domain.value])
    ensures !Truthy(o.domain) && o.domains.DomainString? ==> NormaliseDomains(o) == Some([o.domains.name])
    ensures !Truthy(o.domain) && o.domains.DomainArray? ==> NormaliseDomains(o) == Some(o.domains.names)
    ensures NormaliseDomains(o).None? <==> !Truthy(o.domain) && o.domains.NoDomains?
    ensures Normalise(o).Success? ==> Some(Normalise(o).value.domains) == NormaliseDomains(o)
    ensures NormaliseDomains(o).None? ==> Normalise(o) == Failure(MissingDomains)
  {
  }

  /** The list is empty only for an explicit empty array, and validation lets
      that through. */
  lemma EmptyDomainList(o: RequestOptions)
    ensures NormaliseDomains(o) == Some([]) <==> !Truthy(o.domain) && o.domains == DomainArray([])
    ensures o.domain == None && o.domains == DomainArray([]) && o.format == None
            ==> Normalise(o) == Success(Request(o.key, [], PEM, o.subject))
  {
  }

  /** A falsy format means PEM; only the exact strings "PEM" and "DER" are
      accepted, and any other format is refused with its own text. */
  lemma FormatValidation(format: Option<string>)
    ensures !Truthy(format) ==> FormatOf(format) == Success(PEM)
    ensures Truthy(format) ==>
              (FormatOf(format).Success? <==> format.value == "PEM" || format.value == "DER")
    ensures FormatOf(format) == Success(DER) <==> format == Some("DER")
    ensures Truthy(format) && format.value != "PEM" && format.value != "DER"
            ==> FormatOf(format) == Failure(UnsupportedFormat(format.value))
  {
  }

  /** The test is case-sensitive and anchored at both ends. */
  lemma FormatExact()
    ensures FormatOf(Some("pem")) == Failure(UnsupportedFormat("pem"))
    ensures FormatOf(Some("DER ")) == Failure(UnsupportedFormat("DER "))
    ensures Message(UnsupportedFormat("pem")) == "Unsupported CSR format: pem"
  {
  }
}

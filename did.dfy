/**
 * Resolving a DID and dereferencing a DID URL to a resource of the resolved
 * document: the document itself when the URL has no fragment, otherwise the
 * first verification method, else the first service, whose `id` is the full
 * DID URL, the bare fragment or '#' and the fragment (the relative DID URLs of
 * section 3.2.2 of W3C DID Core). DID URL parsing and DID method resolution
 * are parameters.
 */
module DidResources {
  import opened Wrappers
  import opened Json
  import opened Errors

  /** What parsing a DID URL yields; an empty fragment stands for "no fragment". */
  datatype ParsedDid = ParsedDid(did: string, fragment: string)

  /** The resolver's answer: the metadata's error, if any, and the document (None: null or undefined). */
  datatype ResolutionResult = ResolutionResult(error: Option<string>, document: Option<Object>)

  /** The two foreign calls dereferencing depends on. */
  datatype DidResolver = DidResolver(
    parseDid: string -> Option<ParsedDid>,
    resolve: string -> ResolutionResult)

  /** The metadata carries an error: a present, non-empty error text. */
  predicate ResolutionFailed(res: ResolutionResult) {
    res.error.Some? && res.error.value != ""
  }

  /** Resolve a DID; fails exactly when the resolution metadata reports an error. */
  function ResolveDid(resolver: DidResolver, did: string): (r: Result<Option<Object>, Error>)
    ensures r.Failure? <==> ResolutionFailed(resolver.resolve(did))
    ensures r.Failure? ==> r.error == DidResolutionFailure(did, resolver.resolve(did).error.value)
    ensures r.Success? ==> r.value == resolver.resolve(did).document
  {
    var res := resolver.resolve(did);
    if ResolutionFailed(res) then Failure(DidResolutionFailure(did, res.error.value))
    else Success(res.document)
  }

  /** The three `id` forms that name the resource a DID URL with this fragment points at. */
  function IdSet(didUrl: string, fragment: string): set<string> {
    {didUrl, fragment, "#" + fragment}
  }

  /** An entry matches when it is an object whose `id` is one of the accepted texts. */
  predicate Matches(entry: Json, ids: set<string>) {
    entry.JObj? && "id" in entry.fields && entry.fields["id"].JStr? && entry.fields["id"].s in ids
  }

  /** Entries before `k` were looked at and passed over: none is `null` (whose `.id` throws) and none matches. */
  predicate PassedOver(entries: seq<Json>, ids: set<string>, k: nat)
    requires k <= |entries|
  {
    forall j :: 0 <= j < k ==> entries[j] != JNull && !Matches(entries[j], ids)
  }

  /** How a `for ... of` scan with early return ends. */
  datatype Scan = Match(index: nat) | NoMatch | NullEntry(index: nat)

  /** Scan `entries` from `from` on, stopping at the first match or at the first `null` entry. */
  function FirstMatch(entries: seq<Json>, ids: set<string>, from: nat): (r: Scan)
    requires from <= |entries|
    requires PassedOver(entries, ids, from)
    ensures r.Match? ==> r.index < |entries| && Matches(entries[r.index], ids) && PassedOver(entries, ids, r.index)
    ensures r.NullEntry? ==> r.index < |entries| && entries[r.index] == JNull && PassedOver(entries, ids, r.index)
    ensures r.NoMatch? <==> PassedOver(entries, ids, |entries|)
    decreases |entries| - from
  {
    if from == |entries| then NoMatch
    else if entries[from] == JNull then NullEntry(from)
    else if Matches(entries[from], ids) then Match(from)
    else FirstMatch(entries, ids, from + 1)
  }

  /**
   * What `for ... of` visits in a document member: the items of an array,
   * the characters of a string; None when the member is absent or not
   * iterable, where the loop throws a TypeError.
   */
  function Iterable(m: Option<Json>): (r: Option<seq<Json>>)
    ensures m.Some? && m.value.JArr? ==> r == Some(m.value.items)
    ensures r.Some? ==> m.Some? && (m.value.JArr? || m.value.JStr?)
  {
    if m.None? then None
    else match m.value
      case JArr(items) => Some(items)
      case JStr(s) => Some(seq(|s|, i requires 0 <= i < |s| => JStr([s[i]])))
      case _ => None
  }

  /**
   * Dereference a DID URL. The resolver is asked about the whole DID URL, not
   * the bare DID. A result of Success(None) means no entry matched.
   */
  function Dereference(resolver: DidResolver, didUrl: string): (r: Result<Option<Object>, Error>)
    ensures resolver.parseDid(didUrl).None? ==> r == Failure(DidParseFailure)
    ensures resolver.parseDid(didUrl).Some? && ResolutionFailed(resolver.resolve(didUrl)) ==>
      r == Failure(DidResolutionFailure(didUrl, resolver.resolve(didUrl).error.value))
    ensures && resolver.parseDid(didUrl).Some? && resolver.parseDid(didUrl).value.fragment == ""
            && !ResolutionFailed(resolver.resolve(didUrl))
            ==> r == Success(resolver.resolve(didUrl).document)
    ensures r.Success? && r.value.Some? && resolver.parseDid(didUrl).value.fragment != "" ==>
      "id" in r.value.value && r.value.value["id"] in
        (set t | t in IdSet(didUrl, resolver.parseDid(didUrl).value.fragment) :: JStr(t))
  {
    match resolver.parseDid(didUrl)
    case None => Failure(DidParseFailure)
    case Some(parsed) =>
      match ResolveDid(resolver, didUrl)
      case Failure(e) => Failure(e)
      case Success(doc) =>
        if parsed.fragment == "" then Success(doc)
        else if doc.None? then Failure(MalformedDidDocument)
        else
          var ids := IdSet(didUrl, parsed.fragment);
          match Iterable(Member(doc.value, "verificationMethod"))
          case None => Failure(MalformedDidDocument)
          case Some(methods) =>
            match FirstMatch(methods, ids, 0)
            case NullEntry(_) => Failure(MalformedDidDocument)
            case Match(i) => Success(Some(methods[i].fields))
            case NoMatch =>
              match Iterable(Member(doc.value, "service"))
              case None => Failure(MalformedDidDocument)
              case Some(services) =>
                match FirstMatch(services, ids, 0)
                case NullEntry(_) => Failure(MalformedDidDocument)
                case Match(j) => Success(Some(services[j].fields))
                case NoMatch => Success(None)
  }

  /** A DID URL with a non-empty fragment that parses and resolves to the document `doc`. */
  predicate FragmentLookup(resolver: DidResolver, didUrl: string, doc: Object) {
    && resolver.parseDid(didUrl).Some?
    && resolver.parseDid(didUrl).value.fragment != ""
    && !ResolutionFailed(resolver.resolve(didUrl))
    && resolver.resolve(didUrl).document == Some(doc)
  }

  function FragmentIds(resolver: DidResolver, didUrl: string): set<string>
    requires resolver.parseDid(didUrl).Some?
  {
    IdSet(didUrl, resolver.parseDid(didUrl).value.fragment)
  }

  /** An entry matches the fragment when its `id` is any one of the three accepted forms, and only then. */
  lemma AcceptedIdForms(o: Object, didUrl: string, fragment: string)
    ensures Matches(JObj(o), IdSet(didUrl, fragment)) <==>
      "id" in o && (o["id"] == JStr(didUrl) || o["id"] == JStr(fragment) || o["id"] == JStr("#" + fragment))
  {
  }

  /** The first matching verification method wins, whatever the services hold. */
  lemma VerificationMethodFirst(resolver: DidResolver, didUrl: string, doc: Object, methods: seq<Json>, i: nat)
    requires FragmentLookup(resolver, didUrl, doc)
    requires Iterable(Member(doc, "verificationMethod")) == Some(methods)
    requires i < |methods| && Matches(methods[i], FragmentIds(resolver, didUrl))
    requires PassedOver(methods, FragmentIds(resolver, didUrl), i)
    ensures Dereference(resolver, didUrl) == Success(Some(methods[i].fields))
  {
  }

  /** A service is returned only when no verification method matches; the first matching one wins. */
  lemma ServiceWhenNoMethod(resolver: DidResolver, didUrl: string, doc: Object,
                            methods: seq<Json>, services: seq<Json>, j: nat)
    requires FragmentLookup(resolver, didUrl, doc)
    requires Iterable(Member(doc, "verificationMethod")) == Some(methods)
    requires PassedOver(methods, FragmentIds(resolver, didUrl), |methods|)
    requires Iterable(Member(doc, "service")) == Some(services)
    requires j < |services| && Matches(services[j], FragmentIds(resolver, didUrl))
    requires PassedOver(services, FragmentIds(resolver, didUrl), j)
    ensures Dereference(resolver, didUrl) == Success(Some(services[j].fields))
  {
  }

  /** When no entry of either list matches, dereferencing yields nothing rather than an error. */
  lemma NothingMatches(resolver: DidResolver, didUrl: string, doc: Object, methods: seq<Json>, services: seq<Json>)
    requires FragmentLookup(resolver, didUrl, doc)
    requires Iterable(Member(doc, "verificationMethod")) == Some(methods)
    requires PassedOver(methods, FragmentIds(resolver, didUrl), |methods|)
    requires Iterable(Member(doc, "service")) == Some(services)
    requires PassedOver(services, FragmentIds(resolver, didUrl), |services|)
    ensures Dereference(resolver, didUrl) == Success(None)
  {
  }

  /**
   * `deferenceDidUrl` as the source runs it: two `for ... of` loops with an
   * early return, over the verification methods and then the services.
   */
  method DereferenceDidUrl(resolver: DidResolver, didUrl: string) returns (r: Result<Option<Object>, Error>)
    ensures r == Dereference(resolver, didUrl)
  {
    var parsed := resolver.parseDid(didUrl);
    if parsed.None? {
      return Failure(DidParseFailure);
    }
    var resolved := ResolveDid(resolver, didUrl);
    if resolved.Failure? {
      return Failure(resolved.error);
    }
    var doc := resolved.value;
    if parsed.value.fragment == "" {
      return Success(doc);
    }
    if doc.None? {
      return Failure(MalformedDidDocument);
    }
    var ids := IdSet(didUrl, parsed.value.fragment);
    var methods := Iterable(Member(doc.value, "verificationMethod"));
    if methods.None? {
      return Failure(MalformedDidDocument);
    }
    var i := 0;
    while i < |methods.value|
      invariant i <= |methods.value|
      invariant PassedOver(methods.value, ids, i)
    {
      var vm := methods.value[i];
      if vm == JNull {
        return Failure(MalformedDidDocument);
      }
      if Matches(vm, ids) {
        return Success(Some(vm.fields));
      }
      i := i + 1;
    }
    var services := Iterable(Member(doc.value, "service"));
    if services.None? {
      return Failure(MalformedDidDocument);
    }
    var j := 0;
    while j < |services.value|
      invariant j <= |services.value|
      invariant PassedOver(services.value, ids, j)
    {
      var svc := services.value[j];
      if svc == JNull {
        return Failure(MalformedDidDocument);
      }
      if Matches(svc, ids) {
        return Success(Some(svc.fields));
      }
      j := j + 1;
    }
    return Success(None);
  }
}
